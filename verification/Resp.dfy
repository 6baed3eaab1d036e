/** The RESP command parser and array printers (src/protocol/resp_codec.cpp).

    The parser is a pointer walking the input; here the pointer is an index. It never looks at the two
    bytes after the last argument, so it accepts a command up to two bytes early and `consumed` may
    exceed the input. Lengths are accumulated in a 32-bit `int`, modelled as wrapping around. */
module Resp {
  import opened Base
  import opened Decimal

  const INT32_SIZE: int := 0x1_0000_0000
  const INT32_HALF: int := 0x8000_0000

  function Wrap32(n: int): (r: int)
    ensures -INT32_HALF <= r < INT32_HALF
    ensures -INT32_HALF <= n < INT32_HALF ==> r == n
  {
    (n + INT32_HALF) % INT32_SIZE - INT32_HALF
  }

  datatype IntAt = IntAt(value: int, next: nat)
  datatype Items = Items(args: seq<Bytes>, next: nat)
  datatype Parsed = Parsed(args: seq<Bytes>, consumed: nat)

  // ---------------------------------------------------------------- parser, as a specification

  /** The digit loop: value accumulated so far and where it stopped. */
  function ScanDigits(input: Bytes, p: nat, acc: int): (r: IntAt)
    requires p <= |input|
    ensures p <= r.next <= |input|
    decreases |input| - p
  {
    if p < |input| && IsDigit(input[p])
    then ScanDigits(input, p + 1, Wrap32(acc * 10 + DigitValue(input[p])))
    else IntAt(acc, p)
  }

  function ParseIntUntilCrlf(input: Bytes, p: nat): (r: Option<IntAt>)
    ensures r.Some? ==> p + 2 <= r.value.next <= |input|
  {
    if p >= |input| then None
    else
      var negative := input[p] == '-';
      var d := ScanDigits(input, if negative then p + 1 else p, 0);
      if d.next + 1 >= |input| || input[d.next] != '\r' || input[d.next + 1] != '\n' then None
      else Some(IntAt(if negative then Wrap32(-d.value) else d.value, d.next + 2))
  }

  function Prepend(args: seq<Bytes>, rest: Option<Items>): (r: Option<Items>) {
    if rest.None? then None else Some(Items(args + rest.value.args, rest.value.next))
  }

  lemma PrependTwice(a: seq<Bytes>, b: seq<Bytes>, rest: Option<Items>)
    ensures Prepend(a, Prepend(b, rest)) == Prepend(a + b, rest)
  {
    if rest.Some? {
      assert a + (b + rest.value.args) == a + b + rest.value.args;
    }
  }

  function ParseItems(input: Bytes, p: nat, count: nat): (r: Option<Items>)
    ensures r.Some? ==> |r.value.args| == count
    ensures r.Some? && count > 0 ==> p + 5 <= r.value.next <= |input| + 2
    ensures r.Some? && count == 0 ==> r.value.next == p
    decreases count
  {
    if count == 0 then Some(Items([], p))
    else if p >= |input| || input[p] != '$' then None
    else
      match ParseIntUntilCrlf(input, p + 1)
      case None => None
      case Some(IntAt(len, q)) =>
        if len < 0 || q + len > |input| then None
        else Prepend([input[q..q + len]], ParseItems(input, q + len + 2, count - 1))
  }

  function ParseOne(input: Bytes): (r: Option<Parsed>)
    ensures r.Some? ==> 3 <= r.value.consumed <= |input| + 2
    ensures r.Some? && r.value.args == [] ==> r.value.consumed <= |input|
  {
    if input == [] || input[0] != '*' then None
    else
      match ParseIntUntilCrlf(input, 1)
      case None => None
      case Some(IntAt(count, p)) =>
        if count < 0 then None
        else
          match ParseItems(input, p, count)
          case None => None
          case Some(Items(args, next)) => Some(Parsed(args, next))
  }

  // ---------------------------------------------------------------- parser, as the code runs it

  method ParseIntUntilCrlfAt(input: Bytes, start: nat) returns (r: Option<IntAt>)
    ensures r == ParseIntUntilCrlf(input, start)
  {
    if start >= |input| {
      return None;
    }
    var p, neg := start, false;
    if input[p] == '-' {
      neg := true;
      p := p + 1;
    }
    var val := 0;
    while p < |input| && IsDigit(input[p])
      invariant p <= |input|
      invariant ScanDigits(input, p, val) == ScanDigits(input, if neg then start + 1 else start, 0)
    {
      val := Wrap32(val * 10 + DigitValue(input[p]));
      p := p + 1;
    }
    if p + 1 >= |input| || input[p] != '\r' || input[p + 1] != '\n' {
      return None;
    }
    p := p + 2;
    return Some(IntAt(if neg then Wrap32(-val) else val, p));
  }

  method ParseOneInto(input: Bytes) returns (r: Option<Parsed>)
    ensures r == ParseOne(input)
  {
    hide ParseIntUntilCrlf;
    if input == [] || input[0] != '*' {
      return None;
    }
    var head := ParseIntUntilCrlfAt(input, 1);
    if head.None? || head.value.value < 0 {
      return None;
    }
    var count: nat, p: nat := head.value.value, head.value.next;
    ghost var whole := ParseItems(input, p, count);
    var args: seq<Bytes> := [];
    assert whole.Some? ==> args + whole.value.args == whole.value.args;
    var i: nat := 0;
    while i < count
      invariant i <= count && |args| == i
      invariant whole == Prepend(args, ParseItems(input, p, count - i))
    {
      if p >= |input| || input[p] != '$' {
        return None;
      }
      p := p + 1;
      var len := ParseIntUntilCrlfAt(input, p);
      if len.None? || len.value.value < 0 {
        return None;
      }
      p := len.value.next;
      if p + len.value.value > |input| {
        return None;
      }
      var arg := input[p..p + len.value.value];
      PrependTwice(args, [arg], ParseItems(input, p + len.value.value + 2, count - i - 1));
      args := args + [arg];
      p := p + len.value.value + 2;
      i := i + 1;
    }
    assert args + [] == args;
    return Some(Parsed(args, p));
  }

  // ---------------------------------------------------------------- what the parser looks at

  /** The first `m` bytes of `u` and `w` coincide. */
  predicate SamePrefix(u: Bytes, w: Bytes, m: nat) {
    m <= |u| && m <= |w| && u[..m] == w[..m]
  }

  lemma {:induction false} ScanLocal(u: Bytes, w: Bytes, m: nat, p: nat, acc: int)
    requires SamePrefix(u, w, m) && p <= m
    requires ScanDigits(u, p, acc).next < m
    ensures ScanDigits(w, p, acc) == ScanDigits(u, p, acc)
    decreases |u| - p
  {
    assert u[p] == u[..m][p] == w[p];
    if IsDigit(u[p]) {
      ScanLocal(u, w, m, p + 1, Wrap32(acc * 10 + DigitValue(u[p])));
    }
  }

  lemma ParseIntLocal(u: Bytes, w: Bytes, m: nat, p: nat)
    requires SamePrefix(u, w, m)
    requires ParseIntUntilCrlf(u, p).Some? && ParseIntUntilCrlf(u, p).value.next <= m
    ensures ParseIntUntilCrlf(w, p) == ParseIntUntilCrlf(u, p)
  {
    assert u[p] == u[..m][p] == w[p];
    var q := if u[p] == '-' then p + 1 else p;
    var d := ScanDigits(u, q, 0);
    ScanLocal(u, w, m, q, 0);
    assert u[d.next] == u[..m][d.next] == w[d.next];
    assert u[d.next + 1] == u[..m][d.next + 1] == w[d.next + 1];
  }

  lemma {:induction false} ParseItemsLocal(u: Bytes, w: Bytes, m: nat, p: nat, count: nat)
    requires SamePrefix(u, w, m)
    requires ParseItems(u, p, count).Some?
    requires count > 0 ==> ParseItems(u, p, count).value.next <= m + 2
    ensures ParseItems(w, p, count) == ParseItems(u, p, count)
    decreases count
  {
    hide ParseIntUntilCrlf;
    if count > 0 {
      var IntAt(len, q) := ParseIntUntilCrlf(u, p + 1).value;
      assert q + len + 2 <= ParseItems(u, p, count).value.next;
      ParseIntLocal(u, w, m, p + 1);
      assert u[p] == u[..m][p] == w[p];
      assert u[q..q + len] == u[..m][q..q + len] == w[q..q + len];
      ParseItemsLocal(u, w, m, q + len + 2, count - 1);
    }
  }

  /** A successful parse depends only on the bytes up to two before its end. */
  lemma ParseLocal(u: Bytes, w: Bytes, m: nat)
    requires SamePrefix(u, w, m)
    requires ParseOne(u).Some?
    requires ParseOne(u).value.consumed <= if ParseOne(u).value.args == [] then m else m + 2
    ensures ParseOne(w) == ParseOne(u)
  {
    var IntAt(count, p) := ParseIntUntilCrlf(u, 1).value;
    var items := ParseItems(u, p, count).value;
    assert m > 0;
    assert u[0] == u[..m][0] == w[0];
    ParseIntLocal(u, w, m, 1);
    ParseItemsLocal(u, w, m, p, count);
  }

  /** More input never changes a command that has already been recognised. */
  lemma ParseExtend(u: Bytes, more: Bytes)
    requires ParseOne(u).Some?
    ensures ParseOne(u + more) == ParseOne(u)
  {
    assert (u + more)[..|u|] == u == u[..|u|];
    ParseLocal(u, u + more, |u|);
  }

  // ---------------------------------------------------------------- frames

  /** `w` is exactly one command: the parser takes all of it and no more. */
  predicate IsFrame(w: Bytes) {
    ParseOne(w).Some? && ParseOne(w).value.consumed == |w|
  }

  predicate AllFrames(frames: seq<Bytes>) {
    forall i :: 0 <= i < |frames| ==> IsFrame(frames[i])
  }

  function FrameArgs(w: Bytes): (args: seq<Bytes>)
    requires IsFrame(w)
  {
    ParseOne(w).value.args
  }

  /** Where the parser first accepts a frame: two bytes early, unless it has no argument. */
  function AcceptLength(w: Bytes): (n: int)
    requires IsFrame(w)
  {
    if FrameArgs(w) == [] then |w| else |w| - 2
  }

  /** The exact set of prefixes of a command that the parser accepts, and what it then returns. */
  lemma FramePrefix(w: Bytes, n: nat)
    requires IsFrame(w) && n <= |w|
    ensures ParseOne(w[..n]) == if n < AcceptLength(w) then None else ParseOne(w)
  {
    var u := w[..n];
    assert u[..n] == u;
    if ParseOne(u).Some? {
      ParseLocal(u, w, n);
    } else if n >= AcceptLength(w) {
      ParseLocal(w, u, n);
    }
  }

  lemma FrameThenMore(w: Bytes, more: Bytes)
    requires IsFrame(w)
    ensures ParseOne(w + more) == Some(Parsed(FrameArgs(w), |w|))
  {
    ParseExtend(w, more);
  }

  // ---------------------------------------------------------------- printers

  function EncodeItem(arg: Bytes): (r: Bytes) {
    ['$'] + Digits(|arg|) + CRLF + arg + CRLF
  }

  function EncodeItems(args: seq<Bytes>): (r: Bytes) {
    if args == [] then [] else EncodeItem(args[0]) + EncodeItems(args[1..])
  }

  function EncodeArray(args: seq<Bytes>): (r: Bytes) {
    ['*'] + Digits(|args|) + CRLF + EncodeItems(args)
  }

  lemma {:induction false} EncodeItemsSnoc(args: seq<Bytes>, last: Bytes)
    ensures EncodeItems(args + [last]) == EncodeItems(args) + EncodeItem(last)
  {
    if args == [] {
      assert (args + [last])[1..] == [];
    } else {
      EncodeItemsSnoc(args[1..], last);
      assert (args + [last])[1..] == args[1..] + [last];
    }
  }

  /** The wire format, on one command. */
  lemma WireExample()
    ensures EncodeArray(["GET", "k"]) == "*2\r\n$3\r\nGET\r\n$1\r\nk\r\n"
  {
    var args := ["GET", "k"];
    assert Digits(2) == "2" && Digits(3) == "3" && Digits(1) == "1";
    assert args[1..] == ["k"] && args[1..][1..] == [];
    assert EncodeItems(args[1..]) == "$1\r\nk\r\n" + [];
    assert EncodeItems(args) == "$3\r\nGET\r\n" + "$1\r\nk\r\n";
  }

  lemma NoItems(args: seq<Bytes>)
    ensures args == [] ==> EncodeItems(args) == []
  {}

  lemma ItemText(out: Bytes, arg: Bytes)
    ensures out + ['$'] + Digits(|arg|) + CRLF + arg + CRLF == out + EncodeItem(arg)
  {
    hide Digits;
    var a := ['$'] + Digits(|arg|);
    Regroup(out, ['$'], Digits(|arg|));
    Regroup(out, a, CRLF);
    Regroup(out, a + CRLF, arg);
    Regroup(out, a + CRLF + arg, CRLF);
  }

  lemma Regroup(a: Bytes, b: Bytes, c: Bytes)
    ensures a + b + c == a + (b + c)
  {}

  /** Capacity of the `char buf[11]` that the digit printers format into. */
  const DIGIT_BUFFER_LIMIT: nat := 100_000_000_000

  method AppendDigit(out: Bytes, n: nat) returns (r: Bytes)
    requires n < DIGIT_BUFFER_LIMIT
    ensures r == out + Digits(n)
  {
    if n < 10 {
      r := out + [('0' as int + n) as char];
    } else {
      var buf: Bytes := [];
      var m := n;
      while m >= 10
        invariant m >= 0 && Digits(n) == Digits(m) + buf
      {
        assert Digits(m / 10) + [DigitChar(m % 10)] + buf == Digits(m / 10) + ([DigitChar(m % 10)] + buf);
        buf := [DigitChar(m % 10)] + buf;
        m := m / 10;
      }
      r := out + ([DigitChar(m)] + buf);
    }
  }

  /** `encode_bulk_string_into`, also the body of the array printer's loop. */
  method EncodeBulkInto(out: Bytes, elem: Bytes) returns (r: Bytes)
    requires |elem| < DIGIT_BUFFER_LIMIT
    ensures r == out + EncodeItem(elem)
  {
    r := AppendDigit(out + ['$'], |elem|);
    r := r + CRLF;
    r := r + elem;
    r := r + CRLF;
  }

  /** `encode_array_into`: appends to the reply buffer, digits by `append_digit`. */
  method EncodeArrayInto(out: Bytes, elements: seq<Bytes>) returns (r: Bytes)
    requires |elements| < DIGIT_BUFFER_LIMIT
    requires forall i :: 0 <= i < |elements| ==> |elements[i]| < DIGIT_BUFFER_LIMIT
    ensures r == out + EncodeArray(elements)
  {
    hide Digits, EncodeItem, EncodeItems;
    r := AppendDigit(out + ['*'], |elements|);
    r := r + CRLF;
    ghost var head := r;
    assert EncodeItems(elements[..0]) == [] by { NoItems(elements[..0]); }
    for i := 0 to |elements|
      invariant r == head + EncodeItems(elements[..i])
    {
      r := EncodeBulkInto(r, elements[i]);
      EncodeItemsSnoc(elements[..i], elements[i]);
      assert elements[..i + 1] == elements[..i] + [elements[i]];
    }
    assert elements[..|elements|] == elements;
  }

  /** `encode_array` and the log writer's `encode_resp_command`: build a fresh string. */
  method EncodeRespCommand(args: seq<Bytes>) returns (result: Bytes)
    ensures result == EncodeArray(args)
  {
    hide Digits, EncodeItem, EncodeItems;
    result := ['*'] + ToText(|args|) + CRLF;
    ghost var head := result;
    NoItems(args[..0]);
    for i := 0 to |args|
      invariant result == head + EncodeItems(args[..i])
    {
      ghost var before := result;
      result := result + ['$'] + ToText(|args[i]|) + CRLF;
      result := result + args[i];
      result := result + CRLF;
      ItemText(before, args[i]);
      EncodeItemsSnoc(args[..i], args[i]);
      assert args[..i + 1] == args[..i] + [args[i]];
    }
    assert args[..|args|] == args;
  }

  // ---------------------------------------------------------------- round trip

  predicate ShortItems(args: seq<Bytes>) {
    forall i :: 0 <= i < |args| ==> |args[i]| < INT32_HALF
  }

  /** Every length fits the parser's 32-bit accumulator. */
  predicate Bounded(args: seq<Bytes>) {
    |args| < INT32_HALF && ShortItems(args)
  }

  function Accumulate(s: Bytes, acc: int): (r: int)
    requires AllDigits(s)
  {
    if s == [] then acc else Accumulate(s[1..], Wrap32(acc * 10 + DigitValue(s[0])))
  }

  lemma {:induction false} AccumulateSnoc(s: Bytes, c: char, acc: int)
    requires AllDigits(s) && IsDigit(c)
    ensures AllDigits(s + [c])
    ensures Accumulate(s + [c], acc) == Wrap32(Accumulate(s, acc) * 10 + DigitValue(c))
  {
    var t := s + [c];
    if s == [] {
      assert t[1..] == [];
    } else {
      assert t[1..] == s[1..] + [c];
      AccumulateSnoc(s[1..], c, Wrap32(acc * 10 + DigitValue(s[0])));
    }
  }

  lemma Wrap32Congruent(n: int, k: int)
    ensures Wrap32(n + k * INT32_SIZE) == Wrap32(n)
  {
    var x := n + INT32_HALF;
    var q, r := x / INT32_SIZE, x % INT32_SIZE;
    assert x + k * INT32_SIZE == (q + k) * INT32_SIZE + r;
  }

  lemma Wrap32Step(n: nat, d: nat)
    ensures Wrap32(Wrap32(n) * 10 + d) == Wrap32(n * 10 + d)
  {
    var k := (n + INT32_HALF) / INT32_SIZE;
    assert Wrap32(n) == n - k * INT32_SIZE;
    assert Wrap32(n) * 10 + d == n * 10 + d + (-10 * k) * INT32_SIZE;
    Wrap32Congruent(n * 10 + d, -10 * k);
  }

  lemma {:induction false} AccumulateDigits(n: nat)
    ensures Accumulate(Digits(n), 0) == Wrap32(n)
  {
    if n < 10 {
      assert Digits(n)[1..] == [];
    } else {
      AccumulateDigits(n / 10);
      AccumulateSnoc(Digits(n / 10), DigitChar(n % 10), 0);
      Wrap32Step(n / 10, n % 10);
    }
  }

  /** `s` stands in `input` at position `p`. */
  predicate At(input: Bytes, p: nat, s: Bytes) {
    p + |s| <= |input| && input[p..p + |s|] == s
  }

  lemma AtSplit(input: Bytes, p: nat, a: Bytes, b: Bytes)
    requires At(input, p, a + b)
    ensures At(input, p, a) && At(input, p + |a|, b)
  {
    assert input[p..p + |a|] == input[p..p + |a + b|][..|a|];
    assert input[p + |a|..p + |a| + |b|] == input[p..p + |a + b|][|a|..];
  }

  lemma {:induction false} ScanAll(input: Bytes, p: nat, ds: Bytes, acc: int)
    requires At(input, p, ds) && AllDigits(ds)
    requires p + |ds| < |input| ==> !IsDigit(input[p + |ds|])
    ensures ScanDigits(input, p, acc) == IntAt(Accumulate(ds, acc), p + |ds|)
    decreases |ds|
  {
    if ds != [] {
      assert input[p] == input[p..p + |ds|][0] == ds[0];
      assert input[p + 1..p + |ds|] == input[p..p + |ds|][1..];
      ScanAll(input, p + 1, ds[1..], Wrap32(acc * 10 + DigitValue(ds[0])));
    }
  }

  lemma ParseIntOfDigits(input: Bytes, p: nat, n: nat)
    requires At(input, p, Digits(n) + CRLF)
    ensures ParseIntUntilCrlf(input, p) == Some(IntAt(Wrap32(n), p + |Digits(n)| + 2))
  {
    hide Digits, ScanDigits, Accumulate, Wrap32;
    var ds := Digits(n);
    AtSplit(input, p, ds, CRLF);
    assert input[p] == input[p..p + |ds|][0] == ds[0];
    var q := p + |ds|;
    assert input[q] == input[q..q + 2][0] && input[q + 1] == input[q..q + 2][1];
    ScanAll(input, p, ds, 0);
    AccumulateDigits(n);
  }

  /** What the item loop finds where one printed argument stands. */
  lemma ParseItemAt(input: Bytes, p: nat, arg: Bytes)
    requires At(input, p, EncodeItem(arg))
    ensures
      var q := p + 1 + |Digits(|arg|)| + 2;
      ParseIntUntilCrlf(input, p + 1) == Some(IntAt(Wrap32(|arg|), q)) &&
      input[p] == '$' && At(input, q, arg) && q + |arg| + 2 == p + |EncodeItem(arg)|
  {
    hide Digits, Wrap32, ParseIntUntilCrlf;
    var ds := Digits(|arg|);
    assert EncodeItem(arg) == ['$'] + ((ds + CRLF) + (arg + CRLF));
    AtSplit(input, p, ['$'], (ds + CRLF) + (arg + CRLF));
    assert input[p] == input[p..p + 1][0];
    AtSplit(input, p + 1, ds + CRLF, arg + CRLF);
    AtSplit(input, p + 1 + |ds| + 2, arg, CRLF);
    ParseIntOfDigits(input, p + 1, |arg|);
  }

  /** One turn of the item loop where a printed argument stands. */
  lemma OneItem(input: Bytes, p: nat, arg: Bytes, more: nat)
    requires At(input, p, EncodeItem(arg)) && |arg| < INT32_HALF
    ensures ParseItems(input, p, more + 1) == Prepend([arg], ParseItems(input, p + |EncodeItem(arg)|, more))
  {
    hide ParseIntUntilCrlf, EncodeItem, Digits;
    ParseItemAt(input, p, arg);
  }

  lemma {:induction false} ParseItemsAt(input: Bytes, p: nat, args: seq<Bytes>)
    requires At(input, p, EncodeItems(args))
    requires ShortItems(args)
    ensures ParseItems(input, p, |args|) == Some(Items(args, p + |EncodeItems(args)|))
    decreases |args|
  {
    hide ParseIntUntilCrlf, EncodeItem, Digits, Wrap32, At;
    if args != [] {
      var head := EncodeItem(args[0]);
      AtSplit(input, p, head, EncodeItems(args[1..]));
      ParseItemAt(input, p, args[0]);
      ParseItemsAt(input, p + |head|, args[1..]);
      OneItem(input, p, args[0], |args| - 1);
      assert args == [args[0]] + args[1..];
    }
  }

  /** If printed arguments come back unchanged, every one of them was short enough. */
  lemma {:induction false} ParseItemsNeedBound(input: Bytes, p: nat, args: seq<Bytes>)
    requires At(input, p, EncodeItems(args))
    requires ParseItems(input, p, |args|).Some? && ParseItems(input, p, |args|).value.args == args
    ensures ShortItems(args)
    decreases |args|
  {
    hide ParseIntUntilCrlf, EncodeItem, Digits;
    if args != [] {
      var head := EncodeItem(args[0]);
      AtSplit(input, p, head, EncodeItems(args[1..]));
      ParseItemAt(input, p, args[0]);
      var IntAt(len, q) := ParseIntUntilCrlf(input, p + 1).value;
      assert args[0] == input[q..q + len];
      assert |args[0]| == len == Wrap32(|args[0]|);
      var rest := ParseItems(input, p + |head|, |args| - 1);
      assert args == [args[0]] + rest.value.args;
      assert args[1..] == rest.value.args;
      ParseItemsNeedBound(input, p + |head|, args[1..]);
    }
  }

  /** Round trip, with its exact domain: a printed command followed by anything parses back to the same
      arguments and length if and only if every length fits in 31 bits. Payloads are arbitrary. */
  lemma RoundTrip(args: seq<Bytes>, suffix: Bytes)
    ensures ParseOne(EncodeArray(args) + suffix) == Some(Parsed(args, |EncodeArray(args)|)) <==> Bounded(args)
  {
    hide ParseIntUntilCrlf, EncodeItems, ParseItems, Digits;
    var ds := Digits(|args|);
    var code := EncodeArray(args);
    var input := code + suffix;
    assert At(input, 0, code);
    assert code == ['*'] + ((ds + CRLF) + EncodeItems(args));
    AtSplit(input, 0, ['*'], (ds + CRLF) + EncodeItems(args));
    AtSplit(input, 1, ds + CRLF, EncodeItems(args));
    ParseIntOfDigits(input, 1, |args|);
    var p := 1 + |ds| + 2;
    if Bounded(args) {
      ParseItemsAt(input, p, args);
    }
    if ParseOne(input) == Some(Parsed(args, |code|)) {
      ParseItemsNeedBound(input, p, args);
    }
  }

  lemma EncodedIsFrame(args: seq<Bytes>)
    requires Bounded(args)
    ensures IsFrame(EncodeArray(args)) && FrameArgs(EncodeArray(args)) == args
  {
    RoundTrip(args, []);
    assert EncodeArray(args) + [] == EncodeArray(args);
  }
}
