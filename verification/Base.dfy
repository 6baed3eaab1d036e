/** Shared vocabulary: byte strings, optional values, and concatenation of byte strings.
    A byte is a Dafny `char`; nothing in the project depends on its upper bound. */
module Base {

  type Bytes = string

  datatype Option<+T> = None | Some(value: T)

  const CRLF: Bytes := "\r\n"

  const INT64_MAX: int := 0x7FFF_FFFF_FFFF_FFFF
  const INT64_MIN: int := -0x8000_0000_0000_0000
  const UINT64_SIZE: int := 0x1_0000_0000_0000_0000

  predicate IsInt64(n: int) {
    INT64_MIN <= n <= INT64_MAX
  }

  /** Two's complement wrap-around of a 64-bit signed addition. */
  function Wrap64(n: int): (r: int)
    ensures IsInt64(r)
    ensures IsInt64(n) ==> r == n
  {
    (n - INT64_MIN) % UINT64_SIZE + INT64_MIN
  }

  function Min(a: nat, b: nat): (r: nat) {
    if a <= b then a else b
  }

  function Concat(parts: seq<Bytes>): (r: Bytes) {
    if parts == [] then [] else parts[0] + Concat(parts[1..])
  }

  lemma {:induction false} ConcatSplit(a: seq<Bytes>, b: seq<Bytes>)
    ensures Concat(a + b) == Concat(a) + Concat(b)
  {
    if a == [] {
      assert a + b == b;
    } else {
      ConcatSplit(a[1..], b);
      assert (a + b)[1..] == a[1..] + b;
    }
  }

  lemma ConcatOne(a: Bytes)
    ensures Concat([a]) == a
  {
    assert [a][1..] == [];
  }

  function UpperChar(c: char): (r: char) {
    if 'a' <= c <= 'z' then ((c as int) - 32) as char else c
  }

  /** `util::to_upper` in the C locale. */
  function ToUpper(s: Bytes): (r: Bytes)
    ensures |r| == |s|
  {
    seq(|s|, i requires 0 <= i < |s| => UpperChar(s[i]))
  }

  /** `s` is the word `word` of capital letters, each in either case. */
  predicate Spells(s: Bytes, word: Bytes) {
    |s| == |word| && forall i :: 0 <= i < |s| ==> s[i] == word[i] || s[i] as int == word[i] as int + 32
  }

  lemma SpellsIs(s: Bytes, word: Bytes)
    requires forall i :: 0 <= i < |word| ==> 'A' <= word[i] <= 'Z'
    ensures ToUpper(s) == word <==> Spells(s, word)
  {
    if Spells(s, word) {
      assert forall i :: 0 <= i < |s| ==> ToUpper(s)[i] == word[i];
    } else if |s| == |word| {
      var i :| 0 <= i < |s| && s[i] != word[i] && s[i] as int != word[i] as int + 32;
      assert ToUpper(s)[i] != word[i];
    }
  }

  /** Position of the first `c` in `s`, or `|s|` when there is none. */
  function IndexOf(s: Bytes, c: char): (r: nat)
    ensures r <= |s|
    ensures r < |s| ==> s[r] == c
    ensures c !in s[..r]
  {
    if s == [] || s[0] == c then 0
    else
      var r := 1 + IndexOf(s[1..], c);
      assert s[..r] == [s[0]] + s[1..][..r - 1];
      r
  }

  /** Inclusive bounds as LRANGE and ZRANGE resolve them: negative counts from the end, overlong is cut. */
  function RangeBounds(len: nat, start: int, stop: int): (r: Option<(nat, nat)>)
    ensures r.Some? ==> r.value.0 <= r.value.1 < len
  {
    var lo := if start < 0 then (if len + start < 0 then 0 else len + start) else start;
    var hi := if stop < 0 then (if len + stop < 0 then 0 else len + stop) else stop;
    if lo >= len || lo > hi then None else Some((lo, if hi >= len then len - 1 else hi))
  }
}
