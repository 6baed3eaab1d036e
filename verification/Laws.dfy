/** What single commands mean to a client, said without their definitions: what was pushed comes back, what was set can
    be read until it expires, a range names positions. */
module Laws {
  import opened Base
  import opened Decimal
  import opened StreamIds
  import opened Keyspace
  import opened Stores
  import opened Blocking
  import opened Commands

  // ---------------------------------------------------------------- strings

  /** A value that was set is read back at every later time before its deadline, and at no time from then on. */
  lemma SetThenRead(db: Db, key: Bytes, text: Bytes, ttl: Option<nat>, now: int, later: int)
    requires SetIf(Find(db, key, now), text, Deadline(now, ttl)).out && now <= later
    ensures var r := Find(Apply(db, key, SetIf(Find(db, key, now), text, Deadline(now, ttl))), key, later);
      (r.Some? <==> ttl.None? || later < now + ttl.value) && (r.Some? ==> r.value.value == Str(text))
  {}

  /** The entry after `n` increments of an absent key, and the last answer. */
  function Increments(n: nat): (r: Effect<Option<int>>) {
    if n == 0 then Effect(None, 0, Some(0)) else IncrIf(Increments(n - 1).entry)
  }

  /** Increments count, up to the largest 64-bit integer; from then on they are refused and change nothing. */
  lemma {:induction false} IncrementsCount(n: nat)
    ensures 1 <= n <= INT64_MAX ==>
      Increments(n).out == Some(n) && Increments(n).entry == Some(Entry(Str(ToText(n)), None))
    ensures n > INT64_MAX ==>
      Increments(n).out == None && Increments(n).entry == Some(Entry(Str(ToText(INT64_MAX)), None))
  {
    hide IncrIf, ToText;
    FirstIncrement();
    if n > 1 {
      IncrementsCount(n - 1);
      NextIncrement(if n - 1 <= INT64_MAX then n - 1 else INT64_MAX);
    }
  }

  lemma FirstIncrement()
    ensures IncrIf(None) == Effect(Some(Entry(Str(ToText(1)), None)), 1, Some(1))
  {}

  lemma NextIncrement(n: nat)
    requires n <= INT64_MAX
    ensures IncrIf(Some(Entry(Str(ToText(n)), None)))
         == if n == INT64_MAX then Effect(Some(Entry(Str(ToText(n)), None)), 1, None)
            else Effect(Some(Entry(Str(ToText(n + 1)), None)), 1, Some(n + 1))
  {
    hide ParseInt64, ToText;
    ParseToText(n);
  }

  // ---------------------------------------------------------------- lists

  /** Popped elements, put back at their end in the opposite order, give the list as it was; as many as asked for are
      taken, or all. */
  lemma PopSplits(items: seq<Bytes>, expiry: Option<int>, count: int, left: bool)
    requires count > 0
    ensures var e := Pop(Some(Entry(Lst(items), expiry)), count, left);
      var rest := ItemsOf(Some(e.entry.value.value));
      |e.out| == Min(count, |items|) && e.entry.value.expiry == expiry &&
      items == if left then e.out + rest else rest + Reversed(e.out)
  {
    hide Reversed;
    var n := Min(count, |items|);
    ReversedTwice(items[|items| - n..]);
    assert left ==> items == items[..n] + items[n..];
    assert !left ==> items == items[..|items| - n] + items[|items| - n..];
  }

  lemma {:induction false} ReversedTwice(s: seq<Bytes>)
    ensures |Reversed(s)| == |s| && Reversed(Reversed(s)) == s
    decreases |s|
  {
    if s != [] {
      var init, last := s[..|s| - 1], s[|s| - 1];
      ReversedTwice(init);
      ReversedSnoc(Reversed(init), last);
      assert s == init + [last];
    }
  }

  /** Popping undoes pushing at the same end. */
  lemma PushThenPop(cur: Option<Entry>, v: Bytes, left: bool)
    ensures Pop(Push(cur, v, left).entry, 1, left) == Effect(Some(ListEntry(cur)), 1, [v])
  {
    var items := ListEntry(cur).value.items;
    var all := if left then [v] + items else items + [v];
    assert all[1..] == items || !left;
    assert left || (all[..|all| - 1] == items && all[|all| - 1..] == [v]);
    assert Reversed([v]) == [v] by { assert [v][..0] == []; }
  }

  function WithAll(items: seq<Bytes>, vals: seq<Bytes>, left: bool): (r: seq<Bytes>) {
    if left then Reversed(vals) + items else items + vals
  }

  /** A push of several values with nobody waiting: RPUSH appends them in order, LPUSH prepends them one after the
      other; the answer is the new length and the key is touched once per value. */
  lemma {:induction false} PushAll(p: Pushing, key: Bytes, vals: seq<Bytes>, left: bool, live: bool)
    requires p.entry.Some? && p.entry.value.value.Lst? && p.count == |p.entry.value.value.items|
    requires !live || Queue(p.wait, key) == []
    ensures var all := WithAll(p.entry.value.value.items, vals, left);
      PushRest(p, key, vals, left, live)
        == p.(entry := Some(p.entry.value.(value := Lst(all))), touches := p.touches + |vals|, count := |all|)
    decreases |vals|
  {
    hide WithAll, Queue;
    WithOneMore(p.entry.value.value.items, vals, left);
    if vals != [] {
      var e := Push(p.entry, vals[0], left);
      PushAll(p.(entry := e.entry, touches := p.touches + e.touches, count := e.out), key, vals[1..], left, live);
    }
  }

  lemma WithOneMore(items: seq<Bytes>, vals: seq<Bytes>, left: bool)
    ensures vals == [] ==> WithAll(items, vals, left) == items
    ensures vals != [] ==>
      WithAll(items, vals, left) == WithAll(if left then [vals[0]] + items else items + [vals[0]], vals[1..], left)
  {
    if vals == [] {
      assert items + [] == items && [] + items == items;
    } else {
      assert vals == [vals[0]] + vals[1..];
      ReversedSnoc(vals[1..], vals[0]);
      assert items + [vals[0]] + vals[1..] == items + vals;
      assert Reversed(vals[1..]) + ([vals[0]] + items) == Reversed(vals) + items;
    }
  }

  // ---------------------------------------------------------------- streams

  /** Exactly when a generated id is accepted: the wall clock is ahead of the newest entry, or level with it and the
      sequence can go up without reaching 0-0; on an empty stream, away from the epoch. */
  lemma GeneratedIdAccepted(stream: seq<StreamEntry>, fields: seq<(Bytes, Bytes)>, wall: int)
    requires StreamOk(stream) && 0 <= wall <= INT64_MAX
    ensures AppendEntry(stream, ChooseId(stream, "*", wall), fields).1.Added? <==>
      if stream == [] then wall != 0
      else
        var last := stream[|stream| - 1].parsed;
        last.timestamp < wall ||
        (last.timestamp == wall && last.sequence < INT64_MAX && !(wall == 0 && last.sequence == -1))
  {
    hide IdText, ParseInt64;
    if stream != [] {
      assert StreamEntryOk(stream[|stream| - 1]);
    }
  }

  // ---------------------------------------------------------------- ranges

  /** The position a bound names; negative ones count from the end. */
  function Named(len: nat, x: int): (i: int) {
    if x < 0 then len + x else x
  }

  predicate Selected(len: nat, start: int, stop: int, i: nat) {
    var b := RangeBounds(len, start, stop);
    b.Some? && b.value.0 <= i <= b.value.1
  }

  /** LRANGE and ZRANGE return exactly the positions from the one `start` names to the one `stop` names, unless the list
      has elements, `start` names none behind the first and `stop` names one before it: such a `stop` is taken for the
      first element. */
  lemma RangeExact(len: nat, start: int, stop: int)
    ensures (forall i: nat :: i < len ==> (Selected(len, start, stop, i) <==> Named(len, start) <= i <= Named(len, stop)))
        <==> !(len > 0 && Named(len, start) <= 0 && Named(len, stop) < 0)
  {
    if len > 0 && Named(len, start) <= 0 && Named(len, stop) < 0 {
      assert Selected(len, start, stop, 0);
    }
  }
}
