/** `Store` as the code runs it: fields reassigned in place, bisection and scan loops. Every method is proved to
    do to its fields what the value operations of Keyspace say. `now` is the command's clock reading. */
module Stores {
  import opened Base
  import opened Decimal
  import opened StreamIds
  import opened SortedSets
  import opened Keyspace

  predicate Increasing(stream: seq<StreamEntry>) {
    forall i, j :: 0 <= i < j < |stream| ==> Less(stream[i].parsed, stream[j].parsed)
  }

  // ---------------------------------------------------------------- bisection

  method LowerBound(stream: seq<StreamEntry>, target: StreamId) returns (lo: nat)
    requires Increasing(stream)
    ensures lo <= |stream|
    ensures forall i :: 0 <= i < lo ==> Less(stream[i].parsed, target)
    ensures forall i :: lo <= i < |stream| ==> !Less(stream[i].parsed, target)
  {
    lo := 0;
    var hi := |stream|;
    while lo < hi
      invariant lo <= hi <= |stream|
      invariant forall i :: 0 <= i < lo ==> Less(stream[i].parsed, target)
      invariant forall i :: hi <= i < |stream| ==> !Less(stream[i].parsed, target)
    {
      var mid := lo + (hi - lo) / 2;
      if Less(stream[mid].parsed, target) {
        lo := mid + 1;
      } else {
        hi := mid;
      }
    }
  }

  method UpperBound(stream: seq<StreamEntry>, target: StreamId) returns (lo: nat)
    requires Increasing(stream)
    ensures lo <= |stream|
    ensures forall i :: 0 <= i < lo ==> !Less(target, stream[i].parsed)
    ensures forall i :: lo <= i < |stream| ==> Less(target, stream[i].parsed)
  {
    lo := 0;
    var hi := |stream|;
    while lo < hi
      invariant lo <= hi <= |stream|
      invariant forall i :: 0 <= i < lo ==> !Less(target, stream[i].parsed)
      invariant forall i :: hi <= i < |stream| ==> Less(target, stream[i].parsed)
    {
      var mid := lo + (hi - lo) / 2;
      if !Less(target, stream[mid].parsed) {
        lo := mid + 1;
      } else {
        hi := mid;
      }
    }
  }

  lemma SliceOfRest(stream: seq<StreamEntry>, a: nat, b: nat)
    requires 0 < a <= b <= |stream|
    ensures stream[a..b] == stream[1..][a - 1..b - 1]
  {
    var s, t := stream[a..b], stream[1..][a - 1..b - 1];
    assert |s| == |t|;
    assert forall i :: 0 <= i < |s| ==> s[i] == stream[a + i] && t[i] == stream[1..][a - 1 + i];
  }

  /** The linear filter of a range is the slice between the two bounds. */
  lemma {:induction false} BetweenIsSlice(stream: seq<StreamEntry>, lo: StreamId, hi: StreamId, a: nat, b: nat)
    requires a <= |stream| && b <= |stream|
    requires forall i :: 0 <= i < a ==> Less(stream[i].parsed, lo)
    requires forall i :: a <= i < |stream| ==> !Less(stream[i].parsed, lo)
    requires forall i :: 0 <= i < b ==> !Less(hi, stream[i].parsed)
    requires forall i :: b <= i < |stream| ==> Less(hi, stream[i].parsed)
    ensures Between(stream, lo, hi) == if b <= a then [] else stream[a..b]
    decreases |stream|
  {
    hide Less;
    if stream != [] {
      var rest := stream[1..];
      BetweenIsSlice(rest, lo, hi, if a > 0 then a - 1 else 0, if b > 0 then b - 1 else 0);
      if a == 0 && b > 0 {
        assert stream[0..b] == [stream[0]] + rest[0..b - 1];
      } else if a < b {
        SliceOfRest(stream, a, b);
      }
    }
  }

  lemma {:induction false} AfterIsSlice(stream: seq<StreamEntry>, id: StreamId, a: nat)
    requires a <= |stream|
    requires forall i :: 0 <= i < a ==> !Less(id, stream[i].parsed)
    requires forall i :: a <= i < |stream| ==> Less(id, stream[i].parsed)
    ensures After(stream, id) == stream[a..]
    decreases |stream|
  {
    hide Less;
    if stream != [] {
      AfterIsSlice(stream[1..], id, if a > 0 then a - 1 else 0);
      assert a > 0 ==> stream[a..] == stream[1..][a - 1..];
      assert a == 0 ==> stream[a..] == [stream[0]] + stream[1..][0..];
    }
  }

  // ---------------------------------------------------------------- small facts about maps and lists

  lemma PutBack(db: Db, key: Bytes, now: int)
    ensures Find(db, key, now).Some? ==> db.data[key := Find(db, key, now).value] == db.data
    ensures key !in db.data ==> db.data - {key} == db.data
  {}

  /** `touch_key` and then a lookup. */
  lemma TouchThenFind(db: Db, key: Bytes, now: int)
    ensures var e := Find(db, key, now);
      Find(Touch(db, key, 1), key, now) == e && Put(Touch(db, key, 1), key, e, 0) == Put(db, key, e, 1)
  {}

  lemma Overwritten(db: Db, key: Bytes, a: Option<Entry>, n: nat, e: Entry)
    ensures var r := Put(db, key, a, n); r.(data := r.data[key := e]) == Put(db, key, Some(e), n)
  {}

  lemma {:induction false} ReversedSnoc(s: seq<Bytes>, v: Bytes)
    ensures Reversed([v] + s) == Reversed(s) + [v]
    decreases |s|
  {
    var t := [v] + s;
    if s != [] {
      assert t[..|t| - 1] == [v] + s[..|s| - 1];
      ReversedSnoc(s[..|s| - 1], v);
    } else {
      assert t[..0] == [];
    }
  }

  /** The tail of `lrange` and `zrange`: resolve the bounds, then copy one element at a time. */
  method SliceItems(items: seq<Bytes>, start: int, stop: int) returns (result: seq<Bytes>)
    ensures var b := RangeBounds(|items|, start, stop);
      result == if b.None? then [] else items[b.value.0..b.value.1 + 1]
  {
    result := [];
    var len := |items|;
    var lo, hi := start, stop;
    if lo < 0 { lo := len + lo; }
    if hi < 0 { hi := len + hi; }
    if lo < 0 { lo := 0; }
    if hi < 0 { hi := 0; }
    if lo >= len || lo > hi {
      return;
    }
    if hi >= len { hi := len - 1; }
    var i := lo;
    while i <= hi
      invariant lo <= i <= hi + 1 <= len
      invariant result == items[lo..i]
    {
      result := result + [items[i]];
      i := i + 1;
    }
  }

  lemma MembersSlice(es: seq<Node>, start: int, stop: int)
    ensures var b := RangeBounds(|es|, start, stop);
      b.Some? ==> Members(es)[b.value.0..b.value.1 + 1] == Members(es[b.value.0..b.value.1 + 1])
  {}

  /** What stands `i` places after the resolved start has that rank in the map of scores. */
  ghost predicate ListedByRank(scores: map<Bytes, Score>, start: int, stop: int, result: seq<Bytes>) {
    forall i :: 0 <= i < |result| ==>
      result[i] in scores && RangeBounds(|scores|, start, stop).Some? &&
      RankOf(scores, result[i]) == RangeBounds(|scores|, start, stop).value.0 + i
  }

  lemma RangeListsByRank(db: Db, key: Bytes, now: int, start: int, stop: int)
    requires DbOk(db, now)
    ensures var z := ZsetOf(Seen(Find(db, key, now)).out); ListedByRank(Scores(z), start, stop, Range(z, start, stop))
  {
    hide Valid, RankOf, RangeBounds;
    var z := ZsetOf(Seen(Find(db, key, now)).out);
    NothingIsValid();
    assert Valid(z);
    Cardinality(z);
    forall i | 0 <= i < |Range(z, start, stop)|
      ensures var m := Range(z, start, stop)[i];
        m in Scores(z) && RangeBounds(|Scores(z)|, start, stop).Some? &&
        RankOf(Scores(z), m) == RangeBounds(|Scores(z)|, start, stop).value.0 + i
    {
      RangeByRank(z, start, stop, i);
    }
  }

  lemma NothingToPop(cur: Option<Entry>, count: int, left: bool)
    requires cur.Some? && cur.value.value == Lst([])
    ensures Pop(cur, count, left) == Effect(cur, 1, [])
  {}

  /** The pop loop: one element at a time from the chosen end. */
  method TakeItems(all: seq<Bytes>, actual: nat, left: bool) returns (result: seq<Bytes>, items: seq<Bytes>)
    requires actual <= |all|
    ensures left ==> result == all[..actual] && items == all[actual..]
    ensures !left ==> result == Reversed(all[|all| - actual..]) && items == all[..|all| - actual]
  {
    result, items := [], all;
    var i := 0;
    while i < actual
      invariant i <= actual && |items| == |all| - i
      invariant left ==> items == all[i..] && result == all[..i]
      invariant !left ==> items == all[..|all| - i] && result == Reversed(all[|all| - i..])
    {
      if left {
        result := result + [items[0]];
        items := items[1..];
      } else {
        var v := items[|items| - 1];
        assert all[|all| - i - 1..] == [v] + all[|all| - i..];
        ReversedSnoc(all[|all| - i..], v);
        result := result + [v];
        items := items[..|items| - 1];
      }
      i := i + 1;
    }
  }

  /** The branches of `xadd` that settle timestamp, sequence and text. */
  method SettleId(stream: seq<StreamEntry>, id: Bytes, wall: int) returns (r: Option<Choice>)
    ensures r == ChooseId(stream, id, wall)
    ensures 0 <= wall <= INT64_MAX && r.Some? ==> ParseId(r.value.text) == Some(r.value.id)
  {
    hide IdText, ParseId, ParseInt64, Wrap64;
    if 0 <= wall <= INT64_MAX { ChosenIdParses(stream, id, wall); }
    var timestamp, sequence := 0, 0;
    if id == "*" {
      timestamp := wall;
      if stream == [] {
        sequence := 0;
      } else {
        var last := stream[|stream| - 1].parsed;
        sequence := if last.timestamp == timestamp then Wrap64(last.sequence + 1) else 0;
      }
      return Some(Choice(IdText(StreamId(timestamp, sequence)), StreamId(timestamp, sequence)));
    } else if |id| >= 2 && id[|id| - 2] == '-' && id[|id| - 1] == '*' {
      var ts := ParseInt64(id[..IndexOf(id, '-')]);
      if ts.None? {
        return None;
      }
      timestamp := ts.value;
      if stream == [] {
        sequence := if timestamp == 0 then 1 else 0;
      } else {
        var last := stream[|stream| - 1].parsed;
        if last.timestamp == timestamp {
          sequence := Wrap64(last.sequence + 1);
        } else {
          sequence := if timestamp == 0 then 1 else 0;
        }
      }
      return Some(Choice(IdText(StreamId(timestamp, sequence)), StreamId(timestamp, sequence)));
    }
    var sid := ParseId(id);
    if sid.None? {
      return None;
    }
    return Some(Choice(id, sid.value));
  }

  /** The erasing scan of `keys`: visits every key once, in any order. */
  method ScanKeys(all: map<Bytes, Entry>, now: int) returns (result: seq<Bytes>, data: map<Bytes, Entry>)
    ensures data == map k | k in all && !Expired(all[k], now) :: all[k]
    ensures (forall k :: k in result <==> k in data) && |result| == |data|
  {
    hide Expired;
    result, data := [], all;
    var todo := all.Keys;
    while todo != {}
      invariant todo <= data.Keys <= all.Keys
      invariant forall k :: k in data ==> data[k] == all[k]
      invariant forall k :: k in data && k !in todo ==> !Expired(all[k], now)
      invariant forall k :: k in all && k !in data ==> Expired(all[k], now)
      invariant forall k :: k in result <==> k in data && k !in todo
      invariant |result| + |todo| == |data.Keys|
      decreases todo
    {
      var k :| k in todo;
      todo := todo - {k};
      if Expired(data[k], now) {
        assert (data - {k}).Keys == data.Keys - {k};
        data := data - {k};
      } else {
        result := result + [k];
      }
    }
  }

  class Store {
    var data: map<Bytes, Entry>
    var counter: nat
    var versions: map<Bytes, nat>

    ghost function Contents(): (db: Db)
      reads this
    {
      Db(data, counter, versions)
    }

    constructor ()
      ensures Contents() == EMPTY_DB
    {
      data, counter, versions := map[], 0, map[];
    }

    method TouchKey(key: Bytes)
      modifies this
      ensures Contents() == Touch(old(Contents()), key, 1)
    {
      counter := counter + 1;
      versions := versions[key := counter];
    }

    /** Look a key up; a dead entry is erased on the way. */
    method FindValidEntry(key: Bytes, now: int) returns (r: Option<Entry>)
      modifies this
      ensures r == Find(old(Contents()), key, now)
      ensures Contents() == Apply(old(Contents()), key, Seen(r))
    {
      PutBack(Contents(), key, now);
      if key !in data {
        return None;
      }
      if Expired(data[key], now) {
        data := data - {key};
        return None;
      }
      return Some(data[key]);
    }

    method Set(key: Bytes, value: Bytes, ttl: Option<nat>, now: int)
      modifies this
      ensures Contents() == Apply(old(Contents()), key, SetAny(value, Deadline(now, ttl)))
    {
      TouchKey(key);
      var entry := Entry(Str(value), None);
      if ttl.Some? {
        entry := entry.(expiry := Some(now + ttl.value));
      }
      data := data[key := entry];
    }

    method SetIfValidType(key: Bytes, value: Bytes, ttl: Option<nat>, now: int) returns (ok: bool)
      modifies this
      ensures var e := SetIf(Find(old(Contents()), key, now), value, Deadline(now, ttl));
        ok == e.out && Contents() == Apply(old(Contents()), key, e)
    {
      PutBack(Contents(), key, now);
      if key in data {
        if !Expired(data[key], now) {
          if !data[key].value.Str? {
            return false;
          }
          TouchKey(key);
          data := data[key := data[key].(value := Str(value))];
          data := data[key := data[key].(expiry := Deadline(now, ttl))];
          return true;
        }
        data := data - {key};
      }
      TouchKey(key);
      data := data[key := Entry(Str(value), Deadline(now, ttl))];
      return true;
    }

    method IncrIfValidType(key: Bytes, now: int) returns (r: Option<int>)
      modifies this
      ensures var e := IncrIf(Find(old(Contents()), key, now));
        r == e.out && Contents() == Apply(old(Contents()), key, e)
    {
      hide ParseInt64, ToText;
      PutBack(Contents(), key, now);
      if key in data {
        if !Expired(data[key], now) {
          if !data[key].value.Str? {
            return None;
          }
          TouchKey(key);
          var parsed := ParseInt64(data[key].value.text);
          if parsed.None? || parsed.value == INT64_MAX {
            return None;
          }
          var newValue := parsed.value + 1;
          data := data[key := data[key].(value := Str(ToText(newValue)))];
          return Some(newValue);
        }
        data := data - {key};
      }
      TouchKey(key);
      data := data[key := Entry(Str("1"), None)];
      return Some(1);
    }

    /** `rpush_if_valid_type` (left = false) and `lpush_if_valid_type` (left = true). */
    method PushIfValidType(key: Bytes, value: Bytes, left: bool, now: int) returns (r: Option<int>)
      modifies this
      ensures var e := PushIf(Find(old(Contents()), key, now), value, left);
        r == e.out && Contents() == Apply(old(Contents()), key, e)
    {
      PutBack(Contents(), key, now);
      if key in data && Expired(data[key], now) {
        data := data - {key};
      }
      if key !in data {
        assert [value] + [] == [value] && [] + [value] == [value];
        TouchKey(key);
        data := data[key := Entry(Lst([value]), None)];
        return Some(1);
      }
      if !data[key].value.Lst? {
        return None;
      }
      TouchKey(key);
      var items := data[key].value.items;
      items := if left then [value] + items else items + [value];
      data := data[key := data[key].(value := Lst(items))];
      return Some(|items|);
    }

    /** `rpush` and `lpush`, which reset an entry of another type. */
    method PushAny(key: Bytes, value: Bytes, left: bool, now: int) returns (r: int)
      modifies this
      ensures var e := Push(Find(old(Contents()), key, now), value, left);
        r == e.out && Contents() == Apply(old(Contents()), key, e)
    {
      TouchKey(key);
      var entry := FindValidEntry(key, now);
      if entry.None? {
        data := data[key := Entry(Lst([]), None)];
      } else if !entry.value.value.Lst? {
        data := data[key := entry.value.(value := Lst([]))];
      }
      var items := data[key].value.items;
      items := if left then [value] + items else items + [value];
      data := data[key := data[key].(value := Lst(items))];
      return |items|;
    }

    /** `lpop` and `rpop` with a count. */
    method PopCount(key: Bytes, count: int, left: bool, now: int) returns (result: seq<Bytes>)
      modifies this
      ensures var e := Pop(Find(old(Contents()), key, now), count, left);
        result == e.out && Contents() == Apply(old(Contents()), key, e)
    {
      hide Reversed, Touch, Find, Put;
      TouchThenFind(Contents(), key, now);
      TouchKey(key);
      result := [];
      var entry := FindValidEntry(key, now);
      if entry.None? || !entry.value.value.Lst? {
        return;
      }
      var items := entry.value.value.items;
      if |items| == 0 {
        NothingToPop(entry, count, left);
        return;
      }
      if count <= 0 {
        return;
      }
      result, items := TakeItems(items, if count < |items| then count else |items|, left);
      assert Pop(entry, count, left) == Effect(Some(entry.value.(value := Lst(items))), 1, result);
      Overwritten(old(Contents()), key, entry, 1, entry.value.(value := Lst(items)));
      data := data[key := entry.value.(value := Lst(items))];
    }

    method Llen(key: Bytes, now: int) returns (n: int)
      modifies this
      ensures var s := Seen(Find(old(Contents()), key, now));
        n == |ItemsOf(s.out)| && Contents() == Apply(old(Contents()), key, s)
    {
      var entry := FindValidEntry(key, now);
      n := if entry.Some? && entry.value.value.Lst? then |entry.value.value.items| else 0;
    }

    method Lrange(key: Bytes, start: int, stop: int, now: int) returns (result: seq<Bytes>)
      modifies this
      ensures var s := Seen(Find(old(Contents()), key, now));
        var items := ItemsOf(s.out);
        var b := RangeBounds(|items|, start, stop);
        result == (if b.None? then [] else items[b.value.0..b.value.1 + 1]) &&
        Contents() == Apply(old(Contents()), key, s)
    {
      result := [];
      var entry := FindValidEntry(key, now);
      if entry.None? || !entry.value.value.Lst? {
        return;
      }
      result := SliceItems(entry.value.value.items, start, stop);
    }

    method Get(key: Bytes, now: int) returns (r: Option<Bytes>)
      modifies this
      ensures var s := Seen(Find(old(Contents()), key, now));
        r == (if s.out.Some? && s.out.value.Str? then Some(s.out.value.text) else None) &&
        Contents() == Apply(old(Contents()), key, s)
    {
      var entry := FindValidEntry(key, now);
      if entry.None? || !entry.value.value.Str? {
        return None;
      }
      return Some(entry.value.value.text);
    }

    // -------------------------------------------------------------- sorted sets

    method ZaddIfValidType(key: Bytes, score: Score, member: Bytes, now: int) returns (r: Option<int>)
      modifies this
      ensures var e := ZaddIf(Find(old(Contents()), key, now), score, member);
        r == e.out && Contents() == Apply(old(Contents()), key, e)
    {
      PutBack(Contents(), key, now);
      if key in data && Expired(data[key], now) {
        data := data - {key};
      }
      if key !in data {
        TouchKey(key);
        data := data[key := Entry(Zst(Add(SortedSets.EMPTY, score, member)), None)];
        return Some(1);
      }
      if !data[key].value.Zst? {
        return None;
      }
      TouchKey(key);
      var z := data[key].value.zset;
      data := data[key := data[key].(value := Zst(Add(z, score, member)))];
      return Some(if member in z.index then 0 else 1);
    }

    method ZaddAny(key: Bytes, score: Score, member: Bytes, now: int) returns (r: int)
      modifies this
      ensures var e := Zadd(Find(old(Contents()), key, now), score, member);
        r == e.out && Contents() == Apply(old(Contents()), key, e)
    {
      hide Add;
      TouchKey(key);
      var entry := FindValidEntry(key, now);
      if entry.None? {
        data := data[key := Entry(Zst(SortedSets.EMPTY), None)];
      } else if !entry.value.value.Zst? {
        data := data[key := entry.value.(value := Zst(SortedSets.EMPTY))];
      }
      var z := data[key].value.zset;
      data := data[key := data[key].(value := Zst(Add(z, score, member)))];
      return if member in z.index then 0 else 1;
    }

    method ZremMember(key: Bytes, member: Bytes, now: int) returns (r: int)
      modifies this
      ensures var e := Zrem(Find(old(Contents()), key, now), member);
        r == e.out && Contents() == Apply(old(Contents()), key, e)
    {
      TouchKey(key);
      var entry := FindValidEntry(key, now);
      if entry.None? || !entry.value.value.Zst? {
        return 0;
      }
      var z := entry.value.value.zset;
      data := data[key := entry.value.(value := Zst(Remove(z, member)))];
      return if member in z.index then 1 else 0;
    }

    /** `zrank`: the distance from the beginning to the member's node. */
    method Zrank(key: Bytes, member: Bytes, now: int) returns (r: Option<int>)
      requires DbOk(Contents(), now)
      modifies this
      ensures var s := Seen(Find(old(Contents()), key, now));
        var z := ZsetOf(s.out);
        r == (if member in Scores(z) then Some(RankOf(Scores(z), member)) else None) &&
        Contents() == Apply(old(Contents()), key, s)
    {
      var entry := FindValidEntry(key, now);
      if entry.None? || !entry.value.value.Zst? {
        return None;
      }
      var z := entry.value.value.zset;
      if member !in z.index {
        return None;
      }
      RankCounts(z, member);
      var node, distance := z.index[member], 0;
      ghost var rank := Below(z.entries, node);
      NodeAt(z, rank);
      while z.entries[distance] != node
        invariant 0 <= distance <= rank
        decreases rank - distance
      {
        distance := distance + 1;
      }
      NodeAt(z, distance);
      return Some(distance);
    }

    method Zrange(key: Bytes, start: int, stop: int, now: int) returns (result: seq<Bytes>)
      modifies this
      ensures var s := Seen(Find(old(Contents()), key, now));
        result == Range(ZsetOf(s.out), start, stop) && Contents() == Apply(old(Contents()), key, s)
      ensures DbOk(old(Contents()), now) ==>
        ListedByRank(Scores(ZsetOf(Seen(Find(old(Contents()), key, now)).out)), start, stop, result)
    {
      hide ListedByRank;
      if DbOk(Contents(), now) { RangeListsByRank(Contents(), key, now, start, stop); }
      result := [];
      var entry := FindValidEntry(key, now);
      if entry.None? || !entry.value.value.Zst? {
        return;
      }
      result := SliceItems(Members(entry.value.value.zset.entries), start, stop);
      MembersSlice(entry.value.value.zset.entries, start, stop);
    }

    method Zscore(key: Bytes, member: Bytes, now: int) returns (r: Option<Score>)
      modifies this
      ensures var s := Seen(Find(old(Contents()), key, now));
        var z := ZsetOf(s.out);
        r == (if member in Scores(z) then Some(Scores(z)[member]) else None) &&
        Contents() == Apply(old(Contents()), key, s)
    {
      var entry := FindValidEntry(key, now);
      if entry.None? || !entry.value.value.Zst? || member !in entry.value.value.zset.index {
        return None;
      }
      return Some(entry.value.value.zset.index[member].0);
    }

    method Zcard(key: Bytes, now: int) returns (n: int)
      modifies this
      ensures var s := Seen(Find(old(Contents()), key, now));
        n == |Scores(ZsetOf(s.out))| && Contents() == Apply(old(Contents()), key, s)
    {
      var entry := FindValidEntry(key, now);
      n := if entry.Some? && entry.value.value.Zst? then |entry.value.value.zset.index| else 0;
      assert Scores(ZsetOf(Seen(entry).out)).Keys == ZsetOf(Seen(entry).out).index.Keys;
    }

    // -------------------------------------------------------------- streams

    /** `xadd`: the stream is fetched or created, the id settled, then the two checks. */
    method XaddAny(key: Bytes, id: Bytes, fields: seq<(Bytes, Bytes)>, now: int, wall: int) returns (r: XaddResult)
      modifies this
      ensures var e := Xadd(Find(old(Contents()), key, now), id, fields, wall);
        r == e.out && Contents() == Apply(old(Contents()), key, e)
    {
      hide ChooseId, Less, ParseId;
      ghost var db := Contents();
      TouchKey(key);
      var entry := FindValidEntry(key, now);
      if entry.None? {
        data := data[key := Entry(Strm([]), None)];
      } else if !entry.value.value.Strm? {
        data := data[key := entry.value.(value := Strm([]))];
      }
      var stream := data[key].value.stream;
      assert data == db.data[key := StreamHolder(entry)] && data[key := StreamHolder(entry)] == data;
      var c := SettleId(stream, id, wall);
      if c.None? {
        return Refused(BAD_ID);
      }
      if c.value.id.timestamp == 0 && c.value.id.sequence == 0 {
        return Refused(ZERO_ID);
      }
      if stream != [] && !Less(stream[|stream| - 1].parsed, c.value.id) {
        return Refused(SMALL_ID);
      }
      stream := stream + [StreamEntry(c.value.text, c.value.id, fields)];
      data := data[key := data[key].(value := Strm(stream))];
      return Added(c.value.text);
    }

    method XaddIfValidType(key: Bytes, id: Bytes, fields: seq<(Bytes, Bytes)>, now: int, wall: int)
      returns (r: XaddResult)
      modifies this
      ensures var e := XaddIf(Find(old(Contents()), key, now), id, fields, wall);
        r == e.out && Contents() == Apply(old(Contents()), key, e)
    {
      if key in data && !Expired(data[key], now) {
        if !data[key].value.Strm? {
          PutBack(Contents(), key, now);
          return WrongType;
        }
      }
      r := XaddAny(key, id, fields, now, wall);
    }

    /** XRANGE by two bisections is the linear filter by the resolved bounds. */
    method Xrange(key: Bytes, start: Bytes, end: Bytes, now: int) returns (r: seq<StreamEntry>)
      requires DbOk(Contents(), now)
      modifies this
      ensures var s := Seen(Find(old(Contents()), key, now));
        r == Between(StreamOf(s.out), StartBound(start), EndBound(end)) &&
        Contents() == Apply(old(Contents()), key, s)
    {
      var entry := FindValidEntry(key, now);
      if entry.None? || !entry.value.value.Strm? || entry.value.value.stream == [] {
        return [];
      }
      var stream := entry.value.value.stream;
      assert Increasing(stream);
      var lo := LowerBound(stream, StartBound(start));
      var hi := UpperBound(stream, EndBound(end));
      BetweenIsSlice(stream, StartBound(start), EndBound(end), lo, hi);
      if hi <= lo {
        return [];
      }
      return stream[lo..hi];
    }

    /** XREAD by one bisection is the linear filter of the entries newer than the threshold. */
    method Xread(key: Bytes, id: Bytes, now: int) returns (r: seq<StreamEntry>)
      requires DbOk(Contents(), now)
      modifies this
      ensures var s := Seen(Find(old(Contents()), key, now));
        r == After(StreamOf(s.out), Threshold(id)) && Contents() == Apply(old(Contents()), key, s)
    {
      var entry := FindValidEntry(key, now);
      if entry.None? || !entry.value.value.Strm? || entry.value.value.stream == [] {
        return [];
      }
      var stream := entry.value.value.stream;
      assert Increasing(stream);
      var lo := UpperBound(stream, Threshold(id));
      AfterIsSlice(stream, Threshold(id), lo);
      if lo >= |stream| {
        return [];
      }
      return stream[lo..];
    }

    method GetStreamMaxId(key: Bytes, now: int) returns (r: Option<Bytes>)
      modifies this
      ensures var s := Seen(Find(old(Contents()), key, now));
        r == MaxId(StreamOf(s.out)) && Contents() == Apply(old(Contents()), key, s)
    {
      var entry := FindValidEntry(key, now);
      if entry.None? || !entry.value.value.Strm? || entry.value.value.stream == [] {
        return None;
      }
      var stream := entry.value.value.stream;
      return Some(stream[|stream| - 1].id);
    }

    /** `key_is_absent_or_holds`: compares the clock with `>`, and erases nothing. */
    method KeyIsAbsentOrHolds(key: Bytes, kind: Kind, now: int) returns (r: bool)
      ensures r == AbsentOrHolds(Contents(), key, kind, now)
      ensures !(key in data && data[key].expiry == Some(now)) ==>
        (r <==> var e := Find(Contents(), key, now); e.None? || KindOf(e.value.value) == Some(kind))
    {
      if key !in data {
        return true;
      }
      if data[key].expiry.Some? && now > data[key].expiry.value {
        return true;
      }
      return match kind case StrKind => data[key].value.Str? case ZstKind => data[key].value.Zst?;
    }

    method GetKeyVersion(key: Bytes) returns (v: nat)
      ensures v == Version(Contents(), key)
      ensures VersionsOk(Contents()) ==> v <= counter && Version(Touch(Contents(), key, 1), key) > v
    {
      return if key in versions then versions[key] else 0;
    }

    // -------------------------------------------------------------- whole keyspace

    /** `keys`: erases what is dead and lists the rest, each key once, in any order. */
    method Keys(now: int) returns (result: seq<Bytes>)
      modifies this
      ensures Contents() == Purge(old(Contents()), now)
      ensures forall k :: k in result <==> k in data
      ensures |result| == |data|
    {
      result, data := ScanKeys(data, now);
    }
  }
}
