/** What the stream commands mean to a client, in timestamps and sequences: which entries XRANGE and XREAD return for every
    form of an id, and what XADD adds. */
module StreamLaws {
  import opened Base
  import opened Decimal
  import opened StreamIds
  import opened Keyspace
  import opened Blocking
  import opened Commands
  import opened Invariants

  function StreamNow(db: Db, key: Bytes, now: int): (r: seq<StreamEntry>) {
    StreamOf(Seen(Find(db, key, now)).out)
  }

  predicate Increases(stream: seq<StreamEntry>) {
    forall i, j :: 0 <= i < j < |stream| ==> Less(stream[i].parsed, stream[j].parsed)
  }

  // ---------------------------------------------------------------- XRANGE

  lemma {:induction false} BetweenMembers(stream: seq<StreamEntry>, lo: StreamId, hi: StreamId)
    ensures forall e :: e in Between(stream, lo, hi) <==> e in stream && !Less(e.parsed, lo) && !Less(hi, e.parsed)
    ensures Increases(stream) ==> Increases(Between(stream, lo, hi))
    decreases |stream|
  {
    hide Less;
    if stream != [] {
      var rest := stream[1..];
      BetweenMembers(rest, lo, hi);
      assert forall e :: e in stream <==> e == stream[0] || e in rest;
      if Increases(stream) {
        assert forall e :: e in rest ==> Less(stream[0].parsed, e.parsed);
        var r := Between(rest, lo, hi);
        assert forall i :: 0 <= i < |r| ==> r[i] in r;
      }
    }
  }

  /** The id is at or after what the first argument of XRANGE names. */
  predicate FromStart(id: StreamId, start: Bytes) {
    if start == "-" then id.timestamp > 0 || (id.timestamp == 0 && id.sequence >= 0)
    else if '-' in start then
      match ParseId(start)
      case Some(s) => id.timestamp > s.timestamp || (id.timestamp == s.timestamp && id.sequence >= s.sequence)
      case None => id.timestamp == INT64_MAX && id.sequence == INT64_MAX
    else
      match ParseInt64(start)
      case Some(ms) => id.timestamp > ms || (id.timestamp == ms && id.sequence >= 0)
      case None => id.timestamp > 0 || (id.timestamp == 0 && id.sequence >= 0)
  }

  /** The id is at or before what the second argument of XRANGE names; a bare time takes in all its sequences. */
  predicate UpToEnd(id: StreamId, end: Bytes) {
    if end == "+" then true
    else if '-' in end then
      match ParseId(end)
      case Some(s) => id.timestamp < s.timestamp || (id.timestamp == s.timestamp && id.sequence <= s.sequence)
      case None => false
    else
      match ParseInt64(end)
      case Some(ms) => id.timestamp <= ms
      case None => id.timestamp <= 0
  }

  lemma BoundsMean(e: StreamEntry, start: Bytes, end: Bytes)
    requires StreamEntryOk(e)
    ensures !Less(e.parsed, StartBound(start)) <==> FromStart(e.parsed, start)
    ensures !Less(EndBound(end), e.parsed) <==> UpToEnd(e.parsed, end)
  {
    hide ParseInt64;
    NotNegative(e);
  }

  lemma NotNegative(e: StreamEntry)
    requires StreamEntryOk(e)
    ensures e.parsed.timestamp >= 0 && IsInt64(e.parsed.timestamp) && IsInt64(e.parsed.sequence)
  {
    hide ParseInt64;
    ParsedSign(e.id[..IndexOf(e.id, '-')]);
  }

  /** XRANGE returns exactly the entries of the live stream from what `start` names to what `end` names, in order. */
  lemma XrangeMeans(env: Env, c: Clock, live: bool, core: Core, fd: int, args: seq<Bytes>)
    requires |args| >= 4 && DbOk(core.db, c.now)
    ensures var o := Exec(env, c, live, core, fd, XRANGE, args);
      o.reply.Some? && o.reply.value.Entries? && Increases(o.reply.value.stream) &&
      forall e :: e in o.reply.value.stream <==>
        e in StreamNow(core.db, args[1], c.now) && FromStart(e.parsed, args[2]) && UpToEnd(e.parsed, args[3])
  {
    hide Between, StartBound, EndBound, FromStart, UpToEnd, Less, Find, DbOk, StreamEntryOk;
    var stream := StreamNow(core.db, args[1], c.now);
    StreamIsOk(core.db, args[1], c.now);
    BetweenMembers(stream, StartBound(args[2]), EndBound(args[3]));
    forall e | e in stream
      ensures !Less(e.parsed, StartBound(args[2])) && !Less(EndBound(args[3]), e.parsed)
          <==> FromStart(e.parsed, args[2]) && UpToEnd(e.parsed, args[3])
    {
      BoundsMean(e, args[2], args[3]);
    }
  }

  lemma StreamIsOk(db: Db, key: Bytes, now: int)
    requires DbOk(db, now)
    ensures StreamOk(StreamNow(db, key, now)) && Increases(StreamNow(db, key, now))
    ensures forall e :: e in StreamNow(db, key, now) ==> StreamEntryOk(e)
  {
    hide StreamEntryOk, Less;
    FindOk(db, key, now);
  }

  /** Two bare times select the entries of those milliseconds and all between; sequences are not negative. */
  lemma BareTimes(e: StreamEntry, start: Bytes, end: Bytes, a: int, b: int)
    requires '-' !in start && '-' !in end && ParseInt64(start) == Some(a) && ParseInt64(end) == Some(b) && end != "+"
    requires e.parsed.sequence >= 0
    ensures FromStart(e.parsed, start) && UpToEnd(e.parsed, end) <==> a <= e.parsed.timestamp <= b
  {}

  // ---------------------------------------------------------------- XREAD

  lemma {:induction false} AfterMembers(stream: seq<StreamEntry>, id: StreamId)
    ensures forall e :: e in After(stream, id) <==> e in stream && Less(id, e.parsed)
    ensures Increases(stream) ==> Increases(After(stream, id))
    decreases |stream|
  {
    hide Less;
    if stream != [] {
      var rest := stream[1..];
      AfterMembers(rest, id);
      assert forall e :: e in stream <==> e == stream[0] || e in rest;
      if Increases(stream) {
        assert forall e :: e in rest ==> Less(stream[0].parsed, e.parsed);
        var r := After(rest, id);
        assert forall i :: 0 <= i < |r| ==> r[i] in r;
      }
    }
  }

  /** The entry is newer than what an XREAD names; `$` names the newest there is. */
  predicate NewerThan(id: StreamId, from: Bytes) {
    if from == "$" then false
    else if '-' in from then
      match ParseId(from)
      case Some(s) => id.timestamp > s.timestamp || (id.timestamp == s.timestamp && id.sequence > s.sequence)
      case None => false
    else
      match ParseInt64(from)
      case Some(ms) => id.timestamp > ms || (id.timestamp == ms && id.sequence > 0)
      case None => id.timestamp > 0 || (id.timestamp == 0 && id.sequence > 0)
  }

  lemma ThresholdMeans(stream: seq<StreamEntry>, e: StreamEntry, from: Bytes)
    requires StreamOk(stream) && e in stream
    ensures Less(Threshold(ResolveId(stream, from)), e.parsed) <==> NewerThan(e.parsed, from)
  {
    hide ParseInt64;
    assert StreamEntryOk(e);
    NotNegative(e);
    if from == "$" {
      var last := stream[|stream| - 1];
      assert StreamEntryOk(last);
      var i :| 0 <= i < |stream| && stream[i] == e;
      assert i < |stream| - 1 ==> Less(e.parsed, last.parsed);
    }
  }

  lemma ReadOneMeans(db: Db, key: Bytes, from: Bytes, now: int)
    requires DbOk(db, now)
    ensures var r := ReadOne(db, key, from, now);
      Increases(r) && forall e :: e in r <==> e in StreamNow(db, key, now) && NewerThan(e.parsed, from)
  {
    hide After, Threshold, ResolveId, NewerThan, Less, Find, DbOk, StreamOk;
    var stream := StreamNow(db, key, now);
    StreamIsOk(db, key, now);
    AfterMembers(stream, Threshold(ResolveId(stream, from)));
    forall e | e in stream
      ensures Less(Threshold(ResolveId(stream, from)), e.parsed) <==> NewerThan(e.parsed, from)
    {
      ThresholdMeans(stream, e, from);
    }
  }

  lemma {:induction false} ReadAllAt(db: Db, keys: seq<Bytes>, ids: seq<Bytes>, now: int, i: nat)
    requires |keys| == |ids| && i < |keys|
    ensures ReadAll(db, keys, ids, now)[i] == (keys[i], ReadOne(db, keys[i], ids[i], now))
    decreases |keys|
  {
    hide ReadOne;
    if i > 0 { ReadAllAt(db, keys[1..], ids[1..], now, i - 1); }
  }

  /** The arguments of a plain XREAD: first all keys, then all ids. */
  lemma ReadArgsMean(keys: seq<Bytes>, ids: seq<Bytes>)
    requires |keys| == |ids| >= 1
    ensures ParseRead(["XREAD", "STREAMS"] + keys + ids) == ReadOk(None, keys, ids)
  {
    var args := ["XREAD", "STREAMS"] + keys + ids;
    assert ToUpper(args[1]) == "STREAMS" && ToUpper(args[1])[0] == 'S';
    assert FindStreams(args, 1) == 1;
    assert (2 * |keys|) / 2 == |keys| && (2 * |keys|) % 2 == 0;
    assert args[2..2 + |keys|] == keys && args[2 + |keys|..] == ids;
  }

  /** A plain XREAD answers for every key, in order, with exactly the newer entries of its live stream. */
  lemma XreadMeans(env: Env, c: Clock, live: bool, core: Core, fd: int, keys: seq<Bytes>, ids: seq<Bytes>, i: nat)
    requires |keys| == |ids| && i < |keys| && DbOk(core.db, c.now)
    ensures var o := Exec(env, c, live, core, fd, XREAD, ["XREAD", "STREAMS"] + keys + ids);
      o.reply.Some? && o.reply.value.Streams? && |o.reply.value.streams| == |keys| &&
      var r := o.reply.value.streams[i];
      r.0 == keys[i] && Increases(r.1) &&
      forall e :: e in r.1 <==> e in StreamNow(core.db, keys[i], c.now) && NewerThan(e.parsed, ids[i])
  {
    hide ParseRead, ReadAll, ReadOne, NewerThan, Find, DbOk, Visit, AnyData, Block, Less;
    ReadArgsMean(keys, ids);
    ReadAllAt(core.db, keys, ids, c.now, i);
    ReadOneMeans(core.db, keys[i], ids[i], c.now);
  }

  // ---------------------------------------------------------------- XADD

  /** An id may be added: it is not 0-0 and lies above the newest entry. */
  predicate Acceptable(stream: seq<StreamEntry>, ts: int, sequence: int) {
    !(ts == 0 && sequence == 0) &&
    (stream == [] ||
     var last := stream[|stream| - 1].parsed;
     last.timestamp < ts || (last.timestamp == ts && last.sequence < sequence))
  }

  predicate IsTimed(id: Bytes) {
    |id| >= 2 && id[|id| - 2] == '-' && id[|id| - 1] == '*'
  }

  /** The id asked for is accepted, whatever the fields. */
  predicate Accepts(stream: seq<StreamEntry>, id: Bytes, wall: int) {
    AppendEntry(stream, ChooseId(stream, id, wall), []).1.Added?
  }

  /** Level with the newest entry. */
  predicate Level(stream: seq<StreamEntry>, ts: int) {
    stream != [] && stream[|stream| - 1].parsed.timestamp == ts
  }

  /** What an accepted XADD settles on. An explicit id is taken as it is, and accepted exactly when it parses and may be
      added. A generated one has the asked time, and the least sequence that may be added: above the newest entry if
      level with it, from 0 on otherwise. */
  lemma SettledId(stream: seq<StreamEntry>, id: Bytes, wall: int)
    requires StreamOk(stream) && 0 <= wall <= INT64_MAX
    ensures
      var c := ChooseId(stream, id, wall);
      var added := Accepts(stream, id, wall);
      (added ==> c.Some? && Acceptable(stream, c.value.id.timestamp, c.value.id.sequence)) &&
      (id != "*" && !IsTimed(id) ==>
         (added <==> ParseId(id).Some? && Acceptable(stream, ParseId(id).value.timestamp, ParseId(id).value.sequence)) &&
         (added ==> c.value.text == id && Some(c.value.id) == ParseId(id))) &&
      (added && (id == "*" || IsTimed(id)) ==>
         c.value.id.timestamp == (if id == "*" then wall else ParseInt64(id[..IndexOf(id, '-')]).value) &&
         (forall s :: Acceptable(stream, c.value.id.timestamp, s) && (Level(stream, c.value.id.timestamp) || s >= 0)
            ==> c.value.id.sequence <= s))
  {
    hide IdText, ParseInt64, ParseId, StreamEntryOk;
    if stream != [] {
      assert StreamEntryOk(stream[|stream| - 1]);
      NotNegative(stream[|stream| - 1]);
    }
  }

  /** Exactly when an id with a given time and generated sequence is accepted. */
  lemma TimedIdAccepted(stream: seq<StreamEntry>, id: Bytes, wall: int)
    requires StreamOk(stream) && IsTimed(id) && id != "*"
    ensures Accepts(stream, id, wall) <==>
      var ts := ParseInt64(id[..IndexOf(id, '-')]);
      ts.Some? &&
      (stream == [] ||
       var last := stream[|stream| - 1].parsed;
       last.timestamp < ts.value ||
       (last.timestamp == ts.value && last.sequence < INT64_MAX && !(ts.value == 0 && last.sequence == -1)))
  {
    hide IdText, ParseInt64, ParseId, StreamEntryOk;
    if stream != [] {
      assert StreamEntryOk(stream[|stream| - 1]);
      NotNegative(stream[|stream| - 1]);
    }
  }

  lemma {:induction false} PairsAt(args: seq<Bytes>, i: nat)
    requires |args| % 2 == 0 && 2 * i + 1 < |args|
    ensures Pairs(args)[i] == (args[2 * i], args[2 * i + 1])
    decreases |args|
  {
    if i > 0 { PairsAt(args[2..], i - 1); }
  }

  /** `after` is `before` with one entry more: with this text, the id it parses to, and the field and value pairs that
      follow in the arguments. */
  predicate AddedAs(before: seq<StreamEntry>, after: seq<StreamEntry>, text: Bytes, args: seq<Bytes>) {
    |after| == |before| + 1 && after[..|before|] == before &&
    (var e := after[|before|];
     e.id == text && ParseId(text) == Some(e.parsed) && 2 * |e.fields| + 3 == |args| &&
     forall i :: 0 <= i < |e.fields| ==> e.fields[i] == (args[3 + 2 * i], args[4 + 2 * i]))
  }

  lemma AppendedAs(stream: seq<StreamEntry>, args: seq<Bytes>, wall: int)
    requires |args| >= 4 && |args| % 2 == 1 && 0 <= wall <= INT64_MAX
    ensures var r := AppendEntry(stream, ChooseId(stream, args[2], wall), Pairs(args[3..]));
      (r.1.Added? <==> Accepts(stream, args[2], wall)) && (r.1.Added? ==> AddedAs(stream, r.0, r.1.id, args))
  {
    hide ChooseId, ParseId, Pairs;
    ChosenIdParses(stream, args[2], wall);
    var fields := Pairs(args[3..]);
    forall i | 0 <= i < |fields|
      ensures fields[i] == (args[3 + 2 * i], args[4 + 2 * i])
    {
      PairsAt(args[3..], i);
    }
  }

  /** XADD answers with an id exactly when the key can hold a stream and the id is accepted; then it adds one entry at the
      end of the live stream, with that id and the given fields. */
  lemma XaddMeans(env: Env, c: Clock, live: bool, core: Core, fd: int, args: seq<Bytes>)
    requires |args| >= 4 && |args| % 2 == 1 && DbOk(core.db, c.now) && ClockOk(c)
    ensures
      var o := Exec(env, c, live, core, fd, XADD, args);
      var before := StreamNow(core.db, args[1], c.now);
      o.reply.Some? &&
      (o.reply.value.Bulk? <==> TakesStream(core.db, args[1], c.now) && Accepts(before, args[2], c.wall)) &&
      (o.reply.value.Bulk? ==> AddedAs(before, StreamNow(o.core.db, args[1], c.now), o.reply.value.text, args))
  {
    hide ChooseId, ParseId, Find, DbOk, ServeReaders, Pairs, Touch, AddedAs, Accepts;
    AppendedAs(StreamNow(core.db, args[1], c.now), args, c.wall);
    XaddEntry(core, c, args);
  }

  predicate TakesStream(db: Db, key: Bytes, now: int) {
    var v := Seen(Find(db, key, now)).out; v.None? || v.value.Strm?
  }

  /** The entry an XADD leaves is live and holds the new stream. */
  lemma XaddEntry(core: Core, c: Clock, args: seq<Bytes>)
    requires |args| >= 4 && |args| % 2 == 1 && DbOk(core.db, c.now)
    ensures var cur := Find(core.db, args[1], c.now);
      var e := XaddIf(cur, args[2], Pairs(args[3..]), c.wall);
      TakesStream(core.db, args[1], c.now) ==>
        Find(Put(core.db, args[1], e.entry, e.touches), args[1], c.now) == e.entry && e.entry.Some? &&
        e.entry.value.value
          == Strm(AppendEntry(StreamNow(core.db, args[1], c.now),
                              ChooseId(StreamNow(core.db, args[1], c.now), args[2], c.wall), Pairs(args[3..])).0)
  {
    hide ChooseId, AppendEntry, Pairs, EntryOk, Touch;
  }
}
