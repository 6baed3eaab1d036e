/** The command handlers as the code runs them: argument loops, and calls that change the store and the wait queues.
    Every method is proved to do what Commands says. */
module Handlers {
  import opened Base
  import opened Decimal
  import opened StreamIds
  import opened SortedSets
  import opened Keyspace
  import opened Stores
  import opened Blocking
  import opened Commands
  import opened Invariants

  // ---------------------------------------------------------------- argument loops

  /** The option loop of `handle_set`. */
  method SetOptions(args: seq<Bytes>) returns (r: Ttl)
    requires |args| >= 3
    ensures r == ScanOptions(args, 3, None)
  {
    hide ToUpper, ParseUInt64;
    var ttl: Option<nat> := None;
    var i := 3;
    while i < |args|
      invariant 3 <= i && ScanOptions(args, i, ttl) == ScanOptions(args, 3, None)
    {
      var option := ToUpper(args[i]);
      if option == "EX" || option == "PX" {
        if i + 1 >= |args| {
          return TtlError(SYNTAX);
        }
        var parsed := ParseUInt64(args[i + 1]);
        if parsed.None? {
          return TtlError(NOT_AN_INTEGER);
        }
        ttl := Some(if option == "EX" then parsed.value * 1000 % UINT64_SIZE else parsed.value);
        i := i + 1;
      }
      i := i + 1;
    }
    return TtlIs(ttl);
  }

  /** The search for STREAMS in `handle_xread_with_blocking`. */
  method SeekStreams(args: seq<Bytes>, start: nat) returns (at: nat)
    requires start >= 1
    ensures at == FindStreams(args, start)
  {
    hide ToUpper;
    at := 0;
    var i := start;
    while i < |args|
      invariant start <= i && FindStreams(args, i) == FindStreams(args, start)
    {
      if ToUpper(args[i]) == "STREAMS" {
        return i;
      }
      i := i + 1;
    }
  }

  method ParseReadArgs(args: seq<Bytes>) returns (r: ReadArgs)
    requires |args| >= 4
    ensures r == ParseRead(args)
  {
    hide ToUpper, ParseInt64;
    var block: Option<int>, start: nat := None, 1;
    if ToUpper(args[1]) == "BLOCK" {
      var parsed := ParseInt64(args[2]);
      if parsed.None? {
        return ReadBad(NOT_AN_INTEGER);
      }
      block, start := parsed, 3;
    }
    var at := SeekStreams(args, start);
    if at == 0 {
      return ReadBad(SYNTAX);
    }
    var pairs := |args| - at - 1;
    if pairs == 0 || pairs % 2 != 0 {
      return ReadBad(XREAD_ARITY);
    }
    var n := pairs / 2;
    if block.Some? && n != 1 {
      return ReadBad(ONE_STREAM);
    }
    return ReadOk(block, args[at + 1..at + 1 + n], args[at + 1 + n..]);
  }

  /** The field loop of XADD. */
  method CollectPairs(args: seq<Bytes>) returns (fields: seq<(Bytes, Bytes)>)
    requires |args| % 2 == 0
    ensures fields == Pairs(args)
  {
    fields := [];
    var i := 0;
    while i < |args|
      invariant 0 <= i <= |args| && i % 2 == 0
      invariant Pairs(args) == fields + Pairs(args[i..])
    {
      assert args[i..][2..] == args[i + 2..];
      assert fields + ([(args[i], args[i + 1])] + Pairs(args[i + 2..]))
          == fields + [(args[i], args[i + 1])] + Pairs(args[i + 2..]);
      fields := fields + [(args[i], args[i + 1])];
      i := i + 2;
    }
  }

  // ---------------------------------------------------------------- two store calls on one key

  /** The entry a first operation wrote is what the next one finds. */
  lemma FindPut(db: Db, key: Bytes, e: Option<Entry>, n: nat, now: int)
    requires e.Some? ==> !Expired(e.value, now)
    ensures Find(Put(db, key, e, n), key, now) == e
  {}

  lemma FindIsLive(db: Db, key: Bytes, now: int)
    ensures var e := Find(db, key, now); e.Some? ==> !Expired(e.value, now)
  {}

  predicate LiveEntry(e: Option<Entry>, now: int) {
    e.Some? && !Expired(e.value, now)
  }

  lemma PushLive(cur: Option<Entry>, v: Bytes, left: bool, now: int)
    requires cur.Some? ==> !Expired(cur.value, now)
    ensures LiveEntry(Push(cur, v, left).entry, now)
  {}

  lemma PopLive(cur: Option<Entry>, count: int, left: bool, now: int)
    requires LiveEntry(cur, now)
    ensures LiveEntry(Pop(cur, count, left).entry, now)
  {
    hide Reversed;
  }

  lemma ZaddLive(cur: Option<Entry>, score: Score, member: Bytes, now: int)
    requires cur.Some? ==> !Expired(cur.value, now)
    ensures LiveEntry(Zadd(cur, score, member).entry, now)
  {
    hide Add;
  }

  lemma XaddLive(cur: Option<Entry>, id: Bytes, fields: seq<(Bytes, Bytes)>, wall: int, now: int)
    requires cur.Some? ==> !Expired(cur.value, now)
    ensures XaddIf(cur, id, fields, wall).out.Added? ==> LiveEntry(XaddIf(cur, id, fields, wall).entry, now)
  {
    hide ChooseId, AppendEntry;
  }

  class CommandHandler {
    const env: Env
    const live: bool
    const store: Store
    const blocking: BlockingManager

    constructor (env: Env, live: bool, store: Store, blocking: BlockingManager)
      ensures this.env == env && this.live == live && this.store == store && this.blocking == blocking
    {
      this.env, this.live, this.store, this.blocking := env, live, store, blocking;
    }

    ghost function Now(): (c: Core)
      reads store, blocking
    {
      Core(store.Contents(), blocking.Contents())
    }

    // -------------------------------------------------------------- strings

    method HandleSet(c: Clock, fd: int, args: seq<Bytes>) returns (reply: Reply)
      requires |args| >= 3
      modifies store
      ensures Outcome(Now(), Some(reply), []) == Exec(env, c, live, old(Now()), fd, SET, args)
    {
      hide ScanOptions, SetIf;
      var options := SetOptions(args);
      if options.TtlError? {
        return Error(options.text);
      }
      var ok := store.SetIfValidType(args[1], args[2], options.ttl, c.now);
      if !ok {
        return Error(WRONGTYPE);
      }
      return Ok;
    }

    method HandleIncr(c: Clock, fd: int, args: seq<Bytes>) returns (reply: Reply)
      requires |args| >= 2
      modifies store
      ensures Outcome(Now(), Some(reply), []) == Exec(env, c, live, old(Now()), fd, INCR, args)
    {
      hide IncrIf;
      var r := store.IncrIfValidType(args[1], c.now);
      if r.None? {
        return Error(NOT_AN_INTEGER);
      }
      return Integer(r.value);
    }

    method HandleMset(c: Clock, fd: int, args: seq<Bytes>) returns (reply: Reply)
      requires |args| >= 3
      modifies store
      ensures Outcome(Now(), Some(reply), []) == Exec(env, c, live, old(Now()), fd, MSET, args)
    {
      hide AbsentOrHolds, Apply;
      if (|args| - 1) % 2 != 0 {
        return Error(MSET_ARITY);
      }
      ghost var db := store.Contents();
      var i := 1;
      while i < |args|
        invariant 1 <= i && (|args| - i) % 2 == 0 && i <= |args|
        invariant AllTakeStrings(db, c.now, args, 1) == AllTakeStrings(db, c.now, args, i)
        invariant store.Contents() == db
      {
        var takes := store.KeyIsAbsentOrHolds(args[i], StrKind, c.now);
        if !takes {
          return Error(WRONGTYPE);
        }
        i := i + 2;
      }
      i := 1;
      while i < |args|
        invariant 1 <= i <= |args| && (|args| - i) % 2 == 0
        invariant SetPairs(store.Contents(), args, i) == SetPairs(db, args, 1)
      {
        store.Set(args[i], args[i + 1], None, c.now);
        i := i + 2;
      }
      return Ok;
    }

    // -------------------------------------------------------------- lists

    method HandlePop(c: Clock, fd: int, args: seq<Bytes>, left: bool) returns (reply: Reply)
      requires |args| >= 2
      modifies store
      ensures Outcome(Now(), Some(reply), [])
           == Exec(env, c, live, old(Now()), fd, if left then LPOP else RPOP, args)
    {
      hide Pop, ParseInt64;
      if |args| == 2 {
        var one := store.PopCount(args[1], 1, left, c.now);
        if one != [] {
          return Bulk(one[0]);
        }
        return NullBulk;
      }
      var parsed := ParseInt64(args[2]);
      if parsed.None? {
        return Error(NOT_AN_INTEGER);
      }
      if parsed.value <= 0 {
        return Array([]);
      }
      var elements := store.PopCount(args[1], parsed.value, left, c.now);
      return Array(elements);
    }

    method HandleBlpop(c: Clock, fd: int, args: seq<Bytes>) returns (reply: Option<Reply>)
      requires |args| >= 3
      modifies store, blocking
      ensures Outcome(Now(), reply, []) == Exec(env, c, live, old(Now()), fd, BLPOP, args)
    {
      hide Pop, Block;
      var timeout := env.parse(args[2]);
      if timeout.None? {
        return Some(Error(NOT_AN_INTEGER));
      }
      if timeout.value < 0 {
        return Some(Error(NEGATIVE_TIMEOUT));
      }
      var elements := store.PopCount(args[1], 1, true, c.now);
      if elements != [] {
        return Some(Array([args[1], elements[0]]));
      }
      if live {
        blocking.BlockClientForStream(fd, args[1], ZERO, env.millis(timeout.value), Popper, c.now);
        return None;
      }
      return Some(Error(NO_BLOCKING));
    }

    /** `try_wake`; `p` is where the push stands, `db` the keyspace it started from. */
    method WakeOne(key: Bytes, now: int, sends: seq<Send>, ghost p: Pushing, ghost db: Db)
      returns (woke: bool, more: seq<Send>)
      requires store.Contents() == Put(db, key, p.entry, p.touches) && blocking.Contents() == p.wait && sends == p.sends
      requires LiveEntry(p.entry, now)
      modifies store, blocking
      ensures woke <==> Queue(p.wait, key) != []
      ensures var q := if woke then TryWake(p, key) else p;
        store.Contents() == Put(db, key, q.entry, q.touches) && blocking.Contents() == q.wait && more == q.sends &&
        LiveEntry(q.entry, now) && q.count == p.count
    {
      hide Pop, Put, Leave;
      more := sends;
      var blocked := blocking.WakeClient(key);
      if blocked.None? {
        return false, more;
      }
      FindPut(db, key, p.entry, p.touches, now);
      var elements := store.PopCount(key, 1, true, now);
      PopLive(p.entry, 1, true, now);
      var e := Pop(p.entry, 1, true);
      PutTwice(db, key, p.entry, p.touches, e.entry, e.touches);
      if elements != [] {
        more := more + [Send(blocked.value.fd, Array([key, elements[0]]))];
      }
      return true, more;
    }

    /** `handle_rpush_with_blocking` and `handle_lpush_with_blocking`; during replay, the plain push. */
    method HandlePush(c: Clock, fd: int, args: seq<Bytes>, left: bool) returns (reply: Reply, sends: seq<Send>)
      requires |args| >= 3
      modifies store, blocking
      ensures Outcome(Now(), Some(reply), sends)
           == Exec(env, c, live, old(Now()), fd, if left then LPUSH else RPUSH, args)
    {
      hide Push, TryWake, Put, Find, Queue, PushRest;
      var key := args[1];
      ghost var db, wait := store.Contents(), blocking.Contents();
      ghost var cur := Find(db, key, c.now);
      FindIsLive(db, key, c.now);
      sends := [];
      var opt := store.PushIfValidType(key, args[2], left, c.now);
      if opt.None? {
        return Error(WRONGTYPE), [];
      }
      var count := opt.value;
      ghost var e := PushIf(cur, args[2], left);
      PushLive(cur, args[2], left, c.now);
      ghost var p := Pushing(e.entry, e.touches, wait, [], count);
      if live {
        var woke;
        woke, sends := WakeOne(key, c.now, sends, p, db);
        p := if woke then TryWake(p, key) else p;
      }
      ghost var start := p;
      var i := 3;
      while i < |args|
        invariant 3 <= i <= |args| && LiveEntry(p.entry, c.now)
        invariant store.Contents() == Put(db, key, p.entry, p.touches) && blocking.Contents() == p.wait
        invariant sends == p.sends && count == p.count
        invariant PushRest(p, key, args[i..], left, live) == PushRest(start, key, args[3..], left, live)
      {
        assert args[i..][0] == args[i] && args[i..][1..] == args[i + 1..];
        var woke := false;
        if live {
          woke, sends := WakeOne(key, c.now, sends, p, db);
        }
        if !woke {
          FindPut(db, key, p.entry, p.touches, c.now);
          count := store.PushAny(key, args[i], left, c.now);
          PushLive(p.entry, args[i], left, c.now);
          ghost var f := Push(p.entry, args[i], left);
          PutTwice(db, key, p.entry, p.touches, f.entry, f.touches);
        }
        PushTurn(p, key, args[i..], left, live);
        p := if woke then TryWake(p, key) else Pushed(p, args[i], left);
        i := i + 1;
      }
      assert args[|args|..] == [];
      PushTurn(p, key, [], left, live);
      return Integer(count), sends;
    }

    // -------------------------------------------------------------- sorted sets

    method HandleZadd(c: Clock, fd: int, args: seq<Bytes>) returns (reply: Reply)
      requires |args| >= 4
      modifies store
      ensures Outcome(Now(), Some(reply), []) == Exec(env, c, live, old(Now()), fd, ZADD, args)
    {
      hide Zadd, Put, Find;
      var key := args[1];
      ghost var db := store.Contents();
      ghost var cur := Find(db, key, c.now);
      FindIsLive(db, key, c.now);
      var first := env.parse(args[2]);
      if first.None? {
        return Error(NOT_A_FLOAT);
      }
      var opt := store.ZaddIfValidType(key, first.value, args[3], c.now);
      if opt.None? {
        return Error(WRONGTYPE);
      }
      ZaddLive(cur, first.value, args[3], c.now);
      var added := opt.value;
      ghost var a := ZaddIf(cur, first.value, args[3]);
      ghost var e := Effect(a.entry, a.touches, added);
      ghost var start := e;
      var i := 4;
      while i < |args|
        invariant 4 <= i && LiveEntry(e.entry, c.now) && e.out == added
        invariant store.Contents() == Put(db, key, e.entry, e.touches)
        invariant ZaddRest(env, e, args, i) == ZaddRest(env, start, args, 4)
      {
        var score := env.parse(args[i]);
        if score.None? {
          return Error(NOT_A_FLOAT);
        }
        if i + 1 >= |args| {
          return Undefined;
        }
        FindPut(db, key, e.entry, e.touches, c.now);
        var more := store.ZaddAny(key, score.value, args[i + 1], c.now);
        ghost var f := Zadd(e.entry, score.value, args[i + 1]);
        ZaddLive(e.entry, score.value, args[i + 1], c.now);
        PutTwice(db, key, e.entry, e.touches, f.entry, f.touches);
        e := Effect(f.entry, e.touches + f.touches, e.out + f.out);
        added := added + more;
        i := i + 2;
      }
      return Integer(added);
    }

    method HandleZrem(c: Clock, fd: int, args: seq<Bytes>) returns (reply: Reply)
      requires |args| >= 3
      modifies store
      ensures Outcome(Now(), Some(reply), []) == Exec(env, c, live, old(Now()), fd, ZREM, args)
    {
      hide Zrem;
      var removed := store.ZremMember(args[1], args[2], c.now);
      return Integer(removed);
    }

    method HandleGeoadd(c: Clock, fd: int, args: seq<Bytes>) returns (reply: Reply)
      requires |args| >= 5
      modifies store
      ensures Outcome(Now(), Some(reply), []) == Exec(env, c, live, old(Now()), fd, GEOADD, args)
    {
      hide Zadd, AbsentOrHolds;
      var takes := store.KeyIsAbsentOrHolds(args[1], ZstKind, c.now);
      if !takes {
        return Error(WRONGTYPE);
      }
      var lon, lat := env.parse(args[2]), env.parse(args[3]);
      if lon.None? || lat.None? {
        return Error(NOT_A_FLOAT);
      }
      var score := env.geo(lat.value, lon.value);
      if score.None? {
        return Error(BAD_PAIR);
      }
      var added := store.ZaddAny(args[1], score.value, args[4], c.now);
      return Integer(added);
    }

    // -------------------------------------------------------------- streams

    /** `handle_xadd_with_blocking`: add the entry, then serve every waiter it wakes. */
    method HandleXadd(c: Clock, fd: int, args: seq<Bytes>) returns (reply: Reply, sends: seq<Send>)
      requires |args| >= 4 && DbOk(store.Contents(), c.now) && ClockOk(c)
      modifies store, blocking
      ensures Outcome(Now(), Some(reply), sends) == Exec(env, c, live, old(Now()), fd, XADD, args)
    {
      hide XaddIf, Put, Find, DbOk, ServeReaders, ParseId;
      sends := [];
      if (|args| - 3) % 2 != 0 {
        return Error(XADD_ARITY), [];
      }
      var key := args[1];
      var fields := CollectPairs(args[3..]);
      ghost var db, wait := store.Contents(), blocking.Contents();
      ghost var cur := Find(db, key, c.now);
      ghost var e := XaddIf(cur, args[2], fields, c.wall);
      var result := store.XaddIfValidType(key, args[2], fields, c.now, c.wall);
      if result.WrongType? {
        return Error(WRONGTYPE), [];
      }
      if result.Refused? {
        return Error(result.message), [];
      }
      AddedEntry(db, key, args[2], fields, c);
      if live {
        sends := ServeLoop(key, result.id, c.now, db, e);
      }
      return Bulk(result.id), sends;
    }

    /** The wake loop of XADD. */
    method ServeLoop(key: Bytes, newId: Bytes, now: int, ghost db: Db, ghost e: Effect<XaddResult>)
      returns (sends: seq<Send>)
      requires store.Contents() == Put(db, key, e.entry, e.touches) && DbOk(store.Contents(), now)
      requires ParseId(newId).Some? && LiveEntry(e.entry, now) && e.entry.value.value.Strm?
      modifies store, blocking
      ensures store.Contents() == old(store.Contents())
      ensures (blocking.Contents(), sends)
           == ServeReaders(old(blocking.Contents()), key, ParseId(newId).value, e.entry.value.value.stream, [])
    {
      hide Put, DbOk, ParseId, After, Threshold, IdText, Leave;
      ghost var sid, stream, wait := ParseId(newId).value, e.entry.value.value.stream, blocking.Contents();
      sends := [];
      while true
        invariant store.Contents() == Put(db, key, e.entry, e.touches) && DbOk(store.Contents(), now)
        invariant ServeReaders(blocking.Contents(), key, sid, stream, sends) == ServeReaders(wait, key, sid, stream, [])
        decreases |Queue(blocking.Contents(), key)|
      {
        ghost var before := blocking.Contents();
        var blocked := blocking.WakeClientForStream(key, newId);
        if blocked.None? {
          break;
        }
        ShorterQueue(before, key, sid);
        FindPut(db, key, e.entry, e.touches, now);
        PutTwice(db, key, e.entry, e.touches, e.entry, 0);
        var entries := store.Xread(key, IdText(blocked.value.lastId), now);
        sends := sends + [Send(blocked.value.fd, Streams([(key, entries)]))];
      }
    }

    method HandleXread(c: Clock, fd: int, args: seq<Bytes>) returns (reply: Option<Reply>)
      requires |args| >= 4 && DbOk(store.Contents(), c.now)
      modifies store, blocking
      ensures Outcome(Now(), reply, []) == Exec(env, c, live, old(Now()), fd, XREAD, args)
    {
      hide ParseRead, DbOk, Block, ReadAll, Visit, AnyData, MaxId, ParseId;
      var parsed := ParseReadArgs(args);
      if parsed.ReadBad? {
        return Some(Error(parsed.text));
      }
      var results := ReadLoop(parsed.keys, parsed.ids, c.now);
      var hasData := HasData(results);
      if hasData || parsed.block.None? {
        return Some(Streams(results));
      }
      if live {
        ghost var db := store.Contents();
        var id := parsed.ids[0];
        if id == "$" {
          SeenAgain(db, parsed.keys[0], c.now, old(store.Contents()), parsed.keys);
          var maxId := store.GetStreamMaxId(parsed.keys[0], c.now);
          id := OrElse(maxId, "0-0");
        }
        var sid := OrElse(ParseId(id), ZERO);
        blocking.BlockClientForStream(fd, parsed.keys[0], sid, parsed.block.value,
                                      Reader(Recorded(parsed.ids[0])), c.now);
        return None;
      }
      return Some(Error(NO_BLOCKING));
    }

    /** One stream of an XREAD: `$` is resolved first. */
    method ReadStream(key: Bytes, id: Bytes, now: int) returns (entries: seq<StreamEntry>)
      requires DbOk(store.Contents(), now)
      modifies store
      ensures entries == ReadOne(old(store.Contents()), key, id, now)
      ensures store.Contents() == Apply(old(store.Contents()), key, Seen(Find(old(store.Contents()), key, now)))
    {
      hide DbOk, Find, After, Threshold, Frame, Put, MaxId;
      ghost var db := store.Contents();
      VisitOnce(db, key, now);
      var from := id;
      if id == "$" {
        var maxId := store.GetStreamMaxId(key, now);
        from := OrElse(maxId, "0-0");
      }
      entries := store.Xread(key, from, now);
    }

    method ReadLoop(keys: seq<Bytes>, ids: seq<Bytes>, now: int) returns (results: seq<(Bytes, seq<StreamEntry>)>)
      requires |keys| == |ids| && DbOk(store.Contents(), now)
      modifies store
      ensures results == ReadAll(old(store.Contents()), keys, ids, now)
      ensures store.Contents() == Visit(old(store.Contents()), keys, now)
    {
      hide DbOk, Find, After, Threshold, ResolveId, Frame, Apply;
      ghost var db := store.Contents();
      results := [];
      FrameRefl(db, now);
      for i := 0 to |keys|
        invariant DbOk(store.Contents(), now) && Frame(db, store.Contents(), {}, now)
        invariant ReadAll(db, keys, ids, now) == results + ReadAll(db, keys[i..], ids[i..], now)
        invariant Visit(db, keys, now) == Visit(store.Contents(), keys[i..], now)
      {
        VisitOne(db, store.Contents(), keys[i], now);
        var entries := ReadStream(keys[i], ids[i], now);
        SplitRead(db, keys, ids, i, now);
        assert results + ([(keys[i], entries)] + ReadAll(db, keys[i + 1..], ids[i + 1..], now))
            == results + [(keys[i], entries)] + ReadAll(db, keys[i + 1..], ids[i + 1..], now);
        results := results + [(keys[i], entries)];
      }
    }

    // -------------------------------------------------------------- reads

    method HandleRead(c: Clock, fd: int, cmd: Cmd, args: seq<Bytes>) returns (reply: Reply)
      requires IsRead(cmd) && |args| >= MinArgs(cmd) && DbOk(store.Contents(), c.now)
      modifies store
      ensures Outcome(Now(), Some(reply), []) == Exec(env, c, live, old(Now()), fd, cmd, args)
    {
      hide DbOk, Put, Find, Between, StartBound, EndBound, Below, RankOf, Scores, RangeBounds, ParseInt64, Valid;
      var key := args[1];
      ghost var db := store.Contents();
      ZsetSeen(db, key, c.now);
      match cmd {
        case GET =>
          var r := store.Get(key, c.now);
          reply := if r.Some? then Bulk(r.value) else NullBulk;
        case LLEN =>
          var n := store.Llen(key, c.now);
          reply := Integer(n);
        case LRANGE =>
          reply := RangeHandler(c, fd, LRANGE, args);
        case ZRANGE =>
          reply := RangeHandler(c, fd, ZRANGE, args);
        case TYPE =>
          var entry := store.FindValidEntry(key, c.now);
          reply := Simple(TypeName(if entry.Some? then Some(entry.value.value) else None));
        case ZRANK =>
          var rank := store.Zrank(key, args[2], c.now);
          RankIs(db, key, args[2], c.now);
          ScoreIs(ZsetOf(Seen(Find(db, key, c.now)).out), args[2]);
          reply := if rank.Some? then Integer(rank.value) else NullBulk;
        case ZCARD =>
          var n := store.Zcard(key, c.now);
          CardIs(db, key, c.now);
          reply := Integer(n);
        case ZSCORE =>
          var score := store.Zscore(key, args[2], c.now);
          ScoreIs(ZsetOf(Seen(Find(db, key, c.now)).out), args[2]);
          reply := if score.Some? then Bulk(env.format(score.value)) else NullBulk;
        case XRANGE =>
          var entries := store.Xrange(key, args[2], args[3], c.now);
          reply := Entries(entries);
      }
    }

    method RangeHandler(c: Clock, fd: int, cmd: Cmd, args: seq<Bytes>) returns (reply: Reply)
      requires (cmd.LRANGE? || cmd.ZRANGE?) && |args| >= 4
      modifies store
      ensures Outcome(Now(), Some(reply), []) == Exec(env, c, live, old(Now()), fd, cmd, args)
    {
      hide Find, RangeBounds, ParseInt64;
      var start, stop := ParseInt64(args[2]), ParseInt64(args[3]);
      if start.None? || stop.None? {
        return Error(NOT_AN_INTEGER);
      }
      var items: seq<Bytes>;
      if cmd.LRANGE? {
        items := store.Lrange(args[1], start.value, stop.value, c.now);
      } else {
        MembersSlice(ZsetOf(Seen(Find(store.Contents(), args[1], c.now)).out).entries, start.value, stop.value);
        items := store.Zrange(args[1], start.value, stop.value, c.now);
      }
      return Array(items);
    }

    /** KEYS lists the live keys in the hash table's order. */
    method HandleKeys(c: Clock, fd: int, args: seq<Bytes>) returns (reply: Reply)
      requires |args| >= 2
      modifies store
      ensures Outcome(Now(), Some(reply), []) == Exec(env, c, live, old(Now()), fd, KEYS, args)
    {
      var listed := store.Keys(c.now);
      assert (set k | k in listed) == store.data.Keys;
      return KeySet(set k | k in listed);
    }

    /** The handler of each row of the command table. */
    method Handle(c: Clock, fd: int, cmd: Cmd, args: seq<Bytes>) returns (reply: Option<Reply>, sends: seq<Send>)
      requires |args| >= MinArgs(cmd) && DbOk(store.Contents(), c.now) && ClockOk(c)
      modifies store, blocking
      ensures Outcome(Now(), reply, sends) == Exec(env, c, live, old(Now()), fd, cmd, args)
    {
      hide Exec, DbOk;
      sends := [];
      if cmd.BLPOP? {
        reply := HandleBlpop(c, fd, args);
        return;
      }
      if cmd.XREAD? {
        reply := HandleXread(c, fd, args);
        return;
      }
      var answer: Reply;
      if cmd.RPUSH? || cmd.LPUSH? {
        answer, sends := HandlePush(c, fd, args, cmd.LPUSH?);
      } else if cmd.XADD? {
        answer, sends := HandleXadd(c, fd, args);
      } else if cmd.SET? {
        answer := HandleSet(c, fd, args);
      } else if cmd.MSET? {
        answer := HandleMset(c, fd, args);
      } else if cmd.INCR? {
        answer := HandleIncr(c, fd, args);
      } else if cmd.LPOP? || cmd.RPOP? {
        answer := HandlePop(c, fd, args, cmd.LPOP?);
      } else if cmd.KEYS? {
        answer := HandleKeys(c, fd, args);
      } else if cmd.ZADD? {
        answer := HandleZadd(c, fd, args);
      } else if cmd.ZREM? {
        answer := HandleZrem(c, fd, args);
      } else if cmd.GEOADD? {
        answer := HandleGeoadd(c, fd, args);
      } else {
        answer := HandleRead(c, fd, cmd, args);
      }
      return Some(answer), sends;
    }
  }

  // ---------------------------------------------------------------- facts the handlers need

  ghost function Pushed(p: Pushing, v: Bytes, left: bool): (r: Pushing) {
    var e := Push(p.entry, v, left);
    p.(entry := e.entry, touches := p.touches + e.touches, count := e.out)
  }

  /** The definition of PushRest, one value deep. */
  lemma PushTurn(p: Pushing, key: Bytes, vals: seq<Bytes>, left: bool, live: bool)
    ensures vals == [] ==> PushRest(p, key, vals, left, live) == p
    ensures vals != [] ==>
      PushRest(p, key, vals, left, live)
        == PushRest(if live && Queue(p.wait, key) != [] then TryWake(p, key) else Pushed(p, vals[0], left), key,
                    vals[1..], left, live)
  {
    hide Push, TryWake, Queue;
  }

  lemma AddedEntry(db: Db, key: Bytes, id: Bytes, fields: seq<(Bytes, Bytes)>, c: Clock)
    requires DbOk(db, c.now) && ClockOk(c) && fields != []
    ensures var e := XaddIf(Find(db, key, c.now), id, fields, c.wall);
      e.out.Added? ==> LiveEntry(e.entry, c.now) && e.entry.value.value.Strm? && ParseId(e.out.id).Some? &&
                       DbOk(Put(db, key, e.entry, e.touches), c.now)
  {
    hide DbOk, ChooseId, ParseId, StreamOk, AppendEntry;
    var cur := Find(db, key, c.now);
    FindOk(db, key, c.now);
    FindIsLive(db, key, c.now);
    var e := XaddIf(cur, id, fields, c.wall);
    if e.out.Added? {
      var s := StreamHolder(cur).value.stream;
      EmptyStreamOk();
      XaddKeepsOrder(s, id, fields, c.wall);
      ChosenIdParses(s, id, c.wall);
      AddedText(s, ChooseId(s, id, c.wall), fields);
      XaddLive(cur, id, fields, c.wall, c.now);
      PutOk(db, key, e.entry, e.touches, c.now);
    }
  }

  lemma AddedText(stream: seq<StreamEntry>, choice: Option<Choice>, fields: seq<(Bytes, Bytes)>)
    requires AppendEntry(stream, choice, fields).1.Added?
    ensures choice.Some? && AppendEntry(stream, choice, fields).1.id == choice.value.text
  {}

  lemma ShorterQueue(w: Waiting, key: Bytes, id: StreamId)
    requires WakeBehind(w, key, id).1.Some?
    ensures |Queue(WakeBehind(w, key, id).0, key)| < |Queue(w, key)|
  {}

  method HasData(results: seq<(Bytes, seq<StreamEntry>)>) returns (r: bool)
    ensures r == AnyData(results)
  {
    for i := 0 to |results|
      invariant forall j :: 0 <= j < i ==> results[j].1 == []
    {
      if results[i].1 != [] {
        return true;
      }
    }
    return false;
  }

  /** Looking at a key twice is looking at it once. */
  lemma VisitOnce(db: Db, key: Bytes, now: int)
    requires DbOk(db, now)
    ensures var next := Apply(db, key, Seen(Find(db, key, now)));
      DbOk(next, now) && Find(next, key, now) == Find(db, key, now) &&
      Apply(next, key, Seen(Find(next, key, now))) == next
  {
    hide DbOk, EntryOk;
    FindOk(db, key, now);
    PutOk(db, key, Find(db, key, now), 0, now);
  }

  lemma VisitOne(db: Db, here: Db, key: Bytes, now: int)
    requires DbOk(here, now) && Frame(db, here, {}, now)
    ensures Find(here, key, now) == Find(db, key, now)
    ensures var next := Apply(here, key, Seen(Find(here, key, now))); DbOk(next, now) && Frame(db, next, {}, now)
  {
    hide DbOk, EntryOk;
    VisitOnce(here, key, now);
    PutFrame(here, key, Find(here, key, now), 0, now);
    FrameTrans(db, here, Apply(here, key, Seen(Find(here, key, now))), {}, {}, now);
    var none: set<Bytes> := {};
    assert none + none == none;
  }

  lemma SplitRead(db: Db, keys: seq<Bytes>, ids: seq<Bytes>, i: nat, now: int)
    requires |keys| == |ids| && i < |keys|
    ensures ReadAll(db, keys[i..], ids[i..], now)
         == [(keys[i], ReadOne(db, keys[i], ids[i], now))] + ReadAll(db, keys[i + 1..], ids[i + 1..], now)
    ensures forall here :: Visit(here, keys[i..], now)
                        == Visit(Apply(here, keys[i], Seen(Find(here, keys[i], now))), keys[i + 1..], now)
  {
    hide ReadOne, Find, Apply;
    assert keys[i..][1..] == keys[i + 1..] && ids[i..][1..] == ids[i + 1..];
  }

  lemma SeenAgain(db: Db, key: Bytes, now: int, before: Db, keys: seq<Bytes>)
    requires keys != [] && key == keys[0] && db == Visit(before, keys, now)
    ensures Apply(db, key, Seen(Find(db, key, now))) == db
  {
    VisitDropsDead(before, keys, now, key);
  }

  /** After a visit the visited keys hold no dead entry. */
  lemma {:induction false} VisitDropsDead(db: Db, keys: seq<Bytes>, now: int, key: Bytes)
    requires key in keys || key !in db.data || !Expired(db.data[key], now)
    ensures var r := Visit(db, keys, now); key !in r.data || !Expired(r.data[key], now)
    decreases |keys|
  {
    if keys != [] {
      var next := Apply(db, keys[0], Seen(Find(db, keys[0], now)));
      assert key in keys ==> key == keys[0] || key in keys[1..];
      VisitDropsDead(next, keys[1..], now, key);
    }
  }

  lemma ZsetSeen(db: Db, key: Bytes, now: int)
    requires DbOk(db, now)
    ensures Valid(ZsetOf(Seen(Find(db, key, now)).out))
  {
    hide Valid;
    NothingIsValid();
  }

  lemma RankIs(db: Db, key: Bytes, member: Bytes, now: int)
    requires Valid(ZsetOf(Seen(Find(db, key, now)).out))
    ensures var z := ZsetOf(Seen(Find(db, key, now)).out);
      member in z.index ==>
        Below(z.entries, z.index[member]) == RankOf(Scores(z), member)
  {
    hide Valid, Below, RankOf;
    var z := ZsetOf(Seen(Find(db, key, now)).out);
    if member in z.index { RankCounts(z, member); }
  }

  lemma CardIs(db: Db, key: Bytes, now: int)
    requires Valid(ZsetOf(Seen(Find(db, key, now)).out))
    ensures var z := ZsetOf(Seen(Find(db, key, now)).out); |z.index| == |Scores(z)|
  {
    hide Valid, Find;
    Cardinality(ZsetOf(Seen(Find(db, key, now)).out));
  }

  lemma ScoreIs(z: ZSet, member: Bytes)
    ensures member in Scores(z) <==> member in z.index
    ensures member in z.index ==> Scores(z)[member] == z.index[member].0
  {}
}
