/** What the append-only file does not bring back: pops for waiting clients, deadlines and generated ids. Each has the exact
    condition under which the file is still right. */
module RecoveryLimits {
  import opened Base
  import opened StreamIds
  import opened Resp
  import opened Keyspace
  import opened Blocking
  import opened Commands
  import opened Expiry
  import opened Sessions
  import opened CommandLoop
  import opened Snapshot
  import Wakeups
  import opened Laws
  import opened Aof
  import opened WriteEffects
  import opened Transactions

  predicate Runs(args: seq<Bytes>, cmd: Cmd) {
    args != [] && VerbOf(ToUpper(args[0])) == Data && Lookup(ToUpper(args[0])) == Some(cmd) && |args| >= MinArgs(cmd)
  }

  function ItemsAt(data: map<Bytes, Entry>, key: Bytes): (r: seq<Bytes>) {
    ItemsOf(if key in data then Some(data[key].value) else None)
  }

  lemma StepRuns(env: Env, c: Clock, live: bool, s: Server, fd: int, cmd: Cmd, args: seq<Bytes>)
    requires Runs(args, cmd) && s.txs == map[]
    ensures Step(env, c, live, s, fd, args).server == s.(core := Exec(env, c, live, s.core, fd, cmd, args).core)
  {
    hide VerbOf, Lookup, ToUpper, Exec;
  }

  lemma NotAWrite(args: seq<Bytes>, cmd: Cmd)
    requires Runs(args, cmd) && (cmd.BLPOP? || cmd.XREAD?)
    ensures !IsLogged(args)
  {}

  // ---------------------------------------------------------------- a pop that is not logged

  lemma BlpopData(env: Env, c: Clock, core: Core, fd: int, args: seq<Bytes>)
    requires |args| >= 3 && NoTtl(core.db) && env.parse(args[2]).Some? && env.parse(args[2]).value >= 0
    ensures var r := Exec(env, c, true, core, fd, BLPOP, args).core.db.data;
      r == core.db.data <==> ItemsAt(core.db.data, args[1]) == []
  {
    hide Block, Reversed, NoTtl, Find;
    var key, data := args[1], core.db.data;
    FindIsData(core.db, key, c.now);
    if key in data && data[key].value.Lst? {
      var items := data[key].value.items;
      if items == [] {
        assert items[0..] == items && data[key := data[key]] == data;
      } else {
        assert |items[1..]| < |items|;
      }
    } else if key in data {
      assert data[key := data[key]] == data;
    } else {
      assert data - {key} == data;
    }
  }

  /** BLPOP is not in the write list: after one that is accepted, the file restores the data exactly when there was
      nothing to pop. */
  lemma BlpopRecovers(env: Env, c: Clock, l: Life, fd: int, w: Bytes)
    requires Safe(env, l) && IsFrame(w) && Runs(FrameArgs(w), BLPOP)
    requires env.parse(FrameArgs(w)[2]).Some? && env.parse(FrameArgs(w)[2]).value >= 0
    ensures var r := Serve(l, RunParsed(env, c, true, l.server, fd, Parsed(FrameArgs(w), |w|), w));
      Recovers(env, FileOf(r.disk, r.disk.manifest), r.server.core.db.data) <==>
      ItemsAt(l.server.core.db.data, FrameArgs(w)[1]) == []
  {
    hide Recovers, RunParsed, IsFrame, Runs, Exec, Step, Calm, ItemsAt;
    var args := FrameArgs(w);
    CalmIsBare(l.server);
    RunParsedWhole(env, c, l.server, fd, args, w);
    NotAWrite(args, BLPOP);
    StepRuns(env, c, true, l.server, fd, BLPOP, args);
    HasThree(args);
    BlpopData(env, c, l.server.core, fd, args);
    var r := Step(env, c, true, l.server, fd, args).server;
    OneMeaning(env, FileOf(l.disk, l.disk.manifest), l.server.core.db.data, r.core.db.data);
  }

  lemma HasThree(args: seq<Bytes>)
    requires Runs(args, BLPOP)
    ensures |args| >= 3
  {}

  /** An XREAD, blocking or not, leaves the data and the file as they are. */
  lemma XreadRecovers(env: Env, c: Clock, l: Life, fd: int, w: Bytes)
    requires Safe(env, l) && IsFrame(w) && Runs(FrameArgs(w), XREAD)
    ensures var r := Serve(l, RunParsed(env, c, true, l.server, fd, Parsed(FrameArgs(w), |w|), w));
      r.server.core.db == l.server.core.db && r.disk == l.disk
  {
    hide Recovers, RunParsed, IsFrame, Runs, Exec, Step, Calm;
    var args := FrameArgs(w);
    CalmIsBare(l.server);
    RunParsedWhole(env, c, l.server, fd, args, w);
    NotAWrite(args, XREAD);
    StepRuns(env, c, true, l.server, fd, XREAD, args);
    XreadArity(args);
    XreadData(env, c, l.server.core, fd, args);
  }

  lemma XreadArity(args: seq<Bytes>)
    requires Runs(args, XREAD)
    ensures |args| >= 4
  {}

  lemma XreadData(env: Env, c: Clock, core: Core, fd: int, args: seq<Bytes>)
    requires |args| >= 4 && NoTtl(core.db)
    ensures Exec(env, c, true, core, fd, XREAD, args).core.db == core.db
  {
    hide Block, ReadAll, ParseRead, Visit, WaiterId, AnyData;
    if ParseRead(args).ReadOk? { VisitNothing(core.db, ParseRead(args).keys, c.now); }
  }

  lemma {:induction false} VisitNothing(db: Db, keys: seq<Bytes>, now: int)
    requires NoTtl(db)
    ensures Visit(db, keys, now) == db
    decreases |keys|
  {
    hide NoTtl;
    if keys != [] {
      FindIsData(db, keys[0], now);
      LookChangesNothing(db, keys[0]);
      VisitNothing(db, keys[1..], now);
    }
  }

  lemma LookChangesNothing(db: Db, key: Bytes)
    ensures Put(db, key, if key in db.data then Some(db.data[key]) else None, 0) == db
  {
    assert key in db.data ==> db.data[key := db.data[key]] == db.data;
    assert key !in db.data ==> db.data - {key} == db.data;
  }

  // ---------------------------------------------------------------- a push that is partly handed out

  lemma {:induction false} PushRestLength(p: Pushing, key: Bytes, vals: seq<Bytes>, left: bool)
    requires p.entry.Some? && p.entry.value.value.Lst?
    ensures var r := PushRest(p, key, vals, left, true);
      r.entry.Some? && r.entry.value.value.Lst? &&
      |r.entry.value.value.items| <= |p.entry.value.value.items| + |vals|
    decreases |vals|
  {
    hide Wake, Reversed;
    if vals != [] {
      if Queue(p.wait, key) != [] {
        PushRestLength(TryWake(p, key), key, vals[1..], left);
      } else {
        var e := Push(p.entry, vals[0], left);
        PushRestLength(p.(entry := e.entry, touches := p.touches + e.touches, count := e.out), key, vals[1..], left);
      }
    }
  }

  /** With somebody waiting, fewer elements stay than were there and were given. */
  lemma PushWithWaiters(cur: Option<Entry>, wait: Waiting, args: seq<Bytes>, left: bool)
    requires |args| >= 3 && (cur.Some? ==> cur.value.value.Lst?) && Queue(wait, args[1]) != []
    ensures var a := ActPush(true, cur, wait, args, left).change;
      a.Some? && a.value.entry.Some? && a.value.entry.value.value.Lst? &&
      |a.value.entry.value.value.items| < |ListEntry(cur).value.items| + |args| - 2
  {
    hide PushRest, Wake, Reversed;
    var e := PushIf(cur, args[2], left);
    var p := Pushing(e.entry, e.touches, wait, [], e.out.value);
    PushRestLength(TryWake(p, args[1]), args[1], args[3..], left);
  }

  /** With nobody waiting, all of them stay, whoever waits elsewhere. */
  lemma PushWithout(cur: Option<Entry>, wait: Waiting, args: seq<Bytes>, left: bool)
    requires |args| >= 3 && (cur.Some? ==> cur.value.value.Lst?) && Queue(wait, args[1]) == []
    ensures var items := ListEntry(cur).value.items;
      var first := if left then [args[2]] + items else items + [args[2]];
      var a := ActPush(true, cur, wait, args, left).change;
      a.Some? && a.value.entry == Some(ListEntry(cur).(value := Lst(WithAll(first, args[3..], left)))) &&
      |WithAll(first, args[3..], left)| == |items| + |args| - 2
  {
    hide PushRest, Reversed, WithAll;
    var e := PushIf(cur, args[2], left);
    var p := Pushing(e.entry, e.touches, wait, [], e.out.value);
    PushAll(p, args[1], args[3..], left, true);
    AllLength(p.entry.value.value.items, args[3..], left);
  }

  lemma AllLength(items: seq<Bytes>, vals: seq<Bytes>, left: bool)
    ensures |WithAll(items, vals, left)| == |items| + |vals|
  {
    ReversedTwice(vals);
  }

  function PushCmd(left: bool): (cmd: Cmd) {
    if left then LPUSH else RPUSH
  }

  predicate TakesList(data: map<Bytes, Entry>, key: Bytes) {
    key in data ==> data[key].value.Lst?
  }

  /** The data after a push, with these waiters and with none. */
  lemma PushData(env: Env, c: Clock, core: Core, fd: int, args: seq<Bytes>, left: bool)
    requires |args| >= 3 && NoTtl(core.db)
    ensures var x := Exec(env, c, true, core, fd, PushCmd(left), args).core.db.data;
      var y := Exec(env, c, true, core.(wait := NO_WAITERS), fd, PushCmd(left), args).core.db.data;
      x == y <==> Queue(core.wait, args[1]) == [] || !TakesList(core.db.data, args[1])
  {
    hide ActPush, NoTtl, Find, WithAll;
    var key, data := args[1], core.db.data;
    FindIsData(core.db, key, c.now);
    var cur := Find(core.db, key, c.now);
    if TakesList(data, key) {
      PushWithout(cur, NO_WAITERS, args, left);
      if Queue(core.wait, key) == [] {
        PushWithout(cur, core.wait, args, left);
      } else {
        PushWithWaiters(cur, core.wait, args, left);
        var x := Exec(env, c, true, core, fd, PushCmd(left), args).core.db.data;
        var y := Exec(env, c, true, core.(wait := NO_WAITERS), fd, PushCmd(left), args).core.db.data;
        assert |x[key].value.items| < |y[key].value.items|;
      }
    } else {
      PushRefused(cur, core.wait, args, left);
      PushRefused(cur, NO_WAITERS, args, left);
    }
  }

  lemma PushRefused(cur: Option<Entry>, wait: Waiting, args: seq<Bytes>, left: bool)
    requires |args| >= 3 && cur.Some? && !cur.value.value.Lst?
    ensures ActPush(true, cur, wait, args, left).change == Some(Change(cur, 0))
  {
    hide PushRest;
  }

  /** The pops for woken clients are not logged: after a push, the file restores the data exactly when nobody waited on
      the key, or the push was refused. */
  lemma PushRecovers(env: Env, c: Clock, file: Bytes, s: Server, fd: int, w: Bytes, left: bool)
    requires IsFrame(w) && Runs(FrameArgs(w), PushCmd(left)) && ClockOk(c)
    requires s.txs == map[] && Calm(s.(core := s.core.(wait := NO_WAITERS))) && Recovers(env, file, s.core.db.data)
    ensures var r := Step(env, c, true, s, fd, FrameArgs(w)).server;
      Recovers(env, file + w, r.core.db.data) <==>
      Queue(s.core.wait, FrameArgs(w)[1]) == [] || !TakesList(s.core.db.data, FrameArgs(w)[1])
  {
    hide Recovers, IsFrame, Runs, Exec, Step, Calm, TakesList;
    var args, calm := FrameArgs(w), s.(core := s.core.(wait := NO_WAITERS));
    PushIsDurable(args, left);
    CalmIsBare(calm);
    LoggedRecovers(env, file, c, calm, fd, w);
    StepRuns(env, c, true, s, fd, PushCmd(left), args);
    StepRuns(env, c, true, calm, fd, PushCmd(left), args);
    PushData(env, c, s.core, fd, args, left);
    OneMeaning(env, file + w, Step(env, c, true, calm, fd, args).server.core.db.data,
               Step(env, c, true, s, fd, args).server.core.db.data);
  }

  lemma PushIsDurable(args: seq<Bytes>, left: bool)
    requires Runs(args, PushCmd(left))
    ensures DurableArgs(args) && IsLogged(args) && |args| >= 3
  {}

  // ---------------------------------------------------------------- one more command on replay

  /** A file with one more command is the file, then the command. */
  lemma ReplayOne(env: Env, at: nat -> Clock, file: Bytes, data: map<Bytes, Entry>, w: Bytes)
    requires Recovers(env, file, data) && AllClocks(at) && IsFrame(w) && FrameArgs(w) != []
    ensures var before := Process(env, at, 0, false, FRESH_SERVER, -1, file);
      Calm(before.server) && before.server.core.db.data == data &&
      Process(env, at, 0, false, FRESH_SERVER, -1, file + w).server
        == Step(env, at(before.count), false, before.server, -1, FrameArgs(w)).server
  {
    hide Process, Step, IsFrame, Framed, Calm, RunParsed;
    var before := Process(env, at, 0, false, FRESH_SERVER, -1, file);
    assert Restores(env, at, file, data);
    ProcessAppend(env, at, 0, false, FRESH_SERVER, -1, file, w);
    ProcessFrame(env, at, before.count, false, before.server, -1, w, []);
    StepAnswers(env, at(before.count), before.server, -1, FrameArgs(w));
    RunParsedIs(env, at(before.count), before.server, FrameArgs(w), w);
    JoinFields(before, RunParsed(env, at(before.count), false, before.server, -1, Parsed(FrameArgs(w), |w|), w));
  }

  // ---------------------------------------------------------------- deadlines

  lemma SetWithTtl(env: Env, c: Clock, live: bool, core: Core, fd: int, args: seq<Bytes>, ttl: nat)
    requires |args| >= 3 && ScanOptions(args, 3, None) == TtlIs(Some(ttl)) && NoTtl(core.db)
    requires args[1] in core.db.data ==> core.db.data[args[1]].value.Str?
    ensures Exec(env, c, live, core, fd, SET, args).core.db.data
         == core.db.data[args[1] := Entry(Str(args[2]), Some(c.now + ttl))]
  {
    hide ActSet, ScanOptions, NoTtl, Find, Touch, Exec;
    FindIsData(core.db, args[1], c.now);
    ActSetTtl(c, Find(core.db, args[1], c.now), core.wait, args, ttl);
    SetIs(env, c, live, core, fd, args);
  }

  lemma SetIs(env: Env, c: Clock, live: bool, core: Core, fd: int, args: seq<Bytes>)
    requires |args| >= 3
    ensures Exec(env, c, live, core, fd, SET, args)
         == Perform(core, args[1], ActSet(c, Find(core.db, args[1], c.now), core.wait, args))
  {
    hide ActSet, Find, GeoRefused, Perform;
  }

  lemma ActSetTtl(c: Clock, cur: Option<Entry>, wait: Waiting, args: seq<Bytes>, ttl: nat)
    requires |args| >= 3 && ScanOptions(args, 3, None) == TtlIs(Some(ttl)) && (cur.Some? ==> cur.value.value.Str?)
    ensures ActSet(c, cur, wait, args).change == Some(Change(Some(Entry(Str(args[2]), Some(c.now + ttl))), 1))
  {
    hide ScanOptions;
  }

  /** A SET with a time to live is logged as it came, so its deadline counts from the replay: the file restores the data
      exactly when the command is replayed at the clock reading it was first run at. */
  lemma TtlRecovers(env: Env, c: Clock, l: Life, fd: int, w: Bytes, ttl: nat, at: nat -> Clock)
    requires Safe(env, l) && IsFrame(w) && Runs(FrameArgs(w), SET) && AllClocks(at)
    requires |FrameArgs(w)| >= 3 && ScanOptions(FrameArgs(w), 3, None) == TtlIs(Some(ttl))
    requires FrameArgs(w)[1] in l.server.core.db.data ==> l.server.core.db.data[FrameArgs(w)[1]].value.Str?
    ensures
      var file := l.disk.files[l.disk.manifest];
      var n := Process(env, at, 0, false, FRESH_SERVER, -1, file).count;
      Process(env, at, 0, false, FRESH_SERVER, -1, file + w).server.core.db.data
        == Step(env, c, true, l.server, fd, FrameArgs(w)).server.core.db.data
      <==> at(n).now == c.now
  {
    hide Process, Recovers, IsFrame, Exec, Step, Calm, ScanOptions, VerbOf, Lookup, ToUpper;
    var args, file := FrameArgs(w), l.disk.files[l.disk.manifest];
    var before := Process(env, at, 0, false, FRESH_SERVER, -1, file);
    ReplayOne(env, at, file, l.server.core.db.data, w);
    CalmIsBare(l.server);
    CalmIsBare(before.server);
    StepRuns(env, c, true, l.server, fd, SET, args);
    StepRuns(env, at(before.count), false, before.server, -1, SET, args);
    SetWithTtl(env, c, true, l.server.core, fd, args, ttl);
    SetWithTtl(env, at(before.count), false, before.server.core, -1, args, ttl);
    DifferentDeadlines(l.server.core.db.data, args[1], args[2], c.now + ttl, at(before.count).now + ttl);
  }

  lemma DifferentDeadlines(data: map<Bytes, Entry>, key: Bytes, text: Bytes, a: int, b: int)
    ensures data[key := Entry(Str(text), Some(a))] == data[key := Entry(Str(text), Some(b))] <==> a == b
  {
    assert data[key := Entry(Str(text), Some(a))][key].expiry == Some(a);
    assert data[key := Entry(Str(text), Some(b))][key].expiry == Some(b);
  }

  // ---------------------------------------------------------------- generated ids

  /** The stream after an XADD with id `*` at this wall clock. */
  function Generated(stream: seq<StreamEntry>, fields: seq<(Bytes, Bytes)>, wall: int): (r: seq<StreamEntry>) {
    AppendEntry(stream, ChooseId(stream, "*", wall), fields).0
  }

  predicate TakesStream(data: map<Bytes, Entry>, key: Bytes) {
    key in data ==> data[key].value.Strm?
  }

  function StreamIn(data: map<Bytes, Entry>, key: Bytes): (r: seq<StreamEntry>) {
    StreamOf(if key in data then Some(data[key].value) else None)
  }

  lemma XaddGenerated(env: Env, c: Clock, live: bool, core: Core, fd: int, args: seq<Bytes>)
    requires |args| >= 4 && |args[3..]| % 2 == 0 && args[2] == "*" && NoTtl(core.db) && TakesStream(core.db.data, args[1])
    ensures Exec(env, c, live, core, fd, XADD, args).core.db.data
         == core.db.data[args[1] := Entry(Strm(Generated(StreamIn(core.db.data, args[1]), Pairs(args[3..]), c.wall)), None)]
  {
    hide AppendEntry, ChooseId, ServeReaders, ParseId, Find, Pairs;
    FindIsData(core.db, args[1], c.now);
  }

  /** Two wall clocks give the same stream only if they are equal, once the first was accepted. */
  lemma WallShows(stream: seq<StreamEntry>, fields: seq<(Bytes, Bytes)>, a: int, b: int)
    requires AppendEntry(stream, ChooseId(stream, "*", a), fields).1.Added?
    ensures Generated(stream, fields, a) == Generated(stream, fields, b) <==> a == b
  {
    hide IdText, Less, Wrap64;
    var x, y := Generated(stream, fields, a), Generated(stream, fields, b);
    assert |x| == |stream| + 1 && x[|stream|].parsed.timestamp == a;
    if AppendEntry(stream, ChooseId(stream, "*", b), fields).1.Added? {
      assert |y| == |stream| + 1 && y[|stream|].parsed.timestamp == b;
    } else {
      assert |y| == |stream|;
    }
  }

  /** An accepted XADD with id `*` is logged as it came, so its id is generated again on replay: the file restores the data
      exactly when the command is replayed at the wall clock it was first run at. */
  lemma GeneratedIdRecovers(env: Env, c: Clock, l: Life, fd: int, w: Bytes, at: nat -> Clock)
    requires Safe(env, l) && IsFrame(w) && Runs(FrameArgs(w), XADD) && AllClocks(at)
    requires |FrameArgs(w)| >= 4 && |FrameArgs(w)[3..]| % 2 == 0 && FrameArgs(w)[2] == "*"
    requires TakesStream(l.server.core.db.data, FrameArgs(w)[1])
    requires
      var stream := StreamIn(l.server.core.db.data, FrameArgs(w)[1]);
      AppendEntry(stream, ChooseId(stream, "*", c.wall), Pairs(FrameArgs(w)[3..])).1.Added?
    ensures
      var file := l.disk.files[l.disk.manifest];
      var n := Process(env, at, 0, false, FRESH_SERVER, -1, file).count;
      Process(env, at, 0, false, FRESH_SERVER, -1, file + w).server.core.db.data
        == Step(env, c, true, l.server, fd, FrameArgs(w)).server.core.db.data
      <==> at(n).wall == c.wall
  {
    hide Process, Recovers, IsFrame, Exec, Step, Calm, VerbOf, Lookup, ToUpper, Generated, AppendEntry, ChooseId, Pairs;
    var args, file := FrameArgs(w), l.disk.files[l.disk.manifest];
    var before := Process(env, at, 0, false, FRESH_SERVER, -1, file);
    ReplayOne(env, at, file, l.server.core.db.data, w);
    CalmIsBare(l.server);
    CalmIsBare(before.server);
    StepRuns(env, c, true, l.server, fd, XADD, args);
    StepRuns(env, at(before.count), false, before.server, -1, XADD, args);
    XaddGenerated(env, c, true, l.server.core, fd, args);
    XaddGenerated(env, at(before.count), false, before.server.core, -1, args);
    var stream := StreamIn(l.server.core.db.data, args[1]);
    WallShows(stream, Pairs(args[3..]), c.wall, at(before.count).wall);
    DifferentStreams(l.server.core.db.data, args[1], Generated(stream, Pairs(args[3..]), c.wall),
                     Generated(stream, Pairs(args[3..]), at(before.count).wall));
  }

  lemma DifferentStreams(data: map<Bytes, Entry>, key: Bytes, a: seq<StreamEntry>, b: seq<StreamEntry>)
    ensures data[key := Entry(Strm(a), None)] == data[key := Entry(Strm(b), None)] <==> a == b
  {
    assert data[key := Entry(Strm(a), None)][key].value == Strm(a);
    assert data[key := Entry(Strm(b), None)][key].value == Strm(b);
  }

  // ---------------------------------------------------------------- a run

  /** A concrete run: client 2 waits with BLPOP k 0, client 1 pushes a; the element goes to client 2, the server holds an
      empty list, and the file restores the list with the element in it. */
  lemma WokenPopExample(env: Env, c: Clock)
    requires env.parse("0") == Some(0) && ClockOk(c)
    ensures
      var w := EncodeArray(["RPUSH", "k", "a"]);
      var s := Step(env, c, true, FRESH_SERVER, 2, ["BLPOP", "k", "0"]).server;
      var r := Step(env, c, true, s, 1, ["RPUSH", "k", "a"]);
      r.sends == [Send(2, Array(["k", "a"]))] && r.server.core.db.data == map["k" := Entry(Lst([]), None)] &&
      Recovers(env, w, map["k" := Entry(Lst(["a"]), None)]) && !Recovers(env, w, r.server.core.db.data)
  {
    hide Recovers, EncodeArray, IsFrame, Step, Logged;
    var w, args := EncodeArray(["RPUSH", "k", "a"]), ["RPUSH", "k", "a"];
    EncodedIsFrame(args);
    ExampleRuns();
    BirthSafe(env);
    LoggedRecovers(env, [], c, FRESH_SERVER, 1, w);
    assert [] + w == w;
    PlainPush(env, c);
    WaitThenPush(env, c);
    OneMeaning(env, w, map["k" := Entry(Lst(["a"]), None)], map["k" := Entry(Lst([]), None)]);
    DifferentLists();
  }

  lemma DifferentLists()
    ensures map["k" := Entry(Lst(["a"]), None)] != map["k" := Entry(Lst([]), None)]
  {
    assert map["k" := Entry(Lst(["a"]), None)]["k"] != map["k" := Entry(Lst([]), None)]["k"];
  }

  lemma ExampleRuns()
    ensures Runs(["BLPOP", "k", "0"], BLPOP) && Runs(["RPUSH", "k", "a"], RPUSH) && DurableArgs(["RPUSH", "k", "a"])
  {
    assert ToUpper("BLPOP") == "BLPOP" && ToUpper("RPUSH") == "RPUSH";
  }

  lemma PlainPush(env: Env, c: Clock)
    ensures Step(env, c, true, FRESH_SERVER, 1, ["RPUSH", "k", "a"]).server.core.db.data
         == map["k" := Entry(Lst(["a"]), None)]
  {
    hide Step;
    ExampleRuns();
    StepRuns(env, c, true, FRESH_SERVER, 1, RPUSH, ["RPUSH", "k", "a"]);
    assert ["RPUSH", "k", "a"][3..] == [] && [] + ["a"] == ["a"];
  }

  lemma WaitThenPush(env: Env, c: Clock)
    requires env.parse("0") == Some(0)
    ensures var s := Step(env, c, true, FRESH_SERVER, 2, ["BLPOP", "k", "0"]).server;
      var r := Step(env, c, true, s, 1, ["RPUSH", "k", "a"]);
      r.sends == [Send(2, Array(["k", "a"]))] && r.server.core.db.data == map["k" := Entry(Lst([]), None)]
  {
    hide Step, Exec;
    ExampleRuns();
    var args := ["RPUSH", "k", "a"];
    var s := Step(env, c, true, FRESH_SERVER, 2, ["BLPOP", "k", "0"]).server;
    StepRuns(env, c, true, FRESH_SERVER, 2, BLPOP, ["BLPOP", "k", "0"]);
    BlpopWaits(env, c);
    StepSends(env, c, s, 1, args);
    FedPush(env, c, s.core);
  }

  lemma BlpopWaits(env: Env, c: Clock)
    requires env.parse("0") == Some(0)
    ensures var r := Exec(env, c, true, FRESH_SERVER.core, 2, BLPOP, ["BLPOP", "k", "0"]).core;
      r.db.data == map[] && |Queue(r.wait, "k")| == 1 && Queue(r.wait, "k")[0].fd == 2
  {}

  lemma StepSends(env: Env, c: Clock, s: Server, fd: int, args: seq<Bytes>)
    requires Runs(args, RPUSH) && s.txs == map[]
    ensures var o := Exec(env, c, true, s.core, fd, RPUSH, args);
      Step(env, c, true, s, fd, args) == StepOut(s.(core := o.core), o.reply, o.sends)
  {
    hide VerbOf, Lookup, ToUpper, Exec;
  }

  lemma FedPush(env: Env, c: Clock, core: Core)
    requires core.db.data == map[] && |Queue(core.wait, "k")| == 1 && Queue(core.wait, "k")[0].fd == 2
    ensures var o := Exec(env, c, true, core, 1, RPUSH, ["RPUSH", "k", "a"]);
      o.sends == [Send(2, Array(["k", "a"]))] && o.core.db.data == map["k" := Entry(Lst([]), None)]
  {
    hide ActPush, Queue;
    var args := ["RPUSH", "k", "a"];
    Wakeups.PushFeedsFront(None, core.wait, args, false);
    PushWithWaiters(None, core.wait, args, false);
    KeepsNoDeadline(core.wait, args);
    assert [] + ["a"] == ["a"] && ["a"][1..] == [];
  }

  lemma KeepsNoDeadline(wait: Waiting, args: seq<Bytes>)
    requires |args| == 3
    ensures var a := ActPush(true, None, wait, args, false).change;
      a.Some? && a.value.entry.Some? && a.value.entry.value.expiry == None
  {
    hide Wake, Reversed;
    assert args[3..] == [];
  }
}
