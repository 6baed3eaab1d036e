/** The append-only file and its background rewrite (src/aof/aof_manager.cpp), and what it means that a file restores the
    data.

    Files are byte strings under their sequence number; the manifest names one of them. The rewrite child's output is
    fixed by the fork; it reaches the disk when the child succeeds. */
module Aof {
  import opened Base
  import opened Resp
  import opened Keyspace
  import opened Blocking
  import opened Commands
  import opened Invariants
  import opened Expiry
  import opened Sessions
  import opened CommandLoop
  import opened Snapshot
  import opened Rebuild

  /** `open` is the file that writes go to, `child` what the forked child writes if it succeeds. */
  datatype Disk = Disk(files: map<nat, Bytes>, manifest: nat, open: nat, current: nat, rewriting: bool, buffer: Bytes,
                       child: Bytes)

  const FRESH_DISK: Disk := Disk(map[1 := []], 1, 1, 1, false, [], [])

  function FileOf(d: Disk, n: nat): (r: Bytes) {
    if n in d.files then d.files[n] else []
  }

  /** `append`, then `append_to_rewrite_buffer`. */
  function LogTo(d: Disk, data: Bytes): (r: Disk) {
    d.(files := d.files[d.open := FileOf(d, d.open) + data], buffer := if d.rewriting then d.buffer + data else d.buffer)
  }

  /** What the file holds after a batch; a batch without writes does not touch it. */
  function Logged(d: Disk, log: Bytes): (r: Disk) {
    if log == [] then d else LogTo(d, log)
  }

  /** Logging twice is logging the concatenation. */
  lemma LogTwice(d: Disk, a: Bytes, b: Bytes)
    ensures Logged(Logged(d, a), b) == Logged(d, a + b)
  {
    assert FileOf(d, d.open) + a + b == FileOf(d, d.open) + (a + b);
    assert d.buffer + a + b == d.buffer + (a + b);
    assert a == [] ==> a + b == b;
    assert b == [] ==> a + b == a;
  }

  /** `start_rewrite`, when the fork succeeds. */
  function Fork(d: Disk, snapshot: Bytes): (r: Disk) {
    if d.rewriting then d else d.(rewriting := true, buffer := [], child := snapshot)
  }

  /** What `waitpid` reports; a failed child may leave part of a file behind. */
  datatype ChildStatus = Running | Failed(partial: Bytes) | Finished

  /** `check_rewrite_complete`: append the buffered tail, point the manifest at the new file, reopen. */
  function Reap(d: Disk, status: ChildStatus): (r: Disk) {
    if !d.rewriting then d
    else
      match status
      case Running => d
      case Failed(partial) => d.(files := d.files[d.current + 1 := partial], rewriting := false, buffer := [])
      case Finished =>
        var n := d.current + 1;
        Disk(d.files[n := d.child + d.buffer], n, n, n, false, [], d.child)
  }

  class AofManager {
    var files: map<nat, Bytes>
    var manifest: nat
    var open: nat
    var currentSeq: nat
    var rewriteInProgress: bool
    var rewriteBuffer: Bytes
    var childOutput: Bytes

    ghost function Contents(): (d: Disk)
      reads this
    {
      Disk(files, manifest, open, currentSeq, rewriteInProgress, rewriteBuffer, childOutput)
    }

    constructor ()
      ensures Contents() == FRESH_DISK
    {
      files, manifest, open, currentSeq := map[1 := []], 1, 1, 1;
      rewriteInProgress, rewriteBuffer, childOutput := false, [], [];
    }

    method Append(data: Bytes)
      modifies this
      ensures Contents() == old(Contents()).(files := old(files)[old(open) := FileOf(old(Contents()), old(open)) + data])
    {
      files := files[open := (if open in files then files[open] else []) + data];
    }

    method AppendToRewriteBuffer(data: Bytes)
      modifies this
      ensures Contents() == old(Contents()).(buffer := if old(rewriteInProgress) then old(rewriteBuffer) + data
                                                       else old(rewriteBuffer))
    {
      if rewriteInProgress {
        rewriteBuffer := rewriteBuffer + data;
      }
    }

    /** Both writes of the command loop. */
    method Log(data: Bytes)
      modifies this
      ensures Contents() == LogTo(old(Contents()), data)
    {
      Append(data);
      AppendToRewriteBuffer(data);
    }

    /** The child works on the keyspace as it is at the fork, in the hash table's order; `forks` is whether the system
        call succeeds. */
    method StartRewrite(env: Env, db: Db, now: int, order: seq<Bytes>, appendonly: bool, forks: bool)
      returns (started: bool)
      requires forall k :: k in order <==> k in db.data
      modifies this
      ensures started == (!old(rewriteInProgress) && appendonly && forks)
      ensures Contents() == if started then Fork(old(Contents()), EncodeAll(SnapshotCmds(env, db, now, order)))
                            else old(Contents())
    {
      if rewriteInProgress || !appendonly {
        return false;
      }
      if !forks {
        return false;
      }
      var output := RewriteChild(env, db, now, order);
      childOutput := output;
      rewriteInProgress := true;
      rewriteBuffer := [];
      return true;
    }

    method CheckRewriteComplete(status: ChildStatus) returns (done: bool)
      modifies this
      ensures done == (old(rewriteInProgress) && !status.Running?)
      ensures Contents() == Reap(old(Contents()), status)
    {
      if !rewriteInProgress || status.Running? {
        return false;
      }
      var newSeq := currentSeq + 1;
      if status.Failed? {
        files := files[newSeq := status.partial];
        rewriteInProgress := false;
        rewriteBuffer := [];
        return true;
      }
      files := files[newSeq := childOutput];
      if rewriteBuffer != [] {
        files := files[newSeq := files[newSeq] + rewriteBuffer];
      }
      manifest := newSeq;
      open := newSeq;
      currentSeq := newSeq;
      rewriteInProgress := false;
      rewriteBuffer := [];
      assert old(childOutput) + [] == old(childOutput);
      assert files == old(files)[newSeq := old(childOutput) + old(rewriteBuffer)];
      return true;
    }

    /** What a restart reads: the file the manifest names, or nothing without append-only mode. Read back and processed
        it gives the live data whenever the file is kept, and nothing otherwise. */
    method ReadAofContent(appendonly: bool) returns (r: Bytes)
      ensures !appendonly ==> r == []
      ensures appendonly ==> r == FileOf(Contents(), manifest)
      ensures forall env, s, at: nat -> Clock :: Safe(env, Life(s, Contents())) && AllClocks(at) ==>
        Process(env, at, 0, false, FRESH_SERVER, -1, r).server.core.db.data
          == if appendonly then s.core.db.data else map[]
    {
      hide Process, Calm;
      r := if appendonly && manifest in files then files[manifest] else [];
      forall env, s, at: nat -> Clock | Safe(env, Life(s, Contents())) && AllClocks(at)
        ensures Process(env, at, 0, false, FRESH_SERVER, -1, r).server.core.db.data
             == if appendonly then s.core.db.data else map[]
      {
        NothingToDo(env, at, 0, false, FRESH_SERVER, -1);
        assert appendonly ==> Restores(env, at, r, s.core.db.data);
      }
    }
  }

  // ---------------------------------------------------------------- replay computes what the live server did

  lemma {:induction false} PushRestMode(p: Pushing, key: Bytes, vals: seq<Bytes>, left: bool)
    requires Queue(p.wait, key) == []
    ensures PushRest(p, key, vals, left, true) == PushRest(p, key, vals, left, false)
    ensures PushRest(p, key, vals, left, false).wait == p.wait && PushRest(p, key, vals, left, false).sends == p.sends
    decreases |vals|
  {
    if vals != [] {
      var e := Push(p.entry, vals[0], left);
      PushRestMode(p.(entry := e.entry, touches := p.touches + e.touches, count := e.out), key, vals[1..], left);
    }
  }

  lemma ServeNobody(wait: Waiting, key: Bytes, id: StreamIds.StreamId, stream: seq<StreamEntry>)
    requires Queue(wait, key) == []
    ensures ServeReaders(wait, key, id, stream, []) == (wait, [])
  {}

  /** With nobody waiting, a command that reads no clock does the same for a client and during replay. */
  lemma ActMode(env: Env, c: Clock, fd: int, cmd: Cmd, cur: Option<Entry>, wait: Waiting, refused: bool, args: seq<Bytes>)
    requires IsSingle(cmd) && |args| >= MinArgs(cmd) && ClockFree(cmd, args) && wait == NO_WAITERS
    ensures var a := ActOn(env, c, true, fd, cmd, cur, wait, refused, args);
      a == ActOn(env, c, false, -1, cmd, cur, wait, refused, args) && a.wait == wait
  {
    hide ScanOptions, SetIf, ActIncr, Zrem, ReadReply, ActZadd, ActGeoadd, Pop, PushRest, ServeReaders, XaddIf,
         StreamIds.ParseId, Decimal.ParseInt64, PushIf, ParseRead;
    if cmd.RPUSH? || cmd.LPUSH? {
      var e := PushIf(cur, args[2], cmd.LPUSH?);
      if e.out.Some? {
        PushRestMode(Pushing(e.entry, e.touches, wait, [], e.out.value), args[1], args[3..], cmd.LPUSH?);
      }
    } else if cmd.XADD? {
      var e := XaddIf(cur, args[2], if |args| % 2 == 1 then Pairs(args[3..]) else [], c.wall);
      if e.out.Added? && StreamIds.ParseId(e.out.id).Some? && e.entry.Some? && e.entry.value.value.Strm? {
        ServeNobody(wait, args[1], StreamIds.ParseId(e.out.id).value, e.entry.value.value.stream);
      }
    } else {
      WaitKept(env, c, fd, cmd, cur, wait, refused, args);
    }
  }

  lemma WaitKept(env: Env, c: Clock, fd: int, cmd: Cmd, cur: Option<Entry>, wait: Waiting, refused: bool, args: seq<Bytes>)
    requires IsSingle(cmd) && |args| >= MinArgs(cmd) && !cmd.RPUSH? && !cmd.LPUSH? && !cmd.XADD? && !cmd.BLPOP?
    ensures var a := ActOn(env, c, true, fd, cmd, cur, wait, refused, args);
      a == ActOn(env, c, false, -1, cmd, cur, wait, refused, args) && a.wait == wait
  {
    hide ScanOptions, SetIf, IncrIf, Zrem, ReadReply, ZaddIf, ZaddRest, Zadd, Pop, Decimal.ParseInt64;
  }

  lemma ExecMode(env: Env, c: Clock, core: Core, fd: int, cmd: Cmd, args: seq<Bytes>)
    requires |args| >= MinArgs(cmd) && ClockFree(cmd, args) && core.wait == NO_WAITERS
    ensures Exec(env, c, true, core, fd, cmd, args) == Exec(env, c, false, core, -1, cmd, args)
    ensures Exec(env, c, true, core, fd, cmd, args).core.wait == NO_WAITERS
  {
    hide ActOn, GeoRefused, Find, ClockFree, Purge, SetPairs, AllTakeStrings, ParseRead, ReadAll, Visit, AnyData;
    if IsSingle(cmd) {
      ActMode(env, c, fd, cmd, Find(core.db, args[1], c.now), core.wait, GeoRefused(core.db, args[1], c.now), args);
    } else if cmd.XREAD? {
      NotBlocking(args);
    }
  }

  lemma NotBlocking(args: seq<Bytes>)
    requires |args| >= 4 && ClockFree(XREAD, args)
    ensures ParseRead(args).ReadOk? ==> ParseRead(args).block.None?
  {}

  // ---------------------------------------------------------------- keyspaces without expiry

  lemma {:induction false} SetPairsNoTtl(db: Db, args: seq<Bytes>, i: nat)
    requires i <= |args| && (|args| - i) % 2 == 0 && NoTtl(db)
    ensures NoTtl(SetPairs(db, args, i))
    decreases |args| - i
  {
    if i < |args| { SetPairsNoTtl(Apply(db, args[i], SetAny(args[i + 1], None)), args, i + 2); }
  }

  lemma {:induction false} VisitNoTtl(db: Db, keys: seq<Bytes>, now: int)
    requires NoTtl(db)
    ensures NoTtl(Visit(db, keys, now))
    decreases |keys|
  {
    if keys != [] { VisitNoTtl(Apply(db, keys[0], Seen(Find(db, keys[0], now))), keys[1..], now); }
  }

  lemma ExecNoTtl(env: Env, c: Clock, live: bool, core: Core, fd: int, cmd: Cmd, args: seq<Bytes>)
    requires |args| >= MinArgs(cmd) && ClockFree(cmd, args) && NoTtl(core.db)
    ensures NoTtl(Exec(env, c, live, core, fd, cmd, args).core.db)
  {
    hide ActOn, GeoRefused, ClockFree, SetPairs, AllTakeStrings, ParseRead, ReadAll, Visit, AnyData, Block;
    if cmd.MSET? {
      if (|args| - 1) % 2 == 0 { SetPairsNoTtl(core.db, args, 1); }
    } else if cmd.XREAD? {
      if ParseRead(args).ReadOk? { VisitNoTtl(core.db, ParseRead(args).keys, c.now); }
    } else if IsSingle(cmd) {
      ClockFreeNoTtl(env, c, live, fd, cmd, Find(core.db, args[1], c.now), core.wait,
                     GeoRefused(core.db, args[1], c.now), args);
    }
  }

  lemma SameDataSameView(a: Db, s: int, b: Db, t: int)
    requires NoTtl(a) && NoTtl(b)
    ensures SameView(a, s, b, t) <==> a.data == b.data
  {
    if SameView(a, s, b, t) {
      forall k
        ensures k in a.data <==> k in b.data
        ensures k in a.data ==> a.data[k] == b.data[k]
      {
        assert Find(a, k, s) == Find(b, k, t);
      }
      assert a.data == b.data;
    }
  }

  lemma OkAnyTime(db: Db, s: int, t: int)
    requires NoTtl(db) && DbOk(db, s)
    ensures DbOk(db, t)
  {}

  // ---------------------------------------------------------------- one command, live and replayed

  /** A command whose replay can be promised to do what it did: no transaction, no expiry, no generated id, no
      waiting. */
  predicate DurableArgs(args: seq<Bytes>) {
    args != [] && VerbOf(ToUpper(args[0])) == Data &&
    match Lookup(ToUpper(args[0]))
    case None => true
    case Some(cmd) => |args| >= MinArgs(cmd) ==> ClockFree(cmd, args)
  }

  /** A server between durable commands. */
  predicate Calm(s: Server) {
    Bare(s) && NoTtl(s.core.db) && DbOk(s.core.db, 0)
  }

  lemma StepIsNamed(env: Env, c: Clock, live: bool, s: Server, fd: int, args: seq<Bytes>)
    requires s.txs == map[] && args != [] && VerbOf(ToUpper(args[0])) == Data
    ensures var o := ExecNamed(env, c, live, s.core, fd, ToUpper(args[0]), args);
      Step(env, c, live, s, fd, args) == StepOut(s.(core := o.core), o.reply, o.sends)
  {
    hide VerbOf, ExecNamed;
  }

  /** The live server and the replaying one, starting from the same data, end with the same data. */
  lemma StepAgrees(env: Env, c: Clock, live: Server, fd: int, d: Clock, replayed: Server, args: seq<Bytes>)
    requires DurableArgs(args) && Calm(live) && Calm(replayed) && live.core.db.data == replayed.core.db.data
    requires ClockOk(c) && ClockOk(d)
    ensures var x, y := Step(env, c, true, live, fd, args).server, Step(env, d, false, replayed, -1, args).server;
      Calm(x) && Calm(y) && x.core.db.data == y.core.db.data
  {
    hide VerbOf, Lookup, Exec, DbOk, NoTtl, ClockFree, Step;
    StepIsNamed(env, c, true, live, fd, args);
    StepIsNamed(env, d, false, replayed, -1, args);
    var name := ToUpper(args[0]);
    if Lookup(name).Some? && |args| >= MinArgs(Lookup(name).value) {
      ExecAgrees(env, c, live.core, fd, d, replayed.core, Lookup(name).value, args);
    }
  }

  lemma ExecAgrees(env: Env, c: Clock, x: Core, fd: int, d: Clock, y: Core, cmd: Cmd, args: seq<Bytes>)
    requires |args| >= MinArgs(cmd) && ClockFree(cmd, args) && ClockOk(c) && ClockOk(d)
    requires x.wait == NO_WAITERS && y.wait == NO_WAITERS && NoTtl(x.db) && NoTtl(y.db)
    requires DbOk(x.db, 0) && DbOk(y.db, 0) && x.db.data == y.db.data
    ensures var p, q := Exec(env, c, true, x, fd, cmd, args).core, Exec(env, d, false, y, -1, cmd, args).core;
      p.wait == NO_WAITERS && q.wait == NO_WAITERS && NoTtl(p.db) && NoTtl(q.db) &&
      DbOk(p.db, 0) && DbOk(q.db, 0) && p.db.data == q.db.data
  {
    hide Exec, DbOk, NoTtl, ClockFree, SameView;
    ExecMode(env, c, x, fd, cmd, args);
    SameDataSameView(x.db, c.now, y.db, d.now);
    OkAnyTime(x.db, 0, c.now);
    OkAnyTime(y.db, 0, d.now);
    NoTick(x.db, c.now, cmd, args);
    NoTick(y.db, d.now, cmd, args);
    ExecAlike(env, c, d, false, x, y, -1, cmd, args);
    ExecNoTtl(env, c, false, x, -1, cmd, args);
    ExecNoTtl(env, d, false, y, -1, cmd, args);
    var p, q := Exec(env, c, false, x, -1, cmd, args).core, Exec(env, d, false, y, -1, cmd, args).core;
    SameDataSameView(p.db, c.now, q.db, d.now);
    ExecOk(env, c, false, x, -1, cmd, args);
    ExecOk(env, d, false, y, -1, cmd, args);
    OkAnyTime(p.db, c.now, 0);
    OkAnyTime(q.db, d.now, 0);
  }

  lemma NoTick(db: Db, now: int, cmd: Cmd, args: seq<Bytes>)
    requires |args| >= MinArgs(cmd) && NoTtl(db)
    ensures TickSafe(db, now, cmd, args)
  {}

  /** A command that is not logged leaves the data alone. */
  lemma UnloggedKeepsData(env: Env, c: Clock, s: Server, fd: int, args: seq<Bytes>)
    requires DurableArgs(args) && Calm(s) && !IsLogged(args) && ClockOk(c)
    ensures var r := Step(env, c, true, s, fd, args).server; Calm(r) && r.core.db.data == s.core.db.data
  {
    hide VerbOf, Lookup, Exec, DbOk, NoTtl, ClockFree, Step, Touched, Frame;
    StepIsNamed(env, c, true, s, fd, args);
    var name := ToUpper(args[0]);
    if Lookup(name).Some? && |args| >= MinArgs(Lookup(name).value) {
      var cmd := Lookup(name).value;
      UnloggedCommands(name);
      ReadsTouchNothing(env, c, s.core, fd, cmd, args);
      ExecFrame(env, c, true, s.core, fd, cmd, args);
      ExecMode(env, c, s.core, fd, cmd, args);
      ExecNoTtl(env, c, true, s.core, fd, cmd, args);
      OkAnyTime(s.core.db, 0, c.now);
      ExecOk(env, c, true, s.core, fd, cmd, args);
      var r := Exec(env, c, true, s.core, fd, cmd, args).core;
      OkAnyTime(r.db, c.now, 0);
      FrameIsView(s.core.db, r.db, c.now);
      SameDataSameView(s.core.db, c.now, r.db, c.now);
    }
  }

  lemma FrameIsView(a: Db, b: Db, now: int)
    requires Frame(a, b, {}, now)
    ensures SameView(a, now, b, now)
  {}

  predicate OnlyReads(cmd: Cmd) {
    IsRead(cmd) || cmd.KEYS? || cmd.XREAD? || cmd.BLPOP?
  }

  /** The commands of the table that the write list does not name. */
  lemma UnloggedCommands(name: Bytes)
    requires Lookup(name).Some? && !IsWriteName(name)
    ensures OnlyReads(Lookup(name).value)
  {}

  lemma ReadsTouchNothing(env: Env, c: Clock, core: Core, fd: int, cmd: Cmd, args: seq<Bytes>)
    requires |args| >= MinArgs(cmd) && OnlyReads(cmd) && ClockFree(cmd, args)
    ensures Touched(env, c, core.db, cmd, args) == {}
  {
    hide ReadReply, Find, GeoRefused;
  }

  // ---------------------------------------------------------------- files that restore the data

  ghost predicate AllClocks(at: nat -> Clock) {
    forall i: nat :: ClockOk(at(i))
  }

  /** Processing `file` from an empty server, at whatever times, ends with exactly this data. */
  ghost predicate Restores(env: Env, at: nat -> Clock, file: Bytes, data: map<Bytes, Entry>) {
    var p := Process(env, at, 0, false, FRESH_SERVER, -1, file);
    !p.waits && Calm(p.server) && p.server.core.db.data == data
  }

  ghost predicate Recovers(env: Env, file: Bytes, data: map<Bytes, Entry>) {
    Framed(file) && forall at: nat -> Clock :: AllClocks(at) ==> Restores(env, at, file, data)
  }

  /** Logging a command keeps the file's promise. */
  lemma LoggedRestores(env: Env, at: nat -> Clock, file: Bytes, c: Clock, s: Server, fd: int, w: Bytes)
    requires IsFrame(w) && DurableArgs(FrameArgs(w)) && Calm(s) && ClockOk(c) && AllClocks(at)
    requires Framed(file) && Restores(env, at, file, s.core.db.data)
    ensures Restores(env, at, file + w, Step(env, c, true, s, fd, FrameArgs(w)).server.core.db.data)
  {
    hide Process, Step, IsFrame, Framed, DurableArgs, Calm, FrameArgs, RunParsed, Join;
    var p := Process(env, at, 0, false, FRESH_SERVER, -1, file);
    ProcessAppend(env, at, 0, false, FRESH_SERVER, -1, file, w);
    ProcessFrame(env, at, p.count, false, p.server, -1, w, []);
    var args := FrameArgs(w);
    StepAnswers(env, at(p.count), p.server, -1, args);
    RunParsedIs(env, at(p.count), p.server, args, w);
    JoinFields(p, RunParsed(env, at(p.count), false, p.server, -1, Parsed(args, |w|), w));
    StepAgrees(env, c, s, fd, at(p.count), p.server, args);
  }

  lemma LoggedRecovers(env: Env, file: Bytes, c: Clock, s: Server, fd: int, w: Bytes)
    requires IsFrame(w) && DurableArgs(FrameArgs(w)) && Calm(s) && ClockOk(c)
    requires Recovers(env, file, s.core.db.data)
    ensures Recovers(env, file + w, Step(env, c, true, s, fd, FrameArgs(w)).server.core.db.data)
  {
    hide Restores, Step, Calm, IsFrame, Framed;
    FramedNone();
    assert FrameArgs(w) != [];
    FramedCons(w, []);
    assert w + [] == w;
    FramedAppend(file, w);
    forall at: nat -> Clock | AllClocks(at)
      ensures Restores(env, at, file + w, Step(env, c, true, s, fd, FrameArgs(w)).server.core.db.data)
    {
      LoggedRestores(env, at, file, c, s, fd, w);
    }
  }

  predicate NoEmpties(db: Db) {
    forall k :: k in db.data ==> !EmptyCollection(db.data[k].value)
  }

  predicate IsOrder(order: seq<Bytes>, db: Db) {
    Distinct(order) && (forall k :: k in order ==> k in db.data) && (forall k :: k in db.data ==> k in order)
  }

  /** The rewrite child's file restores the data it was forked from, exactly when no collection is empty. */
  lemma ForkRestores(env: Env, at: nat -> Clock, db: Db, now: int, order: seq<Bytes>)
    requires RoundTrips(env) && NoTtl(db) && DbOk(db, 0) && IsOrder(order, db) && AllClocks(at)
    requires Sendable(SnapshotCmds(env, db, now, order))
    ensures Framed(EncodeAll(SnapshotCmds(env, db, now, order)))
    ensures Restores(env, at, EncodeAll(SnapshotCmds(env, db, now, order)), db.data) <==> NoEmpties(db)
  {
    hide RoundTrips, DbOk, Sendable, Process, SnapshotCmds, Framed, EmptyCollection;
    OkAnyTime(db, 0, now);
    SnapshotMeaning(env, at, db, now, order);
    var p := Process(env, at, 0, false, FRESH_SERVER, -1, EncodeAll(SnapshotCmds(env, db, now, order)));
    NoTtlKept(db, now);
    ProcessVersions(env, at, 0, false, FRESH_SERVER, -1, EncodeAll(SnapshotCmds(env, db, now, order)));
    KeptOk(db, p.server.core.db, now);
  }

  lemma KeptOk(db: Db, r: Db, now: int)
    requires DbOk(db, 0) && NoTtl(db) && r.data == Kept(db, now) && VersionsOk(r)
    ensures DbOk(r, 0) && NoTtl(r)
  {
    hide EntryOk, EmptyCollection;
  }

  lemma NoTtlKept(db: Db, now: int)
    requires NoTtl(db)
    ensures Kept(db, now) == db.data <==> NoEmpties(db)
    ensures forall k :: k in Kept(db, now) ==> Kept(db, now)[k].expiry.None?
  {
    hide EmptyCollection;
    KeptIsLive(db, now);
    assert Purge(db, now).data == db.data;
  }

  /** Version numbers never exceed the counter, whatever the clock does. */
  lemma {:induction false} ProcessVersions(env: Env, at: nat -> Clock, i: nat, live: bool, s: Server, fd: int, file: Bytes)
    requires VersionsOk(s.core.db)
    ensures VersionsOk(Process(env, at, i, live, s, fd, file).server.core.db)
    decreases |file|
  {
    hide VersionsOk, Step, ParseOne;
    if ParseOne(file).Some? {
      var p := ParseOne(file).value;
      var cut := Min(p.consumed, |file|);
      VersionsAfterStep(env, at(i), live, s, fd, p.args);
      ParseTakes(file);
      var one := RunParsed(env, at(i), live, s, fd, p, file[..cut]);
      ProcessVersions(env, at, i + 1, live, one.server, fd, file[cut..]);
    }
  }

  lemma ParseTakes(file: Bytes)
    requires ParseOne(file).Some?
    ensures ParseOne(file).value.consumed >= 3 && file != []
  {}

  lemma VersionsAfterStep(env: Env, c: Clock, live: bool, s: Server, fd: int, args: seq<Bytes>)
    requires VersionsOk(s.core.db)
    ensures VersionsOk(Step(env, c, live, s, fd, args).server.core.db)
  {
    hide VersionsOk, Step, StepTouched;
    StepFrame(env, c, live, s, fd, args);
  }

  lemma ForkRecovers(env: Env, db: Db, now: int, order: seq<Bytes>)
    requires RoundTrips(env) && NoTtl(db) && DbOk(db, 0) && IsOrder(order, db) && NoEmpties(db)
    requires Sendable(SnapshotCmds(env, db, now, order))
    ensures Recovers(env, EncodeAll(SnapshotCmds(env, db, now, order)), db.data)
  {
    hide RoundTrips, DbOk, Sendable, SnapshotCmds, Framed, NoTtl, NoEmpties, IsOrder, Restores, EncodeAll;
    var any: nat -> Clock := i => Clock(0, 0);
    ForkRestores(env, any, db, now, order);
    forall at: nat -> Clock | AllClocks(at)
      ensures Restores(env, at, EncodeAll(SnapshotCmds(env, db, now, order)), db.data)
    {
      ForkRestores(env, at, db, now, order);
    }
  }

  // ---------------------------------------------------------------- the promise

  datatype Life = Life(server: Server, disk: Disk)

  const BIRTH: Life := Life(FRESH_SERVER, FRESH_DISK)

  /** The file that is open is the one the manifest names and restores the live data; during a rewrite, so will
      the child's output with the buffered tail. */
  ghost predicate Safe(env: Env, l: Life) {
    var d := l.disk;
    Calm(l.server) && d.manifest == d.open == d.current && d.open in d.files &&
    Recovers(env, d.files[d.manifest], l.server.core.db.data) &&
    (d.rewriting ==> Recovers(env, d.child + d.buffer, l.server.core.db.data))
  }
}
