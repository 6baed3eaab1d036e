/** Recovery over whole runs: batches and transactions of clients, rewrites and their children, and what the file named by
    the manifest gives back after a restart. */
module Recovery {
  import opened Base
  import opened Decimal
  import opened Resp
  import opened Keyspace
  import opened Commands
  import opened Expiry
  import opened Sessions
  import opened CommandLoop
  import opened Snapshot
  import opened Rebuild
  import opened Aof
  import opened Transactions

  // ---------------------------------------------------------------- whole runs

  /** A client's batch of commands as it arrives, a rewrite request, or a look at the rewrite child. */
  datatype Turn =
    | Client(at: nat -> Clock, fd: int, frames: seq<Bytes>)
    | Rewrite(now: int, order: seq<Bytes>)
    | Child(status: ChildStatus)

  function Live(env: Env, l: Life, t: Turn): (r: Life) {
    match t
    case Client(at, fd, frames) => Serve(l, Process(env, at, 0, true, l.server, fd, Concat(frames)))
    case Rewrite(now, order) =>
      l.(disk := Fork(l.disk, EncodeAll(SnapshotCmds(env, l.server.core.db, now, order))))
    case Child(status) => l.(disk := Reap(l.disk, status))
  }

  /** What is asked of a turn: whole durable commands, or a transaction of them that is recovered; or a fork while no
      collection is empty. */
  ghost predicate Admissible(env: Env, l: Life, t: Turn) {
    match t
    case Client(at, _, frames) => AllClocks(at) && (Durable(frames) || IsRecovered(env, frames))
    case Rewrite(now, order) =>
      IsOrder(order, l.server.core.db) && NoEmpties(l.server.core.db) &&
      Sendable(SnapshotCmds(env, l.server.core.db, now, order))
    case Child(_) => true
  }

  function LiveAll(env: Env, ts: seq<Turn>): (r: Life)
    decreases |ts|
  {
    if |ts| == 0 then BIRTH else Live(env, LiveAll(env, ts[..|ts| - 1]), ts[|ts| - 1])
  }

  ghost predicate AllAdmissible(env: Env, ts: seq<Turn>)
    decreases |ts|
  {
    |ts| == 0 ||
    (AllAdmissible(env, ts[..|ts| - 1]) && Admissible(env, LiveAll(env, ts[..|ts| - 1]), ts[|ts| - 1]))
  }

  lemma RewriteSafe(env: Env, l: Life, now: int, order: seq<Bytes>)
    requires RoundTrips(env) && Safe(env, l) && Admissible(env, l, Rewrite(now, order))
    ensures Safe(env, Live(env, l, Rewrite(now, order)))
  {
    hide Recovers, RoundTrips, Sendable, SnapshotCmds, NoEmpties, IsOrder, DbOk, NoTtl;
    if !l.disk.rewriting {
      var snapshot := EncodeAll(SnapshotCmds(env, l.server.core.db, now, order));
      ForkRecovers(env, l.server.core.db, now, order);
      assert snapshot + [] == snapshot;
    }
  }

  lemma ChildSafe(env: Env, l: Life, status: ChildStatus)
    requires Safe(env, l)
    ensures Safe(env, Live(env, l, Child(status)))
  {
    hide Recovers, Calm;
  }

  /** Recoverability: in every state of every run that mixes batches and recovered transactions of durable commands,
      rewrite requests, and successful or failed rewrite children, processing the file the manifest names, from an
      empty server and at whatever times, restores exactly the live data. */
  lemma {:induction false} Recoverability(env: Env, ts: seq<Turn>)
    requires RoundTrips(env) && AllAdmissible(env, ts)
    ensures var l := LiveAll(env, ts); Safe(env, l)
    ensures var l := LiveAll(env, ts);
      forall at: nat -> Clock :: AllClocks(at) ==>
        Process(env, at, 0, false, FRESH_SERVER, -1, FileOf(l.disk, l.disk.manifest)).server.core.db.data
          == l.server.core.db.data
    decreases |ts|
  {
    hide RoundTrips, Process, Calm, IsFrame, Fork, Reap, IsRecovered, Durable;
    if |ts| == 0 {
      BirthSafe(env);
    } else {
      var init, last := ts[..|ts| - 1], ts[|ts| - 1];
      Recoverability(env, init);
      var l := LiveAll(env, init);
      match last
      case Client(at, fd, frames) =>
        if Durable(frames) {
          BatchSafe(env, at, 0, l, fd, frames);
        } else {
          TransactionSafe(env, at, 0, l, fd, frames);
        }
      case Rewrite(now, order) => RewriteSafe(env, l, now, order);
      case Child(status) => ChildSafe(env, l, status);
    }
    var l := LiveAll(env, ts);
    assert Safe(env, l);
    forall at: nat -> Clock | AllClocks(at)
      ensures Process(env, at, 0, false, FRESH_SERVER, -1, FileOf(l.disk, l.disk.manifest)).server.core.db.data
           == l.server.core.db.data
    {
      assert Restores(env, at, l.disk.files[l.disk.manifest], l.server.core.db.data);
    }
  }

  /** A concrete run that is not recovered: MULTI, SET k v, DISCARD leaves no data, and a file that restores the value. */
  lemma DiscardExample(env: Env, at: nat -> Clock)
    requires AllClocks(at)
    ensures
      var frames := [EncodeArray(["MULTI"]), EncodeArray(["SET", "k", "v"]), EncodeArray(["DISCARD"])];
      var l := Serve(BIRTH, Process(env, at, 0, true, FRESH_SERVER, 7, Concat(frames)));
      l.server.core.db.data == map[] && Recovers(env, FileOf(l.disk, l.disk.manifest), map["k" := Entry(Str("v"), None)])
  {
    hide Process, Recovers, IsFrame, EncodeArray, VerbOf, ToUpper, DurableArgs, Step, Logged;
    EncodedIsFrame(["MULTI"]);
    EncodedIsFrame(["SET", "k", "v"]);
    EncodedIsFrame(["DISCARD"]);
    ExampleNames();
    DiscardedWrite(env, at, 7, EncodeArray(["MULTI"]), EncodeArray(["SET", "k", "v"]), EncodeArray(["DISCARD"]));
    SetOnFresh(env, at(2));
  }

  lemma DiscardedWrite(env: Env, at: nat -> Clock, fd: int, multi: Bytes, w: Bytes, discard: Bytes)
    requires AllClocks(at) && Starts(multi) && Ends(discard, Discard) && IsFrame(w) && DurableArgs(FrameArgs(w))
    ensures
      var l := Serve(BIRTH, Process(env, at, 0, true, FRESH_SERVER, fd, Concat([multi, w, discard])));
      l.server.core.db.data == map[] &&
      Recovers(env, FileOf(l.disk, l.disk.manifest),
               Step(env, at(2), true, FRESH_SERVER, fd, FrameArgs(w)).server.core.db.data)
  {
    hide Process, Recovers, IsFrame, DurableArgs, Starts, Ends, Step, RunParsed, Calm, IsLogged;
    var frames, middle := [multi, w, discard], [w];
    assert frames[1..2] == middle && middle[1..] == [];
    SplitTransaction(frames);
    BirthSafe(env);
    TransactionRuns(env, at, 0, FRESH_SERVER, fd, map[], multi, middle, discard, Discard);
    EachNowSafe(env, at(2), BIRTH, fd, middle);
    RunParsedWhole(env, at(2), FRESH_SERVER, fd, FrameArgs(w), w);
  }

  lemma ExampleNames()
    ensures VerbOf(ToUpper("MULTI")) == Multi && VerbOf(ToUpper("DISCARD")) == Discard
    ensures VerbOf(ToUpper("EXEC")) == Exec_
    ensures forall v: Bytes :: DurableArgs(["SET", "k", v]) && IsLogged(["SET", "k", v])
  {
    assert ToUpper("MULTI") == "MULTI" && ToUpper("DISCARD") == "DISCARD" && ToUpper("SET") == "SET";
    assert ToUpper("EXEC") == "EXEC";
  }

  lemma SetOnFresh(env: Env, c: Clock)
    ensures Step(env, c, true, FRESH_SERVER, 7, ["SET", "k", "v"]).server.core.db.data == map["k" := Entry(Str("v"), None)]
  {
    assert ToUpper("SET") == "SET";
  }

  /** A concrete run in which the file has another order than the server: while client 1 has SET k a in a transaction,
      client 2 sets k to b; after EXEC the server holds a, and the file restores b. */
  lemma InterleavedExample(env: Env, at: nat -> Clock)
    requires AllClocks(at)
    ensures
      var one := Serve(BIRTH, Process(env, at, 0, true, FRESH_SERVER, 1,
                                      EncodeArray(["MULTI"]) + EncodeArray(["SET", "k", "a"])));
      var two := Serve(one, Process(env, at, 2, true, one.server, 2, EncodeArray(["SET", "k", "b"])));
      var l := Serve(two, Process(env, at, 3, true, two.server, 1, EncodeArray(["EXEC"])));
      l.server.core.db.data == map["k" := Entry(Str("a"), None)] &&
      Recovers(env, FileOf(l.disk, l.disk.manifest), map["k" := Entry(Str("b"), None)])
  {
    hide Process, Recovers, IsFrame, EncodeArray, VerbOf, ToUpper, DurableArgs, Logged;
    EncodedIsFrame(["MULTI"]);
    EncodedIsFrame(["SET", "k", "a"]);
    EncodedIsFrame(["SET", "k", "b"]);
    EncodedIsFrame(["EXEC"]);
    ExampleNames();
    Interleaved(env, at, EncodeArray(["MULTI"]), EncodeArray(["SET", "k", "a"]), EncodeArray(["SET", "k", "b"]),
                EncodeArray(["EXEC"]));
  }

  lemma Interleaved(env: Env, at: nat -> Clock, multi: Bytes, wa: Bytes, wb: Bytes, exec: Bytes)
    requires AllClocks(at) && Starts(multi) && Ends(exec, Exec_) && IsFrame(wa) && IsFrame(wb)
    requires FrameArgs(wa) == ["SET", "k", "a"] && FrameArgs(wb) == ["SET", "k", "b"]
    ensures
      var one := Serve(BIRTH, Process(env, at, 0, true, FRESH_SERVER, 1, multi + wa));
      var two := Serve(one, Process(env, at, 2, true, one.server, 2, wb));
      var l := Serve(two, Process(env, at, 3, true, two.server, 1, exec));
      l.server.core.db.data == map["k" := Entry(Str("a"), None)] &&
      Recovers(env, FileOf(l.disk, l.disk.manifest), map["k" := Entry(Str("b"), None)])
  {
    hide Process, Recovers, IsFrame, FrameArgs, DurableArgs, Logged, InMulti, IsLogged, Starts, Ends, ToUpper, ExecNamed,
         RunQueued;
    var a, core := ["SET", "k", "a"], FRESH_SERVER.core;
    ExampleNames();
    QueuesOne(env, at, multi, wa);
    OtherClient(env, at, core, wb, a);
    var next := ExecNamed(env, at(2), true, core, 2, ToUpper("SET"), ["SET", "k", "b"]).core;
    CloseRun(env, at, 3, next, 1, [a], map[], exec, Exec_);
    SetRuns(env, at(2), at(3), core);
    BothLogged(env, at, wa, wb);
    LogTwice(FRESH_DISK, wa, wb);
    LogTwice(FRESH_DISK, wa + wb, []);
    assert wa + wb + [] == wa + wb;
  }

  lemma QueuesOne(env: Env, at: nat -> Clock, multi: Bytes, w: Bytes)
    requires Starts(multi) && IsFrame(w) && DurableArgs(FrameArgs(w)) && IsLogged(FrameArgs(w))
    ensures var p := Process(env, at, 0, true, FRESH_SERVER, 1, multi + w);
      p.server == InMulti(FRESH_SERVER.core, 1, [FrameArgs(w)], map[]) && p.log == w
  {
    hide Process, IsFrame, DurableArgs, ToUpper, VerbOf, IsLogged, Step, InMulti, RunParsed;
    ProcessFrame(env, at, 0, true, FRESH_SERVER, 1, multi, w);
    RunParsedWhole(env, at(0), FRESH_SERVER, 1, FrameArgs(multi), multi);
    NotLogged(FrameArgs(multi));
    MultiStep(env, at(0), FRESH_SERVER, 1, map[], FrameArgs(multi));
    assert w + [] == w;
    QueueOne(env, at, 1, FRESH_SERVER.core, 1, [], map[], w, []);
    assert [] + [FrameArgs(w)] == [FrameArgs(w)];
    NothingToDo(env, at, 2, true, InMulti(FRESH_SERVER.core, 1, [FrameArgs(w)], map[]), 1);
  }

  /** Another client's command runs at once. */
  lemma OtherClient(env: Env, at: nat -> Clock, core: Core, w: Bytes, queued: seq<Bytes>)
    requires IsFrame(w) && DurableArgs(FrameArgs(w)) && IsLogged(FrameArgs(w))
    ensures var p := Process(env, at, 2, true, InMulti(core, 1, [queued], map[]), 2, w);
      var args := FrameArgs(w);
      args != [] && p.log == w &&
      p.server == InMulti(ExecNamed(env, at(2), true, core, 2, ToUpper(args[0]), args).core, 1, [queued], map[])
  {
    hide Process, IsFrame, DurableArgs, ToUpper, VerbOf, IsLogged, ExecNamed, RunParsed;
    var s := InMulti(core, 1, [queued], map[]);
    ProcessFrame(env, at, 2, true, s, 2, w, []);
    RunParsedWhole(env, at(2), s, 2, FrameArgs(w), w);
    DurableIsData(FrameArgs(w));
  }

  lemma SetRuns(env: Env, c: Clock, d: Clock, core: Core)
    requires core == FRESH_SERVER.core
    ensures var next := ExecNamed(env, c, true, core, 2, ToUpper("SET"), ["SET", "k", "b"]).core;
      RunQueued(env, d, true, next, 1, [["SET", "k", "a"]]).core.db.data == map["k" := Entry(Str("a"), None)]
  {
    assert ToUpper("SET") == "SET";
    assert [["SET", "k", "a"]][1..] == [];
  }

  /** The file of the run, run one command after the other. */
  lemma BothLogged(env: Env, at: nat -> Clock, wa: Bytes, wb: Bytes)
    requires AllClocks(at) && IsFrame(wa) && IsFrame(wb)
    requires FrameArgs(wa) == ["SET", "k", "a"] && FrameArgs(wb) == ["SET", "k", "b"]
    ensures var d := Logged(FRESH_DISK, wa + wb);
      Recovers(env, FileOf(d, d.manifest), map["k" := Entry(Str("b"), None)])
  {
    hide Recovers, IsFrame, FrameArgs, Logged, Calm, DurableArgs, IsLogged, EachNow, Concat, WriteFrames;
    ExampleNames();
    BirthSafe(env);
    EachNowSafe(env, at(0), BIRTH, 1, [wa, wb]);
    TwoWrites(wa, wb);
    TwoRun(env, at(0), wa, wb);
  }

  lemma TwoWrites(wa: Bytes, wb: Bytes)
    requires IsFrame(wa) && IsFrame(wb) && IsLogged(FrameArgs(wa)) && IsLogged(FrameArgs(wb))
    ensures Concat(WriteFrames([wa, wb])) == wa + wb
  {
    hide IsFrame, FrameArgs, IsLogged;
    var frames := [wa, wb];
    assert frames[1..] == [wb] && [wb][1..] == [];
    FirstWrite(frames);
    FirstWrite([wb]);
    assert wb + [] == wb;
  }

  lemma TwoRun(env: Env, c: Clock, wa: Bytes, wb: Bytes)
    requires IsFrame(wa) && IsFrame(wb) && FrameArgs(wa) == ["SET", "k", "a"] && FrameArgs(wb) == ["SET", "k", "b"]
    ensures EachNow(env, c, BIRTH, 1, [wa, wb]).server.core.db.data == map["k" := Entry(Str("b"), None)]
  {
    hide IsFrame, FrameArgs, Logged, RunParsed, Step;
    var frames := [wa, wb];
    assert frames[1..] == [wb] && [wb][1..] == [];
    var one := RunParsed(env, c, true, FRESH_SERVER, 1, Parsed(["SET", "k", "a"], |wa|), wa);
    RunParsedWhole(env, c, FRESH_SERVER, 1, ["SET", "k", "a"], wa);
    RunParsedWhole(env, c, one.server, 1, ["SET", "k", "b"], wb);
    var l := Serve(BIRTH, one);
    var two := RunParsed(env, c, true, l.server, 1, Parsed(["SET", "k", "b"], |wb|), wb);
    assert EachNow(env, c, Serve(l, two), 1, []) == Serve(l, two);
    assert EachNow(env, c, l, 1, [wb]) == Serve(l, two);
    assert EachNow(env, c, BIRTH, 1, frames) == Serve(l, two);
    SetTwice(env, c);
  }

  lemma SetTwice(env: Env, c: Clock)
    ensures var s := Step(env, c, true, FRESH_SERVER, 1, ["SET", "k", "a"]).server;
      Step(env, c, true, s, 1, ["SET", "k", "b"]).server.core.db.data == map["k" := Entry(Str("b"), None)]
  {
    assert ToUpper("SET") == "SET";
  }

  /** What is behind it: a write-named command that is only queued is logged all the same, while the data does not
      change. */
  lemma QueuedWriteIsLogged(env: Env, c: Clock, s: Server, fd: int, raw: Bytes)
    requires IsFrame(raw) && IsLogged(FrameArgs(raw)) && TxOf(s, fd).inMulti
    ensures var p := Process(env, (i: nat) => c, 0, true, s, fd, raw);
      p.log == raw && p.server.core == s.core && p.replies == [Queued]
  {
    hide ParseOne, Process, Lookup;
    var at := (i: nat) => c;
    ProcessFrame(env, at, 0, true, s, fd, raw, []);
    WritesAreData(FrameArgs(raw)[0]);
  }

  // ---------------------------------------------------------------- commands logged before they are complete

  /** A write whose last bytes have not arrived yet is run and logged, cut where the delivery ended. */
  lemma ShortWriteIsLogged(env: Env, at: nat -> Clock, i: nat, s: Server, fd: int, w: Bytes, n: nat)
    requires IsFrame(w) && AcceptLength(w) <= n < |w| && IsLogged(FrameArgs(w))
    ensures var p := Process(env, at, i, true, s, fd, w[..n]);
      p.log == w[..n] && p.server == Step(env, at(i), true, s, fd, FrameArgs(w)).server && p.consumed == |w|
  {
    hide ParseOne, Step, IsLogged;
    FramePrefix(w, n);
    var u := w[..n];
    assert Min(|w|, n) == n && u[..n] == u && u[n..] == [];
    NothingToDo(env, at, i + 1, true, Step(env, at(i), true, s, fd, FrameArgs(w)).server, fd);
    assert u + [] == u;
  }

  /** The bytes after the star of a command are digits, a sign or the line end. */
  lemma NoSecondStar(g: Bytes, k: nat)
    requires IsFrame(g) && 1 <= k <= 2
    ensures |g| >= 3 && g[k] != '*'
  {
    var start := if g[1] == '-' then 2 else 1;
    var d := ScanDigits(g, start, 0);
    ScanStops(g, start, 0);
    assert k < start || k < d.next || k == d.next || k == d.next + 1;
  }

  lemma {:induction false} ScanStops(g: Bytes, p: nat, acc: int)
    requires p <= |g|
    ensures var q := ScanDigits(g, p, acc).next; p <= q <= |g| && forall j :: p <= j < q ==> IsDigit(g[j])
    decreases |g| - p
  {
    hide Wrap32;
    if p < |g| && IsDigit(g[p]) {
      ScanStops(g, p + 1, Wrap32(acc * 10 + DigitValue(g[p])));
    }
  }

  /** After a cut command the next one loses its first bytes, and nothing that follows is a command any more. */
  lemma CutSwallows(w: Bytes, n: nat, g: Bytes, more: Bytes)
    requires IsFrame(w) && IsFrame(g) && AcceptLength(w) <= n < |w|
    ensures var u := w[..n] + (g + more);
      |w| <= |u| && ParseOne(u) == Some(Parsed(FrameArgs(w), |w|)) && ParseOne(u[|w|..]).None?
  {
    hide ParseIntUntilCrlf, ParseItems;
    var u, v := w[..n] + (g + more), w[..n];
    FramePrefix(w, n);
    assert v[..n] == v && u[..n] == v;
    ParseLocal(v, u, n);
    NoSecondStar(g, |w| - n);
    assert u[|w|..][0] == u[|w|] == g[|w| - n];
  }

  /** Exactly when later writes survive in the file: a command that was logged cut short is itself replayed, but nothing
      after it is; one that was logged whole hides nothing. */
  lemma LaterWritesSurvive(env: Env, at: nat -> Clock, file: Bytes, w: Bytes, n: nat, g: Bytes, more: Bytes)
    requires Framed(file) && IsFrame(w) && IsFrame(g) && FrameArgs(w) != [] && AcceptLength(w) <= n <= |w|
    requires !Process(env, at, 0, false, FRESH_SERVER, -1, file).waits
    ensures var before := Process(env, at, 0, false, FRESH_SERVER, -1, file);
      var p := Process(env, at, 0, false, FRESH_SERVER, -1, file + (w[..n] + (g + more)));
      var one := Step(env, at(before.count), false, before.server, -1, FrameArgs(w)).server;
      (p.count > before.count + 1 <==> n == |w|) && (n < |w| ==> p.server == one)
  {
    hide Process, Step, IsFrame, ParseOne, Framed, AcceptLength;
    var u := w[..n] + (g + more);
    ProcessAppend(env, at, 0, false, FRESH_SERVER, -1, file, u);
    var before := Process(env, at, 0, false, FRESH_SERVER, -1, file);
    StepAnswers(env, at(before.count), before.server, -1, FrameArgs(w));
    if n < |w| {
      CutRun(env, at, before.count, before.server, w, n, g, more);
    } else {
      assert u == w + (g + more) by { assert w[..n] == w; }
      WholeRun(env, at, before.count, before.server, w, g, more);
    }
  }

  lemma CutRun(env: Env, at: nat -> Clock, i: nat, s: Server, w: Bytes, n: nat, g: Bytes, more: Bytes)
    requires IsFrame(w) && IsFrame(g) && AcceptLength(w) <= n < |w|
    requires Step(env, at(i), false, s, -1, FrameArgs(w)).reply.Some?
    ensures var p := Process(env, at, i, false, s, -1, w[..n] + (g + more));
      p.count == 1 && p.server == Step(env, at(i), false, s, -1, FrameArgs(w)).server
  {
    hide Step, IsFrame, ParseOne, AcceptLength, IsLogged;
    CutSwallows(w, n, g, more);
  }

  lemma WholeRun(env: Env, at: nat -> Clock, i: nat, s: Server, w: Bytes, g: Bytes, more: Bytes)
    requires IsFrame(w) && IsFrame(g) && Step(env, at(i), false, s, -1, FrameArgs(w)).reply.Some?
    ensures Process(env, at, i, false, s, -1, w + (g + more)).count > 1
  {
    hide Step, IsFrame, ParseOne, Process, RunParsed;
    ProcessFrame(env, at, i, false, s, -1, w, g + more);
    RunParsedIs(env, at(i), s, FrameArgs(w), w);
    var next := RunParsed(env, at(i), false, s, -1, Parsed(FrameArgs(w), |w|), w).server;
    ProcessFrame(env, at, i + 1, false, next, -1, g, more);
    OneIsCounted(env, at(i + 1), next, g);
  }

  lemma OneIsCounted(env: Env, c: Clock, s: Server, g: Bytes)
    requires IsFrame(g)
    ensures RunParsed(env, c, false, s, -1, Parsed(FrameArgs(g), |g|), g).count == 1
  {
    hide Step;
  }
}
