/** Batches and transactions of clients against the append-only file (src/handler/command_handler.cpp): what one batch does
    to the promise that the file restores the data, and exactly when a transaction keeps it. */
module Transactions {
  import opened Base
  import opened Resp
  import opened Keyspace
  import opened Commands
  import opened Sessions
  import opened QueuedNames
  import opened CommandLoop
  import opened Aof
  import opened WriteEffects

  /** The server after a batch, and the file with what the batch logged. */
  function Serve(l: Life, p: Processed): (r: Life) {
    Life(p.server, Logged(l.disk, p.log))
  }

  predicate Durable(frames: seq<Bytes>) {
    forall i :: 0 <= i < |frames| ==> IsFrame(frames[i]) && DurableArgs(FrameArgs(frames[i]))
  }

  lemma BirthSafe(env: Env)
    ensures Safe(env, BIRTH)
  {
    hide Process;
    forall at: nat -> Clock | AllClocks(at)
      ensures Restores(env, at, [], map[])
    {
      NothingToDo(env, at, 0, false, FRESH_SERVER, -1);
    }
  }

  // ---------------------------------------------------------------- one command, one batch

  lemma CommandSafe(env: Env, l: Life, c: Clock, fd: int, raw: Bytes)
    requires Safe(env, l) && ClockOk(c) && IsFrame(raw) && DurableArgs(FrameArgs(raw))
    ensures Safe(env, Serve(l, RunParsed(env, c, true, l.server, fd, Parsed(FrameArgs(raw), |raw|), raw)))
  {
    hide Step, IsFrame, Recovers, DurableArgs, Calm, RunParsed;
    var args := FrameArgs(raw);
    RunParsedWhole(env, c, l.server, fd, args, raw);
    FrameNotEmpty(raw);
    var d := l.disk;
    if IsLogged(args) {
      LoggedRecovers(env, d.files[d.manifest], c, l.server, fd, raw);
      DurableKeepsCalm(env, c, l.server, fd, args);
      if d.rewriting {
        LoggedRecovers(env, d.child + d.buffer, c, l.server, fd, raw);
        assert d.child + (d.buffer + raw) == d.child + d.buffer + raw;
      }
    } else {
      UnloggedKeepsData(env, c, l.server, fd, args);
    }
  }

  lemma {:induction false} BatchSafe(env: Env, at: nat -> Clock, i: nat, l: Life, fd: int, frames: seq<Bytes>)
    requires Safe(env, l) && AllClocks(at) && Durable(frames)
    ensures Safe(env, Serve(l, Process(env, at, i, true, l.server, fd, Concat(frames))))
    decreases |frames|
  {
    hide Safe, Process, RunParsed, IsFrame, DurableArgs, Logged;
    if frames == [] {
      NothingToDo(env, at, i, true, l.server, fd);
      LogNothing(l);
    } else {
      var w, more := frames[0], frames[1..];
      CommandSafe(env, l, at(i), fd, w);
      ProcessFrame(env, at, i, true, l.server, fd, w, Concat(more));
      var one := RunParsed(env, at(i), true, l.server, fd, Parsed(FrameArgs(w), |w|), w);
      if !one.waits {
        var rest := Process(env, at, i + 1, true, one.server, fd, Concat(more));
        BatchSafe(env, at, i + 1, Serve(l, one), fd, more);
        LogTwice(l.disk, one.log, rest.log);
      }
    }
  }

  lemma LogNothing(l: Life)
    ensures Serve(l, Idle(l.server)) == l
  {}

  lemma RunParsedWhole(env: Env, c: Clock, s: Server, fd: int, args: seq<Bytes>, w: Bytes)
    ensures var r := RunParsed(env, c, true, s, fd, Parsed(args, |w|), w);
      r.server == Step(env, c, true, s, fd, args).server && r.waits == Step(env, c, true, s, fd, args).reply.None? &&
      r.log == if IsLogged(args) then w else []
  {
    hide Step;
  }

  lemma DurableKeepsCalm(env: Env, c: Clock, s: Server, fd: int, args: seq<Bytes>)
    requires DurableArgs(args) && Calm(s) && ClockOk(c)
    ensures Calm(Step(env, c, true, s, fd, args).server)
  {
    hide DurableArgs, Calm, Step;
    StepAgrees(env, c, s, fd, c, s, args);
  }

  // ---------------------------------------------------------------- transactions

  function ArgsOf(frames: seq<Bytes>): (r: seq<seq<Bytes>>)
    requires AllFrames(frames)
  {
    if frames == [] then [] else [FrameArgs(frames[0])] + ArgsOf(frames[1..])
  }

  /** The commands run one after the other, outside a transaction, at one clock reading. */
  function EachNow(env: Env, c: Clock, l: Life, fd: int, frames: seq<Bytes>): (r: Life)
    requires AllFrames(frames)
    decreases |frames|
  {
    if frames == [] then l
    else
      var w := frames[0];
      EachNow(env, c, Serve(l, RunParsed(env, c, true, l.server, fd, Parsed(FrameArgs(w), |w|), w)), fd, frames[1..])
  }

  /** They keep the promise, and log exactly the writes among them. */
  lemma {:induction false} EachNowSafe(env: Env, c: Clock, l: Life, fd: int, frames: seq<Bytes>)
    requires Safe(env, l) && ClockOk(c) && Durable(frames)
    ensures AllFrames(frames)
    ensures var r := EachNow(env, c, l, fd, frames);
      Safe(env, r) && r.disk == Logged(l.disk, Concat(WriteFrames(frames)))
    decreases |frames|
  {
    hide Safe, RunParsed, IsFrame, DurableArgs, Logged;
    if frames == [] {
      LogNothing(l);
    } else {
      var w, more := frames[0], frames[1..];
      CommandSafe(env, l, c, fd, w);
      var one := RunParsed(env, c, true, l.server, fd, Parsed(FrameArgs(w), |w|), w);
      RunParsedWhole(env, c, l.server, fd, FrameArgs(w), w);
      EachNowSafe(env, c, Serve(l, one), fd, more);
      LogTwice(l.disk, one.log, Concat(WriteFrames(more)));
      assert [] + Concat(WriteFrames(more)) == Concat(WriteFrames(more));
    }
  }

  /** The name is in the table as typed, or not at all. */
  predicate TypedAsRun(args: seq<Bytes>) {
    args != [] && Lookup(args[0]) == Lookup(ToUpper(args[0]))
  }

  /** Every command that can write is typed as it is run. */
  predicate WritesTypedAsRun(env: Env, frames: seq<Bytes>)
    requires AllFrames(frames)
  {
    forall i :: 0 <= i < |frames| && CanWrite(env, FrameArgs(frames[i])) ==> TypedAsRun(FrameArgs(frames[i]))
  }

  /** EXEC leaves the data that the commands leave when they are run one after the other, if the ones that can write are
      typed as they are run. */
  lemma {:induction false} EachNowIsQueued(env: Env, c: Clock, l: Life, fd: int, frames: seq<Bytes>, s: Server)
    requires Safe(env, l) && ClockOk(c) && Durable(frames) && Calm(s) && s.core.db.data == l.server.core.db.data
    requires AllFrames(frames) && WritesTypedAsRun(env, frames)
    ensures var q := Server(RunQueued(env, c, true, s.core, fd, ArgsOf(frames)).core, map[]);
      Calm(q) && q.core.db.data == EachNow(env, c, l, fd, frames).server.core.db.data
    decreases |frames|
  {
    hide RunParsed, IsFrame, Recovers, Logged, DurableArgs, CanWrite, Calm, ExecNamed, TypedAsRun;
    if frames != [] {
      var w, more := frames[0], frames[1..];
      var args := FrameArgs(w);
      CommandSafe(env, l, c, fd, w);
      RunParsedWhole(env, c, l.server, fd, args, w);
      var one := RunParsed(env, c, true, l.server, fd, Parsed(args, |w|), w);
      QueuedKeepsPace(env, c, l.server, s, fd, args);
      var next := Server(ExecNamed(env, c, true, s.core, fd, args[0], args).core, map[]);
      EachNowIsQueued(env, c, Serve(l, one), fd, more, next);
      assert ArgsOf(frames)[0] == args && ArgsOf(frames)[1..] == ArgsOf(more);
    } else {
      CalmIsBare(s);
      assert Server(s.core, map[]) == s;
    }
  }

  /** One command, run at once on one server and from a queue on another with the same data. */
  lemma QueuedKeepsPace(env: Env, c: Clock, x: Server, y: Server, fd: int, args: seq<Bytes>)
    requires DurableArgs(args) && Calm(x) && Calm(y) && x.core.db.data == y.core.db.data && ClockOk(c)
    requires CanWrite(env, args) ==> TypedAsRun(args)
    ensures args != []
    ensures var q := Server(ExecNamed(env, c, true, y.core, fd, args[0], args).core, map[]);
      Calm(q) && q.core.db.data == Step(env, c, true, x, fd, args).server.core.db.data
  {
    hide DurableArgs, Calm, Step, ExecNamed, CanWrite, ToUpper, Lookup;
    DurableIsData(args);
    CalmIsBare(y);
    StepIsNamed(env, c, true, y, fd, args);
    StepAgrees(env, c, x, fd, c, y, args);
    StepAgrees(env, c, y, fd, c, y, args);
    if TypedAsRun(args) {
      SameNamed(env, c, y.core, fd, args);
    } else {
      NoWriteKeeps(env, c, x, fd, args);
      NotInTable(env, c, y.core, fd, args);
      assert Server(y.core, map[]) == y;
    }
  }

  /** A name that is found only in upper case is not found as typed. */
  lemma NotInTable(env: Env, c: Clock, core: Core, fd: int, args: seq<Bytes>)
    requires args != [] && !TypedAsRun(args)
    ensures ExecNamed(env, c, true, core, fd, args[0], args).core == core
  {
    hide Lookup, Exec, ToUpper;
    if Lookup(args[0]).Some? { TableIsUpper(args[0]); }
  }

  lemma DurableIsData(args: seq<Bytes>)
    requires DurableArgs(args)
    ensures args != [] && VerbOf(ToUpper(args[0])) == Data
  {}

  lemma SameNamed(env: Env, c: Clock, core: Core, fd: int, args: seq<Bytes>)
    requires TypedAsRun(args)
    ensures ExecNamed(env, c, true, core, fd, args[0], args).core
         == ExecNamed(env, c, true, core, fd, ToUpper(args[0]), args).core
  {
    hide Lookup, Exec, ToUpper;
  }

  predicate Starts(w: Bytes) {
    IsFrame(w) && FrameArgs(w) != [] && VerbOf(ToUpper(FrameArgs(w)[0])) == Multi
  }

  predicate Ends(w: Bytes, verb: Verb) {
    IsFrame(w) && FrameArgs(w) != [] && VerbOf(ToUpper(FrameArgs(w)[0])) == verb && (verb == Exec_ || verb == Discard)
  }

  function InMulti(core: Core, fd: int, queued: seq<seq<Bytes>>, watched: map<Bytes, nat>): (s: Server) {
    Server(core, map[fd := Tx(true, queued, watched)])
  }

  /** Between commands, with at most this client watching keys. */
  predicate Watching(s: Server, core: Core, fd: int, watched: map<Bytes, nat>) {
    s.core == core && (s.txs == map[fd := Tx(false, [], watched)] || (s.txs == map[] && watched == map[]))
  }

  lemma NotLogged(args: seq<Bytes>)
    requires args != [] && VerbOf(ToUpper(args[0])) != Data
    ensures !IsLogged(args)
  {
    hide ToUpper;
    if IsLogged(args) { WritesAreData(args[0]); }
  }

  /** What the last command of a transaction leaves behind. */
  function Closed(env: Env, c: Clock, core: Core, fd: int, queued: seq<seq<Bytes>>, watched: map<Bytes, nat>, verb: Verb)
    : (r: Server)
  {
    Server(if Commits(core, watched, verb) then RunQueued(env, c, true, core, fd, queued).core else core, map[])
  }

  predicate Commits(core: Core, watched: map<Bytes, nat>, verb: Verb) {
    verb == Exec_ && !Dirty(core.db, watched)
  }

  lemma CloseStep(env: Env, c: Clock, core: Core, fd: int, queued: seq<seq<Bytes>>, watched: map<Bytes, nat>,
                  args: seq<Bytes>, verb: Verb)
    requires args != [] && VerbOf(ToUpper(args[0])) == verb && (verb == Exec_ || verb == Discard)
    ensures Step(env, c, true, InMulti(core, fd, queued, watched), fd, args).server
         == Closed(env, c, core, fd, queued, watched, verb)
  {
    hide RunQueued, ToUpper, VerbOf, Dirty;
    var txs := map[fd := Tx(true, queued, watched)];
    assert txs - {fd} == map[];
  }

  lemma QueueStepIs(env: Env, c: Clock, core: Core, fd: int, queued: seq<seq<Bytes>>, watched: map<Bytes, nat>,
                    args: seq<Bytes>)
    requires args != [] && VerbOf(ToUpper(args[0])) == Data
    ensures Step(env, c, true, InMulti(core, fd, queued, watched), fd, args)
         == StepOut(InMulti(core, fd, queued + [args], watched), Some(Queued), [])
  {
    hide ToUpper, VerbOf, ExecNamed;
  }

  /** The part of a transaction after MULTI: everything is queued, the writes are logged, the last command closes. */
  lemma {:induction false} QueueRun(env: Env, at: nat -> Clock, i: nat, core: Core, fd: int, queued: seq<seq<Bytes>>,
                                    watched: map<Bytes, nat>, frames: seq<Bytes>, last: Bytes, verb: Verb)
    requires Durable(frames) && AllFrames(frames) && Ends(last, verb)
    ensures var p := Process(env, at, i, true, InMulti(core, fd, queued, watched), fd, Concat(frames) + last);
      p.server == Closed(env, at(i + |frames|), core, fd, queued + ArgsOf(frames), watched, verb) &&
      p.log == Concat(WriteFrames(frames))
    decreases |frames|
  {
    hide Process, IsFrame, DurableArgs, Closed, InMulti, IsLogged, Ends, Concat, WriteFrames, ArgsOf;
    if frames == [] {
      NoFrames(last, queued);
      CloseRun(env, at, i, core, fd, queued, watched, last, verb);
    } else {
      var w, more := frames[0], frames[1..];
      QueueSplit(queued, frames, last);
      QueueOne(env, at, i, core, fd, queued, watched, w, Concat(more) + last);
      QueueRun(env, at, i + 1, core, fd, queued + [FrameArgs(w)], watched, more, last, verb);
    }
  }

  lemma NoFrames(last: Bytes, queued: seq<seq<Bytes>>)
    ensures Concat([]) + last == last && Concat(WriteFrames([])) == [] && queued + ArgsOf([]) == queued
  {
    assert [] + last == last && queued + [] == queued;
  }

  lemma CloseRun(env: Env, at: nat -> Clock, i: nat, core: Core, fd: int, queued: seq<seq<Bytes>>,
                 watched: map<Bytes, nat>, last: Bytes, verb: Verb)
    requires Ends(last, verb)
    ensures var p := Process(env, at, i, true, InMulti(core, fd, queued, watched), fd, last);
      p.server == Closed(env, at(i), core, fd, queued, watched, verb) && p.log == []
  {
    hide Process, RunParsed, IsFrame, Closed, InMulti, ToUpper, VerbOf, IsLogged, Step;
    var s := InMulti(core, fd, queued, watched);
    ProcessFrame(env, at, i, true, s, fd, last, []);
    RunParsedWhole(env, at(i), s, fd, FrameArgs(last), last);
    NotLogged(FrameArgs(last));
    CloseStep(env, at(i), core, fd, queued, watched, FrameArgs(last), verb);
  }

  /** One queued command at the front of more input. */
  lemma QueueOne(env: Env, at: nat -> Clock, i: nat, core: Core, fd: int, queued: seq<seq<Bytes>>,
                 watched: map<Bytes, nat>, w: Bytes, rest: Bytes)
    requires IsFrame(w) && DurableArgs(FrameArgs(w))
    ensures var args := FrameArgs(w);
      var p := Process(env, at, i, true, InMulti(core, fd, queued, watched), fd, w + rest);
      var q := Process(env, at, i + 1, true, InMulti(core, fd, queued + [args], watched), fd, rest);
      p.server == q.server && p.log == (if IsLogged(args) then w else []) + q.log
  {
    hide Process, RunParsed, IsFrame, DurableArgs, InMulti, ToUpper, VerbOf, IsLogged, Step;
    var s, args := InMulti(core, fd, queued, watched), FrameArgs(w);
    ProcessFrame(env, at, i, true, s, fd, w, rest);
    DurableIsData(args);
    QueueStepIs(env, at(i), core, fd, queued, watched, args);
    RunParsedWhole(env, at(i), s, fd, args, w);
  }

  lemma QueueSplit(queued: seq<seq<Bytes>>, frames: seq<Bytes>, last: Bytes)
    requires frames != [] && AllFrames(frames)
    ensures Concat(frames) + last == frames[0] + (Concat(frames[1..]) + last)
    ensures queued + [FrameArgs(frames[0])] + ArgsOf(frames[1..]) == queued + ArgsOf(frames)
    ensures Concat(WriteFrames(frames))
         == (if IsLogged(FrameArgs(frames[0])) then frames[0] else []) + Concat(WriteFrames(frames[1..]))
  {
    hide Concat, FrameArgs, IsFrame, WriteFrames, ArgsOf;
    ConcatFirst(frames);
    Regroup(frames[0], Concat(frames[1..]), last);
    FirstArgs(queued, frames);
    FirstWrite(frames);
  }

  lemma FirstArgs(queued: seq<seq<Bytes>>, frames: seq<Bytes>)
    requires frames != [] && AllFrames(frames)
    ensures queued + [FrameArgs(frames[0])] + ArgsOf(frames[1..]) == queued + ArgsOf(frames)
  {
    hide FrameArgs, IsFrame;
    assert ArgsOf(frames) == [FrameArgs(frames[0])] + ArgsOf(frames[1..]);
  }

  lemma FirstWrite(frames: seq<Bytes>)
    requires frames != [] && AllFrames(frames)
    ensures Concat(WriteFrames(frames))
         == (if IsLogged(FrameArgs(frames[0])) then frames[0] else []) + Concat(WriteFrames(frames[1..]))
  {
    hide FrameArgs, IsFrame, IsLogged, Concat;
    if IsLogged(FrameArgs(frames[0])) {
      ConcatFirst(WriteFrames(frames));
    } else {
      assert [] + Concat(WriteFrames(frames[1..])) == Concat(WriteFrames(frames[1..]));
    }
  }

  /** A whole transaction from a server between commands. */
  lemma TransactionRuns(env: Env, at: nat -> Clock, i: nat, s: Server, fd: int, watched: map<Bytes, nat>, multi: Bytes,
                        frames: seq<Bytes>, last: Bytes, verb: Verb)
    requires Watching(s, s.core, fd, watched)
    requires Starts(multi) && Durable(frames) && AllFrames(frames) && Ends(last, verb)
    ensures var p := Process(env, at, i, true, s, fd, multi + (Concat(frames) + last));
      p.server == Closed(env, at(i + 1 + |frames|), s.core, fd, ArgsOf(frames), watched, verb) &&
      p.log == Concat(WriteFrames(frames))
  {
    hide Process, RunParsed, IsFrame, DurableArgs, Closed, ToUpper, VerbOf, IsLogged, Step, InMulti, Watching;
    var args := FrameArgs(multi);
    ProcessFrame(env, at, i, true, s, fd, multi, Concat(frames) + last);
    RunParsedWhole(env, at(i), s, fd, args, multi);
    NotLogged(args);
    MultiStep(env, at(i), s, fd, watched, args);
    QueueRun(env, at, i + 1, s.core, fd, [], watched, frames, last, verb);
    assert [] + ArgsOf(frames) == ArgsOf(frames);
    assert [] + Concat(WriteFrames(frames)) == Concat(WriteFrames(frames));
  }

  lemma MultiStep(env: Env, c: Clock, s: Server, fd: int, watched: map<Bytes, nat>, args: seq<Bytes>)
    requires Watching(s, s.core, fd, watched) && args != [] && VerbOf(ToUpper(args[0])) == Multi
    ensures Step(env, c, true, s, fd, args) == StepOut(InMulti(s.core, fd, [], watched), Some(Ok), [])
  {
    hide ToUpper, VerbOf;
    assert map[fd := Tx(false, [], watched)][fd := Tx(true, [], watched)] == map[fd := Tx(true, [], watched)];
  }

  /** The data a transaction is going to leave, from the state before it: those of the queued run if it commits, the old
      ones if it is discarded or a watched key has changed. */
  function Leaves(env: Env, c: Clock, core: Core, fd: int, frames: seq<Bytes>, watched: map<Bytes, nat>, verb: Verb)
    : (r: map<Bytes, Entry>)
    requires AllFrames(frames)
  {
    if Commits(core, watched, verb) then RunQueued(env, c, true, core, fd, ArgsOf(frames)).core.db.data else core.db.data
  }

  /** Exactly when a transaction is recovered, told from the state before it: the data it is going to leave are the data
      its queued commands would leave outside it. */
  lemma TransactionRecovers(env: Env, at: nat -> Clock, i: nat, l: Life, s: Server, fd: int, watched: map<Bytes, nat>,
                            multi: Bytes, frames: seq<Bytes>, last: Bytes, verb: Verb)
    requires Safe(env, l) && Watching(s, l.server.core, fd, watched)
    requires AllClocks(at) && Starts(multi) && Durable(frames) && Ends(last, verb)
    ensures AllFrames(frames)
    ensures
      var c := at(i + 1 + |frames|);
      var r := Serve(l, Process(env, at, i, true, s, fd, multi + (Concat(frames) + last)));
      r.server.core.db.data == Leaves(env, c, l.server.core, fd, frames, watched, verb) &&
      (Recovers(env, FileOf(r.disk, r.disk.manifest), r.server.core.db.data) <==>
       Leaves(env, c, l.server.core, fd, frames, watched, verb) == EachNow(env, c, l, fd, frames).server.core.db.data)
  {
    hide Process, Recovers, IsFrame, DurableArgs, Starts, Ends, Calm, Watching, Commits, RunQueued;
    var c := at(i + 1 + |frames|);
    EachNowSafe(env, c, l, fd, frames);
    WatchingCore(s, l.server.core, fd, watched);
    TransactionRuns(env, at, i, s, fd, watched, multi, frames, last, verb);
    var r := Serve(l, Process(env, at, i, true, s, fd, multi + (Concat(frames) + last)));
    var now := EachNow(env, c, l, fd, frames);
    OneMeaning(env, FileOf(r.disk, r.disk.manifest), now.server.core.db.data, r.server.core.db.data);
  }

  lemma WatchingCore(s: Server, core: Core, fd: int, watched: map<Bytes, nat>)
    requires Watching(s, core, fd, watched)
    ensures s.core == core
  {}

  /** A file restores at most one state of the data. */
  lemma OneMeaning(env: Env, file: Bytes, a: map<Bytes, Entry>, b: map<Bytes, Entry>)
    requires Recovers(env, file, a)
    ensures Recovers(env, file, b) <==> a == b
  {
    hide Process, Framed, Calm;
    var any: nat -> Clock := i => Clock(0, 0);
    assert AllClocks(any);
  }

  /** Some queued command can write. */
  predicate AnyCanWrite(env: Env, frames: seq<Bytes>)
    requires AllFrames(frames)
  {
    exists i :: 0 <= i < |frames| && CanWrite(env, FrameArgs(frames[i]))
  }

  /** Transactions that are always recovered: an EXEC in which what can write is typed as it is run, a DISCARD in which
      nothing can write. */
  predicate IsRecovered(env: Env, frames: seq<Bytes>) {
    |frames| >= 2 && Starts(frames[0]) &&
    (var middle, last := frames[1..|frames| - 1], frames[|frames| - 1];
     Durable(middle) && AllFrames(middle) &&
     ((Ends(last, Exec_) && WritesTypedAsRun(env, middle)) || (Ends(last, Discard) && !AnyCanWrite(env, middle))))
  }

  lemma {:induction false} NothingWritten(env: Env, c: Clock, l: Life, fd: int, frames: seq<Bytes>)
    requires Safe(env, l) && ClockOk(c) && Durable(frames)
    requires AllFrames(frames) && !AnyCanWrite(env, frames)
    ensures EachNow(env, c, l, fd, frames).server.core.db.data == l.server.core.db.data
    decreases |frames|
  {
    hide RunParsed, IsFrame, Recovers, DurableArgs, Logged, Calm, CanWrite;
    if frames != [] {
      var w := frames[0];
      CommandSafe(env, l, c, fd, w);
      RunParsedWhole(env, c, l.server, fd, FrameArgs(w), w);
      NoWriteKeeps(env, c, l.server, fd, FrameArgs(w));
      var one := RunParsed(env, c, true, l.server, fd, Parsed(FrameArgs(w), |w|), w);
      assert forall i :: 0 <= i < |frames[1..]| ==> frames[1..][i] == frames[i + 1];
      NothingWritten(env, c, Serve(l, one), fd, frames[1..]);
    }
  }

  lemma TransactionSafe(env: Env, at: nat -> Clock, i: nat, l: Life, fd: int, frames: seq<Bytes>)
    requires Safe(env, l) && AllClocks(at) && IsRecovered(env, frames)
    ensures Safe(env, Serve(l, Process(env, at, i, true, l.server, fd, Concat(frames))))
  {
    hide Process, Recovers, IsFrame, DurableArgs, Starts, Ends, WritesTypedAsRun, AnyCanWrite, Calm, RunQueued;
    var multi, middle, last := frames[0], frames[1..|frames| - 1], frames[|frames| - 1];
    var c := at(i + 1 + |middle|);
    SplitTransaction(frames);
    CalmIsBare(l.server);
    var verb := if Ends(last, Exec_) && WritesTypedAsRun(env, middle) then Exec_ else Discard;
    TransactionRuns(env, at, i, l.server, fd, map[], multi, middle, last, verb);
    EachNowSafe(env, c, l, fd, middle);
    if verb == Exec_ {
      EachNowIsQueued(env, c, l, fd, middle, l.server);
    } else {
      NothingWritten(env, c, l, fd, middle);
      assert Server(l.server.core, map[]) == l.server;
    }
  }

  lemma ConcatFirst(frames: seq<Bytes>)
    requires frames != []
    ensures Concat(frames) == frames[0] + Concat(frames[1..])
  {}

  lemma SplitTransaction(frames: seq<Bytes>)
    requires |frames| >= 2
    ensures Concat(frames) == frames[0] + (Concat(frames[1..|frames| - 1]) + frames[|frames| - 1])
  {
    hide Concat;
    var middle, last := frames[1..|frames| - 1], frames[|frames| - 1];
    assert frames[1..] == middle + [last];
    ConcatFirst(frames);
    ConcatSplit(middle, [last]);
    ConcatOne(last);
  }

  lemma WritesAreData(name: Bytes)
    requires IsWriteName(ToUpper(name))
    ensures VerbOf(ToUpper(name)) == Data
  {}
}
