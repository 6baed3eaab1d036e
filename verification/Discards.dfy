/** Transactions that do not commit, over all states: they are recovered from every state exactly when nothing that was
    queued can write. The other direction builds the state that gives a queued write away. */
module Discards {
  import opened Base
  import opened Decimal
  import opened Resp
  import opened SortedSets
  import opened Keyspace
  import opened Commands
  import opened Sessions
  import opened CommandLoop
  import opened Rebuild
  import opened Aof
  import opened WriteEffects
  import opened Transactions

  // ---------------------------------------------------------------- arguments of a command are short

  lemma {:induction false} ScanRange(input: Bytes, p: nat, acc: int)
    requires p <= |input| && -INT32_HALF <= acc < INT32_HALF
    ensures -INT32_HALF <= ScanDigits(input, p, acc).value < INT32_HALF
    decreases |input| - p
  {
    if p < |input| && IsDigit(input[p]) {
      ScanRange(input, p + 1, Wrap32(acc * 10 + DigitValue(input[p])));
    }
  }

  lemma ParsedIntRange(input: Bytes, p: nat)
    ensures var r := ParseIntUntilCrlf(input, p); r.Some? ==> r.value.value < INT32_HALF
  {
    if p < |input| {
      ScanRange(input, if input[p] == '-' then p + 1 else p, 0);
    }
  }

  lemma {:induction false} ItemsAreShort(input: Bytes, p: nat, count: nat)
    ensures var r := ParseItems(input, p, count); r.Some? ==> ShortItems(r.value.args)
    decreases count
  {
    hide ParseIntUntilCrlf;
    if count > 0 && p < |input| && input[p] == '$' {
      ParsedIntRange(input, p + 1);
      var len := ParseIntUntilCrlf(input, p + 1);
      if len.Some? && 0 <= len.value.value && len.value.next + len.value.value <= |input| {
        ItemsAreShort(input, len.value.next + len.value.value + 2, count - 1);
      }
    }
  }

  lemma ArgsAreShort(w: Bytes, i: nat)
    requires IsFrame(w) && i < |FrameArgs(w)|
    ensures |FrameArgs(w)[i]| < INT32_HALF
  {
    hide ParseIntUntilCrlf, ParseItems;
    var head := ParseIntUntilCrlf(w, 1).value;
    ItemsAreShort(w, head.next, head.value);
  }

  // ---------------------------------------------------------------- runs from a well-chosen state

  /** From the empty state, something that can create leaves data behind. */
  lemma {:induction false} CreatedStays(env: Env, c: Clock, l: Life, fd: int, frames: seq<Bytes>, j: nat)
    requires Safe(env, l) && ClockOk(c) && Durable(frames) && AllFrames(frames)
    requires l.server.core.db.data != map[] || (j < |frames| && CanCreate(env, FrameArgs(frames[j])))
    ensures EachNow(env, c, l, fd, frames).server.core.db.data != map[]
    decreases |frames|
  {
    hide RunParsed, IsFrame, Recovers, DurableArgs, Logged, Calm, CanCreate;
    if frames != [] {
      var w := frames[0];
      CommandSafe(env, l, c, fd, w);
      RunParsedWhole(env, c, l.server, fd, FrameArgs(w), w);
      KeysStay(env, c, l.server, fd, FrameArgs(w));
      var one := RunParsed(env, c, true, l.server, fd, Parsed(FrameArgs(w), |w|), w);
      assert j > 0 && j < |frames| ==> frames[1..][j - 1] == frames[j];
      CreatedStays(env, c, Serve(l, one), fd, frames[1..], if j > 0 then j - 1 else 0);
    }
  }

  /** Nothing that only shrinks brings an entry back. */
  lemma {:induction false} TakenStays(env: Env, c: Clock, l: Life, fd: int, frames: seq<Bytes>, key: Bytes, e: Entry, j: nat)
    requires Safe(env, l) && ClockOk(c) && Durable(frames) && AllFrames(frames)
    requires forall i :: 0 <= i < |frames| ==> !CanCreate(env, FrameArgs(frames[i]))
    requires key in l.server.core.db.data && Shrunk(e, l.server.core.db.data[key])
    requires Size(l.server.core.db.data[key].value) < Size(e.value) ||
             (j < |frames| && Forces(env, FrameArgs(frames[j]), key, e))
    ensures var r := EachNow(env, c, l, fd, frames).server.core.db.data; key in r && Size(r[key].value) < Size(e.value)
    decreases |frames|
  {
    hide RunParsed, IsFrame, Recovers, DurableArgs, Logged, Calm, CanCreate, Forces, Size;
    if frames != [] {
      var w := frames[0];
      CommandSafe(env, l, c, fd, w);
      RunParsedWhole(env, c, l.server, fd, FrameArgs(w), w);
      ShrinkStep(env, c, l.server, fd, FrameArgs(w), key);
      var one := RunParsed(env, c, true, l.server, fd, Parsed(FrameArgs(w), |w|), w);
      assert forall i :: 0 <= i < |frames[1..]| ==> frames[1..][i] == frames[i + 1];
      TakenStays(env, c, Serve(l, one), fd, frames[1..], key, e, if j > 0 then j - 1 else 0);
    }
  }

  // ---------------------------------------------------------------- the states

  /** A safe state after one durable command. */
  lemma AfterOne(env: Env, c: Clock, args: seq<Bytes>) returns (l: Life)
    requires Bounded(args) && DurableArgs(args) && ClockOk(c)
    ensures Safe(env, l) && l.server == Step(env, c, true, FRESH_SERVER, 0, args).server
  {
    hide Safe, IsFrame, EncodeArray, RunParsed, Step, DurableArgs;
    var w := EncodeArray(args);
    EncodedIsFrame(args);
    BirthSafe(env);
    CommandSafe(env, BIRTH, c, 0, w);
    RunParsedWhole(env, c, FRESH_SERVER, 0, args, w);
    l := Serve(BIRTH, RunParsed(env, c, true, FRESH_SERVER, 0, Parsed(args, |w|), w));
  }

  lemma ListState(env: Env, c: Clock, key: Bytes) returns (l: Life)
    requires ClockOk(c) && |key| < INT32_HALF
    ensures Safe(env, l) && l.server.core.db.data == map[key := Entry(Lst(["x"]), None)]
  {
    hide Safe, Step;
    var args := ["RPUSH", key, "x"];
    RpushIs(env, c, key);
    l := AfterOne(env, c, args);
  }

  lemma RpushIs(env: Env, c: Clock, key: Bytes)
    ensures DurableArgs(["RPUSH", key, "x"])
    ensures Step(env, c, true, FRESH_SERVER, 0, ["RPUSH", key, "x"]).server.core.db.data
         == map[key := Entry(Lst(["x"]), None)]
  {
    hide Step, Lookup, VerbOf, ToUpper, Touch;
    StateNames();
    StepIsNamed(env, c, true, FRESH_SERVER, 0, ["RPUSH", key, "x"]);
    assert ["RPUSH", key, "x"][3..] == [] && [] + ["x"] == ["x"];
  }

  /** Some score has a text that a command can carry. */
  ghost predicate HasScore(env: Env) {
    RoundTrips(env) && |env.format(0)| < INT32_HALF
  }

  lemma SetState(env: Env, c: Clock, key: Bytes, member: Bytes) returns (l: Life)
    requires ClockOk(c) && |key| < INT32_HALF && |member| < INT32_HALF && HasScore(env)
    ensures Safe(env, l) && l.server.core.db.data == map[key := Entry(Zst(Add(SortedSets.EMPTY, 0, member)), None)]
  {
    hide Safe, Step, Add;
    var args := ["ZADD", key, env.format(0), member];
    ZaddIs(env, c, key, member);
    l := AfterOne(env, c, args);
  }

  lemma ZaddIs(env: Env, c: Clock, key: Bytes, member: Bytes)
    requires RoundTrips(env)
    ensures DurableArgs(["ZADD", key, env.format(0), member])
    ensures Step(env, c, true, FRESH_SERVER, 0, ["ZADD", key, env.format(0), member]).server.core.db.data
         == map[key := Entry(Zst(Add(SortedSets.EMPTY, 0, member)), None)]
  {
    hide Add, Step, Lookup, VerbOf, ToUpper, Touch;
    StateNames();
    var args := ["ZADD", key, env.format(0), member];
    assert env.parse(env.format(0)) == Some(0);
    StepIsNamed(env, c, true, FRESH_SERVER, 0, args);
  }

  lemma StateNames()
    ensures VerbOf(ToUpper("ZADD")) == Data && Lookup(ToUpper("ZADD")) == Some(ZADD)
    ensures VerbOf(ToUpper("RPUSH")) == Data && Lookup(ToUpper("RPUSH")) == Some(RPUSH)
  {
    assert ToUpper("ZADD") == "ZADD" && ToUpper("RPUSH") == "RPUSH";
  }

  // ---------------------------------------------------------------- the theorem

  /** A queued command that can write gives itself away in some state. */
  lemma SomeStateDiffers(env: Env, c: Clock, fd: int, frames: seq<Bytes>, j: nat) returns (l: Life)
    requires HasScore(env) && ClockOk(c) && Durable(frames) && AllFrames(frames)
    requires j < |frames| && CanWrite(env, FrameArgs(frames[j]))
    ensures Safe(env, l) && EachNow(env, c, l, fd, frames).server.core.db.data != l.server.core.db.data
  {
    hide Safe, EachNow, IsFrame, DurableArgs, CanWrite;
    if i :| 0 <= i < |frames| && CanCreate(env, FrameArgs(frames[i])) {
      l := BIRTH;
      BirthSafe(env);
      CreatedStays(env, c, l, fd, frames, i);
    } else {
      l := TakingState(env, c, fd, frames, j);
    }
  }

  lemma TakingState(env: Env, c: Clock, fd: int, frames: seq<Bytes>, j: nat) returns (l: Life)
    requires HasScore(env) && ClockOk(c) && Durable(frames) && AllFrames(frames)
    requires j < |frames| && CanWrite(env, FrameArgs(frames[j]))
    requires forall i :: 0 <= i < |frames| ==> !CanCreate(env, FrameArgs(frames[i]))
    ensures Safe(env, l) && EachNow(env, c, l, fd, frames).server.core.db.data != l.server.core.db.data
  {
    hide Safe, EachNow, IsFrame, Add, Size, Lookup, HasScore, Writes;
    var args := FrameArgs(frames[j]);
    var cmd := Lookup(ToUpper(args[0])).value;
    OnlyShrinks(env, cmd, args);
    TwoArgs(cmd, args);
    ArgsAreShort(frames[j], 1);
    if cmd.ZREM? {
      ArgsAreShort(frames[j], 2);
      l := SetState(env, c, args[1], args[2]);
      MemberThere(args[2]);
    } else {
      l := ListState(env, c, args[1]);
    }
    var e := l.server.core.db.data[args[1]];
    ShrunkSame(e);
    TakenStays(env, c, l, fd, frames, args[1], e, j);
  }

  lemma TwoArgs(cmd: Cmd, args: seq<Bytes>)
    requires Shrinks(cmd) && |args| >= MinArgs(cmd)
    ensures |args| >= 2 && (cmd.ZREM? ==> |args| >= 3)
  {}

  lemma MemberThere(member: Bytes)
    ensures member in Add(SortedSets.EMPTY, 0, member).index
  {
    hide Insert;
  }

  /** Exactly which transactions can be discarded, or aborted by a watched key, in every state without the file saying
      something else afterwards: those in which nothing queued can write. */
  lemma AlwaysDiscardable(env: Env, c: Clock, fd: int, frames: seq<Bytes>)
    requires HasScore(env) && ClockOk(c) && Durable(frames) && AllFrames(frames)
    ensures (forall l :: Safe(env, l) ==> EachNow(env, c, l, fd, frames).server.core.db.data == l.server.core.db.data)
        <==> !AnyCanWrite(env, frames)
  {
    hide Safe, EachNow, IsFrame, DurableArgs, CanWrite;
    if AnyCanWrite(env, frames) {
      var j :| 0 <= j < |frames| && CanWrite(env, FrameArgs(frames[j]));
      var l := SomeStateDiffers(env, c, fd, frames, j);
    } else {
      forall l | Safe(env, l)
        ensures EachNow(env, c, l, fd, frames).server.core.db.data == l.server.core.db.data
      {
        NothingWritten(env, c, l, fd, frames);
      }
    }
  }

  /** Exactly which single command can be committed in every state without the file saying something else afterwards: one
      that is typed as it is run, or cannot write. */
  lemma AlwaysCommittable(env: Env, c: Clock, fd: int, w: Bytes)
    requires HasScore(env) && ClockOk(c) && IsFrame(w) && DurableArgs(FrameArgs(w))
    ensures
      (forall l :: Safe(env, l) ==>
         RunQueued(env, c, true, l.server.core, fd, [FrameArgs(w)]).core.db.data
           == EachNow(env, c, l, fd, [w]).server.core.db.data)
      <==> (CanWrite(env, FrameArgs(w)) ==> TypedAsRun(FrameArgs(w)))
  {
    hide EachNow, IsFrame, DurableArgs, CanWrite, TypedAsRun, Recovers, Calm, RunQueued;
    var args, frames := FrameArgs(w), [w];
    OneFrame(w);
    if CanWrite(env, args) ==> TypedAsRun(args) {
      forall l | Safe(env, l)
        ensures RunQueued(env, c, true, l.server.core, fd, [args]).core.db.data
             == EachNow(env, c, l, fd, [w]).server.core.db.data
      {
        EachNowIsQueued(env, c, l, fd, frames, l.server);
      }
    } else {
      var l := SomeStateDiffers(env, c, fd, frames, 0);
      DurableIsData(args);
      QueuedUnknown(env, c, l.server.core, fd, args);
    }
  }

  lemma OneFrame(w: Bytes)
    requires IsFrame(w)
    ensures ArgsOf([w]) == [FrameArgs(w)] && AllFrames([w])
  {
    assert [w][1..] == [];
  }

  lemma QueuedUnknown(env: Env, c: Clock, core: Core, fd: int, args: seq<Bytes>)
    requires args != [] && !TypedAsRun(args)
    ensures RunQueued(env, c, true, core, fd, [args]).core == core
  {
    hide ExecNamed, TypedAsRun;
    NotInTable(env, c, core, fd, args);
    assert [args][1..] == [];
  }
}
