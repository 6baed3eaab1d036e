/** The batch loop (`process_with_fd`): parse a command, run it, log it if its name is a write, go on until the
    input ends, does not parse, or a client starts to wait. */
module CommandLoop {
  import opened Base
  import opened Resp
  import opened Commands
  import opened Sessions

  /** `is_write_command`. Logging goes by this name alone. */
  predicate IsWriteName(name: Bytes) {
    name == "SET" || name == "DEL" || name == "INCR" || name == "MSET" || name == "RPUSH" || name == "LPUSH" ||
    name == "LPOP" || name == "RPOP" || name == "XADD" || name == "ZADD" || name == "ZREM" || name == "GEOADD"
  }

  predicate IsLogged(args: seq<Bytes>) {
    args != [] && IsWriteName(ToUpper(args[0]))
  }

  /** `log` is appended to the file and sent to replicas; `count` commands were run. */
  datatype Processed = Processed(server: Server, replies: seq<Reply>, sends: seq<Send>, log: Bytes, consumed: nat,
                                 count: nat, waits: bool)

  function Idle(s: Server): (r: Processed) {
    Processed(s, [], [], [], 0, 0, false)
  }

  /** First `a`, then `b` from where `a` ended. */
  function Join(a: Processed, b: Processed): (r: Processed) {
    Processed(b.server, a.replies + b.replies, a.sends + b.sends, a.log + b.log, a.consumed + b.consumed,
              a.count + b.count, b.waits)
  }

  /** One recognised command; `raw` is the stretch of input it was taken from. */
  function RunParsed(env: Env, c: Clock, live: bool, s: Server, fd: int, p: Parsed, raw: Bytes): (r: Processed) {
    var o := Step(env, c, live, s, fd, p.args);
    Processed(o.server, if o.reply.Some? then [o.reply.value] else [], o.sends,
              if IsLogged(p.args) then raw else [], p.consumed, 1, o.reply.None?)
  }

  /** `at(i)` is the clock reading of the `i`-th command of the connection's batch. */
  function Process(env: Env, at: nat -> Clock, i: nat, live: bool, s: Server, fd: int, input: Bytes): (r: Processed)
    decreases |input|
  {
    match ParseOne(input)
    case None => Idle(s)
    case Some(p) =>
      var cut := Min(p.consumed, |input|);
      var one := RunParsed(env, at(i), live, s, fd, p, input[..cut]);
      if one.waits then one else Join(one, Process(env, at, i + 1, live, one.server, fd, input[cut..]))
  }

  // ---------------------------------------------------------------- pipelining

  /** The reference: every command is sent on its own, and nothing after the first that waits. */
  function OneByOne(env: Env, at: nat -> Clock, i: nat, live: bool, s: Server, fd: int, frames: seq<Bytes>): (r: Processed)
    decreases |frames|
  {
    if frames == [] then Idle(s)
    else
      var one := Process(env, at, i, live, s, fd, frames[0]);
      if one.waits then one else Join(one, OneByOne(env, at, i + 1, live, one.server, fd, frames[1..]))
  }

  lemma JoinIdle(a: Processed)
    requires !a.waits
    ensures Join(a, Idle(a.server)) == a
  {
    assert a.replies + [] == a.replies && a.sends + [] == a.sends && a.log + [] == a.log;
  }

  lemma JoinTwice(a: Processed, b: Processed, c: Processed)
    ensures Join(a, Join(b, c)) == Join(Join(a, b), c)
  {
    assert a.replies + (b.replies + c.replies) == a.replies + b.replies + c.replies;
    assert a.sends + (b.sends + c.sends) == a.sends + b.sends + c.sends;
    assert a.log + (b.log + c.log) == a.log + b.log + c.log;
  }

  lemma NothingToDo(env: Env, at: nat -> Clock, i: nat, live: bool, s: Server, fd: int)
    ensures Process(env, at, i, live, s, fd, []) == Idle(s)
  {
    hide Step;
  }

  /** A command at the front of more input is run as if it had come alone. */
  lemma ProcessFrame(env: Env, at: nat -> Clock, i: nat, live: bool, s: Server, fd: int, w: Bytes, more: Bytes)
    requires IsFrame(w)
    ensures var one := RunParsed(env, at(i), live, s, fd, Parsed(FrameArgs(w), |w|), w);
      Process(env, at, i, live, s, fd, w) == one &&
      Process(env, at, i, live, s, fd, w + more)
        == if one.waits then one else Join(one, Process(env, at, i + 1, live, one.server, fd, more))
  {
    hide ParseOne, RunParsed, Idle;
    FrameThenMore(w, more);
    FrameThenMore(w, []);
    assert w + [] == w && w[..|w|] == w && w[|w|..] == [];
    assert (w + more)[..|w|] == w && (w + more)[|w|..] == more;
    var one := RunParsed(env, at(i), live, s, fd, Parsed(FrameArgs(w), |w|), w);
    NothingToDo(env, at, i + 1, live, one.server, fd);
    if !one.waits { JoinIdle(one); }
  }

  /** Pipelining: a concatenation of commands gives the same server, replies, messages, log and consumed length as
      sending them one at a time, up to and including the first that waits. */
  lemma {:induction false} Pipelining(env: Env, at: nat -> Clock, i: nat, live: bool, s: Server, fd: int,
                                      frames: seq<Bytes>)
    requires AllFrames(frames)
    ensures Process(env, at, i, live, s, fd, Concat(frames)) == OneByOne(env, at, i, live, s, fd, frames)
    decreases |frames|
  {
    hide Process, RunParsed, IsFrame;
    if frames == [] {
      NothingToDo(env, at, i, live, s, fd);
    } else {
      var w := frames[0];
      ProcessFrame(env, at, i, live, s, fd, w, Concat(frames[1..]));
      var one := RunParsed(env, at(i), live, s, fd, Parsed(FrameArgs(w), |w|), w);
      if !one.waits {
        Pipelining(env, at, i + 1, live, one.server, fd, frames[1..]);
      }
    }
  }

  /** The write-named commands among `frames`, as they were sent. */
  function WriteFrames(frames: seq<Bytes>): (r: seq<Bytes>)
    requires AllFrames(frames)
  {
    if frames == [] then []
    else if IsLogged(FrameArgs(frames[0])) then [frames[0]] + WriteFrames(frames[1..])
    else WriteFrames(frames[1..])
  }

  /** The log of a batch is exactly the raw bytes of the write-named commands it ran, in order; it consumed
      exactly the commands it ran, all of them unless one waits. */
  lemma {:induction false} LogIsWrites(env: Env, at: nat -> Clock, i: nat, live: bool, s: Server, fd: int,
                                       frames: seq<Bytes>)
    requires AllFrames(frames)
    ensures var p := OneByOne(env, at, i, live, s, fd, frames);
      p.count <= |frames| && p.log == Concat(WriteFrames(frames[..p.count])) &&
      p.consumed == |Concat(frames[..p.count])| && (!p.waits ==> p.count == |frames|)
    decreases |frames|
  {
    hide Process, IsFrame, IsLogged, FrameArgs, Step;
    if frames != [] {
      var w, rest := frames[0], frames[1..];
      ProcessFrame(env, at, i, live, s, fd, w, []);
      var one := RunParsed(env, at(i), live, s, fd, Parsed(FrameArgs(w), |w|), w);
      if one.waits {
        assert frames[..1] == [w] && [w][1..] == [];
        LogOfOne(w);
      } else {
        LogIsWrites(env, at, i + 1, live, one.server, fd, rest);
        var n := OneByOne(env, at, i + 1, live, one.server, fd, rest).count;
        assert frames[..n + 1][0] == w && frames[..n + 1][1..] == rest[..n];
      }
    }
  }

  lemma LogOfOne(w: Bytes)
    requires IsFrame(w)
    ensures AllFrames([w]) && Concat(WriteFrames([w])) == (if IsLogged(FrameArgs(w)) then w else []) && Concat([w]) == w
  {
    hide IsFrame, FrameArgs, IsLogged;
    assert [w][1..] == [];
    ConcatOne(w);
  }

  // ---------------------------------------------------------------- files of whole commands

  /** The input is whole non-empty commands and nothing else. */
  predicate Framed(input: Bytes)
    decreases |input|
  {
    input == [] ||
    (ParseOne(input).Some? && ParseOne(input).value.consumed <= |input| && ParseOne(input).value.args != [] &&
     Framed(input[ParseOne(input).value.consumed..]))
  }

  lemma FirstFrame(input: Bytes) returns (w: Bytes, rest: Bytes)
    requires Framed(input) && input != []
    ensures input == w + rest && IsFrame(w) && FrameArgs(w) != [] && Framed(rest) && |w| >= 3
  {
    hide IsFrame, FrameArgs;
    var p := ParseOne(input).value;
    w, rest := input[..p.consumed], input[p.consumed..];
    CutFrame(input, p.consumed);
  }

  lemma CutFrame(input: Bytes, n: nat)
    requires ParseOne(input).Some? && ParseOne(input).value.consumed == n <= |input|
    ensures IsFrame(input[..n]) && FrameArgs(input[..n]) == ParseOne(input).value.args
  {
    hide ParseOne;
    var w := input[..n];
    assert w[..n] == input[..n];
    ParseLocal(input, w, n);
  }

  lemma FramedCons(w: Bytes, rest: Bytes)
    requires IsFrame(w) && FrameArgs(w) != [] && Framed(rest)
    ensures Framed(w + rest)
  {
    hide ParseOne, IsFrame;
    FrameThenMore(w, rest);
    assert (w + rest)[|w|..] == rest;
    FrameNotEmpty(w);
  }

  lemma FrameNotEmpty(w: Bytes)
    requires IsFrame(w)
    ensures |w| >= 3
  {}

  lemma {:induction false} FramedAppend(f: Bytes, g: Bytes)
    requires Framed(f) && Framed(g)
    ensures Framed(f + g)
    decreases |f|
  {
    hide Framed, IsFrame, FrameArgs;
    if f == [] {
      assert f + g == g;
    } else {
      var w, rest := FirstFrame(f);
      FramedAppend(rest, g);
      FramedCons(w, rest + g);
      assert f + g == w + (rest + g);
    }
  }

  /** Replaying a file of whole commands and then more is replaying the file, then the rest. */
  lemma {:induction false} ProcessAppend(env: Env, at: nat -> Clock, i: nat, live: bool, s: Server, fd: int, f: Bytes,
                                         g: Bytes)
    requires Framed(f) && !Process(env, at, i, live, s, fd, f).waits
    ensures var p := Process(env, at, i, live, s, fd, f);
      Process(env, at, i, live, s, fd, f + g) == Join(p, Process(env, at, i + p.count, live, p.server, fd, g)) &&
      p.consumed == |f|
    decreases |f|
  {
    hide Process, RunParsed, IsFrame, Framed, FrameArgs, Join;
    if f == [] {
      NothingToDo(env, at, i, live, s, fd);
      assert f + g == g;
      IdleJoin(s, Process(env, at, i, live, s, fd, g));
    } else {
      var w, rest := FirstFrame(f);
      ProcessFrame(env, at, i, live, s, fd, w, rest);
      ProcessFrame(env, at, i, live, s, fd, w, rest + g);
      assert f + g == w + (rest + g);
      var one := RunParsed(env, at(i), live, s, fd, Parsed(FrameArgs(w), |w|), w);
      var tail := Process(env, at, i + 1, live, one.server, fd, rest);
      RunParsedFields(env, at(i), live, s, fd, Parsed(FrameArgs(w), |w|), w);
      JoinFields(one, tail);
      ProcessAppend(env, at, i + 1, live, one.server, fd, rest, g);
      JoinTwice(one, tail, Process(env, at, i + 1 + tail.count, live, tail.server, fd, g));
    }
  }

  lemma IdleJoin(s: Server, p: Processed)
    ensures Join(Idle(s), p) == p && !Idle(s).waits && Idle(s).consumed == 0 && Idle(s).count == 0
    ensures Idle(s).server == s
  {
    assert [] + p.replies == p.replies && [] + p.sends == p.sends && [] + p.log == p.log;
  }

  lemma RunParsedFields(env: Env, c: Clock, live: bool, s: Server, fd: int, p: Parsed, raw: Bytes)
    ensures var r := RunParsed(env, c, live, s, fd, p, raw); r.count == 1 && r.consumed == p.consumed
  {}

  lemma JoinFields(a: Processed, b: Processed)
    ensures var r := Join(a, b);
      r.count == a.count + b.count && r.consumed == a.consumed + b.consumed && r.server == b.server && r.waits == b.waits
  {}
}
