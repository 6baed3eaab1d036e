/** The command loop as the code runs it (src/handler/command_handler.cpp): parse, run, log; transactions per
    connection. Every method is proved to do what Sessions and CommandLoop say. */
module Dispatch {
  import opened Base
  import opened Resp
  import opened Keyspace
  import opened Commands
  import opened Sessions
  import opened CommandLoop
  import opened Handlers
  import Aof

  /** Clock readings of a batch: sane, and steady time does not run backwards. */
  ghost predicate ClocksOk(at: nat -> Clock) {
    (forall i: nat :: ClockOk(at(i))) &&
    (forall i: nat, j: nat :: i <= j ==> at(i).now <= at(j).now)
  }

  class Dispatcher {
    const handler: CommandHandler
    const aof: Aof.AofManager?
    var txs: map<int, Tx>

    constructor (handler: CommandHandler, aof: Aof.AofManager?)
      ensures this.handler == handler && this.aof == aof && txs == map[]
    {
      this.handler, this.aof, txs := handler, aof, map[];
    }

    ghost function Contents(): (s: Server)
      reads this, handler.store, handler.blocking
    {
      Server(handler.Now(), txs)
    }

    /** `execute_command`. */
    method Execute(c: Clock, fd: int, name: Bytes, args: seq<Bytes>) returns (reply: Option<Reply>, sends: seq<Send>)
      requires DbOk(handler.store.Contents(), c.now) && ClockOk(c)
      modifies handler.store, handler.blocking
      ensures Outcome(handler.Now(), reply, sends)
           == ExecNamed(handler.env, c, handler.live, old(handler.Now()), fd, name, args)
      ensures DbOk(handler.store.Contents(), c.now)
    {
      hide Lookup, Exec, DbOk, NamedTouched;
      NamedFrame(handler.env, c, handler.live, handler.Now(), fd, name, args);
      var cmd := Lookup(name);
      if cmd.None? {
        return Some(Error("ERR unknown command '" + name + "'")), [];
      }
      if |args| < MinArgs(cmd.value) {
        return Some(Error("ERR wrong number of arguments for '" + name + "' command")), [];
      }
      reply, sends := handler.Handle(c, fd, cmd.value, args);
    }

    /** The loop of EXEC over the queued commands. */
    method RunQueue(c: Clock, fd: int, queued: seq<seq<Bytes>>) returns (replies: seq<Reply>, sends: seq<Send>)
      requires DbOk(handler.store.Contents(), c.now) && ClockOk(c)
      modifies handler.store, handler.blocking
      ensures Ran(handler.Now(), replies, sends)
           == RunQueued(handler.env, c, handler.live, old(handler.Now()), fd, queued)
      ensures DbOk(handler.store.Contents(), c.now)
    {
      hide DbOk, ExecNamed, RunQueued;
      replies, sends := [], [];
      ghost var start := handler.Now();
      QueueEnd(handler.env, c, handler.live, start, fd, queued, [], []);
      for i := 0 to |queued|
        invariant DbOk(handler.store.Contents(), c.now)
        invariant Prefix(replies, sends, RunQueued(handler.env, c, handler.live, handler.Now(), fd, queued[i..]))
               == RunQueued(handler.env, c, handler.live, start, fd, queued)
      {
        var args := queued[i];
        QueueStep(handler.env, c, handler.live, handler.Now(), fd, queued, i, replies, sends);
        var reply, more := Execute(c, fd, if args == [] then [] else args[0], args);
        replies := replies + [if reply.Some? then reply.value else Error("ERR command in EXEC not allowed")];
        sends := sends + more;
      }
      QueueEnd(handler.env, c, handler.live, handler.Now(), fd, queued, replies, sends);
    }

    /** The version check of EXEC, in the hash table's order. */
    method AnyChanged(watched: map<Bytes, nat>) returns (dirty: bool)
      ensures dirty == Dirty(handler.store.Contents(), watched)
    {
      hide Version;
      var todo := watched.Keys;
      while todo != {}
        invariant todo <= watched.Keys
        invariant forall k :: k in watched && k !in todo ==> Version(handler.store.Contents(), k) == watched[k]
        decreases todo
      {
        var k :| k in todo;
        var v := handler.store.GetKeyVersion(k);
        if v != watched[k] {
          return true;
        }
        todo := todo - {k};
      }
      return false;
    }

    /** The loop of WATCH. */
    method Snapshot(watched: map<Bytes, nat>, keys: seq<Bytes>) returns (r: map<Bytes, nat>)
      ensures r == WatchKeys(handler.store.Contents(), watched, keys)
    {
      hide Version, WatchKeys;
      ghost var db := handler.store.Contents();
      r := watched;
      WatchNone(db, watched);
      for i := 0 to |keys|
        invariant r == WatchKeys(db, watched, keys[..i])
      {
        WatchOneMore(db, watched, keys, i);
        var v := handler.store.GetKeyVersion(keys[i]);
        r := r[keys[i] := v];
      }
      assert keys[..|keys|] == keys;
    }

    method RunExec(c: Clock, fd: int) returns (reply: Reply, sends: seq<Send>)
      requires DbOk(handler.store.Contents(), c.now) && ClockOk(c)
      modifies this, handler.store, handler.blocking
      ensures StepOut(Contents(), Some(reply), sends) == ExecStep(handler.env, c, handler.live, old(Contents()), fd)
    {
      hide DbOk, RunQueued, Dirty;
      if fd !in txs || !txs[fd].inMulti {
        return Error("ERR EXEC without MULTI"), [];
      }
      var dirty := AnyChanged(txs[fd].watched);
      if dirty {
        txs := txs - {fd};
        return NullArray, [];
      }
      var replies, more := RunQueue(c, fd, txs[fd].queued);
      txs := txs - {fd};
      return Batch(replies), more;
    }

    /** `process_single_command`. */
    method ProcessSingle(c: Clock, fd: int, args: seq<Bytes>) returns (reply: Option<Reply>, sends: seq<Send>)
      requires DbOk(handler.store.Contents(), c.now) && ClockOk(c)
      modifies this, handler.store, handler.blocking
      ensures StepOut(Contents(), reply, sends) == Step(handler.env, c, handler.live, old(Contents()), fd, args)
    {
      hide DbOk, ExecNamed, ExecStep, WatchKeys, ToUpper;
      sends := [];
      if args == [] {
        return Some(Error("ERR empty command")), [];
      }
      var name := ToUpper(args[0]);
      var t := if fd in txs then txs[fd] else NO_TX;
      if name == "MULTI" {
        if t.inMulti {
          return Some(Error("ERR MULTI calls can not be nested")), [];
        }
        txs := txs[fd := t.(inMulti := true)];
        return Some(Ok), [];
      }
      if name == "EXEC" {
        var answer, more := RunExec(c, fd);
        return Some(answer), more;
      }
      if name == "DISCARD" {
        if !t.inMulti {
          return Some(Error("ERR DISCARD without MULTI")), [];
        }
        txs := txs - {fd};
        return Some(Ok), [];
      }
      if name == "WATCH" {
        if |args| < 2 {
          return Some(Error("ERR wrong number of arguments for 'watch' command")), [];
        }
        if t.inMulti {
          return Some(Error("ERR WATCH inside MULTI is not allowed")), [];
        }
        var watched := Snapshot(t.watched, args[1..]);
        txs := txs[fd := t.(watched := watched)];
        return Some(Ok), [];
      }
      if name == "UNWATCH" {
        if fd in txs {
          txs := txs[fd := t.(watched := map[])];
        }
        return Some(Ok), [];
      }
      if t.inMulti {
        txs := txs[fd := t.(queued := t.queued + [args])];
        return Some(Queued), [];
      }
      reply, sends := Execute(c, fd, name, args);
    }

    /** One turn of the loop: run the command, then log its bytes if its name is a write. */
    method RunOne(c: Clock, fd: int, p: Parsed, raw: Bytes) returns (reply: Option<Reply>, sends: seq<Send>, log: Bytes)
      requires DbOk(handler.store.Contents(), c.now) && ClockOk(c) && raw != []
      modifies this, handler.store, handler.blocking, aof
      ensures Processed(Contents(), ReplyList(reply), sends, log, p.consumed, 1, reply.None?)
           == RunParsed(handler.env, c, handler.live, old(Contents()), fd, p, raw)
      ensures DbOk(handler.store.Contents(), c.now)
      ensures aof != null ==> aof.Contents() == Aof.Logged(old(aof.Contents()), log)
    {
      hide DbOk, Step, IsLogged, Aof.LogTo, StepTouched;
      StepFrame(handler.env, c, handler.live, Contents(), fd, p.args);
      reply, sends := ProcessSingle(c, fd, p.args);
      log := [];
      if IsLogged(p.args) {
        log := raw;
        if aof != null {
          aof.Log(raw);
        }
      }
    }

    /** `process_with_fd`: run the commands of a batch until the input ends, does not parse, or a client waits. Every
        write-named command is appended to the file, and to a running rewrite's buffer, as it came. */
    method ProcessWithFd(at: nat -> Clock, i: nat, fd: int, input: Bytes)
      returns (replies: seq<Reply>, sends: seq<Send>, log: Bytes, consumed: nat, count: nat, waits: bool)
      requires ClocksOk(at) && DbOk(handler.store.Contents(), at(i).now)
      modifies this, handler.store, handler.blocking, aof
      ensures Processed(Contents(), replies, sends, log, consumed, count, waits)
           == Process(handler.env, at, i, handler.live, old(Contents()), fd, input)
      ensures aof != null ==> aof.Contents() == Aof.Logged(old(aof.Contents()), log)
    {
      hide DbOk, RunParsed, Process, ParseOne, Aof.LogTo, GoOn, Idle;
      replies, sends, log, consumed, count, waits := [], [], [], 0, 0, false;
      ghost var start := Contents();
      Start(handler.env, at, i, handler.live, start, fd, input);
      while consumed < |input|
        invariant DbOk(handler.store.Contents(), at(i + count).now) && !waits
        invariant GoOn(handler.env, at, i, handler.live, fd, input,
                       Processed(Contents(), replies, sends, log, consumed, count, false))
               == Process(handler.env, at, i, handler.live, start, fd, input)
        invariant aof != null ==> aof.Contents() == Aof.Logged(old(aof.Contents()), log)
        decreases |input| - consumed
      {
        ghost var done := Processed(Contents(), replies, sends, log, consumed, count, false);
        Turn(handler.env, at, i, handler.live, fd, input, done);
        var rest := input[consumed..];
        var parsed := ParseOneInto(rest);
        if parsed.None? {
          return;
        }
        Ticks(at, i + count);
        var reply, more, raw := RunOne(at(i + count), fd, parsed.value, rest[..Min(parsed.value.consumed, |rest|)]);
        if aof != null { Aof.LogTwice(old(aof.Contents()), log, raw); }
        LaterOk(handler.store.Contents(), at(i + count).now, at(i + count + 1).now);
        replies, sends, log := replies + ReplyList(reply), sends + more, log + raw;
        consumed, count := consumed + parsed.value.consumed, count + 1;
        if reply.None? {
          waits := true;
          return;
        }
      }
      Finish(handler.env, at, i, handler.live, fd, input,
             Processed(Contents(), replies, sends, log, consumed, count, false));
    }
  }

  lemma WatchNone(db: Db, watched: map<Bytes, nat>)
    ensures WatchKeys(db, watched, []) == watched
  {}

  lemma WatchOneMore(db: Db, watched: map<Bytes, nat>, keys: seq<Bytes>, i: nat)
    requires i < |keys|
    ensures WatchKeys(db, watched, keys[..i + 1]) == WatchKeys(db, watched, keys[..i])[keys[i] := Version(db, keys[i])]
  {
    hide Version;
    assert keys[..i + 1] == keys[..i] + [keys[i]];
  }

  lemma Ticks(at: nat -> Clock, i: nat)
    requires ClocksOk(at)
    ensures ClockOk(at(i)) && at(i).now <= at(i + 1).now
  {}

  /** What a batch comes to when `done` has been done and nothing waits. */
  function GoOn(env: Env, at: nat -> Clock, i: nat, live: bool, fd: int, input: Bytes, done: Processed): (r: Processed) {
    Join(done, Process(env, at, i + done.count, live, done.server, fd, input[Min(done.consumed, |input|)..]))
  }

  lemma Start(env: Env, at: nat -> Clock, i: nat, live: bool, s: Server, fd: int, input: Bytes)
    ensures GoOn(env, at, i, live, fd, input, Processed(s, [], [], [], 0, 0, false))
         == Process(env, at, i, live, s, fd, input)
  {
    hide Process;
    assert input[0..] == input;
    var p := Process(env, at, i, live, s, fd, input);
    assert [] + p.replies == p.replies && [] + p.sends == p.sends && [] + p.log == p.log;
  }

  lemma Turn(env: Env, at: nat -> Clock, i: nat, live: bool, fd: int, input: Bytes, done: Processed)
    requires done.consumed < |input| && !done.waits
    ensures var rest := input[done.consumed..];
      var p := ParseOne(rest);
      var all := GoOn(env, at, i, live, fd, input, done);
      if p.None? then all == done
      else
        var one := RunParsed(env, at(i + done.count), live, done.server, fd, p.value,
                             rest[..Min(p.value.consumed, |rest|)]);
        all == if one.waits then Join(done, one) else GoOn(env, at, i, live, fd, input, Join(done, one))
  {
    hide Process, ParseOne, RunParsed;
    var rest := input[done.consumed..];
    var p := ParseOne(rest);
    Unfold(env, at, i + done.count, live, done.server, fd, rest);
    if p.None? {
      JoinIdle(done);
    } else {
      var cut := Min(p.value.consumed, |rest|);
      var one := RunParsed(env, at(i + done.count), live, done.server, fd, p.value, rest[..cut]);
      RunParsedFields(env, at(i + done.count), live, done.server, fd, p.value, rest[..cut]);
      assert rest[cut..] == input[Min(done.consumed + p.value.consumed, |input|)..];
      JoinTwice(done, one, Process(env, at, i + done.count + 1, live, one.server, fd, rest[cut..]));
    }
  }

  lemma Finish(env: Env, at: nat -> Clock, i: nat, live: bool, fd: int, input: Bytes, done: Processed)
    requires done.consumed >= |input| && !done.waits
    ensures GoOn(env, at, i, live, fd, input, done) == done
  {
    hide Process;
    assert input[|input|..] == [];
    NothingToDo(env, at, i + done.count, live, done.server, fd);
    JoinIdle(done);
  }

  function Prefix(replies: seq<Reply>, sends: seq<Send>, rest: Ran): (r: Ran) {
    Ran(rest.core, replies + rest.replies, sends + rest.sends)
  }

  lemma QueueStep(env: Env, c: Clock, live: bool, core: Core, fd: int, queued: seq<seq<Bytes>>, i: nat,
                  replies: seq<Reply>, sends: seq<Send>)
    requires i < |queued|
    ensures var args := queued[i];
      var o := ExecNamed(env, c, live, core, fd, if args == [] then [] else args[0], args);
      var reply := if o.reply.Some? then o.reply.value else Error("ERR command in EXEC not allowed");
      Prefix(replies, sends, RunQueued(env, c, live, core, fd, queued[i..]))
        == Prefix(replies + [reply], sends + o.sends, RunQueued(env, c, live, o.core, fd, queued[i + 1..]))
  {
    hide ExecNamed;
    var args := queued[i];
    var o := ExecNamed(env, c, live, core, fd, if args == [] then [] else args[0], args);
    var reply := if o.reply.Some? then o.reply.value else Error("ERR command in EXEC not allowed");
    var rest := RunQueued(env, c, live, o.core, fd, queued[i + 1..]);
    assert queued[i..][1..] == queued[i + 1..];
    assert replies + ([reply] + rest.replies) == replies + [reply] + rest.replies;
    assert sends + (o.sends + rest.sends) == sends + o.sends + rest.sends;
  }

  lemma QueueEnd(env: Env, c: Clock, live: bool, core: Core, fd: int, queued: seq<seq<Bytes>>, replies: seq<Reply>,
                 sends: seq<Send>)
    ensures queued[0..] == queued
    ensures Prefix(replies, sends, RunQueued(env, c, live, core, fd, queued[|queued|..])) == Ran(core, replies, sends)
    ensures Prefix([], [], RunQueued(env, c, live, core, fd, queued)) == RunQueued(env, c, live, core, fd, queued)
  {
    hide ExecNamed;
  }

  function ReplyList(reply: Option<Reply>): (r: seq<Reply>) {
    if reply.Some? then [reply.value] else []
  }

  /** The definition of Process, one command deep. */
  lemma Unfold(env: Env, at: nat -> Clock, i: nat, live: bool, s: Server, fd: int, input: Bytes)
    ensures ParseOne(input).None? ==> Process(env, at, i, live, s, fd, input) == Idle(s)
    ensures ParseOne(input).Some? ==>
      var p := ParseOne(input).value;
      var cut := Min(p.consumed, |input|);
      var one := RunParsed(env, at(i), live, s, fd, p, input[..cut]);
      Process(env, at, i, live, s, fd, input)
        == if one.waits then one else Join(one, Process(env, at, i + 1, live, one.server, fd, input[cut..]))
  {
    hide RunParsed, ParseOne;
  }
}
