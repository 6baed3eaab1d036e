/** Queued commands against immediate ones: the batch loop upper-cases a name before it is looked up, EXEC looks it up as
    it was typed (src/handler/command_handler.cpp). */
module QueuedNames {
  import opened Base
  import opened Decimal
  import opened StreamIds
  import opened Keyspace
  import opened Blocking
  import opened Commands
  import opened Sessions

  function UnknownCommand(name: Bytes): (r: Reply) {
    Error("ERR unknown command '" + name + "'")
  }

  /** Every name of the table is upper-case. */
  lemma TableIsUpper(name: Bytes)
    requires Lookup(name).Some?
    ensures ToUpper(name) == name
  {
    hide ToUpper;
    UpperNames();
    MoreUpperNames();
  }

  lemma UpperNames()
    ensures ToUpper("SET") == "SET" && ToUpper("MSET") == "MSET" && ToUpper("GET") == "GET" && ToUpper("INCR") == "INCR"
    ensures ToUpper("RPUSH") == "RPUSH" && ToUpper("LPUSH") == "LPUSH" && ToUpper("LLEN") == "LLEN"
    ensures ToUpper("LPOP") == "LPOP" && ToUpper("RPOP") == "RPOP" && ToUpper("LRANGE") == "LRANGE"
    ensures ToUpper("BLPOP") == "BLPOP" && ToUpper("TYPE") == "TYPE" && ToUpper("KEYS") == "KEYS"
  {}

  lemma MoreUpperNames()
    ensures ToUpper("XADD") == "XADD" && ToUpper("ZADD") == "ZADD" && ToUpper("ZRANK") == "ZRANK"
    ensures ToUpper("ZRANGE") == "ZRANGE" && ToUpper("ZCARD") == "ZCARD" && ToUpper("ZSCORE") == "ZSCORE"
    ensures ToUpper("ZREM") == "ZREM" && ToUpper("GEOADD") == "GEOADD" && ToUpper("XRANGE") == "XRANGE"
    ensures ToUpper("XREAD") == "XREAD"
  {}

  // ---------------------------------------------------------------- no handler answers like the lookup

  predicate SaysUnknown(r: Reply) {
    r.Error? && |r.text| > 4 && r.text[4] == 'u'
  }

  lemma UnknownSaysSo(name: Bytes)
    ensures SaysUnknown(UnknownCommand(name))
  {}

  lemma {:induction false} ZaddRestKnown(env: Env, e: Effect<int>, args: seq<Bytes>, i: nat)
    ensures !SaysUnknown(ZaddRest(env, e, args, i).out)
    decreases |args| - i
  {
    hide Zadd;
    if i + 1 < |args| && env.parse(args[i]).Some? {
      var a := Zadd(e.entry, env.parse(args[i]).value, args[i + 1]);
      ZaddRestKnown(env, Effect(a.entry, e.touches + a.touches, e.out + a.out), args, i + 2);
    }
  }

  lemma {:induction false} OptionsKnown(args: seq<Bytes>, i: nat, ttl: Option<nat>)
    ensures var r := ScanOptions(args, i, ttl); r.TtlError? ==> !SaysUnknown(Error(r.text))
    decreases |args| - i
  {
    hide ToUpper, ParseUInt64;
    if i < |args| {
      OptionsKnown(args, i + 1, ttl);
      if i + 1 < |args| && ParseUInt64(args[i + 1]).Some? {
        var n := ParseUInt64(args[i + 1]).value;
        OptionsKnown(args, i + 2, Some(n));
        OptionsKnown(args, i + 2, Some(n * 1000 % UINT64_SIZE));
      }
    }
  }

  /** The error texts of the handlers. */
  lemma TextsKnown()
    ensures !SaysUnknown(Error(WRONGTYPE)) && !SaysUnknown(Error(NOT_AN_INTEGER)) && !SaysUnknown(Error(NOT_A_FLOAT))
    ensures !SaysUnknown(Error(SYNTAX)) && !SaysUnknown(Error(NO_BLOCKING))
    ensures !SaysUnknown(Error(NEGATIVE_TIMEOUT)) && !SaysUnknown(Error(BAD_PAIR))
    ensures !SaysUnknown(Error(XADD_ARITY))
    ensures !SaysUnknown(Error(MSET_ARITY)) && !SaysUnknown(Error(XREAD_ARITY)) && !SaysUnknown(Error(ONE_STREAM))
    ensures !SaysUnknown(Error(BAD_ID)) && !SaysUnknown(Error(ZERO_ID)) && !SaysUnknown(Error(SMALL_ID))
  {}

  lemma OnlyErrorsSaySo()
    ensures forall r: Reply :: SaysUnknown(r) ==> r.Error?
  {}

  lemma ActKnown(env: Env, c: Clock, live: bool, fd: int, cmd: Cmd, cur: Option<Entry>, wait: Waiting, refused: bool,
                 args: seq<Bytes>)
    requires IsSingle(cmd) && |args| >= MinArgs(cmd)
    ensures var r := ActOn(env, c, live, fd, cmd, cur, wait, refused, args).reply; r.Some? ==> !SaysUnknown(r.value)
  {
    hide ScanOptions, ZaddRest, ChooseId, ServeReaders, PushRest, Pop, Push, Zadd, Zrem, ParseInt64, ParseId, Block, Between,
         RangeBounds, Wake, SaysUnknown, TypeName;
    TextsKnown();
    OnlyErrorsSaySo();
    if cmd.SET? {
      OptionsKnown(args, 3, None);
    } else if cmd.ZADD? {
      if env.parse(args[2]).Some? && ZaddIf(cur, env.parse(args[2]).value, args[3]).out.Some? {
        var a := ZaddIf(cur, env.parse(args[2]).value, args[3]);
        ZaddRestKnown(env, Effect(a.entry, a.touches, a.out.value), args, 4);
      }
    }
  }

  lemma ExecKnown(env: Env, c: Clock, live: bool, core: Core, fd: int, cmd: Cmd, args: seq<Bytes>)
    requires |args| >= MinArgs(cmd)
    ensures var r := Exec(env, c, live, core, fd, cmd, args).reply; r.Some? ==> !SaysUnknown(r.value)
  {
    hide ActOn, Find, GeoRefused, AllTakeStrings, SetPairs, Purge, FindStreams, ParseInt64, ReadAll, Visit, Block, ToUpper,
         SaysUnknown;
    TextsKnown();
    OnlyErrorsSaySo();
    if IsSingle(cmd) {
      ActKnown(env, c, live, fd, cmd, Find(core.db, args[1], c.now), core.wait, GeoRefused(core.db, args[1], c.now), args);
    }
  }

  lemma NamedKnown(env: Env, c: Clock, live: bool, core: Core, fd: int, name: Bytes, args: seq<Bytes>)
    requires Lookup(name).Some?
    ensures var r := ExecNamed(env, c, live, core, fd, name, args).reply; r.Some? ==> !SaysUnknown(r.value)
  {
    hide Lookup, Exec;
    if |args| >= MinArgs(Lookup(name).value) {
      ExecKnown(env, c, live, core, fd, Lookup(name).value, args);
    }
  }

  // ---------------------------------------------------------------- one queued command

  /** A command of the table that was queued is answered as unknown, and does nothing, if and only if its name was not
      typed in upper case; otherwise it does what it does outside a transaction. */
  lemma QueuedName(env: Env, c: Clock, live: bool, core: Core, fd: int, args: seq<Bytes>)
    requires args != [] && Lookup(ToUpper(args[0])).Some?
    ensures ExecNamed(env, c, live, core, fd, args[0], args) == Outcome(core, Some(UnknownCommand(args[0])), [])
        <==> args[0] != ToUpper(args[0])
  {
    hide Lookup, Exec, ToUpper, SaysUnknown;
    if args[0] == ToUpper(args[0]) {
      NamedKnown(env, c, live, core, fd, args[0], args);
      UnknownSaysSo(args[0]);
    } else if Lookup(args[0]).Some? {
      TableIsUpper(args[0]);
    }
  }

  // ---------------------------------------------------------------- a whole queue

  /** The reference: every command as the batch loop would run it, except that one that would wait is refused. */
  function RunNow(env: Env, c: Clock, live: bool, core: Core, fd: int, cmds: seq<seq<Bytes>>): (r: Ran)
    requires forall i :: 0 <= i < |cmds| ==> cmds[i] != []
    decreases |cmds|
  {
    if cmds == [] then Ran(core, [], [])
    else
      var o := ExecNamed(env, c, live, core, fd, ToUpper(cmds[0][0]), cmds[0]);
      var reply := if o.reply.Some? then o.reply.value else Error("ERR command in EXEC not allowed");
      var rest := RunNow(env, c, live, o.core, fd, cmds[1..]);
      Ran(rest.core, [reply] + rest.replies, o.sends + rest.sends)
  }

  predicate TableCommands(cmds: seq<seq<Bytes>>) {
    forall i :: 0 <= i < |cmds| ==> cmds[i] != [] && Lookup(ToUpper(cmds[i][0])).Some?
  }

  predicate TypedUpper(cmds: seq<seq<Bytes>>)
    requires TableCommands(cmds)
  {
    forall i :: 0 <= i < |cmds| ==> cmds[i][0] == ToUpper(cmds[i][0])
  }

  /** The run of a queue of table commands is the run of the same commands sent outside a transaction, apart from those
      that would wait, if and only if every name was typed in upper case. */
  lemma {:induction false} QueueIsImmediate(env: Env, c: Clock, live: bool, core: Core, fd: int, cmds: seq<seq<Bytes>>)
    requires TableCommands(cmds)
    ensures RunQueued(env, c, live, core, fd, cmds) == RunNow(env, c, live, core, fd, cmds) <==> TypedUpper(cmds)
    decreases |cmds|
  {
    hide Lookup, ExecNamed, ToUpper, SaysUnknown;
    if cmds != [] {
      var args := cmds[0];
      HeadOrRest(cmds);
      QueuedName(env, c, live, core, fd, args);
      var q := RunQueued(env, c, live, core, fd, cmds);
      var n := RunNow(env, c, live, core, fd, cmds);
      if args[0] == ToUpper(args[0]) {
        var o := ExecNamed(env, c, live, core, fd, args[0], args);
        QueueIsImmediate(env, c, live, o.core, fd, cmds[1..]);
        SameTail(q, n, RunQueued(env, c, live, o.core, fd, cmds[1..]), RunNow(env, c, live, o.core, fd, cmds[1..]), o.sends);
      } else {
        NamedKnown(env, c, live, core, fd, ToUpper(args[0]), args);
        UnknownSaysSo(args[0]);
        NotAllowedIsKnown();
        assert SaysUnknown(q.replies[0]) && !SaysUnknown(n.replies[0]);
      }
    }
  }

  lemma HeadOrRest(cmds: seq<seq<Bytes>>)
    requires cmds != [] && TableCommands(cmds)
    ensures TableCommands(cmds[1..])
    ensures TypedUpper(cmds) <==> cmds[0][0] == ToUpper(cmds[0][0]) && TypedUpper(cmds[1..])
  {
    hide Lookup, ToUpper;
    if cmds[0][0] == ToUpper(cmds[0][0]) && TypedUpper(cmds[1..]) {
      forall i | 0 <= i < |cmds|
        ensures cmds[i][0] == ToUpper(cmds[i][0])
      {
        assert i > 0 ==> cmds[i] == cmds[1..][i - 1];
      }
    }
  }

  lemma SameTail(q: Ran, n: Ran, a: Ran, b: Ran, sends: seq<Send>)
    requires q.core == a.core && n.core == b.core && |q.replies| > 0 && |n.replies| > 0
    requires q.replies[0] == n.replies[0] && q.replies[1..] == a.replies && n.replies[1..] == b.replies
    requires q.sends == sends + a.sends && n.sends == sends + b.sends
    ensures q == n <==> a == b
  {
    assert a.sends == q.sends[|sends|..] && b.sends == n.sends[|sends|..];
    assert q.replies == [q.replies[0]] + q.replies[1..] && n.replies == [n.replies[0]] + n.replies[1..];
  }

  lemma NotAllowedIsKnown()
    ensures !SaysUnknown(Error("ERR command in EXEC not allowed"))
  {}

  /** A concrete input: `get` works outside a transaction and is unknown inside one. */
  lemma LowerCaseExample(env: Env, c: Clock, live: bool, fd: int)
    ensures var core := Core(EMPTY_DB, NO_WAITERS);
      Step(env, c, live, Server(core, map[]), fd, ["get", "k"]).reply == Some(NullBulk) &&
      RunQueued(env, c, live, core, fd, [["get", "k"]]).replies == [UnknownCommand("get")]
  {
    assert ToUpper("get") == "GET";
    assert [["get", "k"]][1..] == [];
  }
}
