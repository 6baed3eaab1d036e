/** Client sessions (src/handler/command_handler.cpp): the command table, MULTI/EXEC/DISCARD/WATCH/UNWATCH per
    connection, and runs of many interleaved clients. Optimistic locking is proved against a reference that
    keeps a flag per watched key and never looks at version numbers. */
module Sessions {
  import opened Base
  import opened Keyspace
  import opened Blocking
  import opened Commands
  import opened Invariants

  datatype Tx = Tx(inMulti: bool, queued: seq<seq<Bytes>>, watched: map<Bytes, nat>)

  const NO_TX: Tx := Tx(false, [], map[])

  datatype Server = Server(core: Core, txs: map<int, Tx>)

  const FRESH_SERVER: Server := Server(Core(EMPTY_DB, NO_WAITERS), map[])

  function TxOf(s: Server, fd: int): (t: Tx) {
    if fd in s.txs then s.txs[fd] else NO_TX
  }

  // ---------------------------------------------------------------- names

  /** The command table, restricted to the modelled commands. */
  function Lookup(name: Bytes): (r: Option<Cmd>) {
    if name == "SET" then Some(SET)
    else if name == "MSET" then Some(MSET)
    else if name == "GET" then Some(GET)
    else if name == "INCR" then Some(INCR)
    else if name == "RPUSH" then Some(RPUSH)
    else if name == "LPUSH" then Some(LPUSH)
    else if name == "LLEN" then Some(LLEN)
    else if name == "LPOP" then Some(LPOP)
    else if name == "RPOP" then Some(RPOP)
    else if name == "LRANGE" then Some(LRANGE)
    else if name == "BLPOP" then Some(BLPOP)
    else if name == "TYPE" then Some(TYPE)
    else if name == "KEYS" then Some(KEYS)
    else if name == "XADD" then Some(XADD)
    else if name == "ZADD" then Some(ZADD)
    else if name == "ZRANK" then Some(ZRANK)
    else if name == "ZRANGE" then Some(ZRANGE)
    else if name == "ZCARD" then Some(ZCARD)
    else if name == "ZSCORE" then Some(ZSCORE)
    else if name == "ZREM" then Some(ZREM)
    else if name == "GEOADD" then Some(GEOADD)
    else if name == "XRANGE" then Some(XRANGE)
    else if name == "XREAD" then Some(XREAD)
    else None
  }

  datatype Verb = Multi | Exec_ | Discard | Watch | Unwatch | Data

  function VerbOf(name: Bytes): (v: Verb) {
    if name == "MULTI" then Multi
    else if name == "EXEC" then Exec_
    else if name == "DISCARD" then Discard
    else if name == "WATCH" then Watch
    else if name == "UNWATCH" then Unwatch
    else Data
  }

  // ---------------------------------------------------------------- one command

  /** `execute_command`: table lookup, arity check, handler. */
  function ExecNamed(env: Env, c: Clock, live: bool, core: Core, fd: int, name: Bytes, args: seq<Bytes>): (r: Outcome) {
    match Lookup(name)
    case None => Outcome(core, Some(Error("ERR unknown command '" + name + "'")), [])
    case Some(cmd) =>
      if |args| < MinArgs(cmd)
      then Outcome(core, Some(Error("ERR wrong number of arguments for '" + name + "' command")), [])
      else Exec(env, c, live, core, fd, cmd, args)
  }

  datatype Ran = Ran(core: Core, replies: seq<Reply>, sends: seq<Send>)

  /** The queue of an EXEC. Names are looked up as they were typed; a command that would wait is answered
      with an error. */
  function RunQueued(env: Env, c: Clock, live: bool, core: Core, fd: int, queued: seq<seq<Bytes>>): (r: Ran)
    decreases |queued|
  {
    if queued == [] then Ran(core, [], [])
    else
      var args := queued[0];
      var o := ExecNamed(env, c, live, core, fd, if args == [] then [] else args[0], args);
      var reply := if o.reply.Some? then o.reply.value else Error("ERR command in EXEC not allowed");
      var rest := RunQueued(env, c, live, o.core, fd, queued[1..]);
      Ran(rest.core, [reply] + rest.replies, o.sends + rest.sends)
  }

  /** Some watched key has another version now. */
  predicate Dirty(db: Db, watched: map<Bytes, nat>) {
    exists k :: k in watched && Version(db, k) != watched[k]
  }

  function WatchKeys(db: Db, watched: map<Bytes, nat>, keys: seq<Bytes>): (r: map<Bytes, nat>) {
    watched + map k | k in keys :: Version(db, k)
  }

  datatype StepOut = StepOut(server: Server, reply: Option<Reply>, sends: seq<Send>)

  function Answer(s: Server, reply: Reply): (r: StepOut) {
    StepOut(s, Some(reply), [])
  }

  function ExecStep(env: Env, c: Clock, live: bool, s: Server, fd: int): (r: StepOut) {
    var t := TxOf(s, fd);
    if !t.inMulti then Answer(s, Error("ERR EXEC without MULTI"))
    else if Dirty(s.core.db, t.watched) then Answer(s.(txs := s.txs - {fd}), NullArray)
    else
      var r := RunQueued(env, c, live, s.core, fd, t.queued);
      StepOut(Server(r.core, s.txs - {fd}), Some(Batch(r.replies)), r.sends)
  }

  /** `process_single_command`. */
  function Step(env: Env, c: Clock, live: bool, s: Server, fd: int, args: seq<Bytes>): (r: StepOut) {
    if args == [] then Answer(s, Error("ERR empty command"))
    else
      var name, t := ToUpper(args[0]), TxOf(s, fd);
      match VerbOf(name)
      case Multi =>
        if t.inMulti then Answer(s, Error("ERR MULTI calls can not be nested"))
        else Answer(s.(txs := s.txs[fd := t.(inMulti := true)]), Ok)
      case Exec_ => ExecStep(env, c, live, s, fd)
      case Discard =>
        if !t.inMulti then Answer(s, Error("ERR DISCARD without MULTI"))
        else Answer(s.(txs := s.txs - {fd}), Ok)
      case Watch =>
        if |args| < 2 then Answer(s, Error("ERR wrong number of arguments for 'watch' command"))
        else if t.inMulti then Answer(s, Error("ERR WATCH inside MULTI is not allowed"))
        else Answer(s.(txs := s.txs[fd := t.(watched := WatchKeys(s.core.db, t.watched, args[1..]))]), Ok)
      case Unwatch =>
        Answer(if fd in s.txs then s.(txs := s.txs[fd := t.(watched := map[])]) else s, Ok)
      case Data =>
        if t.inMulti then Answer(s.(txs := s.txs[fd := t.(queued := t.queued + [args])]), Queued)
        else
          var o := ExecNamed(env, c, live, s.core, fd, name, args);
          StepOut(s.(core := o.core), o.reply, o.sends)
  }

  // ---------------------------------------------------------------- runs of many clients

  datatype Event =
    | Command(clock: Clock, fd: int, args: seq<Bytes>)
    | Disconnect(fd: int)
    | Sweep(now: int) // waiting clients whose deadline has passed are let go

  /** What happens to a server and what it answers. */
  ghost function Served(env: Env, live: bool, s: Server, e: Event): (r: StepOut) {
    match e
    case Command(c, fd, args) => Step(env, c, live, s, fd, args)
    case Disconnect(fd) => StepOut(Server(s.core.(wait := Unblock(s.core.wait, fd)), s.txs - {fd}), None, [])
    case Sweep(now) => StepOut(s.(core := s.core.(wait := Expire(s.core.wait, now))), None, [])
  }

  ghost function Happen(env: Env, s: Server, e: Event): (r: Server) {
    Served(env, true, s, e).server
  }

  ghost function HappenAll(env: Env, s: Server, es: seq<Event>): (r: Server)
    decreases |es|
  {
    if es == [] then s else Happen(env, HappenAll(env, s, es[..|es| - 1]), es[|es| - 1])
  }

  /** Steady time of the latest command, starting from `now`. */
  function TimeAfter(now: int, es: seq<Event>): (t: int) {
    if es == [] then now
    else
      var last := es[|es| - 1];
      if last.Command? then last.clock.now else TimeAfter(now, es[..|es| - 1])
  }

  /** Clocks are sane and steady time does not run backwards. */
  predicate Timely(now: int, es: seq<Event>) {
    es == [] ||
    (var init, last := es[..|es| - 1], es[|es| - 1];
     Timely(now, init) && (last.Command? ==> ClockOk(last.clock) && TimeAfter(now, init) <= last.clock.now))
  }

  // ---------------------------------------------------------------- what a step touches

  function NamedTouched(env: Env, c: Clock, live: bool, core: Core, fd: int, name: Bytes, args: seq<Bytes>)
    : (r: set<Bytes>)
  {
    match Lookup(name)
    case None => {}
    case Some(cmd) => if |args| < MinArgs(cmd) then {} else Touched(env, c, core.db, cmd, args)
  }

  function QueueTouched(env: Env, c: Clock, live: bool, core: Core, fd: int, queued: seq<seq<Bytes>>): (r: set<Bytes>)
    decreases |queued|
  {
    if queued == [] then {}
    else
      var args := queued[0];
      var name := if args == [] then [] else args[0];
      NamedTouched(env, c, live, core, fd, name, args) +
      QueueTouched(env, c, live, ExecNamed(env, c, live, core, fd, name, args).core, fd, queued[1..])
  }

  /** The keys for which one client command calls `touch_key`. */
  function StepTouched(env: Env, c: Clock, live: bool, s: Server, fd: int, args: seq<Bytes>): (r: set<Bytes>) {
    if args == [] then {}
    else
      var name, t := ToUpper(args[0]), TxOf(s, fd);
      match VerbOf(name)
      case Exec_ =>
        if t.inMulti && !Dirty(s.core.db, t.watched) then QueueTouched(env, c, live, s.core, fd, t.queued) else {}
      case Data => if t.inMulti then {} else NamedTouched(env, c, live, s.core, fd, name, args)
      case _ => {}
  }

  lemma NamedFrame(env: Env, c: Clock, live: bool, core: Core, fd: int, name: Bytes, args: seq<Bytes>)
    ensures var o := ExecNamed(env, c, live, core, fd, name, args).core;
      Frame(core.db, o.db, NamedTouched(env, c, live, core, fd, name, args), c.now) &&
      (DbOk(core.db, c.now) && ClockOk(c) ==> DbOk(o.db, c.now))
  {
    hide Lookup, Frame, DbOk, Exec, Touched;
    FrameRefl(core.db, c.now);
    if Lookup(name).Some? && |args| >= MinArgs(Lookup(name).value) {
      ExecFrame(env, c, live, core, fd, Lookup(name).value, args);
      if DbOk(core.db, c.now) && ClockOk(c) { ExecOk(env, c, live, core, fd, Lookup(name).value, args); }
    }
  }

  lemma {:induction false} QueueFrame(env: Env, c: Clock, live: bool, core: Core, fd: int, queued: seq<seq<Bytes>>)
    ensures var o := RunQueued(env, c, live, core, fd, queued).core;
      Frame(core.db, o.db, QueueTouched(env, c, live, core, fd, queued), c.now) &&
      (DbOk(core.db, c.now) && ClockOk(c) ==> DbOk(o.db, c.now))
    decreases |queued|
  {
    hide Frame, DbOk, ExecNamed, NamedTouched;
    if queued == [] {
      FrameRefl(core.db, c.now);
    } else {
      var args := queued[0];
      var name := if args == [] then [] else args[0];
      var mid := ExecNamed(env, c, live, core, fd, name, args).core;
      NamedFrame(env, c, live, core, fd, name, args);
      QueueFrame(env, c, live, mid, fd, queued[1..]);
      FrameTrans(core.db, mid.db, RunQueued(env, c, live, mid, fd, queued[1..]).core.db,
                 NamedTouched(env, c, live, core, fd, name, args),
                 QueueTouched(env, c, live, mid, fd, queued[1..]), c.now);
    }
  }

  /** One client command, transactions included, gives new versions to exactly the keys it touches and leaves
      every other key's version and live entry alone. */
  lemma StepFrame(env: Env, c: Clock, live: bool, s: Server, fd: int, args: seq<Bytes>)
    ensures var o := Step(env, c, live, s, fd, args).server.core;
      Frame(s.core.db, o.db, StepTouched(env, c, live, s, fd, args), c.now) &&
      (DbOk(s.core.db, c.now) && ClockOk(c) ==> DbOk(o.db, c.now))
  {
    hide Frame, DbOk, ExecNamed, NamedTouched, RunQueued, QueueTouched, VerbOf, Dirty, WatchKeys, ToUpper, TxOf;
    FrameRefl(s.core.db, c.now);
    if args != [] {
      var name, t := ToUpper(args[0]), TxOf(s, fd);
      NamedFrame(env, c, live, s.core, fd, name, args);
      QueueFrame(env, c, live, s.core, fd, t.queued);
    }
  }

  // ---------------------------------------------------------------- the reference for WATCH

  /** A watched key: was it touched since its latest WATCH, and the keyspace at that WATCH. */
  datatype Flag = Flag(touched: bool, seen: Db)

  type Flags = map<int, map<Bytes, Flag>>

  function FlagsOf(f: Flags, fd: int): (r: map<Bytes, Flag>) {
    if fd in f then f[fd] else map[]
  }

  /** What a command does to its own client's flags. */
  function OwnFlags(s: Server, own: map<Bytes, Flag>, fd: int, args: seq<Bytes>): (r: map<Bytes, Flag>) {
    if args == [] then own
    else
      match VerbOf(ToUpper(args[0]))
      case Exec_ => if TxOf(s, fd).inMulti then map[] else own
      case Discard => if TxOf(s, fd).inMulti then map[] else own
      case Watch =>
        if |args| < 2 || TxOf(s, fd).inMulti then own
        else own + map k | k in args[1..] :: Flag(false, s.core.db)
      case Unwatch => map[]
      case _ => own
  }

  /** Every watched key that is touched gets its flag set, whoever watches it. */
  function Mark(f: map<Bytes, Flag>, touched: set<Bytes>): (r: map<Bytes, Flag>) {
    map k | k in f :: if k in touched then f[k].(touched := true) else f[k]
  }

  ghost function FlagStep(env: Env, s: Server, f: Flags, e: Event): (r: Flags) {
    match e
    case Command(c, fd, args) =>
      var g := f[fd := OwnFlags(s, FlagsOf(f, fd), fd, args)];
      map i | i in g :: Mark(g[i], StepTouched(env, c, true, s, fd, args))
    case Disconnect(fd) => f - {fd}
    case Sweep(_) => f
  }

  ghost function FlagsAfter(env: Env, s: Server, es: seq<Event>): (r: Flags)
    decreases |es|
  {
    if es == [] then map[]
    else FlagStep(env, HappenAll(env, s, es[..|es| - 1]), FlagsAfter(env, s, es[..|es| - 1]), es[|es| - 1])
  }

  // ---------------------------------------------------------------- the link between versions and flags

  /** One client's recorded versions tell exactly what its flags say, and an unflagged key still reads as it
      did in the keyspace of its WATCH. */
  ghost predicate Linked(db: Db, watched: map<Bytes, nat>, flags: map<Bytes, Flag>, now: int) {
    watched.Keys == flags.Keys &&
    forall k :: k in watched ==>
      watched[k] <= db.counter && (flags[k].touched <==> Version(db, k) != watched[k]) &&
      (!flags[k].touched ==> Find(db, k, now) == Find(flags[k].seen, k, now))
  }

  ghost predicate AllLinked(s: Server, f: Flags, now: int) {
    forall fd :: Linked(s.core.db, TxOf(s, fd).watched, FlagsOf(f, fd), now)
  }

  lemma LinkedLater(db: Db, watched: map<Bytes, nat>, flags: map<Bytes, Flag>, now: int, later: int)
    requires Linked(db, watched, flags, now) && now <= later
    ensures Linked(db, watched, flags, later)
  {
    hide Version;
    forall k | k in watched && !flags[k].touched
      ensures Find(db, k, later) == Find(flags[k].seen, k, later)
    {
      SameLater(db, flags[k].seen, k, now, later);
    }
  }

  /** Touching keys and setting their flags keep the link. */
  lemma LinkedFrame(a: Db, b: Db, t: set<Bytes>, watched: map<Bytes, nat>, flags: map<Bytes, Flag>, now: int)
    requires Linked(a, watched, flags, now) && Frame(a, b, t, now)
    ensures Linked(b, watched, Mark(flags, t), now)
  {
    hide Find, Version;
    assert Mark(flags, t).Keys == flags.Keys;
  }

  /** The client's own bookkeeping keeps the link. */
  lemma OwnLinked(env: Env, c: Clock, s: Server, own: map<Bytes, Flag>, fd: int, args: seq<Bytes>)
    requires DbOk(s.core.db, c.now) && Linked(s.core.db, TxOf(s, fd).watched, own, c.now)
    ensures Linked(s.core.db, TxOf(Step(env, c, true, s, fd, args).server, fd).watched,
                   OwnFlags(s, own, fd, args), c.now)
  {
    hide Find, VerbOf, ExecNamed, RunQueued, Dirty, EntryOk;
    if args != [] && VerbOf(ToUpper(args[0])).Watch? && |args| >= 2 && !TxOf(s, fd).inMulti {
      WatchLinked(s.core.db, TxOf(s, fd).watched, own, args[1..], c.now);
    }
  }

  lemma WatchLinked(db: Db, watched: map<Bytes, nat>, flags: map<Bytes, Flag>, keys: seq<Bytes>, now: int)
    requires DbOk(db, now) && Linked(db, watched, flags, now)
    ensures Linked(db, WatchKeys(db, watched, keys), flags + map k | k in keys :: Flag(false, db), now)
  {
    hide Find, EntryOk;
  }

  lemma OtherTxs(env: Env, c: Clock, s: Server, fd: int, args: seq<Bytes>, other: int)
    requires other != fd
    ensures TxOf(Step(env, c, true, s, fd, args).server, other) == TxOf(s, other)
  {
    hide VerbOf, ExecNamed, RunQueued, Dirty, WatchKeys;
  }

  lemma FlagStepAt(env: Env, s: Server, f: Flags, c: Clock, fd: int, args: seq<Bytes>, other: int)
    ensures FlagsOf(FlagStep(env, s, f, Command(c, fd, args)), other)
         == Mark(if other == fd then OwnFlags(s, FlagsOf(f, fd), fd, args) else FlagsOf(f, other),
                 StepTouched(env, c, true, s, fd, args))
  {
    hide OwnFlags, StepTouched;
  }

  lemma CommandLinked(env: Env, s: Server, f: Flags, c: Clock, fd: int, args: seq<Bytes>)
    requires DbOk(s.core.db, c.now) && ClockOk(c) && AllLinked(s, f, c.now)
    ensures AllLinked(Step(env, c, true, s, fd, args).server, FlagStep(env, s, f, Command(c, fd, args)), c.now)
  {
    hide Linked, DbOk, Frame, Step, FlagStep, StepTouched, OwnFlags, Mark, TxOf, FlagsOf;
    var r, t := Step(env, c, true, s, fd, args).server, StepTouched(env, c, true, s, fd, args);
    StepFrame(env, c, true, s, fd, args);
    forall i
      ensures Linked(r.core.db, TxOf(r, i).watched, FlagsOf(FlagStep(env, s, f, Command(c, fd, args)), i), c.now)
    {
      FlagStepAt(env, s, f, c, fd, args, i);
      var flags := if i == fd then OwnFlags(s, FlagsOf(f, fd), fd, args) else FlagsOf(f, i);
      if i == fd {
        OwnLinked(env, c, s, FlagsOf(f, fd), fd, args);
      } else {
        OtherTxs(env, c, s, fd, args, i);
      }
      LinkedFrame(s.core.db, r.core.db, t, TxOf(r, i).watched, flags, c.now);
    }
  }

  lemma {:induction false} RunLinked(env: Env, es: seq<Event>, now: int)
    requires Timely(now, es)
    ensures var s := HappenAll(env, FRESH_SERVER, es);
      DbOk(s.core.db, TimeAfter(now, es)) &&
      AllLinked(s, FlagsAfter(env, FRESH_SERVER, es), TimeAfter(now, es))
    decreases |es|
  {
    hide Linked, DbOk, Frame, Step, FlagStep, Expire, Unblock;
    if es == [] {
      FreshLinked(now);
    } else {
      var init, last := es[..|es| - 1], es[|es| - 1];
      RunLinked(env, init, now);
      var s, f, t := HappenAll(env, FRESH_SERVER, init), FlagsAfter(env, FRESH_SERVER, init), TimeAfter(now, init);
      match last
      case Command(c, fd, args) =>
        LaterOk(s.core.db, t, c.now);
        forall i
          ensures Linked(s.core.db, TxOf(s, i).watched, FlagsOf(f, i), c.now)
        {
          LinkedLater(s.core.db, TxOf(s, i).watched, FlagsOf(f, i), t, c.now);
        }
        StepFrame(env, c, true, s, fd, args);
        CommandLinked(env, s, f, c, fd, args);
      case Disconnect(fd) => DisconnectLinked(env, s, f, fd, t);
      case Sweep(_) => SweepLinked(env, s, f, last, t);
    }
  }

  lemma FreshLinked(now: int)
    ensures DbOk(EMPTY_DB, now) && AllLinked(FRESH_SERVER, map[], now)
  {}

  lemma DisconnectLinked(env: Env, s: Server, f: Flags, fd: int, now: int)
    requires AllLinked(s, f, now)
    ensures AllLinked(Happen(env, s, Disconnect(fd)), FlagStep(env, s, f, Disconnect(fd)), now)
  {
    hide Linked, Unblock;
    var r, g := Happen(env, s, Disconnect(fd)), FlagStep(env, s, f, Disconnect(fd));
    forall i
      ensures Linked(r.core.db, TxOf(r, i).watched, FlagsOf(g, i), now)
    {
      if i == fd {
        NothingWatched(s.core.db, now);
      } else {
        assert TxOf(r, i) == TxOf(s, i) && FlagsOf(g, i) == FlagsOf(f, i);
      }
    }
  }

  lemma NothingWatched(db: Db, now: int)
    ensures Linked(db, NO_TX.watched, map[], now)
  {}

  lemma SweepLinked(env: Env, s: Server, f: Flags, e: Event, now: int)
    requires e.Sweep? && AllLinked(s, f, now)
    ensures AllLinked(Happen(env, s, e), FlagStep(env, s, f, e), now)
  {
    hide Find, Version, Expire;
  }

  /** Optimistic locking, over every interleaving of clients, disconnects and timeouts: an EXEC inside MULTI aborts
      exactly when some key the client watches was touched after its latest WATCH; and when it commits, every
      watched key reads exactly as it would, at that moment, in the keyspace of its WATCH. */
  lemma OptimisticLocking(env: Env, es: seq<Event>, start: int, c: Clock, fd: int, args: seq<Bytes>)
    requires Timely(start, es + [Command(c, fd, args)])
    requires args != [] && VerbOf(ToUpper(args[0])).Exec_?
    requires TxOf(HappenAll(env, FRESH_SERVER, es), fd).inMulti
    ensures
      var s := HappenAll(env, FRESH_SERVER, es);
      var flags := FlagsOf(FlagsAfter(env, FRESH_SERVER, es), fd);
      var reply := Step(env, c, true, s, fd, args).reply;
      (reply == Some(NullArray) <==> exists k :: k in flags && flags[k].touched) &&
      (reply != Some(NullArray) ==> reply.Some? && reply.value.Batch?) &&
      (reply != Some(NullArray) ==>
         forall k :: k in flags ==> Find(s.core.db, k, c.now) == Find(flags[k].seen, k, c.now))
  {
    hide DbOk, RunQueued, VerbOf, Find, Version;
    var all := es + [Command(c, fd, args)];
    assert all[..|all| - 1] == es && all[|all| - 1] == Command(c, fd, args);
    RunLinked(env, es, start);
    var s, f := HappenAll(env, FRESH_SERVER, es), FlagsAfter(env, FRESH_SERVER, es);
    assert Linked(s.core.db, TxOf(s, fd).watched, FlagsOf(f, fd), TimeAfter(start, es));
    LinkedLater(s.core.db, TxOf(s, fd).watched, FlagsOf(f, fd), TimeAfter(start, es), c.now);
  }
}
