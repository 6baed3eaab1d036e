/** Lazy expiry over whole runs of clients, transactions included: servers that agree on live entries, versions, waiters
    and transactions cannot be told apart. EXEC, through its version check, is where versions show. */
module ExpiryRuns {
  import opened Base
  import opened Decimal
  import opened Keyspace
  import opened Commands
  import opened Invariants
  import opened Expiry
  import opened Sessions

  // ---------------------------------------------------------------- one step

  predicate NamedTickSafe(db: Db, now: int, name: Bytes, args: seq<Bytes>) {
    match Lookup(name)
    case None => true
    case Some(cmd) => |args| >= MinArgs(cmd) ==> TickSafe(db, now, cmd, args)
  }

  predicate QueueTickSafe(env: Env, c: Clock, live: bool, core: Core, fd: int, queued: seq<seq<Bytes>>)
    decreases |queued|
  {
    queued == [] ||
    (var args := queued[0];
     var name := if args == [] then [] else args[0];
     NamedTickSafe(core.db, c.now, name, args) &&
     QueueTickSafe(env, c, live, ExecNamed(env, c, live, core, fd, name, args).core, fd, queued[1..]))
  }

  /** No GEOADD the step runs, queued or not, meets an entry that is no sorted set at the exact instant of its expiry. */
  predicate StepTickSafe(env: Env, c: Clock, live: bool, s: Server, fd: int, args: seq<Bytes>) {
    args == [] ||
    (var name, t := ToUpper(args[0]), TxOf(s, fd);
     match VerbOf(name)
     case Exec_ => t.inMulti && !Dirty(s.core.db, t.watched) ==> QueueTickSafe(env, c, live, s.core, fd, t.queued)
     case Data => t.inMulti || NamedTickSafe(s.core.db, c.now, name, args)
     case _ => true)
  }

  ghost predicate SameCore(x: Core, y: Core, now: int) {
    x.wait == y.wait && SameView(x.db, now, y.db, now) && SameVersions(x.db, y.db) && DbOk(x.db, now) && DbOk(y.db, now)
  }

  lemma NamedAlike(env: Env, c: Clock, live: bool, x: Core, y: Core, fd: int, name: Bytes, args: seq<Bytes>)
    requires SameCore(x, y, c.now) && ClockOk(c)
    requires NamedTickSafe(x.db, c.now, name, args) && NamedTickSafe(y.db, c.now, name, args)
    ensures var a, b := ExecNamed(env, c, live, x, fd, name, args), ExecNamed(env, c, live, y, fd, name, args);
      a.reply == b.reply && a.sends == b.sends && SameCore(a.core, b.core, c.now)
  {
    hide Lookup, Exec, SameView, SameVersions, DbOk, TickSafe;
    var cmd := Lookup(name);
    if cmd.Some? && |args| >= MinArgs(cmd.value) {
      ExecAlike(env, c, c, live, x, y, fd, cmd.value, args);
      ExecOk(env, c, live, x, fd, cmd.value, args);
      ExecOk(env, c, live, y, fd, cmd.value, args);
    }
  }

  lemma {:induction false} QueueAlike(env: Env, c: Clock, live: bool, x: Core, y: Core, fd: int, queued: seq<seq<Bytes>>)
    requires SameCore(x, y, c.now) && ClockOk(c)
    requires QueueTickSafe(env, c, live, x, fd, queued) && QueueTickSafe(env, c, live, y, fd, queued)
    ensures var a, b := RunQueued(env, c, live, x, fd, queued), RunQueued(env, c, live, y, fd, queued);
      a.replies == b.replies && a.sends == b.sends && SameCore(a.core, b.core, c.now)
    decreases |queued|
  {
    hide SameCore, ExecNamed, NamedTickSafe;
    if queued != [] {
      var args := queued[0];
      var name := if args == [] then [] else args[0];
      NamedAlike(env, c, live, x, y, fd, name, args);
      QueueAlike(env, c, live, ExecNamed(env, c, live, x, fd, name, args).core,
                 ExecNamed(env, c, live, y, fd, name, args).core, fd, queued[1..]);
    }
  }

  lemma SameDirty(x: Db, y: Db, watched: map<Bytes, nat>, keys: seq<Bytes>)
    requires SameVersions(x, y)
    ensures Dirty(x, watched) == Dirty(y, watched) && WatchKeys(x, watched, keys) == WatchKeys(y, watched, keys)
  {
    assert forall k :: Version(x, k) == Version(y, k);
  }

  lemma ExecStepAlike(env: Env, c: Clock, live: bool, x: Server, y: Server, fd: int)
    requires x.txs == y.txs && SameCore(x.core, y.core, c.now) && ClockOk(c)
    requires var t := TxOf(x, fd);
      t.inMulti && !Dirty(x.core.db, t.watched) ==>
        QueueTickSafe(env, c, live, x.core, fd, t.queued) && QueueTickSafe(env, c, live, y.core, fd, t.queued)
    ensures var a, b := ExecStep(env, c, live, x, fd), ExecStep(env, c, live, y, fd);
      a.reply == b.reply && a.sends == b.sends && a.server.txs == b.server.txs &&
      SameCore(a.server.core, b.server.core, c.now)
  {
    hide RunQueued, Dirty, SameView, SameVersions, DbOk, QueueTickSafe;
    var t := TxOf(x, fd);
    SameDirty(x.core.db, y.core.db, t.watched, []);
    if t.inMulti && !Dirty(x.core.db, t.watched) {
      QueueAlike(env, c, live, x.core, y.core, fd, t.queued);
    }
  }

  /** One client command, of any kind. */
  lemma StepAlike(env: Env, c: Clock, live: bool, x: Server, y: Server, fd: int, args: seq<Bytes>)
    requires x.txs == y.txs && SameCore(x.core, y.core, c.now) && ClockOk(c)
    requires StepTickSafe(env, c, live, x, fd, args) && StepTickSafe(env, c, live, y, fd, args)
    ensures var a, b := Step(env, c, live, x, fd, args), Step(env, c, live, y, fd, args);
      a.reply == b.reply && a.sends == b.sends && a.server.txs == b.server.txs &&
      SameCore(a.server.core, b.server.core, c.now)
  {
    hide ExecNamed, ExecStep, Dirty, WatchKeys, SameView, SameVersions, DbOk, QueueTickSafe, NamedTickSafe, ToUpper;
    if args != [] {
      var name, t := ToUpper(args[0]), TxOf(x, fd);
      SameDirty(x.core.db, y.core.db, t.watched, args[1..]);
      if VerbOf(name) == Exec_ {
        ExecStepAlike(env, c, live, x, y, fd);
      } else if VerbOf(name) == Data && !t.inMulti {
        NamedAlike(env, c, live, x.core, y.core, fd, name, args);
      }
    }
  }

  // ---------------------------------------------------------------- whole runs

  ghost function ServedAll(env: Env, live: bool, s: Server, es: seq<Event>): (r: Server)
    decreases |es|
  {
    if es == [] then s else Served(env, live, ServedAll(env, live, s, es[..|es| - 1]), es[|es| - 1]).server
  }

  /** Replies and messages of a run, in order. */
  ghost function Transcript(env: Env, live: bool, s: Server, es: seq<Event>): (t: seq<(Option<Reply>, seq<Send>)>)
    decreases |es|
  {
    if es == [] then []
    else
      var init := es[..|es| - 1];
      var o := Served(env, live, ServedAll(env, live, s, init), es[|es| - 1]);
      Transcript(env, live, s, init) + [(o.reply, o.sends)]
  }

  ghost predicate RunTickSafe(env: Env, live: bool, s: Server, es: seq<Event>)
    decreases |es|
  {
    es == [] ||
    (var init, last := es[..|es| - 1], es[|es| - 1];
     RunTickSafe(env, live, s, init) &&
     (last.Command? ==>
        StepTickSafe(env, last.clock, live, ServedAll(env, live, s, init), last.fd, last.args)))
  }

  lemma SameLaterCore(x: Core, y: Core, now: int, later: int)
    requires SameCore(x, y, now) && now <= later
    ensures SameCore(x, y, later)
  {
    hide DbOk, SameView;
    LaterView(x.db, y.db, now, later);
    LaterOk(x.db, now, later);
    LaterOk(y.db, now, later);
  }

  /** Lazy expiry is invisible over every run: two servers that agree on live entries, versions, waiters and transactions
      give the same replies and messages to any sequence of client commands (transactions, unknown names and wrong
      arities included), disconnects and timeouts, under a clock that does not run backwards, and agree again at
      the end. */
  lemma {:induction false} LazyExpiryInvisible(env: Env, live: bool, x: Server, y: Server, now: int, es: seq<Event>)
    requires Timely(now, es) && x.txs == y.txs && SameCore(x.core, y.core, now)
    requires RunTickSafe(env, live, x, es) && RunTickSafe(env, live, y, es)
    ensures Transcript(env, live, x, es) == Transcript(env, live, y, es)
    ensures var a, b := ServedAll(env, live, x, es), ServedAll(env, live, y, es);
      a.txs == b.txs && SameCore(a.core, b.core, TimeAfter(now, es))
    decreases |es|
  {
    hide Step, SameView, SameVersions, DbOk, StepTickSafe;
    if es != [] {
      var init, last := es[..|es| - 1], es[|es| - 1];
      LazyExpiryInvisible(env, live, x, y, now, init);
      var a, b := ServedAll(env, live, x, init), ServedAll(env, live, y, init);
      if last.Command? {
        SameLaterCore(a.core, b.core, TimeAfter(now, init), last.clock.now);
        StepAlike(env, last.clock, live, a, b, last.fd, last.args);
      }
    }
  }

  // ---------------------------------------------------------------- the exception, reached

  /** A concrete run: a string set with 10 ms to live refuses a GEOADD exactly 10 ms later, and not one later. */
  lemma GeoaddTickExample(env: Env)
    requires env.parse("2") == Some(2) && env.geo(2, 2) == Some(7)
    ensures
      var s := Step(env, Clock(0, 0), true, FRESH_SERVER, 1, ["SET", "k", "v", "PX", "10"]).server;
      var args := ["GEOADD", "k", "2", "2", "m"];
      Step(env, Clock(10, 0), true, s, 1, args).reply == Some(Error(WRONGTYPE)) &&
      Step(env, Clock(11, 0), true, s, 1, args).reply == Some(Integer(1))
  {
    hide Step;
    ShortLived(env);
    var s := Step(env, Clock(0, 0), true, FRESH_SERVER, 1, ["SET", "k", "v", "PX", "10"]).server;
    GeoaddMeets(env, s, Clock(10, 0));
    GeoaddMeets(env, s, Clock(11, 0));
  }

  lemma ShortLived(env: Env)
    ensures var s := Step(env, Clock(0, 0), true, FRESH_SERVER, 1, ["SET", "k", "v", "PX", "10"]).server;
      s.core.db.data == map["k" := Entry(Str("v"), Some(10))] && s.txs == map[]
  {
    hide ParseUInt64;
    assert ToUpper("SET") == "SET" && ToUpper("PX") == "PX";
    assert ParseUInt64("10") == Some(10) by { ParseToTextUnsigned(10); assert ToText(10) == "10"; }
    assert ScanOptions(["SET", "k", "v", "PX", "10"], 3, None) == TtlIs(Some(10));
  }

  lemma GeoaddMeets(env: Env, s: Server, c: Clock)
    requires env.parse("2") == Some(2) && env.geo(2, 2) == Some(7) && c.now >= 10
    requires s.core.db.data == map["k" := Entry(Str("v"), Some(10))] && s.txs == map[]
    ensures Step(env, c, true, s, 1, ["GEOADD", "k", "2", "2", "m"]).reply
         == Some(if c.now == 10 then Error(WRONGTYPE) else Integer(1))
  {
    hide SortedSets.Add, Touch, ToUpper, Lookup, VerbOf;
    GeoaddName();
  }

  lemma GeoaddName()
    ensures ToUpper("GEOADD") == "GEOADD" && VerbOf("GEOADD") == Data && Lookup("GEOADD") == Some(GEOADD)
  {}
}
