/** Which commands can change the data at all, told from their arguments, and what the others and the shrinking ones do.
    Everything is said of a server without expiries, waiters and transactions. */
module WriteEffects {
  import opened Base
  import opened Decimal
  import opened StreamIds
  import opened SortedSets
  import opened Keyspace
  import opened Blocking
  import opened Commands
  import opened Expiry
  import opened Sessions
  import opened CommandLoop
  import opened Aof

  /** The arguments pass the checks a handler makes before it calls the store, so that in some state it writes. */
  predicate Writes(env: Env, cmd: Cmd, args: seq<Bytes>)
    requires |args| >= MinArgs(cmd)
  {
    match cmd
    case SET => ScanOptions(args, 3, None).TtlIs?
    case MSET => (|args| - 1) % 2 == 0
    case INCR | RPUSH | LPUSH | ZREM => true
    case LPOP | RPOP => |args| == 2 || (ParseInt64(args[2]).Some? && ParseInt64(args[2]).value > 0)
    case XADD => (|args| - 3) % 2 == 0
    case ZADD => env.parse(args[2]).Some?
    case GEOADD =>
      env.parse(args[2]).Some? && env.parse(args[3]).Some? &&
      env.geo(env.parse(args[3]).value, env.parse(args[2]).value).Some?
    case BLPOP => env.parse(args[2]).Some? && env.parse(args[2]).value >= 0
    case _ => false
  }

  predicate CanWrite(env: Env, args: seq<Bytes>) {
    args != [] &&
    match Lookup(ToUpper(args[0]))
    case None => false
    case Some(cmd) => |args| >= MinArgs(cmd) && Writes(env, cmd, args)
  }

  /** Commands that create a missing key. */
  predicate Creates(cmd: Cmd) {
    cmd.SET? || cmd.MSET? || cmd.INCR? || cmd.RPUSH? || cmd.LPUSH? || cmd.XADD? || cmd.ZADD? || cmd.GEOADD?
  }

  predicate CanCreate(env: Env, args: seq<Bytes>) {
    CanWrite(env, args) && Creates(Lookup(ToUpper(args[0])).value)
  }

  predicate Shrinks(cmd: Cmd) {
    cmd.LPOP? || cmd.RPOP? || cmd.ZREM?
  }

  // ---------------------------------------------------------------- commands that cannot write

  lemma RefusedKeeps(env: Env, c: Clock, core: Core, fd: int, cmd: Cmd, args: seq<Bytes>)
    requires |args| >= MinArgs(cmd) && !Writes(env, cmd, args) && (Creates(cmd) || Shrinks(cmd))
    ensures Exec(env, c, true, core, fd, cmd, args).core == core
  {
    hide ScanOptions, ParseInt64, Find, GeoRefused, AllTakeStrings;
  }

  lemma LoggedCommands(name: Bytes)
    requires Lookup(name).Some? && IsWriteName(name)
    ensures Creates(Lookup(name).value) || Shrinks(Lookup(name).value)
  {}

  /** A durable command that cannot write leaves the data as they are. */
  lemma NoWriteKeeps(env: Env, c: Clock, s: Server, fd: int, args: seq<Bytes>)
    requires DurableArgs(args) && Calm(s) && ClockOk(c) && !CanWrite(env, args)
    ensures Step(env, c, true, s, fd, args).server.core.db.data == s.core.db.data
  {
    hide VerbOf, Lookup, Exec, Writes, Calm, Step, ClockFree;
    if !IsLogged(args) {
      UnloggedKeepsData(env, c, s, fd, args);
    } else {
      var name := ToUpper(args[0]);
      CalmIsBare(s);
      StepIsNamed(env, c, true, s, fd, args);
      if Lookup(name).Some? && |args| >= MinArgs(Lookup(name).value) {
        LoggedCommands(name);
        RefusedKeeps(env, c, s.core, fd, Lookup(name).value, args);
      }
    }
  }

  lemma CalmIsBare(s: Server)
    requires Calm(s)
    ensures s.txs == map[] && s.core.wait == NO_WAITERS && NoTtl(s.core.db)
  {}

  // ---------------------------------------------------------------- keys stay

  lemma {:induction false} PushRestStays(p: Pushing, key: Bytes, vals: seq<Bytes>, left: bool, live: bool)
    requires p.entry.Some?
    ensures PushRest(p, key, vals, left, live).entry.Some?
    decreases |vals|
  {
    hide Wake, Reversed;
    if vals != [] {
      if live && Queue(p.wait, key) != [] {
        PushRestStays(TryWake(p, key), key, vals[1..], left, live);
      } else {
        var e := Push(p.entry, vals[0], left);
        PushRestStays(p.(entry := e.entry, touches := p.touches + e.touches, count := e.out), key, vals[1..], left, live);
      }
    }
  }

  lemma {:induction false} ZaddRestStays(env: Env, e: Effect<int>, args: seq<Bytes>, i: nat)
    requires e.entry.Some?
    ensures ZaddRest(env, e, args, i).entry.Some?
    decreases |args| - i
  {
    hide Add;
    if i + 1 < |args| && env.parse(args[i]).Some? {
      var a := Zadd(e.entry, env.parse(args[i]).value, args[i + 1]);
      ZaddRestStays(env, Effect(a.entry, e.touches + a.touches, e.out + a.out), args, i + 2);
    }
  }

  lemma PushStays(live: bool, cur: Option<Entry>, wait: Waiting, args: seq<Bytes>, left: bool)
    requires |args| >= 3
    ensures var a := ActPush(live, cur, wait, args, left).change; a.Some? && a.value.entry.Some?
  {
    hide Wake, PushRest, Reversed;
    var e := PushIf(cur, args[2], left);
    if e.out.Some? {
      var p := Pushing(e.entry, e.touches, wait, [], e.out.value);
      var q := if live && Queue(wait, args[1]) != [] then TryWake(p, args[1]) else p;
      PushRestStays(q, args[1], args[3..], left, live);
    }
  }

  lemma ZaddStays(env: Env, cur: Option<Entry>, wait: Waiting, args: seq<Bytes>)
    requires |args| >= 4
    ensures var a := ActZadd(env, cur, wait, args).change; a.Some? ==> a.value.entry.Some?
  {
    hide Add, ZaddRest;
    if env.parse(args[2]).Some? {
      var a := ZaddIf(cur, env.parse(args[2]).value, args[3]);
      if a.out.Some? {
        ZaddRestStays(env, Effect(a.entry, a.touches, a.out.value), args, 4);
      }
    }
  }

  /** A single-key command leaves an entry where there was one, and where it can create one. */
  lemma EntryStays(env: Env, c: Clock, fd: int, cmd: Cmd, cur: Option<Entry>, wait: Waiting, refused: bool,
                   args: seq<Bytes>)
    requires IsSingle(cmd) && |args| >= MinArgs(cmd) && (cur.None? ==> !refused)
    ensures var a := ActOn(env, c, true, fd, cmd, cur, wait, refused, args).change;
      (cur.Some? && a.Some? ==> a.value.entry.Some?) &&
      (cur.None? && Creates(cmd) && Writes(env, cmd, args) ==> a.Some? && a.value.entry.Some?)
  {
    hide ScanOptions, ParseInt64, ParseId, ReadReply, ActPush, ActZadd, ServeReaders, Block, Reversed, Add, Remove, ChooseId,
         AppendEntry, ToText;
    if cmd.RPUSH? || cmd.LPUSH? {
      PushStays(true, cur, wait, args, cmd.LPUSH?);
    } else if cmd.ZADD? {
      ZaddStays(env, cur, wait, args);
      if env.parse(args[2]).Some? { ZaddHappens(env, cur, wait, args); }
    }
  }

  lemma ZaddHappens(env: Env, cur: Option<Entry>, wait: Waiting, args: seq<Bytes>)
    requires |args| >= 4 && env.parse(args[2]).Some?
    ensures ActZadd(env, cur, wait, args).change.Some?
  {
    hide Add, ZaddRest;
  }

  /** With no expiries a lookup is the table's. */
  lemma FindIsData(db: Db, key: Bytes, now: int)
    requires NoTtl(db)
    ensures Find(db, key, now) == if key in db.data then Some(db.data[key]) else None
    ensures GeoRefused(db, key, now) ==> key in db.data
  {}

  lemma {:induction false} SetPairsKeys(db: Db, args: seq<Bytes>, i: nat)
    requires i <= |args| && (|args| - i) % 2 == 0
    ensures db.data.Keys <= SetPairs(db, args, i).data.Keys && (i < |args| ==> SetPairs(db, args, i).data != map[])
    decreases |args| - i
  {
    if i < |args| {
      var next := Apply(db, args[i], SetAny(args[i + 1], None));
      SetPairsKeys(next, args, i + 2);
      assert args[i] in next.data;
    }
  }

  lemma MsetOnEmpty(c: Clock, core: Core, args: seq<Bytes>)
    requires |args| >= 3 && (|args| - 1) % 2 == 0 && core.db.data == map[]
    ensures ExecMset(c, core, args).core.db.data != map[]
  {
    AllTakeOnEmpty(core.db, c.now, args, 1);
    SetPairsKeys(core.db, args, 1);
  }

  lemma {:induction false} AllTakeOnEmpty(db: Db, now: int, args: seq<Bytes>, i: nat)
    requires db.data == map[]
    ensures AllTakeStrings(db, now, args, i)
    decreases |args| - i
  {
    if i < |args| { AllTakeOnEmpty(db, now, args, i + 2); }
  }

  lemma MsetKeys(c: Clock, core: Core, args: seq<Bytes>)
    requires |args| >= 3
    ensures core.db.data.Keys <= ExecMset(c, core, args).core.db.data.Keys
  {
    hide SetPairs, AllTakeStrings;
    if (|args| - 1) % 2 == 0 { SetPairsKeys(core.db, args, 1); }
  }

  lemma SingleKeys(env: Env, c: Clock, core: Core, fd: int, cmd: Cmd, args: seq<Bytes>)
    requires IsSingle(cmd) && |args| >= MinArgs(cmd) && NoTtl(core.db)
    ensures var r := Exec(env, c, true, core, fd, cmd, args).core.db.data;
      core.db.data.Keys <= r.Keys &&
      (Creates(cmd) && Writes(env, cmd, args) ==> args[1] in r)
  {
    hide ActOn, Writes, Find, GeoRefused, NoTtl;
    var key := args[1];
    FindIsData(core.db, key, c.now);
    EntryStays(env, c, fd, cmd, Find(core.db, key, c.now), core.wait, GeoRefused(core.db, key, c.now), args);
  }

  /** A logged durable command never loses a key, and one that can create leaves some key behind. */
  lemma KeysStay(env: Env, c: Clock, s: Server, fd: int, args: seq<Bytes>)
    requires DurableArgs(args) && Calm(s) && ClockOk(c)
    ensures var r := Step(env, c, true, s, fd, args).server.core.db.data;
      (s.core.db.data != map[] ==> r != map[]) && (CanCreate(env, args) ==> r != map[])
  {
    hide VerbOf, Lookup, Exec, Writes, Step, ClockFree, Calm;
    CalmIsBare(s);
    if !CanWrite(env, args) {
      NoWriteKeeps(env, c, s, fd, args);
    } else {
      var cmd := Lookup(ToUpper(args[0])).value;
      StepIsNamed(env, c, true, s, fd, args);
      WritersKeepKeys(env, c, s.core, fd, cmd, args);
    }
  }

  lemma WritersKeepKeys(env: Env, c: Clock, core: Core, fd: int, cmd: Cmd, args: seq<Bytes>)
    requires |args| >= MinArgs(cmd) && Writes(env, cmd, args) && NoTtl(core.db)
    ensures var r := Exec(env, c, true, core, fd, cmd, args).core.db.data;
      (core.db.data != map[] ==> r != map[]) && (Creates(cmd) ==> r != map[])
  {
    hide ActOn, ExecMset, NoTtl;
    var r := Exec(env, c, true, core, fd, cmd, args).core.db.data;
    if cmd.MSET? {
      MsetKeys(c, core, args);
      if core.db.data == map[] { MsetOnEmpty(c, core, args); }
    } else {
      SingleKeys(env, c, core, fd, cmd, args);
    }
    if k :| k in core.db.data {
      assert k in r;
    }
  }

  // ---------------------------------------------------------------- shrinking

  function Size(v: Value): (n: nat) {
    match v
    case Lst(items) => |items|
    case Zst(z) => |z.index.Keys|
    case _ => 0
  }

  /** The entry is as it was, or smaller. */
  predicate Shrunk(before: Entry, after: Entry) {
    after == before || Size(after.value) < Size(before.value)
  }

  lemma PopShrinks(e: Entry, count: int, left: bool)
    ensures var r := Pop(Some(e), count, left).entry;
      r.Some? && Shrunk(e, r.value) &&
      (count > 0 && e.value.Lst? && e.value.items != [] ==> Size(r.value.value) < Size(e.value))
  {
    hide Reversed;
    if e.value.Lst? && count > 0 {
      var items := e.value.items;
      assert items == [] ==> items[0..] == items && items[..|items| - 0] == items;
    }
  }

  lemma ZremShrinks(e: Entry, member: Bytes)
    ensures var r := Zrem(Some(e), member).entry;
      r.Some? && Shrunk(e, r.value) &&
      (e.value.Zst? && member in e.value.zset.index ==> Size(r.value.value) < Size(e.value))
  {
    hide Erase;
    if e.value.Zst? && member in e.value.zset.index {
      var index := e.value.zset.index;
      assert (index - {member}).Keys == index.Keys - {member};
    }
  }

  /** There is something for this command to take. */
  predicate Hits(cmd: Cmd, args: seq<Bytes>, e: Entry) {
    ((cmd.LPOP? || cmd.RPOP?) && e.value.Lst? && e.value.items != []) ||
    (cmd.ZREM? && |args| > 2 && e.value.Zst? && args[2] in e.value.zset.index)
  }

  /** This command makes the entry of its key smaller. */
  predicate Forces(env: Env, args: seq<Bytes>, key: Bytes, e: Entry) {
    CanWrite(env, args) && |args| > 1 && args[1] == key && Hits(Lookup(ToUpper(args[0])).value, args, e)
  }

  lemma ShrinkAct(env: Env, c: Clock, fd: int, cmd: Cmd, e: Entry, wait: Waiting, refused: bool, args: seq<Bytes>)
    requires Shrinks(cmd) && |args| >= MinArgs(cmd) && Writes(env, cmd, args)
    ensures var a := ActOn(env, c, true, fd, cmd, Some(e), wait, refused, args).change;
      a.Some? && a.value.entry.Some? && Shrunk(e, a.value.entry.value) &&
      (Hits(cmd, args, e) ==> Size(a.value.entry.value.value) < Size(e.value))
  {
    hide Pop, Zrem, ParseInt64, Size, Shrunk;
    if cmd.ZREM? {
      ZremShrinks(e, args[2]);
    } else {
      var count := if |args| == 2 then 1 else ParseInt64(args[2]).value;
      PopShrinks(e, count, cmd.LPOP?);
    }
  }

  lemma ShrinkExec(env: Env, c: Clock, core: Core, fd: int, cmd: Cmd, args: seq<Bytes>, key: Bytes)
    requires Shrinks(cmd) && |args| >= MinArgs(cmd) && Writes(env, cmd, args) && NoTtl(core.db) && key in core.db.data
    ensures var r := Exec(env, c, true, core, fd, cmd, args).core.db.data;
      var e := core.db.data[key];
      key in r && Shrunk(e, r[key]) &&
      (args[1] == key && Hits(cmd, args, e) ==> Size(r[key].value) < Size(e.value))
  {
    hide ActOn, Writes, Find, GeoRefused, NoTtl, Size, Shrunk;
    ShrunkSame(core.db.data[key]);
    FindIsData(core.db, args[1], c.now);
    if args[1] in core.db.data {
      ShrinkAct(env, c, fd, cmd, core.db.data[args[1]], core.wait, GeoRefused(core.db, args[1], c.now), args);
    }
  }

  lemma ShrunkSame(e: Entry)
    ensures Shrunk(e, e)
  {}

  /** A durable command that cannot create leaves every entry as it is or smaller. */
  lemma ShrinkStep(env: Env, c: Clock, s: Server, fd: int, args: seq<Bytes>, key: Bytes)
    requires DurableArgs(args) && Calm(s) && ClockOk(c) && !CanCreate(env, args) && key in s.core.db.data
    ensures var r := Step(env, c, true, s, fd, args).server.core.db.data;
      key in r && Shrunk(s.core.db.data[key], r[key]) &&
      (Forces(env, args, key, s.core.db.data[key]) ==> Size(r[key].value) < Size(s.core.db.data[key].value))
  {
    hide VerbOf, Lookup, Exec, Writes, Step, Calm, Size, Shrunk;
    CalmIsBare(s);
    ShrunkSame(s.core.db.data[key]);
    if !CanWrite(env, args) {
      NoWriteKeeps(env, c, s, fd, args);
    } else {
      var cmd := Lookup(ToUpper(args[0])).value;
      StepIsNamed(env, c, true, s, fd, args);
      OnlyShrinks(env, cmd, args);
      ShrinkExec(env, c, s.core, fd, cmd, args, key);
    }
  }

  lemma OnlyShrinks(env: Env, cmd: Cmd, args: seq<Bytes>)
    requires |args| >= MinArgs(cmd) && Writes(env, cmd, args) && ClockFree(cmd, args) && !Creates(cmd)
    ensures Shrinks(cmd)
  {}
}
