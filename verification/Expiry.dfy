/** Lazy expiry is invisible: when a dead entry is dropped makes no difference to any reply. */
module Expiry {
  import opened Base
  import opened Decimal
  import opened StreamIds
  import opened SortedSets
  import opened Keyspace
  import opened Blocking
  import opened Commands
  import opened Invariants

  /** The same live entries: `a` read at time `s` and `b` read at time `t`. */
  ghost predicate SameView(a: Db, s: int, b: Db, t: int) {
    forall k :: Find(a, k, s) == Find(b, k, t)
  }

  predicate SameVersions(a: Db, b: Db) {
    a.counter == b.counter && a.versions == b.versions
  }

  predicate NoTtl(db: Db) {
    forall k :: k in db.data ==> db.data[k].expiry.None?
  }

  predicate OptNoTtl(e: Option<Entry>) {
    e.Some? ==> e.value.expiry.None?
  }

  /** The command's effect does not depend on the clock: no time to live, no generated id, no deadline. */
  predicate ClockFree(cmd: Cmd, args: seq<Bytes>)
    requires |args| >= MinArgs(cmd)
  {
    match cmd
    case SET => ScanOptions(args, 3, None) != TtlIs(None) ==> ScanOptions(args, 3, None).TtlError?
    case XADD => args[2] != "*"
    case BLPOP => false
    case XREAD => ParseRead(args).ReadOk? ==> ParseRead(args).block.None?
    case _ => true
  }

  /** GEOADD does not meet, at the exact instant of its expiry, an entry that is no sorted set. */
  predicate TickSafe(db: Db, now: int, cmd: Cmd, args: seq<Bytes>)
    requires |args| >= MinArgs(cmd)
  {
    cmd.GEOADD? && args[1] in db.data && db.data[args[1]].expiry == Some(now) ==> db.data[args[1]].value.Zst?
  }

  // ---------------------------------------------------------------- views

  lemma PutView(a: Db, s: int, b: Db, t: int, key: Bytes, e: Option<Entry>, n: nat)
    requires SameView(a, s, b, t) && (s == t || OptNoTtl(e))
    ensures SameView(Put(a, key, e, n), s, Put(b, key, e, n), t)
    ensures SameVersions(a, b) ==> SameVersions(Put(a, key, e, n), Put(b, key, e, n))
  {
    forall k
      ensures Find(Put(a, key, e, n), k, s) == Find(Put(b, key, e, n), k, t)
    {
      assert Find(a, k, s) == Find(b, k, t);
    }
  }

  lemma FrameView(a: Db, a2: Db, s: int, b: Db, b2: Db, t: int)
    requires SameView(a, s, b, t) && Frame(a, a2, {}, s) && Frame(b, b2, {}, t)
    ensures SameView(a2, s, b2, t)
  {
    hide Find, Version;
  }

  lemma LaterView(a: Db, b: Db, now: int, later: int)
    requires SameView(a, now, b, now) && now <= later
    ensures SameView(a, later, b, later)
  {
    forall k
      ensures Find(a, k, later) == Find(b, k, later)
    {
      assert Find(a, k, now) == Find(b, k, now);
      SameLater(a, b, k, now, later);
    }
  }

  // ---------------------------------------------------------------- what each command looks at

  lemma ClockFreeAct(env: Env, ca: Clock, cb: Clock, live: bool, fd: int, cmd: Cmd, cur: Option<Entry>, wait: Waiting,
                     refused: bool, args: seq<Bytes>)
    requires IsSingle(cmd) && |args| >= MinArgs(cmd) && ClockFree(cmd, args)
    ensures ActOn(env, ca, live, fd, cmd, cur, wait, refused, args)
         == ActOn(env, cb, live, fd, cmd, cur, wait, refused, args)
  {
    hide ScanOptions, ActPush, ActZadd, ActPop, ActIncr, ActGeoadd, ActBlpop, ReadReply, Zrem, ServeReaders, ParseRead,
         ParseInt64, ParseId, Wrap64, IdText;
  }

  lemma ClockFreeNoTtl(env: Env, c: Clock, live: bool, fd: int, cmd: Cmd, cur: Option<Entry>, wait: Waiting,
                       refused: bool, args: seq<Bytes>)
    requires IsSingle(cmd) && |args| >= MinArgs(cmd) && ClockFree(cmd, args) && OptNoTtl(cur)
    ensures var a := ActOn(env, c, live, fd, cmd, cur, wait, refused, args).change; a.Some? ==> OptNoTtl(a.value.entry)
  {
    hide ScanOptions, ReadReply, ServeReaders, ParseInt64, ParseId, AppendEntry, ChooseId, ParseRead, Add, Remove,
         Reversed, ActPush, ActZadd;
    match cmd
    case RPUSH => PushNoTtl(live, cur, wait, args, false);
    case LPUSH => PushNoTtl(live, cur, wait, args, true);
    case ZADD => ZaddNoTtl(env, cur, wait, args);
    case _ =>
  }

  lemma {:induction false} PushRestNoTtl(p: Pushing, key: Bytes, vals: seq<Bytes>, left: bool, live: bool)
    requires OptNoTtl(p.entry)
    ensures OptNoTtl(PushRest(p, key, vals, left, live).entry)
    decreases |vals|
  {
    hide Wake;
    if vals != [] {
      if live && Queue(p.wait, key) != [] {
        PushRestNoTtl(TryWake(p, key), key, vals[1..], left, live);
      } else {
        var e := Push(p.entry, vals[0], left);
        PushRestNoTtl(p.(entry := e.entry, touches := p.touches + e.touches, count := e.out),
                      key, vals[1..], left, live);
      }
    }
  }

  lemma PushNoTtl(live: bool, cur: Option<Entry>, wait: Waiting, args: seq<Bytes>, left: bool)
    requires |args| >= 3 && OptNoTtl(cur)
    ensures OptNoTtl(ActPush(live, cur, wait, args, left).change.value.entry)
  {
    hide Wake, PushRest;
    var e := PushIf(cur, args[2], left);
    if e.out.Some? {
      var p := Pushing(e.entry, e.touches, wait, [], e.out.value);
      var q := if live && Queue(wait, args[1]) != [] then TryWake(p, args[1]) else p;
      PushRestNoTtl(q, args[1], args[3..], left, live);
    }
  }

  lemma {:induction false} ZaddRestNoTtl(env: Env, e: Effect<int>, args: seq<Bytes>, i: nat)
    requires OptNoTtl(e.entry)
    ensures OptNoTtl(ZaddRest(env, e, args, i).entry)
    decreases |args| - i
  {
    hide Add;
    if i + 1 < |args| && env.parse(args[i]).Some? {
      var a := Zadd(e.entry, env.parse(args[i]).value, args[i + 1]);
      ZaddRestNoTtl(env, Effect(a.entry, e.touches + a.touches, e.out + a.out), args, i + 2);
    }
  }

  lemma ZaddNoTtl(env: Env, cur: Option<Entry>, wait: Waiting, args: seq<Bytes>)
    requires |args| >= 4 && OptNoTtl(cur)
    ensures var a := ActZadd(env, cur, wait, args).change; a.Some? ==> OptNoTtl(a.value.entry)
  {
    hide Add, ZaddRest;
    if env.parse(args[2]).Some? {
      var a := ZaddIf(cur, env.parse(args[2]).value, args[3]);
      if a.out.Some? { ZaddRestNoTtl(env, Effect(a.entry, a.touches, a.out.value), args, 4); }
    }
  }

  /** MSET's type check, although it treats the instant of expiry differently, sees only live entries. */
  lemma StringCheckIsLive(db: Db, key: Bytes, now: int)
    requires DbOk(db, now)
    ensures AbsentOrHolds(db, key, StrKind, now)
        <==> (Find(db, key, now).Some? ==> Find(db, key, now).value.value.Str?)
  {}

  /** GEOADD's does not, at that instant. */
  lemma ZsetCheckIsLive(db: Db, now: int, args: seq<Bytes>)
    requires |args| >= 5
    ensures TickSafe(db, now, GEOADD, args)
        <==> (GeoRefused(db, args[1], now)
              <==> Find(db, args[1], now).Some? && !Find(db, args[1], now).value.value.Zst?)
  {}

  lemma {:induction false} AllTakeStringsView(a: Db, s: int, b: Db, t: int, args: seq<Bytes>, i: nat)
    requires SameView(a, s, b, t) && DbOk(a, s) && DbOk(b, t)
    ensures AllTakeStrings(a, s, args, i) == AllTakeStrings(b, t, args, i)
    decreases |args| - i
  {
    hide DbOk, AbsentOrHolds, Find;
    if i < |args| {
      StringCheckIsLive(a, args[i], s);
      StringCheckIsLive(b, args[i], t);
      AllTakeStringsView(a, s, b, t, args, i + 2);
    }
  }

  lemma {:induction false} SetPairsView(a: Db, s: int, b: Db, t: int, args: seq<Bytes>, i: nat)
    requires i <= |args| && (|args| - i) % 2 == 0 && SameView(a, s, b, t)
    ensures SameView(SetPairs(a, args, i), s, SetPairs(b, args, i), t)
    ensures SameVersions(a, b) ==> SameVersions(SetPairs(a, args, i), SetPairs(b, args, i))
    decreases |args| - i
  {
    hide SameView, SameVersions;
    if i < |args| {
      var e := SetAny(args[i + 1], None);
      PutView(a, s, b, t, args[i], e.entry, 1);
      SetPairsView(Apply(a, args[i], e), s, Apply(b, args[i], e), t, args, i + 2);
    }
  }

  lemma {:induction false} ReadAllView(a: Db, s: int, b: Db, t: int, keys: seq<Bytes>, ids: seq<Bytes>)
    requires |keys| == |ids| && SameView(a, s, b, t)
    ensures ReadAll(a, keys, ids, s) == ReadAll(b, keys, ids, t)
    decreases |keys|
  {
    hide Find, After, Threshold, ResolveId;
    if keys != [] {
      assert Find(a, keys[0], s) == Find(b, keys[0], t);
      ReadAllView(a, s, b, t, keys[1..], ids[1..]);
    }
  }

  lemma {:induction false} VisitVersions(db: Db, keys: seq<Bytes>, now: int)
    ensures SameVersions(Visit(db, keys, now), db)
    decreases |keys|
  {
    if keys != [] {
      VisitVersions(Apply(db, keys[0], Seen(Find(db, keys[0], now))), keys[1..], now);
    }
  }

  // ---------------------------------------------------------------- congruence

  /** The two executions answer alike and agree again afterwards. */
  ghost predicate Alike(x: Outcome, s: int, y: Outcome, t: int) {
    x.reply == y.reply && x.sends == y.sends && x.core.wait == y.core.wait && SameView(x.core.db, s, y.core.db, t)
  }

  lemma MsetAlike(ca: Clock, cb: Clock, x: Core, y: Core, args: seq<Bytes>)
    requires |args| >= 3 && x.wait == y.wait && SameView(x.db, ca.now, y.db, cb.now)
    requires DbOk(x.db, ca.now) && DbOk(y.db, cb.now)
    ensures Alike(ExecMset(ca, x, args), ca.now, ExecMset(cb, y, args), cb.now)
    ensures SameVersions(x.db, y.db) ==> SameVersions(ExecMset(ca, x, args).core.db, ExecMset(cb, y, args).core.db)
  {
    hide SameView, SameVersions, DbOk, SetPairs, AllTakeStrings;
    AllTakeStringsView(x.db, ca.now, y.db, cb.now, args, 1);
    if (|args| - 1) % 2 == 0 { SetPairsView(x.db, ca.now, y.db, cb.now, args, 1); }
  }

  lemma KeysAlike(ca: Clock, cb: Clock, x: Core, y: Core)
    requires x.wait == y.wait && SameView(x.db, ca.now, y.db, cb.now)
    ensures Alike(ExecKeys(ca, x), ca.now, ExecKeys(cb, y), cb.now)
    ensures SameVersions(x.db, y.db) ==> SameVersions(ExecKeys(ca, x).core.db, ExecKeys(cb, y).core.db)
  {
    PurgeFrame(x.db, ca.now);
    PurgeFrame(y.db, cb.now);
    FrameView(x.db, Purge(x.db, ca.now), ca.now, y.db, Purge(y.db, cb.now), cb.now);
    forall k
      ensures k in Purge(x.db, ca.now).data.Keys <==> k in Purge(y.db, cb.now).data.Keys
    {
      assert Find(x.db, k, ca.now) == Find(y.db, k, cb.now);
    }
    assert Purge(x.db, ca.now).data.Keys == Purge(y.db, cb.now).data.Keys;
  }

  lemma XreadAlike(ca: Clock, cb: Clock, live: bool, x: Core, y: Core, fd: int, args: seq<Bytes>)
    requires |args| >= 4 && x.wait == y.wait && SameView(x.db, ca.now, y.db, cb.now)
    requires ca == cb || ClockFree(XREAD, args)
    ensures Alike(ExecXread(ca, live, x, fd, args), ca.now, ExecXread(cb, live, y, fd, args), cb.now)
    ensures SameVersions(x.db, y.db) ==>
      SameVersions(ExecXread(ca, live, x, fd, args).core.db, ExecXread(cb, live, y, fd, args).core.db)
  {
    hide ParseRead, Visit, ReadAll, Block, Frame, Find, ParseId, MaxId;
    if ParseRead(args).ReadOk? {
      var keys, ids := ParseRead(args).keys, ParseRead(args).ids;
      ReadAllView(x.db, ca.now, y.db, cb.now, keys, ids);
      VisitFrame(x.db, keys, ca.now);
      VisitFrame(y.db, keys, cb.now);
      var dx, dy := Visit(x.db, keys, ca.now), Visit(y.db, keys, cb.now);
      FrameView(x.db, dx, ca.now, y.db, dy, cb.now);
      VisitVersions(x.db, keys, ca.now);
      VisitVersions(y.db, keys, cb.now);
      assert Find(dx, keys[0], ca.now) == Find(dy, keys[0], cb.now);
    }
  }

  /** Stores that agree on live entries answer every command alike, wake the same clients with the same data and
      agree again afterwards; equal versions stay equal. The two clocks may differ when neither store holds an
      expiry and the command does not read the clock. */
  lemma ExecAlike(env: Env, ca: Clock, cb: Clock, live: bool, x: Core, y: Core, fd: int, cmd: Cmd, args: seq<Bytes>)
    requires |args| >= MinArgs(cmd) && x.wait == y.wait && SameView(x.db, ca.now, y.db, cb.now)
    requires ca == cb || (ClockFree(cmd, args) && NoTtl(x.db) && NoTtl(y.db))
    requires TickSafe(x.db, ca.now, cmd, args) && TickSafe(y.db, cb.now, cmd, args)
    requires DbOk(x.db, ca.now) && DbOk(y.db, cb.now)
    ensures Alike(Exec(env, ca, live, x, fd, cmd, args), ca.now, Exec(env, cb, live, y, fd, cmd, args), cb.now)
    ensures SameVersions(x.db, y.db) ==>
      SameVersions(Exec(env, ca, live, x, fd, cmd, args).core.db, Exec(env, cb, live, y, fd, cmd, args).core.db)
  {
    hide DbOk, SameView, ActOn, SameVersions, TickSafe, ClockFree, ExecMset, ExecKeys, ExecXread;
    if cmd.MSET? {
      MsetAlike(ca, cb, x, y, args);
    } else if cmd.KEYS? {
      KeysAlike(ca, cb, x, y);
    } else if cmd.XREAD? {
      XreadAlike(ca, cb, live, x, y, fd, args);
    } else {
      SingleAlike(env, ca, cb, live, x, y, fd, cmd, args);
    }
  }

  lemma FindNoTtl(db: Db, key: Bytes, now: int)
    requires NoTtl(db)
    ensures OptNoTtl(Find(db, key, now))
  {}

  lemma SingleAlike(env: Env, ca: Clock, cb: Clock, live: bool, x: Core, y: Core, fd: int, cmd: Cmd, args: seq<Bytes>)
    requires IsSingle(cmd)
    requires |args| >= MinArgs(cmd) && x.wait == y.wait && SameView(x.db, ca.now, y.db, cb.now)
    requires ca == cb || (ClockFree(cmd, args) && NoTtl(x.db) && NoTtl(y.db))
    requires TickSafe(x.db, ca.now, cmd, args) && TickSafe(y.db, cb.now, cmd, args)
    ensures Alike(Exec(env, ca, live, x, fd, cmd, args), ca.now, Exec(env, cb, live, y, fd, cmd, args), cb.now)
    ensures SameVersions(x.db, y.db) ==>
      SameVersions(Exec(env, ca, live, x, fd, cmd, args).core.db, Exec(env, cb, live, y, fd, cmd, args).core.db)
  {
    hide ActOn, SameVersions, ClockFree, GeoRefused, TickSafe, Put, Find;
    SameAct(env, ca, cb, live, x, y, fd, cmd, args);
    var key := args[1];
    var a := ActOn(env, ca, live, fd, cmd, Find(x.db, key, ca.now), x.wait, GeoRefused(x.db, key, ca.now), args);
    if a.change.Some? {
      PutView(x.db, ca.now, y.db, cb.now, key, a.change.value.entry, a.change.value.touches);
    }
  }

  lemma SameAct(env: Env, ca: Clock, cb: Clock, live: bool, x: Core, y: Core, fd: int, cmd: Cmd, args: seq<Bytes>)
    requires IsSingle(cmd)
    requires |args| >= MinArgs(cmd) && x.wait == y.wait && SameView(x.db, ca.now, y.db, cb.now)
    requires ca == cb || (ClockFree(cmd, args) && NoTtl(x.db) && NoTtl(y.db))
    requires TickSafe(x.db, ca.now, cmd, args) && TickSafe(y.db, cb.now, cmd, args)
    ensures var a := ActOn(env, ca, live, fd, cmd, Find(x.db, args[1], ca.now), x.wait,
                           GeoRefused(x.db, args[1], ca.now), args);
      a == ActOn(env, cb, live, fd, cmd, Find(y.db, args[1], cb.now), y.wait, GeoRefused(y.db, args[1], cb.now), args) &&
      (ca != cb && a.change.Some? ==> OptNoTtl(a.change.value.entry))
  {
    hide ActOn, ClockFree, GeoRefused, TickSafe, Find, OptNoTtl;
    var key := args[1];
    assert Find(x.db, key, ca.now) == Find(y.db, key, cb.now);
    var cur := Find(x.db, key, ca.now);
    if cmd.GEOADD? {
      ZsetCheckIsLive(x.db, ca.now, args);
      ZsetCheckIsLive(y.db, cb.now, args);
    }
    RefusedOnlyForGeoadd(env, cb, live, fd, cmd, cur, x.wait, GeoRefused(x.db, key, ca.now),
                         GeoRefused(y.db, key, cb.now), args);
    if ca != cb {
      ClockFreeAct(env, ca, cb, live, fd, cmd, cur, x.wait, GeoRefused(x.db, key, ca.now), args);
      FindNoTtl(x.db, key, ca.now);
      ClockFreeNoTtl(env, ca, live, fd, cmd, cur, x.wait, GeoRefused(x.db, key, ca.now), args);
    }
  }

  lemma RefusedOnlyForGeoadd(env: Env, c: Clock, live: bool, fd: int, cmd: Cmd, cur: Option<Entry>, wait: Waiting,
                             r1: bool, r2: bool, args: seq<Bytes>)
    requires IsSingle(cmd) && |args| >= MinArgs(cmd) && (cmd.GEOADD? ==> r1 == r2)
    ensures ActOn(env, c, live, fd, cmd, cur, wait, r1, args) == ActOn(env, c, live, fd, cmd, cur, wait, r2, args)
  {
    hide ActSet, ActIncr, ActPush, ActPop, ActBlpop, ActXadd, ActZadd, ActGeoadd, Zrem, ReadReply, BadBounds;
  }

  // ---------------------------------------------------------------- the exception

  /** Exactly when GEOADD can tell a dead entry from none: it meets it at the very instant of its expiry and the
      entry is no sorted set. */
  lemma GeoaddSeesTheTick(env: Env, c: Clock, live: bool, core: Core, fd: int, args: seq<Bytes>)
    requires |args| >= 5
    ensures var swept := core.(db := Purge(core.db, c.now));
      Exec(env, c, live, core, fd, GEOADD, args).reply == Exec(env, c, live, swept, fd, GEOADD, args).reply
      <==> TickSafe(core.db, c.now, GEOADD, args)
  {
    var swept := core.(db := Purge(core.db, c.now));
    ZsetCheckIsLive(core.db, c.now, args);
    ZsetCheckIsLive(swept.db, c.now, args);
    PurgeFrame(core.db, c.now);
    assert TickSafe(swept.db, c.now, GEOADD, args);
    assert Find(swept.db, args[1], c.now) == Find(core.db, args[1], c.now);
    DifferentTexts();
  }

  lemma DifferentTexts()
    ensures WRONGTYPE != NOT_A_FLOAT && WRONGTYPE != BAD_PAIR
  {
    assert WRONGTYPE[0] == 'W' && NOT_A_FLOAT[0] == 'E';
  }
}
