/** What every command keeps: the keyspace invariant, and the rule that whatever changes a key also touches it. */
module Invariants {
  import opened Base
  import opened Decimal
  import opened SortedSets
  import opened Keyspace
  import opened Blocking
  import opened Commands

  // ---------------------------------------------------------------- entries stay well-formed

  lemma {:induction false} PushRestOk(p: Pushing, key: Bytes, vals: seq<Bytes>, left: bool, live: bool, now: int)
    requires OptOk(p.entry, now) && p.entry.Some? && p.entry.value.value.Lst?
    ensures var r := PushRest(p, key, vals, left, live); OptOk(r.entry, now) && r.entry.Some? && r.entry.value.value.Lst?
    decreases |vals|
  {
    hide Wake;
    if vals != [] {
      if live && Queue(p.wait, key) != [] {
        PushRestOk(TryWake(p, key), key, vals[1..], left, live, now);
      } else {
        var e := Push(p.entry, vals[0], left);
        PushRestOk(p.(entry := e.entry, touches := p.touches + e.touches, count := e.out),
                   key, vals[1..], left, live, now);
      }
    }
  }

  lemma ActPushOk(live: bool, cur: Option<Entry>, wait: Waiting, args: seq<Bytes>, left: bool, now: int)
    requires |args| >= 3 && OptOk(cur, now)
    ensures OptOk(ActPush(live, cur, wait, args, left).change.value.entry, now)
  {
    hide Wake, PushRest;
    var e := PushIf(cur, args[2], left);
    if e.out.Some? {
      var p := Pushing(e.entry, e.touches, wait, [], e.out.value);
      var q := if live && Queue(wait, args[1]) != [] then TryWake(p, args[1]) else p;
      PushRestOk(q, args[1], args[3..], left, live, now);
    }
  }

  lemma ZaddOk(cur: Option<Entry>, score: Score, member: Bytes, now: int)
    requires OptOk(cur, now) && (cur.Some? ==> cur.value.value.Zst?)
    ensures var e := Zadd(cur, score, member).entry; OptOk(e, now) && e.Some? && e.value.value.Zst?
  {
    hide Valid, Add;
    NothingIsValid();
    AddRefines(ZsetEntry(cur).value.zset, score, member);
  }

  lemma {:induction false} ZaddRestOk(env: Env, e: Effect<int>, args: seq<Bytes>, i: nat, now: int)
    requires OptOk(e.entry, now) && (e.entry.Some? ==> e.entry.value.value.Zst?)
    ensures OptOk(ZaddRest(env, e, args, i).entry, now)
    decreases |args| - i
  {
    hide Zadd, Valid;
    if i + 1 < |args| && env.parse(args[i]).Some? {
      var score := env.parse(args[i]).value;
      ZaddOk(e.entry, score, args[i + 1], now);
      var a := Zadd(e.entry, score, args[i + 1]);
      ZaddRestOk(env, Effect(a.entry, e.touches + a.touches, e.out + a.out), args, i + 2, now);
    }
  }

  lemma ActZaddOk(env: Env, cur: Option<Entry>, wait: Waiting, args: seq<Bytes>, now: int)
    requires |args| >= 4 && OptOk(cur, now)
    ensures var a := ActZadd(env, cur, wait, args).change; a.Some? ==> OptOk(a.value.entry, now)
  {
    hide Zadd, ZaddRest, Valid;
    if env.parse(args[2]).Some? && (cur.Some? ==> cur.value.value.Zst?) {
      var score := env.parse(args[2]).value;
      ZaddOk(cur, score, args[3], now);
      var a := ZaddIf(cur, score, args[3]);
      ZaddRestOk(env, Effect(a.entry, a.touches, a.out.value), args, 4, now);
    }
  }

  lemma ActXaddOk(c: Clock, live: bool, cur: Option<Entry>, wait: Waiting, args: seq<Bytes>)
    requires |args| >= 4 && OptOk(cur, c.now) && ClockOk(c)
    ensures var a := ActXadd(c, live, cur, wait, args).change; a.Some? ==> OptOk(a.value.entry, c.now)
  {
    hide StreamOk, AppendEntry, ChooseId, ServeReaders;
    if (|args| - 3) % 2 == 0 && (cur.Some? ==> cur.value.value.Strm?) {
      EmptyStreamOk();
      XaddKeepsOrder(StreamHolder(cur).value.stream, args[2], Pairs(args[3..]), c.wall);
    }
  }

  lemma EmptyStreamOk()
    ensures StreamOk([])
  {}

  lemma ZremOk(cur: Option<Entry>, member: Bytes, now: int)
    requires OptOk(cur, now)
    ensures OptOk(Zrem(cur, member).entry, now)
  {
    hide Valid, Remove;
    if cur.Some? && cur.value.value.Zst? {
      RemoveRefines(cur.value.value.zset, member);
    }
  }

  /** Every single-key command leaves its entry well-formed. */
  lemma ActOk(env: Env, c: Clock, live: bool, fd: int, cmd: Cmd, cur: Option<Entry>, wait: Waiting, refused: bool,
              args: seq<Bytes>)
    requires IsSingle(cmd) && |args| >= MinArgs(cmd) && OptOk(cur, c.now) && ClockOk(c)
    requires cur.Some? && !cur.value.value.Zst? ==> refused
    ensures var a := ActOn(env, c, live, fd, cmd, cur, wait, refused, args).change;
      a.Some? ==> OptOk(a.value.entry, c.now)
  {
    hide ActPush, ActZadd, ActXadd, Zadd, Zrem, ValueOk, ReadReply, Block;
    match cmd
    case RPUSH => ActPushOk(live, cur, wait, args, false, c.now);
    case LPUSH => ActPushOk(live, cur, wait, args, true, c.now);
    case ZADD => ActZaddOk(env, cur, wait, args, c.now);
    case XADD => ActXaddOk(c, live, cur, wait, args);
    case ZREM => ZremOk(cur, args[2], c.now);
    case GEOADD =>
      if !refused && env.parse(args[2]).Some? && env.parse(args[3]).Some? {
        var score := env.geo(env.parse(args[3]).value, env.parse(args[2]).value);
        if score.Some? { ZaddOk(cur, score.value, args[4], c.now); }
      }
    case SET => ActSetOk(c, cur, wait, args);
    case INCR | LPOP | RPOP | BLPOP => ActOtherOk(env, c, live, fd, cmd, cur, wait, refused, args);
    case _ =>
  }

  lemma ActSetOk(c: Clock, cur: Option<Entry>, wait: Waiting, args: seq<Bytes>)
    requires |args| >= 3 && OptOk(cur, c.now)
    ensures var a := ActSet(c, cur, wait, args).change; a.Some? ==> OptOk(a.value.entry, c.now)
  {
    hide ScanOptions;
  }

  lemma ActOtherOk(env: Env, c: Clock, live: bool, fd: int, cmd: Cmd, cur: Option<Entry>, wait: Waiting,
                   refused: bool, args: seq<Bytes>)
    requires cmd.INCR? || cmd.LPOP? || cmd.RPOP? || cmd.BLPOP?
    requires |args| >= MinArgs(cmd) && OptOk(cur, c.now)
    ensures var a := ActOn(env, c, live, fd, cmd, cur, wait, refused, args).change;
      a.Some? ==> OptOk(a.value.entry, c.now)
  {
    hide Block, ParseInt64, ToText, Reversed, StreamOk, Valid;
  }

  lemma FindOk(db: Db, key: Bytes, now: int)
    requires DbOk(db, now)
    ensures OptOk(Find(db, key, now), now)
    ensures var cur := Find(db, key, now); cur.Some? && !cur.value.value.Zst? ==> GeoRefused(db, key, now)
  {}

  lemma PutOk(db: Db, key: Bytes, e: Option<Entry>, n: nat, now: int)
    requires DbOk(db, now) && OptOk(e, now)
    ensures DbOk(Put(db, key, e, n), now)
  {
    hide EntryOk;
  }

  lemma {:induction false} SetPairsOk(db: Db, args: seq<Bytes>, i: nat, now: int)
    requires i <= |args| && (|args| - i) % 2 == 0 && DbOk(db, now)
    ensures DbOk(SetPairs(db, args, i), now)
    decreases |args| - i
  {
    hide DbOk;
    if i < |args| {
      PutOk(db, args[i], SetAny(args[i + 1], None).entry, 1, now);
      SetPairsOk(Apply(db, args[i], SetAny(args[i + 1], None)), args, i + 2, now);
    }
  }

  lemma {:induction false} VisitOk(db: Db, keys: seq<Bytes>, now: int)
    requires DbOk(db, now)
    ensures DbOk(Visit(db, keys, now), now)
    decreases |keys|
  {
    hide DbOk;
    if keys != [] {
      FindOk(db, keys[0], now);
      PutOk(db, keys[0], Find(db, keys[0], now), 0, now);
      VisitOk(Apply(db, keys[0], Seen(Find(db, keys[0], now))), keys[1..], now);
    }
  }

  /** Every command keeps the keyspace invariant: only strings expire, streams strictly increase with exact
      texts, sorted sets keep their two containers in step. */
  lemma ExecOk(env: Env, c: Clock, live: bool, core: Core, fd: int, cmd: Cmd, args: seq<Bytes>)
    requires |args| >= MinArgs(cmd) && DbOk(core.db, c.now) && ClockOk(c)
    ensures DbOk(Exec(env, c, live, core, fd, cmd, args).core.db, c.now)
  {
    hide DbOk, ActOn, GeoRefused;
    if cmd.MSET? {
      ExecMsetOk(c, core, args);
    } else if cmd.KEYS? {
      PurgeOk(core.db, c.now);
    } else if cmd.XREAD? {
      ExecXreadOk(c, live, core, fd, args);
    } else {
      var cur, refused := Find(core.db, args[1], c.now), GeoRefused(core.db, args[1], c.now);
      FindOk(core.db, args[1], c.now);
      ActOk(env, c, live, fd, cmd, cur, core.wait, refused, args);
      var a := ActOn(env, c, live, fd, cmd, cur, core.wait, refused, args).change;
      if a.Some? { PutOk(core.db, args[1], a.value.entry, a.value.touches, c.now); }
    }
  }

  lemma PurgeOk(db: Db, now: int)
    requires DbOk(db, now)
    ensures DbOk(Purge(db, now), now)
  {
    hide EntryOk;
  }

  lemma ExecMsetOk(c: Clock, core: Core, args: seq<Bytes>)
    requires |args| >= 3 && DbOk(core.db, c.now)
    ensures DbOk(ExecMset(c, core, args).core.db, c.now)
  {
    hide DbOk, SetPairs, AllTakeStrings;
    if (|args| - 1) % 2 == 0 { SetPairsOk(core.db, args, 1, c.now); }
  }

  lemma ExecXreadOk(c: Clock, live: bool, core: Core, fd: int, args: seq<Bytes>)
    requires |args| >= 4 && DbOk(core.db, c.now)
    ensures DbOk(ExecXread(c, live, core, fd, args).core.db, c.now)
  {
    hide DbOk, Visit, ReadAll, ParseRead, Block;
    if ParseRead(args).ReadOk? { VisitOk(core.db, ParseRead(args).keys, c.now); }
  }

  // ---------------------------------------------------------------- whatever changes is touched

  /** The table of `touch_key` for commands that name one key: does this one touch it, given the live value there? */
  predicate TouchesKey(env: Env, cmd: Cmd, args: seq<Bytes>, v: Option<Value>, refused: bool)
    requires |args| >= MinArgs(cmd)
  {
    match cmd
    case SET => ScanOptions(args, 3, None).TtlIs? && (v.None? || v.value.Str?)
    case INCR => v.None? || v.value.Str?
    case RPUSH | LPUSH => v.None? || v.value.Lst?
    case LPOP | RPOP => |args| == 2 || (ParseInt64(args[2]).Some? && ParseInt64(args[2]).value > 0)
    case BLPOP => env.parse(args[2]).Some? && env.parse(args[2]).value >= 0
    case XADD => |args| % 2 == 1 && (v.None? || v.value.Strm?)
    case ZADD => env.parse(args[2]).Some? && (v.None? || v.value.Zst?)
    case ZREM => true
    case GEOADD =>
      !refused && env.parse(args[2]).Some? && env.parse(args[3]).Some? &&
      env.geo(env.parse(args[3]).value, env.parse(args[2]).value).Some?
    case _ => false
  }

  /** The keys a command gives new versions, from its arguments and the live entries alone. */
  function Touched(env: Env, c: Clock, db: Db, cmd: Cmd, args: seq<Bytes>): (r: set<Bytes>)
    requires |args| >= MinArgs(cmd)
  {
    if cmd.MSET? then
      if |args| % 2 == 1 && (forall i :: 1 <= i < |args| && i % 2 == 1 ==> AbsentOrHolds(db, args[i], StrKind, c.now))
      then KeysOfPairs(args, 1)
      else {}
    else if IsSingle(cmd) && TouchesKey(env, cmd, args, Seen(Find(db, args[1], c.now)).out,
                                        GeoRefused(db, args[1], c.now))
    then {args[1]}
    else {}
  }

  function KeysOfPairs(args: seq<Bytes>, i: nat): (r: set<Bytes>) {
    set j | i <= j < |args| && EveryOther(i, j) :: args[j]
  }

  predicate EveryOther(i: nat, j: nat) {
    i <= j && (j - i) % 2 == 0
  }

  lemma NextKey(args: seq<Bytes>, i: nat)
    ensures i >= |args| ==> KeysOfPairs(args, i) == {}
    ensures i < |args| ==> KeysOfPairs(args, i) == {args[i]} + KeysOfPairs(args, i + 2)
  {
    if i < |args| {
      assert EveryOther(i, i);
      assert forall j :: EveryOther(i, j) <==> j == i || EveryOther(i + 2, j);
    }
  }

  lemma {:induction false} AllTake(db: Db, now: int, args: seq<Bytes>, i: nat)
    ensures AllTakeStrings(db, now, args, i) <==>
      forall j :: i <= j < |args| && EveryOther(i, j) ==> AbsentOrHolds(db, args[j], StrKind, now)
    decreases |args| - i
  {
    hide AbsentOrHolds;
    if i < |args| {
      AllTake(db, now, args, i + 2);
      assert EveryOther(i, i);
      assert forall j :: EveryOther(i, j) <==> j == i || EveryOther(i + 2, j);
    }
  }

  /** From `a` to `b` the keys in `t` got new versions; every other key kept its version and its live entry. */
  ghost predicate Frame(a: Db, b: Db, t: set<Bytes>, now: int) {
    a.counter <= b.counter && (VersionsOk(a) ==> VersionsOk(b)) &&
    (forall k :: k in t ==> Version(b, k) > a.counter) &&
    (forall k :: k !in t ==> Version(b, k) == Version(a, k) && Find(b, k, now) == Find(a, k, now))
  }

  lemma FrameTrans(a: Db, b: Db, c: Db, s: set<Bytes>, t: set<Bytes>, now: int)
    requires Frame(a, b, s, now) && Frame(b, c, t, now)
    ensures Frame(a, c, s + t, now)
  {
    hide Version, Find;
  }

  lemma PutFrame(db: Db, key: Bytes, e: Option<Entry>, n: nat, now: int)
    requires n == 0 ==> e == Find(db, key, now)
    ensures Frame(db, Put(db, key, e, n), if n > 0 then {key} else {}, now)
  {}

  /** A single-key command touches its key exactly as the table says, and otherwise leaves the entry as it is. */
  lemma ActTouches(env: Env, c: Clock, live: bool, fd: int, cmd: Cmd, cur: Option<Entry>, wait: Waiting, refused: bool,
                   args: seq<Bytes>)
    requires IsSingle(cmd) && |args| >= MinArgs(cmd)
    ensures var a := ActOn(env, c, live, fd, cmd, cur, wait, refused, args).change;
      (TouchesKey(env, cmd, args, Seen(cur).out, refused) <==> a.Some? && a.value.touches > 0) &&
      (a.Some? && a.value.touches == 0 ==> a.value.entry == cur)
  {
    hide Block, ServeReaders, ReadReply, ParseInt64, ScanOptions, AppendEntry, ChooseId, Add, Remove, Reversed, ToText;
    if cmd.RPUSH? {
      PushTouches(live, cur, wait, args, false);
    } else if cmd.LPUSH? {
      PushTouches(live, cur, wait, args, true);
    } else if cmd.ZADD? {
      ZaddTouches(env, cur, wait, args);
    }
  }

  lemma {:induction false} PushRestTouches(p: Pushing, key: Bytes, vals: seq<Bytes>, left: bool, live: bool)
    ensures PushRest(p, key, vals, left, live).touches >= p.touches
    decreases |vals|
  {
    hide Wake, Pop;
    if vals != [] {
      if live && Queue(p.wait, key) != [] {
        PushRestTouches(TryWake(p, key), key, vals[1..], left, live);
      } else {
        var e := Push(p.entry, vals[0], left);
        PushRestTouches(p.(entry := e.entry, touches := p.touches + e.touches, count := e.out),
                        key, vals[1..], left, live);
      }
    }
  }

  lemma PushTouches(live: bool, cur: Option<Entry>, wait: Waiting, args: seq<Bytes>, left: bool)
    requires |args| >= 3
    ensures var a := ActPush(live, cur, wait, args, left).change;
      a.Some? && (a.value.touches > 0 <==> cur.None? || cur.value.value.Lst?) &&
      (a.value.touches == 0 ==> a.value.entry == cur)
  {
    hide Wake, Pop, PushRest;
    var e := PushIf(cur, args[2], left);
    if e.out.Some? {
      var p := Pushing(e.entry, e.touches, wait, [], e.out.value);
      var q := if live && Queue(wait, args[1]) != [] then TryWake(p, args[1]) else p;
      PushRestTouches(q, args[1], args[3..], left, live);
    }
  }

  lemma {:induction false} ZaddRestTouches(env: Env, e: Effect<int>, args: seq<Bytes>, i: nat)
    ensures ZaddRest(env, e, args, i).touches >= e.touches
    decreases |args| - i
  {
    hide Add;
    if i + 1 < |args| && env.parse(args[i]).Some? {
      var a := Zadd(e.entry, env.parse(args[i]).value, args[i + 1]);
      ZaddRestTouches(env, Effect(a.entry, e.touches + a.touches, e.out + a.out), args, i + 2);
    }
  }

  lemma ZaddTouches(env: Env, cur: Option<Entry>, wait: Waiting, args: seq<Bytes>)
    requires |args| >= 4
    ensures var a := ActZadd(env, cur, wait, args).change;
      (env.parse(args[2]).Some? && (cur.None? || cur.value.value.Zst?) <==> a.Some? && a.value.touches > 0) &&
      (a.Some? && a.value.touches == 0 ==> a.value.entry == cur)
  {
    hide Add, ZaddRest;
    if env.parse(args[2]).Some? {
      var a := ZaddIf(cur, env.parse(args[2]).value, args[3]);
      if a.out.Some? { ZaddRestTouches(env, Effect(a.entry, a.touches, a.out.value), args, 4); }
    }
  }

  lemma {:induction false} SetPairsFrame(db: Db, args: seq<Bytes>, i: nat, now: int)
    requires i <= |args| && (|args| - i) % 2 == 0
    ensures Frame(db, SetPairs(db, args, i), KeysOfPairs(args, i), now)
    decreases |args| - i
  {
    hide Frame, KeysOfPairs;
    NextKey(args, i);
    if i < |args| {
      var next := Apply(db, args[i], SetAny(args[i + 1], None));
      PutFrame(db, args[i], SetAny(args[i + 1], None).entry, 1, now);
      SetPairsFrame(next, args, i + 2, now);
      FrameTrans(db, next, SetPairs(next, args, i + 2), {args[i]}, KeysOfPairs(args, i + 2), now);
    } else {
      FrameRefl(db, now);
    }
  }

  lemma FrameRefl(db: Db, now: int)
    ensures Frame(db, db, {}, now)
  {}

  lemma {:induction false} VisitFrame(db: Db, keys: seq<Bytes>, now: int)
    ensures var r := Visit(db, keys, now);
      Frame(db, r, {}, now) && r.counter == db.counter && r.versions == db.versions
    decreases |keys|
  {
    hide Frame, Find;
    if keys != [] {
      var next := Apply(db, keys[0], Seen(Find(db, keys[0], now)));
      PutFrame(db, keys[0], Find(db, keys[0], now), 0, now);
      VisitFrame(next, keys[1..], now);
      var none: set<Bytes> := {};
      FrameTrans(db, next, Visit(next, keys[1..], now), {}, {}, now);
      assert none + none == none;
    } else {
      FrameRefl(db, now);
    }
  }

  lemma PurgeFrame(db: Db, now: int)
    ensures var r := Purge(db, now); Frame(db, r, {}, now) && r.counter == db.counter && r.versions == db.versions
  {}

  /** Every command gives new versions to exactly the keys of the table and leaves every other key's version and live
      entry alone; if it touches none, it leaves the counter and all versions alone. */
  lemma ExecFrame(env: Env, c: Clock, live: bool, core: Core, fd: int, cmd: Cmd, args: seq<Bytes>)
    requires |args| >= MinArgs(cmd)
    ensures var r, t := Exec(env, c, live, core, fd, cmd, args).core.db, Touched(env, c, core.db, cmd, args);
      Frame(core.db, r, t, c.now) && (t == {} ==> r.counter == core.db.counter && r.versions == core.db.versions)
  {
    hide Frame, ActOn, GeoRefused, Find, KeysOfPairs, Visit, ReadAll, Block, Purge, ExecMset, TouchesKey;
    FrameRefl(core.db, c.now);
    if cmd.MSET? {
      MsetFrame(c, core, args);
    } else if cmd.KEYS? {
      PurgeFrame(core.db, c.now);
    } else if cmd.XREAD? {
      if ParseRead(args).ReadOk? { VisitFrame(core.db, ParseRead(args).keys, c.now); }
    } else {
      var cur, refused := Find(core.db, args[1], c.now), GeoRefused(core.db, args[1], c.now);
      ActTouches(env, c, live, fd, cmd, cur, core.wait, refused, args);
      var a := ActOn(env, c, live, fd, cmd, cur, core.wait, refused, args).change;
      if a.Some? { PutFrame(core.db, args[1], a.value.entry, a.value.touches, c.now); }
    }
  }

  lemma MsetFrame(c: Clock, core: Core, args: seq<Bytes>)
    requires |args| >= 3
    ensures var r := ExecMset(c, core, args).core.db;
      var ok := |args| % 2 == 1 &&
        (forall i :: 1 <= i < |args| && i % 2 == 1 ==> AbsentOrHolds(core.db, args[i], StrKind, c.now));
      Frame(core.db, r, if ok then KeysOfPairs(args, 1) else {}, c.now) && (ok ==> args[1] in KeysOfPairs(args, 1)) &&
      (!ok ==> r == core.db)
  {
    hide Frame, SetPairs, AllTakeStrings, KeysOfPairs, AbsentOrHolds;
    FrameRefl(core.db, c.now);
    AllTake(core.db, c.now, args, 1);
    assert forall i: nat :: 1 <= i < |args| ==> (EveryOther(1, i) <==> i % 2 == 1);
    NextKey(args, 1);
    if (|args| - 1) % 2 == 0 { SetPairsFrame(core.db, args, 1, c.now); }
  }

  /** A command that is answered with WRONGTYPE touches nothing. */
  lemma WrongTypeTouchesNothing(env: Env, c: Clock, live: bool, core: Core, fd: int, cmd: Cmd, args: seq<Bytes>)
    requires |args| >= MinArgs(cmd)
    requires Exec(env, c, live, core, fd, cmd, args).reply == Some(Error(WRONGTYPE))
    ensures Touched(env, c, core.db, cmd, args) == {}
    ensures var r := Exec(env, c, live, core, fd, cmd, args).core.db;
      r.counter == core.db.counter && r.versions == core.db.versions
  {
    hide Exec, Touched, Frame;
    ExecFrame(env, c, live, core, fd, cmd, args);
    if Touched(env, c, core.db, cmd, args) != {} {
      TouchedIsNoWrongType(env, c, live, core, fd, cmd, args);
    }
  }

  lemma TouchedIsNoWrongType(env: Env, c: Clock, live: bool, core: Core, fd: int, cmd: Cmd, args: seq<Bytes>)
    requires |args| >= MinArgs(cmd) && Touched(env, c, core.db, cmd, args) != {}
    ensures Exec(env, c, live, core, fd, cmd, args).reply != Some(Error(WRONGTYPE))
  {
    hide ActOn, GeoRefused, Find, KeysOfPairs, AbsentOrHolds, TouchesKey, SetPairs, AllTakeStrings;
    if cmd.MSET? {
      AllTake(core.db, c.now, args, 1);
      assert forall i: nat :: 1 <= i < |args| ==> (EveryOther(1, i) <==> i % 2 == 1);
    } else {
      ActIsNoWrongType(env, c, live, fd, cmd, Find(core.db, args[1], c.now), core.wait,
                       GeoRefused(core.db, args[1], c.now), args);
    }
  }

  lemma ActIsNoWrongType(env: Env, c: Clock, live: bool, fd: int, cmd: Cmd, cur: Option<Entry>, wait: Waiting,
                         refused: bool, args: seq<Bytes>)
    requires IsSingle(cmd) && |args| >= MinArgs(cmd) && TouchesKey(env, cmd, args, Seen(cur).out, refused)
    ensures ActOn(env, c, live, fd, cmd, cur, wait, refused, args).reply != Some(Error(WRONGTYPE))
  {
    hide Block, ServeReaders, ReadReply, ParseInt64, ScanOptions, ChooseId, Add, Remove, Reversed, ToText, PushRest, ZaddRest,
         Wake;
    OtherTexts();
    if cmd.ZADD? {
      var a := ZaddIf(cur, env.parse(args[2]).value, args[3]);
      ZaddRestText(env, Effect(a.entry, a.touches, a.out.value), args, 4);
    }
  }

  lemma OtherTexts()
    ensures WRONGTYPE !in {NOT_AN_INTEGER, NOT_A_FLOAT, NO_BLOCKING, BAD_ID, ZERO_ID, SMALL_ID}
  {
    assert WRONGTYPE[0] == 'W' && NOT_AN_INTEGER[0] == 'E' && NOT_A_FLOAT[0] == 'E' && NO_BLOCKING[0] == 'E';
    assert BAD_ID[0] == 'E' && ZERO_ID[0] == 'E' && SMALL_ID[0] == 'E';
  }

  lemma {:induction false} ZaddRestText(env: Env, e: Effect<int>, args: seq<Bytes>, i: nat)
    ensures ZaddRest(env, e, args, i).out != Error(WRONGTYPE)
    decreases |args| - i
  {
    hide Zadd;
    OtherTexts();
    if i + 1 < |args| && env.parse(args[i]).Some? {
      var a := Zadd(e.entry, env.parse(args[i]).value, args[i + 1]);
      ZaddRestText(env, Effect(a.entry, e.touches + a.touches, e.out + a.out), args, i + 2);
    }
  }

  /** An entry that reads the same now reads the same at every later time. */
  lemma SameLater(a: Db, b: Db, key: Bytes, now: int, later: int)
    requires Find(a, key, now) == Find(b, key, now) && now <= later
    ensures Find(a, key, later) == Find(b, key, later)
  {}
}
