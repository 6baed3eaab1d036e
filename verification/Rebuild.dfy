/** Snapshot meaning: replaying the rewrite child's commands rebuilds the live keyspace without its empty
    collections, for every order in which the child visits the keys. */
module Rebuild {
  import opened Base
  import opened Decimal
  import opened StreamIds
  import opened SortedSets
  import opened Keyspace
  import opened Blocking
  import opened Commands
  import opened Sessions
  import opened CommandLoop
  import opened Snapshot

  /** Printing a score with 17 significant digits and parsing it gives it back. */
  ghost predicate RoundTrips(env: Env) {
    forall s :: env.parse(env.format(s)) == Some(s)
  }

  /** A server that only replays: nobody is in a transaction and nobody waits. */
  predicate Bare(s: Server) {
    s.txs == map[] && s.core.wait == NO_WAITERS
  }

  // ---------------------------------------------------------------- names

  lemma SetName()
    ensures ToUpper("SET") == "SET" && VerbOf("SET") == Data && Lookup("SET") == Some(SET)
  {
    assert ToUpper("SET") == "SET";
  }

  lemma RpushName()
    ensures ToUpper("RPUSH") == "RPUSH" && VerbOf("RPUSH") == Data && Lookup("RPUSH") == Some(RPUSH)
  {
    assert ToUpper("RPUSH") == "RPUSH";
  }

  lemma XaddName()
    ensures ToUpper("XADD") == "XADD" && VerbOf("XADD") == Data && Lookup("XADD") == Some(XADD)
  {
    assert ToUpper("XADD") == "XADD";
  }

  lemma ZaddName()
    ensures ToUpper("ZADD") == "ZADD" && VerbOf("ZADD") == Data && Lookup("ZADD") == Some(ZADD)
  {
    assert ToUpper("ZADD") == "ZADD";
  }

  /** Outside transactions a data command is its handler. */
  lemma StepIsExec(env: Env, c: Clock, live: bool, s: Server, fd: int, cmd: Cmd, args: seq<Bytes>)
    requires s.txs == map[] && args != [] && |args| >= MinArgs(cmd)
    requires VerbOf(ToUpper(args[0])) == Data && Lookup(ToUpper(args[0])) == Some(cmd)
    ensures var o := Exec(env, c, live, s.core, fd, cmd, args);
      Step(env, c, live, s, fd, args) == StepOut(s.(core := o.core), o.reply, o.sends)
  {
    hide VerbOf, Lookup, Exec;
  }

  // ---------------------------------------------------------------- strings

  lemma ScanPx(args: seq<Bytes>, n: nat)
    requires |args| == 5 && args[3] == "PX" && args[4] == ToText(n) && n < UINT64_SIZE
    ensures ScanOptions(args, 3, None) == TtlIs(Some(n))
  {
    hide ToText, ParseUInt64;
    assert ToUpper("PX") == "PX";
    ParseToTextUnsigned(n);
  }

  lemma SetReplay(env: Env, c: Clock, s: Server, key: Bytes, e: Entry, now: int)
    requires Bare(s) && key !in s.core.db.data && e.value.Str? && EntryOk(e, now) && !Expired(e, now)
    requires e.expiry.None? || c.now == now
    ensures var cmds := EntryCmds(env, key, e, now);
      |cmds| == 1 && var r := Step(env, c, false, s, -1, cmds[0]).server;
      Bare(r) && r.core.db.data == s.core.db.data[key := e]
  {
    hide ScanOptions, Step, VerbOf, Lookup, ToText;
    var args := EntryCmds(env, key, e, now)[0];
    SetName();
    StepIsExec(env, c, false, s, -1, SET, args);
    if e.expiry.Some? {
      ScanPx(args, e.expiry.value - now);
    } else {
      NoOptions(args);
    }
  }

  lemma NoOptions(args: seq<Bytes>)
    requires |args| == 3
    ensures ScanOptions(args, 3, None) == TtlIs(None)
  {}

  // ---------------------------------------------------------------- lists

  lemma {:induction false} PushRestAppends(p: Pushing, key: Bytes, vals: seq<Bytes>)
    requires p.entry.Some? && p.entry.value.value.Lst?
    ensures var r := PushRest(p, key, vals, false, false);
      r.entry == Some(p.entry.value.(value := Lst(p.entry.value.value.items + vals))) &&
      r.wait == p.wait && r.sends == p.sends
    decreases |vals|
  {
    var items := p.entry.value.value.items;
    if vals == [] {
      assert items + [] == items;
    } else {
      var e := Push(p.entry, vals[0], false);
      PushRestAppends(p.(entry := e.entry, touches := p.touches + e.touches, count := e.out), key, vals[1..]);
      assert items + [vals[0]] + vals[1..] == items + vals;
    }
  }

  lemma PushReplay(env: Env, c: Clock, s: Server, key: Bytes, e: Entry)
    requires Bare(s) && key !in s.core.db.data && e.value.Lst? && e.value.items != [] && e.expiry.None?
    ensures var r := Step(env, c, false, s, -1, ["RPUSH", key] + e.value.items).server;
      Bare(r) && r.core.db.data == s.core.db.data[key := e]
  {
    hide Step, VerbOf, Lookup, PushRest;
    var items := e.value.items;
    var args := ["RPUSH", key] + items;
    RpushName();
    StepIsExec(env, c, false, s, -1, RPUSH, args);
    var f := PushIf(None, items[0], false);
    assert args[2] == items[0] && args[3..] == items[1..];
    PushRestAppends(Pushing(f.entry, f.touches, s.core.wait, [], f.out.value), key, items[1..]);
    assert [] + [items[0]] + items[1..] == items;
  }

  // ---------------------------------------------------------------- streams

  lemma {:induction false} PairsOfFlat(fields: seq<(Bytes, Bytes)>)
    ensures Pairs(FlattenFields(fields)) == fields
    decreases |fields|
  {
    if fields != [] {
      PairsOfFlat(fields[1..]);
      assert FlattenFields(fields)[2..] == FlattenFields(fields[1..]);
    }
  }

  /** Text that parses is neither of the two generated forms. */
  lemma ExplicitId(stream: seq<StreamEntry>, e: StreamEntry, wall: int)
    requires ParseId(e.id) == Some(e.parsed)
    ensures ChooseId(stream, e.id, wall) == Some(Choice(e.id, e.parsed))
  {
    hide ParseInt64, IdText, IndexOf, Wrap64;
    assert |e.id| >= 3 && IsDigit(e.id[|e.id| - 1]);
  }

  lemma XaddReplay(env: Env, c: Clock, s: Server, key: Bytes, stream: seq<StreamEntry>, i: nat)
    requires Bare(s) && StreamOk(stream) && i < |stream|
    requires if i == 0 then key !in s.core.db.data
             else key in s.core.db.data && s.core.db.data[key] == Entry(Strm(stream[..i]), None)
    ensures var r := Step(env, c, false, s, -1, XaddCmd(key, stream[i])).server;
      Bare(r) && r.core.db.data == s.core.db.data[key := Entry(Strm(stream[..i + 1]), None)]
  {
    hide Step, VerbOf, Lookup, ChooseId, ParseId, Less;
    var e := stream[i];
    var args := XaddCmd(key, e);
    assert StreamEntryOk(e);
    XaddName();
    StepIsExec(env, c, false, s, -1, XADD, args);
    assert args[3..] == FlattenFields(e.fields);
    PairsOfFlat(e.fields);
    ExplicitId(stream[..i], e, c.wall);
    assert stream[..i + 1] == stream[..i] + [e];
    assert e == StreamEntry(e.id, e.parsed, e.fields);
  }

  lemma {:induction false} StreamReplay(env: Env, at: nat -> Clock, i: nat, s: Server, key: Bytes,
                                        stream: seq<StreamEntry>, n: nat)
    requires Bare(s) && StreamOk(stream) && n <= |stream|
    requires if n == 0 then key !in s.core.db.data
             else key in s.core.db.data && s.core.db.data[key] == Entry(Strm(stream[..n]), None)
    ensures var r := Replay(env, at, i, s, XaddCmds(key, stream)[n..]);
      Bare(r) && r.core.db.data == if stream == [] then s.core.db.data
                                   else s.core.db.data[key := Entry(Strm(stream), None)]
    decreases |stream| - n
  {
    hide Step, StreamOk, XaddCmd, Bare;
    var cmds := XaddCmds(key, stream);
    if n == |stream| {
      assert stream[..n] == stream;
      assert stream != [] ==> s.core.db.data[key := Entry(Strm(stream), None)] == s.core.db.data;
    } else {
      XaddReplay(env, at(i), s, key, stream, n);
      var next := Step(env, at(i), false, s, -1, XaddCmd(key, stream[n])).server;
      StreamReplay(env, at, i + 1, next, key, stream, n + 1);
      assert cmds[n..][0] == XaddCmd(key, stream[n]) && cmds[n..][1..] == cmds[n + 1..];
    }
  }

  // ---------------------------------------------------------------- sorted sets

  function FromNodes(es: seq<Node>): (z: ZSet) {
    if es == [] then SortedSets.EMPTY
    else
      var last := es[|es| - 1];
      Add(FromNodes(es[..|es| - 1]), last.0, last.1)
  }

  function Position(z: ZSet, m: Bytes): (n: nat)
    requires m in z.index
  {
    Below(z.entries, z.index[m])
  }

  /** The first `n` nodes of a sorted set, with their part of the index. */
  function FirstNodes(z: ZSet, n: nat): (r: ZSet)
    requires n <= |z.entries|
  {
    ZSet(z.entries[..n], map m | m in z.index && Position(z, m) < n :: z.index[m])
  }

  lemma NodeOf(z: ZSet, m: Bytes)
    requires Valid(z) && m in z.index
    ensures Position(z, m) < |z.entries| && z.entries[Position(z, m)] == z.index[m] && z.index[m].1 == m
  {
    hide NodeLess;
    RankCounts(z, m);
  }

  lemma NextNode(z: ZSet, n: nat)
    requires Valid(z) && n < |z.entries|
    ensures Add(FirstNodes(z, n), z.entries[n].0, z.entries[n].1) == FirstNodes(z, n + 1)
  {
    hide NodeLess, Below;
    var x := z.entries[n];
    NodeAt(z, n);
    assert x.1 !in FirstNodes(z, n).index;
    assert z.entries[..n + 1] == z.entries[..n] + [x];
    AllBelow(z, n);
    InsertLast(z.entries[..n], x);
    SameIndexAfter(z, n);
  }

  lemma AllBelow(z: ZSet, n: nat)
    requires Valid(z) && n < |z.entries|
    ensures forall i :: 0 <= i < |z.entries[..n]| ==> NodeLess(z.entries[..n][i], z.entries[n])
  {
    hide NodeLess;
  }

  lemma SameIndexAfter(z: ZSet, n: nat)
    requires Valid(z) && n < |z.entries|
    ensures FirstNodes(z, n).index[z.entries[n].1 := z.entries[n]] == FirstNodes(z, n + 1).index
  {
    hide NodeLess, Below, Valid;
    var x := z.entries[n];
    NodeAt(z, n);
    forall m | m in z.index
      ensures Position(z, m) == n <==> m == x.1
    {
      NodeOf(z, m);
    }
  }

  /** Adding the nodes of a sorted set in order rebuilds it. */
  lemma {:induction false} FromNodesPrefix(z: ZSet, n: nat)
    requires Valid(z) && n <= |z.entries|
    ensures FromNodes(z.entries[..n]) == FirstNodes(z, n)
  {
    hide Valid, Add;
    if n > 0 {
      FromNodesPrefix(z, n - 1);
      NextNode(z, n - 1);
      assert z.entries[..n][..n - 1] == z.entries[..n - 1];
    }
  }

  lemma FromNodesIs(z: ZSet)
    requires Valid(z)
    ensures FromNodes(z.entries) == z
  {
    hide Valid, Below;
    FromNodesPrefix(z, |z.entries|);
    assert z.entries[..|z.entries|] == z.entries;
    forall m | m in z.index
      ensures Position(z, m) < |z.entries|
    {
      NodeOf(z, m);
    }
    assert FirstNodes(z, |z.entries|).index == z.index;
  }

  lemma {:induction false} FlatAt(env: Env, es: seq<Node>, i: nat)
    requires i < |es|
    ensures FlattenNodes(env, es)[2 * i] == env.format(es[i].0) && FlattenNodes(env, es)[2 * i + 1] == es[i].1
    decreases |es|
  {
    if i > 0 {
      FlatAt(env, es[1..], i - 1);
    }
  }

  lemma {:induction false} ZaddRestRebuilds(env: Env, key: Bytes, es: seq<Node>, n: nat, touches: nat, added: int)
    requires RoundTrips(env) && 1 <= n <= |es|
    ensures ZaddRest(env, Effect(Some(Entry(Zst(FromNodes(es[..n])), None)), touches, added),
                     ["ZADD", key] + FlattenNodes(env, es), 2 + 2 * n).entry
         == Some(Entry(Zst(FromNodes(es)), None))
    decreases |es| - n
  {
    hide Add;
    var args := ["ZADD", key] + FlattenNodes(env, es);
    if n == |es| {
      assert es[..n] == es;
    } else {
      var z := FromNodes(es[..n]);
      FlatAt(env, es, n);
      assert args[2 + 2 * n] == env.format(es[n].0) && args[2 + 2 * n + 1] == es[n].1;
      assert es[..n + 1][..n] == es[..n] && es[..n + 1][n] == es[n];
      ZaddRestRebuilds(env, key, es, n + 1, touches + 1, added + if es[n].1 in z.index then 0 else 1);
    }
  }

  lemma FirstOf(es: seq<Node>)
    requires es != []
    ensures FromNodes(es[..1]) == Add(SortedSets.EMPTY, es[0].0, es[0].1)
  {
    assert es[..1][..0] == [];
  }

  lemma ZaddReplay(env: Env, c: Clock, s: Server, key: Bytes, e: Entry)
    requires Bare(s) && key !in s.core.db.data && RoundTrips(env)
    requires e.value.Zst? && Valid(e.value.zset) && e.value.zset.entries != [] && e.expiry.None?
    ensures var r := Step(env, c, false, s, -1, ["ZADD", key] + FlattenNodes(env, e.value.zset.entries)).server;
      Bare(r) && r.core.db.data == s.core.db.data[key := e]
  {
    hide Step, VerbOf, Lookup, ZaddRest, Valid, FlattenNodes, Add, FromNodes;
    var es := e.value.zset.entries;
    var args := ["ZADD", key] + FlattenNodes(env, es);
    ZaddName();
    StepIsExec(env, c, false, s, -1, ZADD, args);
    FlatAt(env, es, 0);
    assert args[2] == env.format(es[0].0) && args[3] == es[0].1;
    FirstOf(es);
    ZaddRestRebuilds(env, key, es, 1, 1, 1);
    FromNodesIs(e.value.zset);
  }

  // ---------------------------------------------------------------- one entry, then all

  lemma EntryReplay(env: Env, at: nat -> Clock, i: nat, s: Server, key: Bytes, e: Entry, now: int)
    requires Bare(s) && key !in s.core.db.data && RoundTrips(env) && EntryOk(e, now) && !Expired(e, now)
    requires e.expiry.None? || at(i).now == now
    ensures var r := Replay(env, at, i, s, EntryCmds(env, key, e, now));
      Bare(r) && r.core.db.data == if EmptyCollection(e.value) then s.core.db.data else s.core.db.data[key := e]
  {
    hide Step, Valid, StreamOk, FlattenNodes, Bare;
    var cmds := EntryCmds(env, key, e, now);
    if |cmds| == 1 {
      assert cmds[1..] == [];
    }
    match e.value
    case Str(_) => SetReplay(env, at(i), s, key, e, now);
    case Lst(items) => if items != [] { PushReplay(env, at(i), s, key, e); }
    case Strm(stream) =>
      StreamReplay(env, at, i, s, key, stream, 0);
      assert cmds[0..] == cmds;
    case Zst(z) => if z.entries != [] { ZaddReplay(env, at(i), s, key, e); }
  }

  /** What survives: live entries that are not empty collections. */
  function Kept(db: Db, now: int): (r: map<Bytes, Entry>) {
    map k | k in db.data && !Expired(db.data[k], now) && !EmptyCollection(db.data[k].value) :: db.data[k]
  }

  function KeptOf(db: Db, now: int, order: seq<Bytes>): (r: map<Bytes, Entry>) {
    map k | k in order && k in Kept(db, now) :: Kept(db, now)[k]
  }

  predicate Distinct(order: seq<Bytes>) {
    forall i, j :: 0 <= i < j < |order| ==> order[i] != order[j]
  }

  /** The keyspace holds no expiry, or the whole replay runs at the clock reading of the snapshot. */
  ghost predicate SameReading(db: Db, at: nat -> Clock, now: int) {
    (forall k :: k in db.data ==> db.data[k].expiry.None?) || forall i: nat :: at(i).now == now
  }

  lemma {:induction false} OrderReplay(env: Env, at: nat -> Clock, i: nat, s: Server, db: Db, now: int,
                                       order: seq<Bytes>)
    requires Bare(s) && RoundTrips(env) && DbOk(db, now) && SameReading(db, at, now) && Distinct(order)
    requires forall k :: k in order ==> k !in s.core.db.data
    ensures var r := Replay(env, at, i, s, SnapshotCmds(env, db, now, order));
      Bare(r) && r.core.db.data == s.core.db.data + KeptOf(db, now, order)
    decreases |order|
  {
    hide Bare, RoundTrips, EntryOk, EntryCmds, Replay, EmptyCollection, KeptOf, Kept;
    if order == [] {
      ReplayNone(env, at, i, s);
      KeptOfNone(db, now, s.core.db.data);
    } else {
      var k, rest := order[0], order[1..];
      var e := Find(db, k, now);
      var cmds := if e.Some? then EntryCmds(env, k, e.value, now) else [];
      ReplaySplit(env, at, i, s, cmds, SnapshotCmds(env, db, now, rest));
      var mid := Replay(env, at, i, s, cmds);
      if e.Some? {
        EntryReplay(env, at, i, s, k, e.value, now);
      } else {
        ReplayNone(env, at, i, s);
      }
      OrderReplay(env, at, i + |cmds|, mid, db, now, rest);
      KeptOfNext(db, now, order, s.core.db.data);
    }
  }

  lemma KeptOfNone(db: Db, now: int, data: map<Bytes, Entry>)
    ensures data + KeptOf(db, now, []) == data
  {}

  lemma KeptOfNext(db: Db, now: int, order: seq<Bytes>, data: map<Bytes, Entry>)
    requires order != [] && Distinct(order)
    ensures var e := Find(db, order[0], now);
      (if e.None? || EmptyCollection(e.value.value) then data else data[order[0] := e.value])
        + KeptOf(db, now, order[1..]) == data + KeptOf(db, now, order)
  {
    hide EmptyCollection;
    assert order[0] !in order[1..];
    assert forall k :: k in order <==> k == order[0] || k in order[1..];
  }

  lemma ReplayNone(env: Env, at: nat -> Clock, i: nat, s: Server)
    ensures Replay(env, at, i, s, []) == s
  {}

  /** Snapshot meaning: for every keyspace that satisfies the invariant and every order of its keys, processing the
      file the rewrite child writes, from an empty server at the same clock reading, rebuilds exactly the live
      entries without the empty collections, and reads the whole file. */
  lemma SnapshotMeaning(env: Env, at: nat -> Clock, db: Db, now: int, order: seq<Bytes>)
    requires RoundTrips(env) && DbOk(db, now) && SameReading(db, at, now) && Distinct(order)
    requires forall k :: k in order <==> k in db.data
    requires Sendable(SnapshotCmds(env, db, now, order))
    ensures
      var file := EncodeAll(SnapshotCmds(env, db, now, order));
      var p := Process(env, at, 0, false, FRESH_SERVER, -1, file);
      p.server.core.db.data == Kept(db, now) && Bare(p.server) && !p.waits && p.consumed == |file| && Framed(file)
  {
    hide Process, DbOk, RoundTrips, Sendable, Framed, SnapshotCmds, Kept;
    var cmds := SnapshotCmds(env, db, now, order);
    ProcessEncoded(env, at, 0, FRESH_SERVER, cmds);
    OrderReplay(env, at, 0, FRESH_SERVER, db, now, order);
    assert EncodeAll(cmds) + [] == EncodeAll(cmds);
    ProcessAppend(env, at, 0, false, FRESH_SERVER, -1, EncodeAll(cmds), []);
    KeptOfAll(db, now, order);
  }

  lemma KeptOfAll(db: Db, now: int, order: seq<Bytes>)
    requires forall k :: k in order <==> k in db.data
    ensures EMPTY_DB.data + KeptOf(db, now, order) == Kept(db, now)
  {}

  /** So the rebuilt keyspace equals the live one exactly when no live collection is empty. */
  lemma KeptIsLive(db: Db, now: int)
    ensures Kept(db, now) == Purge(db, now).data
        <==> forall k :: k in db.data && !Expired(db.data[k], now) ==> !EmptyCollection(db.data[k].value)
  {
    hide EmptyCollection;
    if Kept(db, now) == Purge(db, now).data {
      forall k | k in db.data && !Expired(db.data[k], now)
        ensures !EmptyCollection(db.data[k].value)
      {
        assert k in Purge(db, now).data;
        assert k in Kept(db, now);
      }
    }
  }
}
