/** The rewrite child (`rewrite_child_main`): the commands it writes for a keyspace, and what replaying them means. */
module Snapshot {
  import opened Base
  import opened Decimal
  import opened SortedSets
  import opened Keyspace
  import opened Commands
  import opened Sessions
  import opened Resp
  import opened CommandLoop

  // ---------------------------------------------------------------- what the child writes

  function FlattenFields(fields: seq<(Bytes, Bytes)>): (r: seq<Bytes>)
    ensures |r| == 2 * |fields|
  {
    if fields == [] then [] else [fields[0].0, fields[0].1] + FlattenFields(fields[1..])
  }

  function FlattenNodes(env: Env, es: seq<Node>): (r: seq<Bytes>)
    ensures |r| == 2 * |es|
  {
    if es == [] then [] else [env.format(es[0].0), es[0].1] + FlattenNodes(env, es[1..])
  }

  function XaddCmd(key: Bytes, e: StreamEntry): (r: seq<Bytes>) {
    ["XADD", key, e.id] + FlattenFields(e.fields)
  }

  function XaddCmds(key: Bytes, stream: seq<StreamEntry>): (r: seq<seq<Bytes>>) {
    seq(|stream|, i requires 0 <= i < |stream| => XaddCmd(key, stream[i]))
  }

  predicate EmptyCollection(v: Value) {
    match v
    case Str(_) => false
    case Lst(items) => items == []
    case Strm(stream) => stream == []
    case Zst(z) => z.entries == []
  }

  /** The commands for one live entry; an empty collection leaves no trace. */
  function EntryCmds(env: Env, key: Bytes, e: Entry, now: int): (r: seq<seq<Bytes>>) {
    match e.value
    case Str(text) =>
      if e.expiry.Some? && e.expiry.value > now
      then [["SET", key, text, "PX", ToText(e.expiry.value - now)]] else [["SET", key, text]]
    case Lst(items) => if items == [] then [] else [["RPUSH", key] + items]
    case Strm(stream) => XaddCmds(key, stream)
    case Zst(z) => if z.entries == [] then [] else [["ZADD", key] + FlattenNodes(env, z.entries)]
  }

  /** All commands, visiting the keys in the given order and skipping dead entries. */
  function SnapshotCmds(env: Env, db: Db, now: int, order: seq<Bytes>): (r: seq<seq<Bytes>>) {
    if order == [] then []
    else
      var e := Find(db, order[0], now);
      (if e.Some? then EntryCmds(env, order[0], e.value, now) else []) + SnapshotCmds(env, db, now, order[1..])
  }

  function EncodeAll(cmds: seq<seq<Bytes>>): (r: Bytes) {
    if cmds == [] then [] else EncodeArray(cmds[0]) + EncodeAll(cmds[1..])
  }

  lemma {:induction false} EncodeAllSplit(a: seq<seq<Bytes>>, b: seq<seq<Bytes>>)
    ensures EncodeAll(a + b) == EncodeAll(a) + EncodeAll(b)
    decreases |a|
  {
    hide EncodeArray;
    if a == [] {
      assert a + b == b;
    } else {
      EncodeAllSplit(a[1..], b);
      assert (a + b)[1..] == a[1..] + b;
    }
  }

  // ---------------------------------------------------------------- the child, as the code runs it

  method CollectFields(key: Bytes, e: StreamEntry) returns (cmd: seq<Bytes>)
    ensures cmd == XaddCmd(key, e)
  {
    cmd := ["XADD", key, e.id];
    for i := 0 to |e.fields|
      invariant cmd == ["XADD", key, e.id] + FlattenFields(e.fields[..i])
    {
      FlattenSnoc(e.fields[..i], e.fields[i]);
      assert e.fields[..i + 1] == e.fields[..i] + [e.fields[i]];
      cmd := cmd + [e.fields[i].0];
      cmd := cmd + [e.fields[i].1];
    }
    assert e.fields[..|e.fields|] == e.fields;
  }

  lemma {:induction false} FlattenSnoc(fields: seq<(Bytes, Bytes)>, x: (Bytes, Bytes))
    ensures FlattenFields(fields + [x]) == FlattenFields(fields) + [x.0, x.1]
    decreases |fields|
  {
    if fields == [] {
      assert (fields + [x])[1..] == [];
    } else {
      FlattenSnoc(fields[1..], x);
      assert (fields + [x])[1..] == fields[1..] + [x];
    }
  }

  lemma {:induction false} FlattenNodesSnoc(env: Env, es: seq<Node>, x: Node)
    ensures FlattenNodes(env, es + [x]) == FlattenNodes(env, es) + [env.format(x.0), x.1]
    decreases |es|
  {
    if es == [] {
      assert (es + [x])[1..] == [];
    } else {
      FlattenNodesSnoc(env, es[1..], x);
      assert (es + [x])[1..] == es[1..] + [x];
    }
  }

  method CollectNodes(env: Env, key: Bytes, es: seq<Node>) returns (cmd: seq<Bytes>)
    ensures cmd == ["ZADD", key] + FlattenNodes(env, es)
  {
    cmd := ["ZADD", key];
    for i := 0 to |es|
      invariant cmd == ["ZADD", key] + FlattenNodes(env, es[..i])
    {
      FlattenNodesSnoc(env, es[..i], es[i]);
      assert es[..i + 1] == es[..i] + [es[i]];
      cmd := cmd + [env.format(es[i].0)];
      cmd := cmd + [es[i].1];
    }
    assert es[..|es|] == es;
  }

  method CollectItems(key: Bytes, items: seq<Bytes>) returns (cmd: seq<Bytes>)
    ensures cmd == ["RPUSH", key] + items
  {
    cmd := ["RPUSH", key];
    for i := 0 to |items|
      invariant cmd == ["RPUSH", key] + items[..i]
    {
      cmd := cmd + [items[i]];
    }
  }

  method WriteStream(file: Bytes, key: Bytes, stream: seq<StreamEntry>) returns (r: Bytes)
    ensures r == file + EncodeAll(XaddCmds(key, stream))
  {
    hide EncodeAll, XaddCmds, EncodeArray, XaddCmd;
    r := file;
    XaddNone(key, stream);
    for i := 0 to |stream|
      invariant r == file + EncodeAll(XaddCmds(key, stream[..i]))
    {
      var cmd := CollectFields(key, stream[i]);
      var data := EncodeRespCommand(cmd);
      XaddSnoc(key, stream, i, data);
      r := r + data;
    }
    assert stream[..|stream|] == stream;
  }

  lemma XaddNone(key: Bytes, stream: seq<StreamEntry>)
    ensures EncodeAll(XaddCmds(key, stream[..0])) == []
  {
    assert XaddCmds(key, stream[..0]) == [];
  }

  lemma XaddSnoc(key: Bytes, stream: seq<StreamEntry>, i: nat, data: Bytes)
    requires i < |stream| && data == EncodeArray(XaddCmd(key, stream[i]))
    ensures EncodeAll(XaddCmds(key, stream[..i + 1])) == EncodeAll(XaddCmds(key, stream[..i])) + data
  {
    hide EncodeArray, XaddCmd;
    var cmd := XaddCmd(key, stream[i]);
    assert XaddCmds(key, stream[..i + 1]) == XaddCmds(key, stream[..i]) + [cmd];
    EncodeAllSplit(XaddCmds(key, stream[..i]), [cmd]);
    EncodeOne(cmd);
  }

  lemma EncodeOne(cmd: seq<Bytes>)
    ensures EncodeAll([cmd]) == EncodeArray(cmd)
  {
    hide EncodeArray;
    assert [cmd][1..] == [];
  }

  /** The callback for one live entry: build its command, or one per stream entry, and write it. */
  method WriteEntry(env: Env, file: Bytes, key: Bytes, e: Entry, now: int) returns (r: Bytes)
    ensures r == file + EncodeAll(EntryCmds(env, key, e, now))
  {
    hide EncodeArray, EncodeAll, XaddCmds, FlattenNodes;
    var cmd: seq<Bytes> := [];
    match e.value {
      case Str(text) =>
        cmd := ["SET", key, text];
        if e.expiry.Some? && e.expiry.value > now {
          cmd := cmd + ["PX"];
          cmd := cmd + [ToText(e.expiry.value - now)];
          assert cmd == ["SET", key, text, "PX", ToText(e.expiry.value - now)];
        }
      case Lst(items) =>
        if items == [] {
          EncodeNone();
          return file;
        }
        cmd := CollectItems(key, items);
      case Strm(stream) =>
        r := WriteStream(file, key, stream);
        return;
      case Zst(z) =>
        if z.entries == [] {
          EncodeNone();
          return file;
        }
        cmd := CollectNodes(env, key, z.entries);
    }
    assert EntryCmds(env, key, e, now) == [cmd];
    EncodeOne(cmd);
    var data := EncodeRespCommand(cmd);
    r := file + data;
  }

  lemma EncodeNone()
    ensures EncodeAll([]) == []
  {}

  lemma SnapshotNext(env: Env, db: Db, now: int, order: seq<Bytes>, i: nat)
    requires i < |order|
    ensures var e := Find(db, order[i], now);
      SnapshotCmds(env, db, now, order[..i + 1])
        == SnapshotCmds(env, db, now, order[..i]) + if e.Some? then EntryCmds(env, order[i], e.value, now) else []
  {
    SnapshotSplit(env, db, now, order[..i], [order[i]]);
    assert order[..i + 1] == order[..i] + [order[i]];
    var last := [order[i]];
    assert last[1..] == [];
    assert SnapshotCmds(env, db, now, last[1..]) == [];
  }

  lemma {:induction false} SnapshotSplit(env: Env, db: Db, now: int, a: seq<Bytes>, b: seq<Bytes>)
    ensures SnapshotCmds(env, db, now, a + b) == SnapshotCmds(env, db, now, a) + SnapshotCmds(env, db, now, b)
    decreases |a|
  {
    hide EntryCmds, Find;
    if a == [] {
      assert a + b == b;
    } else {
      SnapshotSplit(env, db, now, a[1..], b);
      assert (a + b)[1..] == a[1..] + b;
    }
  }

  /** `rewrite_child_main` over the hash table's order. */
  method RewriteChild(env: Env, db: Db, now: int, order: seq<Bytes>) returns (file: Bytes)
    requires forall k :: k in order <==> k in db.data
    ensures file == EncodeAll(SnapshotCmds(env, db, now, order))
  {
    hide EncodeAll, EntryCmds, SnapshotCmds;
    file := [];
    EncodeNone();
    SnapshotNone(env, db, now);
    for i := 0 to |order|
      invariant file == EncodeAll(SnapshotCmds(env, db, now, order[..i]))
    {
      SnapshotNext(env, db, now, order, i);
      var key := order[i];
      var entry := db.data[key];
      if entry.expiry.None? || now < entry.expiry.value {
        file := WriteEntry(env, file, key, entry, now);
        EncodeAllSplit(SnapshotCmds(env, db, now, order[..i]), EntryCmds(env, key, entry, now));
      } else {
        assert SnapshotCmds(env, db, now, order[..i]) + [] == SnapshotCmds(env, db, now, order[..i]);
      }
    }
    assert order[..|order|] == order;
  }

  lemma SnapshotNone(env: Env, db: Db, now: int)
    ensures SnapshotCmds(env, db, now, []) == []
  {}

  // ---------------------------------------------------------------- replaying a list of commands

  /** Replay at start-up: no send callback, no blocking manager, descriptor -1. */
  function Replay(env: Env, at: nat -> Clock, i: nat, s: Server, cmds: seq<seq<Bytes>>): (r: Server)
    decreases |cmds|
  {
    if cmds == [] then s else Replay(env, at, i + 1, Step(env, at(i), false, s, -1, cmds[0]).server, cmds[1..])
  }

  lemma {:induction false} ReplaySplit(env: Env, at: nat -> Clock, i: nat, s: Server, a: seq<seq<Bytes>>,
                                       b: seq<seq<Bytes>>)
    ensures Replay(env, at, i, s, a + b) == Replay(env, at, i + |a|, Replay(env, at, i, s, a), b)
    decreases |a|
  {
    hide Step;
    if a == [] {
      assert a + b == b;
    } else {
      ReplaySplit(env, at, i + 1, Step(env, at(i), false, s, -1, a[0]).server, a[1..], b);
      assert (a + b)[1..] == a[1..] + b;
    }
  }

  /** Nothing waits during replay. */
  lemma ReplayAnswers(env: Env, c: Clock, core: Core, fd: int, cmd: Cmd, args: seq<Bytes>)
    requires |args| >= MinArgs(cmd)
    ensures Exec(env, c, false, core, fd, cmd, args).reply.Some?
  {
    hide ActSet, ActIncr, ActPop, ServeReaders, XaddIf, ZaddRest, ZaddIf, PushRest, PushIf, Zadd, Zrem, ReadReply, Pop,
         SetPairs, AllTakeStrings, Visit, ReadAll, ParseRead, Purge, ActZadd, ActGeoadd, Find;
    if cmd.SET? || cmd.INCR? || cmd.LPOP? || cmd.RPOP? || cmd.ZADD? || cmd.GEOADD? {
      SimpleAnswers(env, c, core, fd, cmd, args);
    }
  }

  lemma SimpleAnswers(env: Env, c: Clock, core: Core, fd: int, cmd: Cmd, args: seq<Bytes>)
    requires |args| >= MinArgs(cmd)
    requires cmd.SET? || cmd.INCR? || cmd.LPOP? || cmd.RPOP? || cmd.ZADD? || cmd.GEOADD?
    ensures Exec(env, c, false, core, fd, cmd, args).reply.Some?
  {
    hide ScanOptions, Pop, ZaddRest, ZaddIf, Zadd, Find, SetIf, IncrIf, ParseInt64;
  }

  lemma StepAnswers(env: Env, c: Clock, s: Server, fd: int, args: seq<Bytes>)
    ensures Step(env, c, false, s, fd, args).reply.Some?
  {
    hide VerbOf, Lookup, Exec, RunQueued, Dirty, WatchKeys;
    if args != [] {
      var name := ToUpper(args[0]);
      if Lookup(name).Some? && |args| >= MinArgs(Lookup(name).value) {
        ReplayAnswers(env, c, s.core, fd, Lookup(name).value, args);
      }
    }
  }

  predicate Sendable(cmds: seq<seq<Bytes>>) {
    forall i :: 0 <= i < |cmds| ==> cmds[i] != [] && Bounded(cmds[i])
  }

  /** Processing printed commands is replaying the commands. */
  lemma {:induction false} ProcessEncoded(env: Env, at: nat -> Clock, i: nat, s: Server, cmds: seq<seq<Bytes>>)
    requires Sendable(cmds)
    ensures var p := Process(env, at, i, false, s, -1, EncodeAll(cmds));
      p.server == Replay(env, at, i, s, cmds) && p.count == |cmds| && !p.waits && p.consumed == |EncodeAll(cmds)|
    ensures Framed(EncodeAll(cmds))
    decreases |cmds|
  {
    hide Process, Step, Framed, EncodeArray, Bounded, RunParsed, IsFrame, Idle;
    if cmds == [] {
      NothingToDo(env, at, i, false, s, -1);
      IdleJoin(s, Idle(s));
      FramedNone();
    } else {
      var w := EncodeArray(cmds[0]);
      EncodedIsFrame(cmds[0]);
      var next := Step(env, at(i), false, s, -1, cmds[0]).server;
      ProcessEncoded(env, at, i + 1, next, cmds[1..]);
      ProcessFrame(env, at, i, false, s, -1, w, EncodeAll(cmds[1..]));
      StepAnswers(env, at(i), s, -1, cmds[0]);
      RunParsedIs(env, at(i), s, cmds[0], w);
      FramedCons(w, EncodeAll(cmds[1..]));
    }
  }

  lemma FramedNone()
    ensures Framed([])
  {}

  lemma RunParsedIs(env: Env, c: Clock, s: Server, args: seq<Bytes>, w: Bytes)
    requires Step(env, c, false, s, -1, args).reply.Some?
    ensures var r := RunParsed(env, c, false, s, -1, Parsed(args, |w|), w);
      r.server == Step(env, c, false, s, -1, args).server && r.count == 1 && !r.waits && r.consumed == |w|
  {
    hide Step;
  }
}
