/** No lost wake-ups: what the wait queues and the keyspace promise each other in every reachable state, what a
    woken reader is sent, and exactly when a push hands over every value it was given. */
module Wakeups {
  import opened Base
  import opened Decimal
  import opened StreamIds
  import opened SortedSets
  import opened Keyspace
  import opened Stores
  import opened Blocking
  import opened Commands
  import opened Invariants
  import opened Sessions

  // ---------------------------------------------------------------- the invariant

  function ValueAt(db: Db, key: Bytes): (v: Option<Value>) {
    if key in db.data then Some(db.data[key].value) else None
  }

  function ValueOpt(e: Option<Entry>): (v: Option<Value>) {
    if e.Some? then Some(e.value.value) else None
  }

  /** Waiter `x` has nothing to be woken for: a BLPOP faces no list element, an XREAD (recorded with the id it was checked
      against) faces no entry newer than that id. */
  predicate Quiet(v: Option<Value>, x: Waiter) {
    (x.kind.Popper? ==> ItemsOf(v) == []) &&
    (x.kind == Reader(true) ==> After(StreamOf(v), x.lastId) == [])
  }

  predicate QueueQuiet(v: Option<Value>, q: seq<Waiter>) {
    forall x :: x in q ==> Quiet(v, x)
  }

  ghost predicate NoLost(core: Core) {
    forall k :: QueueQuiet(ValueAt(core.db, k), Queue(core.wait, k))
  }

  /** Recorded ids come from parsing, so their text form is faithful. */
  predicate IdsOk(q: seq<Waiter>) {
    forall x :: x in q ==> Representable(x.lastId) && x.lastId.timestamp >= 0
  }

  ghost predicate AllIdsOk(w: Waiting) {
    forall k :: IdsOk(Queue(w, k))
  }

  /** Everything the proof carries along a run. */
  ghost predicate Sound(core: Core, now: int) {
    DbOk(core.db, now) && WaitingOk(core.wait) && AllIdsOk(core.wait) && NoLost(core)
  }

  /** The queues of other keys are not involved. */
  ghost predicate OnlyQueue(a: Waiting, b: Waiting, key: Bytes) {
    forall k :: k != key ==> Queue(a, k) == Queue(b, k)
  }

  lemma PerformNoLost(core: Core, key: Bytes, a: Act, now: int)
    requires NoLost(core) && OnlyQueue(core.wait, a.wait, key)
    requires QueueQuiet(if a.change.Some? then ValueOpt(a.change.value.entry) else ValueAt(core.db, key),
                        Queue(a.wait, key))
    ensures NoLost(Perform(core, key, a).core)
  {
    hide QueueQuiet, Queue;
    var r := Perform(core, key, a).core;
    forall k
      ensures QueueQuiet(ValueAt(r.db, k), Queue(r.wait, k))
    {
      assert QueueQuiet(ValueAt(core.db, k), Queue(core.wait, k));
    }
  }

  /** A live entry is quiet if the stored one is: what is dead was a string. */
  lemma LiveQuiet(db: Db, key: Bytes, now: int, q: seq<Waiter>)
    requires DbOk(db, now) && QueueQuiet(ValueAt(db, key), q)
    ensures QueueQuiet(ValueOpt(Find(db, key, now)), q)
  {}

  // ---------------------------------------------------------------- commands that neither push nor wait

  /** No element appears, and the stream stays or goes as a whole. */
  predicate Calm(v: Option<Value>, w: Option<Value>) {
    (ItemsOf(v) == [] ==> ItemsOf(w) == []) && (StreamOf(w) == StreamOf(v) || StreamOf(w) == [])
  }

  lemma CalmQuiet(v: Option<Value>, w: Option<Value>, q: seq<Waiter>)
    requires Calm(v, w) && QueueQuiet(v, q)
    ensures QueueQuiet(w, q)
  {}

  predicate Waits(cmd: Cmd) {
    cmd.RPUSH? || cmd.LPUSH? || cmd.BLPOP? || cmd.XADD?
  }

  lemma ActCalm(env: Env, c: Clock, live: bool, fd: int, cmd: Cmd, cur: Option<Entry>, wait: Waiting, refused: bool,
                args: seq<Bytes>)
    requires IsSingle(cmd) && |args| >= MinArgs(cmd) && !Waits(cmd)
    ensures var a := ActOn(env, c, live, fd, cmd, cur, wait, refused, args);
      a.wait == wait && a.sends == [] && (a.change.Some? ==> Calm(ValueOpt(cur), ValueOpt(a.change.value.entry)))
  {
    hide ReadReply, ParseInt64, ScanOptions, Add, Remove, Reversed, ToText, ActZadd;
    if cmd.ZADD? { ZaddCalm(env, cur, wait, args); }
  }

  lemma {:induction false} ZaddRestZst(env: Env, e: Effect<int>, args: seq<Bytes>, i: nat)
    requires e.entry.Some? && e.entry.value.value.Zst?
    ensures var r := ZaddRest(env, e, args, i).entry; r.Some? && r.value.value.Zst?
    decreases |args| - i
  {
    hide Add;
    if i + 1 < |args| && env.parse(args[i]).Some? {
      var a := Zadd(e.entry, env.parse(args[i]).value, args[i + 1]);
      ZaddRestZst(env, Effect(a.entry, e.touches + a.touches, e.out + a.out), args, i + 2);
    }
  }

  lemma ZaddCalm(env: Env, cur: Option<Entry>, wait: Waiting, args: seq<Bytes>)
    requires |args| >= 4
    ensures var a := ActZadd(env, cur, wait, args);
      a.wait == wait && a.sends == [] && (a.change.Some? ==> Calm(ValueOpt(cur), ValueOpt(a.change.value.entry)))
  {
    hide Add, ZaddRest;
    if env.parse(args[2]).Some? {
      var a := ZaddIf(cur, env.parse(args[2]).value, args[3]);
      if a.out.Some? { ZaddRestZst(env, Effect(a.entry, a.touches, a.out.value), args, 4); }
    }
  }

  // ---------------------------------------------------------------- pushes

  predicate HasPopper(q: seq<Waiter>) {
    exists x :: x in q && x.kind.Popper?
  }

  /** While a BLPOP waits, the list is empty; the entry is a list. */
  predicate PushQuiet(p: Pushing, key: Bytes) {
    p.entry.Some? && p.entry.value.value.Lst? &&
    (HasPopper(Queue(p.wait, key)) ==> p.entry.value.value.items == [])
  }

  lemma WakeQueue(w: Waiting, key: Bytes)
    requires Queue(w, key) != []
    ensures Queue(Wake(w, key).0, key) == Queue(w, key)[1..] && OnlyQueue(w, Wake(w, key).0, key)
  {
    assert Without(Queue(w, key), 0) == Queue(w, key)[1..];
  }

  lemma TryWakeQuiet(p: Pushing, key: Bytes)
    requires Queue(p.wait, key) != [] && p.entry.Some? && p.entry.value.value.Lst?
    requires HasPopper(Queue(p.wait, key)) ==> |p.entry.value.value.items| <= 1
    ensures PushQuiet(TryWake(p, key), key) && OnlyQueue(p.wait, TryWake(p, key).wait, key)
  {
    hide Wake;
    WakeQueue(p.wait, key);
    var q := Queue(p.wait, key);
    assert HasPopper(q[1..]) ==> HasPopper(q);
  }

  lemma {:induction false} PushRestQuiet(p: Pushing, key: Bytes, vals: seq<Bytes>, left: bool, live: bool)
    requires PushQuiet(p, key) && (!live ==> Queue(p.wait, key) == [])
    ensures PushQuiet(PushRest(p, key, vals, left, live), key)
    ensures OnlyQueue(p.wait, PushRest(p, key, vals, left, live).wait, key)
    decreases |vals|
  {
    hide Queue;
    if vals != [] {
      if live && Queue(p.wait, key) != [] {
        TryWakeQuiet(p, key);
        PushRestQuiet(TryWake(p, key), key, vals[1..], left, live);
      } else {
        var e := Push(p.entry, vals[0], left);
        PushRestQuiet(p.(entry := e.entry, touches := p.touches + e.touches, count := e.out),
                      key, vals[1..], left, live);
      }
    }
  }

  lemma ActPushQuiet(cur: Option<Entry>, wait: Waiting, args: seq<Bytes>, left: bool)
    requires |args| >= 3 && QueueQuiet(ValueOpt(cur), Queue(wait, args[1]))
    ensures var a := ActPush(true, cur, wait, args, left);
      OnlyQueue(wait, a.wait, args[1]) && a.change.Some? &&
      QueueQuiet(ValueOpt(a.change.value.entry), Queue(a.wait, args[1]))
  {
    hide PushRest, TryWake;
    var key := args[1];
    var e := PushIf(cur, args[2], left);
    if e.out.Some? {
      var p := Pushing(e.entry, e.touches, wait, [], e.out.value);
      var q := if Queue(wait, key) != [] then TryWake(p, key) else p;
      PopperMeansEmpty(ValueOpt(cur), Queue(wait, key));
      if Queue(wait, key) != [] { TryWakeQuiet(p, key); }
      PushRestQuiet(q, key, args[3..], left, true);
      var r := PushRest(q, key, args[3..], left, true);
      ListQuiet(r, key);
    }
  }

  lemma PopperMeansEmpty(v: Option<Value>, q: seq<Waiter>)
    requires QueueQuiet(v, q)
    ensures HasPopper(q) ==> ItemsOf(v) == []
  {}

  lemma ListQuiet(p: Pushing, key: Bytes)
    requires PushQuiet(p, key)
    ensures QueueQuiet(ValueOpt(p.entry), Queue(p.wait, key))
  {
    assert forall x :: x in Queue(p.wait, key) && x.kind.Popper? ==> HasPopper(Queue(p.wait, key));
  }

  // ---------------------------------------------------------------- readers

  /** The waiters behind `id`, in arrival order. */
  function Behind(q: seq<Waiter>, id: StreamId): (r: seq<Waiter>) {
    if q == [] then [] else if Less(q[0].lastId, id) then [q[0]] + Behind(q[1..], id) else Behind(q[1..], id)
  }

  function UpToDate(q: seq<Waiter>, id: StreamId): (r: seq<Waiter>) {
    if q == [] then [] else if Less(q[0].lastId, id) then UpToDate(q[1..], id) else [q[0]] + UpToDate(q[1..], id)
  }

  lemma {:induction false} BehindMembers(q: seq<Waiter>, id: StreamId)
    ensures forall x :: x in Behind(q, id) <==> x in q && Less(x.lastId, id)
    ensures forall x :: x in UpToDate(q, id) <==> x in q && !Less(x.lastId, id)
    decreases |q|
  {
    hide Less;
    if q != [] {
      BehindMembers(q[1..], id);
      assert forall x :: x in q <==> x == q[0] || x in q[1..];
    }
  }

  /** What a waiter is sent: what the stream holds after the id it was recorded with. */
  function Message(x: Waiter, key: Bytes, stream: seq<StreamEntry>): (r: Send) {
    Send(x.fd, Streams([(key, After(stream, Threshold(IdText(x.lastId))))]))
  }

  function News(q: seq<Waiter>, key: Bytes, stream: seq<StreamEntry>): (r: seq<Send>)
    ensures |r| == |q|
  {
    seq(|q|, i requires 0 <= i < |q| => Message(q[i], key, stream))
  }

  lemma {:induction false} FirstLeaves(q: seq<Waiter>, id: StreamId)
    requires FirstBehind(q, id) < |q|
    ensures var i := FirstBehind(q, id);
      Behind(q, id) == [q[i]] + Behind(Without(q, i), id) && UpToDate(Without(q, i), id) == UpToDate(q, id)
    decreases |q|
  {
    hide Less;
    var i := FirstBehind(q, id);
    if i == 0 {
      assert Without(q, 0) == q[1..];
    } else {
      FirstLeaves(q[1..], id);
      assert Without(q, i) == [q[0]] + Without(q[1..], i - 1);
      assert Without(q, i)[1..] == Without(q[1..], i - 1);
    }
  }

  lemma {:induction false} NobodyBehind(q: seq<Waiter>, id: StreamId)
    requires FirstBehind(q, id) == |q|
    ensures Behind(q, id) == [] && UpToDate(q, id) == q
    decreases |q|
  {
    hide Less;
    if q != [] { NobodyBehind(q[1..], id); }
  }

  lemma NewsOfFirst(x: Waiter, more: seq<Waiter>, key: Bytes, stream: seq<StreamEntry>, sends: seq<Send>)
    ensures sends + News([x] + more, key, stream) == sends + [Message(x, key, stream)] + News(more, key, stream)
  {
    hide Message;
  }

  /** The wake loop serves exactly the waiters behind the new id, in arrival order, and nobody else. */
  lemma {:induction false} ServeReadersDoes(wait: Waiting, key: Bytes, id: StreamId, stream: seq<StreamEntry>,
                                            sends: seq<Send>)
    ensures var (rest, out) := ServeReaders(wait, key, id, stream, sends);
      Queue(rest, key) == UpToDate(Queue(wait, key), id) && OnlyQueue(wait, rest, key) &&
      out == sends + News(Behind(Queue(wait, key), id), key, stream)
    decreases |Queue(wait, key)|
  {
    hide After, Threshold, IdText, Behind, UpToDate, FirstBehind, News, Without;
    var q := Queue(wait, key);
    var i := FirstBehind(q, id);
    if i == |q| {
      NobodyBehind(q, id);
      assert sends + News([], key, stream) == sends;
    } else {
      FirstLeaves(q, id);
      var rest := WakeBehind(wait, key, id).0;
      LeaveQueue(wait, key, i);
      ServeReadersDoes(rest, key, id, stream, sends + [Message(q[i], key, stream)]);
      NewsOfFirst(q[i], Behind(Without(q, i), id), key, stream, sends);
    }
  }

  lemma LeaveQueue(w: Waiting, key: Bytes, i: nat)
    requires i < |Queue(w, key)|
    ensures Queue(Leave(w, key, i), key) == Without(Queue(w, key), i) && OnlyQueue(w, Leave(w, key, i), key)
    ensures |Queue(Leave(w, key, i), key)| < |Queue(w, key)|
  {}

  lemma NothingAfterLast(stream: seq<StreamEntry>, id: StreamId)
    requires StreamOk(stream) && stream != [] && !Less(id, stream[|stream| - 1].parsed)
    ensures After(stream, id) == []
  {
    hide StreamEntryOk;
    AfterIsSlice(stream, id, |stream|);
  }

  /** What an accepted XADD leaves behind, in terms of the stream before it. */
  lemma XaddAppends(cur: Option<Entry>, id: Bytes, fields: seq<(Bytes, Bytes)>, c: Clock)
    requires OptOk(cur, c.now) && ClockOk(c) && fields != []
    ensures var e := XaddIf(cur, id, fields, c.wall);
      (e.out.Added? ==>
        e.entry.Some? && e.entry.value.value.Strm? && StreamOk(e.entry.value.value.stream) &&
        exists x :: e.entry.value.value.stream == StreamOf(ValueOpt(cur)) + [x] && x.fields == fields &&
                    x.id == e.out.id && ParseId(e.out.id) == Some(x.parsed)) &&
      (!e.out.Added? ==> Calm(ValueOpt(cur), ValueOpt(e.entry)))
  {
    hide StreamOk, ChooseId, ParseId, StreamEntryOk;
    var e := XaddIf(cur, id, fields, c.wall);
    EmptyStreamOk();
    if cur.None? || cur.value.value.Strm? {
      var s := StreamHolder(cur).value.stream;
      XaddKeepsOrder(s, id, fields, c.wall);
      ChosenIdParses(s, id, c.wall);
    }
  }

  lemma ActXaddQuiet(c: Clock, cur: Option<Entry>, wait: Waiting, args: seq<Bytes>)
    requires |args| >= 4 && OptOk(cur, c.now) && ClockOk(c) && QueueQuiet(ValueOpt(cur), Queue(wait, args[1]))
    ensures var a := ActXadd(c, true, cur, wait, args);
      OnlyQueue(wait, a.wait, args[1]) &&
      (a.change.Some? ==> QueueQuiet(ValueOpt(a.change.value.entry), Queue(a.wait, args[1]))) &&
      (a.change.None? ==> a.wait == wait)
  {
    hide XaddIf, ServeReaders, StreamOk, ParseId, Less, Quiet, Calm;
    if (|args| - 3) % 2 == 0 {
      var key, fields := args[1], Pairs(args[3..]);
      var e := XaddIf(cur, args[2], fields, c.wall);
      XaddAppends(cur, args[2], fields, c);
      if e.out.Added? {
        var stream, sid := e.entry.value.value.stream, ParseId(e.out.id).value;
        ServeReadersDoes(wait, key, sid, stream, []);
        UpToDateQuiet(stream, Queue(wait, key), sid);
      } else {
        CalmQuiet(ValueOpt(cur), ValueOpt(e.entry), Queue(wait, key));
      }
    }
  }

  lemma UpToDateQuiet(stream: seq<StreamEntry>, q: seq<Waiter>, id: StreamId)
    requires StreamOk(stream) && stream != [] && stream[|stream| - 1].parsed == id
    ensures QueueQuiet(Some(Strm(stream)), UpToDate(q, id))
  {
    hide StreamOk, Less;
    BehindMembers(q, id);
    forall x | x in UpToDate(q, id)
      ensures Quiet(Some(Strm(stream)), x)
    {
      NothingAfterLast(stream, x.lastId);
    }
  }

  // ---------------------------------------------------------------- commands that wait

  lemma BlockQueue(w: Waiting, fd: int, key: Bytes, lastId: StreamId, timeout: int, kind: WaitKind, now: int)
    ensures var r := Block(w, fd, key, lastId, timeout, kind, now);
      Queue(r, key) == Queue(w, key) + [NewWaiter(w, fd, key, lastId, timeout, kind, now)] && OnlyQueue(w, r, key)
  {}

  lemma PopCalm(cur: Option<Entry>, count: int, left: bool)
    ensures Calm(ValueOpt(cur), ValueOpt(Pop(cur, count, left).entry))
    ensures count == 1 && Pop(cur, count, left).out == [] && left ==> ItemsOf(ValueOpt(Pop(cur, count, left).entry)) == []
  {
    hide Reversed;
  }

  lemma ActBlpopQuiet(env: Env, c: Clock, fd: int, cur: Option<Entry>, wait: Waiting, args: seq<Bytes>)
    requires |args| >= 3 && QueueQuiet(ValueOpt(cur), Queue(wait, args[1]))
    ensures var a := ActBlpop(env, c, true, fd, cur, wait, args);
      OnlyQueue(wait, a.wait, args[1]) && (a.change.None? ==> a.wait == wait) &&
      (a.change.Some? ==> QueueQuiet(ValueOpt(a.change.value.entry), Queue(a.wait, args[1])))
  {
    hide Pop, Block, Calm;
    var e := Pop(cur, 1, true);
    PopCalm(cur, 1, true);
    CalmQuiet(ValueOpt(cur), ValueOpt(e.entry), Queue(wait, args[1]));
    if env.parse(args[2]).Some? {
      BlockQueue(wait, fd, args[1], ZERO, env.millis(env.parse(args[2]).value), Popper, c.now);
    }
  }

  /** The id a reader is recorded with is the one it was checked against, exactly for these ids. */
  lemma ReaderIsExact(stream: seq<StreamEntry>, id: Bytes)
    requires StreamOk(stream)
    ensures Threshold(ResolveId(stream, id)) == WaiterId(stream, id) <==> Recorded(id)
  {
    hide ParseInt64;
    ZeroText();
    if id == "$" && stream != [] {
      assert StreamEntryOk(stream[|stream| - 1]);
    } else if id != "$" {
      assert '-' !in id ==> IndexOf(id, '-') == |id|;
    }
  }

  /** An XREAD BLOCK with this id never starts to wait in front of an entry newer than the id it is recorded with,
      whatever the stream holds, exactly for these ids. */
  lemma WaitsOnlyWhenQuiet(id: Bytes)
    ensures (forall stream :: StreamOk(stream) && After(stream, Threshold(ResolveId(stream, id))) == []
               ==> After(stream, WaiterId(stream, id)) == [])
        <==> Recorded(id)
  {
    hide Threshold, ResolveId, WaiterId, Recorded, StreamOk, After;
    if Recorded(id) {
      forall stream | StreamOk(stream)
        ensures Threshold(ResolveId(stream, id)) == WaiterId(stream, id)
      {
        ReaderIsExact(stream, id);
      }
    } else {
      var _ := UnseenEntry(id);
    }
  }

  /** The smallest stream on which such an id waits although its recorded id is behind. */
  lemma UnseenEntry(id: Bytes) returns (stream: seq<StreamEntry>)
    requires !Recorded(id)
    ensures StreamOk(stream) && After(stream, Threshold(ResolveId(stream, id))) == []
    ensures After(stream, WaiterId(stream, id)) != []
  {
    hide ParseInt64, IdText;
    var sid := StreamId(0, 1);
    var e := StreamEntry(IdText(sid), sid, [("f", "v")]);
    stream := [e];
    IdRoundTrip(sid);
    assert stream[1..] == [];
    assert '-' !in id ==> IndexOf(id, '-') == |id|;
    if '-' !in id { ParsedSign(id); }
  }

  lemma ZeroText()
    ensures ParseId("0-0") == Some(ZERO)
  {
    var z := ToText(0);
    assert z == "0";
    IdRoundTrip(ZERO);
    assert IdText(ZERO) == "0-0";
  }

  lemma XreadNoLost(c: Clock, core: Core, fd: int, args: seq<Bytes>)
    requires |args| >= 4 && Sound(core, c.now)
    ensures var r := ExecXread(c, true, core, fd, args).core; NoLost(r) && AllIdsOk(r.wait) && WaitingOk(r.wait)
  {
    hide Block, WaitingOk, ReadAll, Visit, ParseRead, WaiterId, Quiet, DbOk;
    if ParseRead(args).ReadOk? {
      var ReadOk(block, keys, ids) := ParseRead(args);
      var db := Visit(core.db, keys, c.now);
      VisitNoLost(core, keys, c.now);
      var results := ReadAll(core.db, keys, ids, c.now);
      if !AnyData(results) && block.Some? {
        assert results[0].1 == [];
        BlockReader(Core(db, core.wait), core.db, c, fd, keys[0], ids[0], block.value, keys, ids);
      }
    }
  }

  lemma {:induction false} VisitNoLost(core: Core, keys: seq<Bytes>, now: int)
    requires DbOk(core.db, now) && NoLost(core)
    ensures NoLost(Core(Visit(core.db, keys, now), core.wait)) && DbOk(Visit(core.db, keys, now), now)
    decreases |keys|
  {
    hide DbOk, QueueQuiet, Queue;
    if keys != [] {
      var key := keys[0];
      var next := Core(Apply(core.db, key, Seen(Find(core.db, key, now))), core.wait);
      var q := Queue(core.wait, key);
      assert QueueQuiet(ValueAt(core.db, key), q);
      LiveQuiet(core.db, key, now, q);
      PerformNoLost(core, key, Act(Some(Change(Find(core.db, key, now), 0)), core.wait, None, []), now);
      FindOk(core.db, key, now);
      PutOk(core.db, key, Find(core.db, key, now), 0, now);
      VisitNoLost(next, keys[1..], now);
    }
  }

  /** A reader starts to wait only when nothing newer than its id is there. */
  lemma BlockReader(core: Core, before: Db, c: Clock, fd: int, key: Bytes, id: Bytes, timeout: int,
                    keys: seq<Bytes>, ids: seq<Bytes>)
    requires WaitingOk(core.wait) && AllIdsOk(core.wait) && NoLost(core) && DbOk(core.db, c.now)
    requires |keys| == |ids| >= 1 && key == keys[0] && id == ids[0]
    requires core.db == Visit(before, keys, c.now) && ReadAll(before, keys, ids, c.now)[0].1 == []
    ensures var wait := Block(core.wait, fd, key, WaiterId(StreamAt(core.db, key, c.now), id), timeout,
                              Reader(Recorded(id)), c.now);
      NoLost(Core(core.db, wait)) && AllIdsOk(wait) && WaitingOk(wait)
  {
    hide Block, WaitingOk, Visit, Find, Frame, WaiterId, QueueQuiet, Queue, Threshold, ResolveId, ParseId, DbOk;
    var stream := StreamAt(core.db, key, c.now);
    var sid, kind := WaiterId(stream, id), Reader(Recorded(id));
    VisitFrame(before, keys, c.now);
    SameStream(before, core.db, key, c.now);
    assert After(stream, Threshold(ResolveId(stream, id))) == [];
    BlockOk(core.wait, fd, key, sid, timeout, kind, c.now);
    BlockQueue(core.wait, fd, key, sid, timeout, kind, c.now);
    var wait := Block(core.wait, fd, key, sid, timeout, kind, c.now);
    var x := NewWaiter(core.wait, fd, key, sid, timeout, kind, c.now);
    StoredStream(core.db, key, c.now);
    WaiterIdOk(stream, id);
    if kind.exact { ReaderIsExact(stream, id); }
    forall k
      ensures QueueQuiet(ValueAt(core.db, k), Queue(wait, k)) && IdsOk(Queue(wait, k))
    {
      assert QueueQuiet(ValueAt(core.db, k), Queue(core.wait, k)) && IdsOk(Queue(core.wait, k));
      if k == key {
        SnocQuiet(ValueAt(core.db, k), Queue(core.wait, k), x);
      }
    }
  }

  lemma SameStream(a: Db, b: Db, key: Bytes, now: int)
    requires Frame(a, b, {}, now)
    ensures StreamAt(a, key, now) == StreamAt(b, key, now)
  {
    hide Find;
  }

  lemma StoredStream(db: Db, key: Bytes, now: int)
    requires DbOk(db, now)
    ensures StreamAt(db, key, now) == StreamOf(ValueAt(db, key)) && StreamOk(StreamAt(db, key, now))
  {
    hide StreamOk;
    EmptyStreamOk();
  }

  lemma SnocQuiet(v: Option<Value>, q: seq<Waiter>, x: Waiter)
    requires QueueQuiet(v, q) && Quiet(v, x)
    ensures QueueQuiet(v, q + [x])
    ensures IdsOk(q) && Representable(x.lastId) && x.lastId.timestamp >= 0 ==> IdsOk(q + [x])
  {
    hide Quiet;
  }

  lemma WaiterIdOk(stream: seq<StreamEntry>, id: Bytes)
    ensures Representable(WaiterId(stream, id)) && WaiterId(stream, id).timestamp >= 0
  {
    hide ResolveId;
  }

  // ---------------------------------------------------------------- every command

  lemma ActNoLost(env: Env, c: Clock, fd: int, cmd: Cmd, cur: Option<Entry>, wait: Waiting, refused: bool,
                  args: seq<Bytes>, stored: Option<Value>)
    requires IsSingle(cmd) && |args| >= MinArgs(cmd) && OptOk(cur, c.now) && ClockOk(c)
    requires QueueQuiet(ValueOpt(cur), Queue(wait, args[1])) && QueueQuiet(stored, Queue(wait, args[1]))
    ensures var a := ActOn(env, c, true, fd, cmd, cur, wait, refused, args);
      OnlyQueue(wait, a.wait, args[1]) &&
      QueueQuiet(if a.change.Some? then ValueOpt(a.change.value.entry) else stored, Queue(a.wait, args[1]))
  {
    hide ActPush, ActXadd, ActBlpop, QueueQuiet, OptOk, Calm, Queue;
    match cmd
    case RPUSH => ActPushQuiet(cur, wait, args, false);
    case LPUSH => ActPushQuiet(cur, wait, args, true);
    case XADD => ActXaddQuiet(c, cur, wait, args);
    case BLPOP => ActBlpopQuiet(env, c, fd, cur, wait, args);
    case _ => ActCalmQuiet(env, c, fd, cmd, cur, wait, refused, args);
  }

  lemma ActCalmQuiet(env: Env, c: Clock, fd: int, cmd: Cmd, cur: Option<Entry>, wait: Waiting, refused: bool,
                     args: seq<Bytes>)
    requires IsSingle(cmd) && |args| >= MinArgs(cmd) && !Waits(cmd) && QueueQuiet(ValueOpt(cur), Queue(wait, args[1]))
    ensures var a := ActOn(env, c, true, fd, cmd, cur, wait, refused, args);
      a.wait == wait && (a.change.Some? ==> QueueQuiet(ValueOpt(a.change.value.entry), Queue(wait, args[1])))
  {
    hide ActOn, QueueQuiet, Calm;
    ActCalm(env, c, true, fd, cmd, cur, wait, refused, args);
    var a := ActOn(env, c, true, fd, cmd, cur, wait, refused, args);
    if a.change.Some? { CalmQuiet(ValueOpt(cur), ValueOpt(a.change.value.entry), Queue(wait, args[1])); }
  }

  /** Queue contents: who is in `b` was in `a`, or is the new waiter of a blocking command. */
  lemma ActWaiting(env: Env, c: Clock, fd: int, cmd: Cmd, cur: Option<Entry>, wait: Waiting, refused: bool,
                   args: seq<Bytes>)
    requires IsSingle(cmd) && |args| >= MinArgs(cmd) && WaitingOk(wait) && AllIdsOk(wait)
    ensures var a := ActOn(env, c, true, fd, cmd, cur, wait, refused, args); WaitingOk(a.wait) && AllIdsOk(a.wait)
  {
    hide ActPush, ActXadd, ActBlpop, WaitingOk, AllIdsOk;
    match cmd
    case RPUSH => PushWaiting(cur, wait, args, false);
    case LPUSH => PushWaiting(cur, wait, args, true);
    case XADD => XaddWaiting(c, cur, wait, args);
    case BLPOP => BlpopWaiting(env, c, fd, cur, wait, args);
    case _ => ActCalm(env, c, true, fd, cmd, cur, wait, refused, args);
  }

  lemma LeaveIds(w: Waiting, key: Bytes, i: nat)
    requires WaitingOk(w) && AllIdsOk(w) && i < |Queue(w, key)|
    ensures AllIdsOk(Leave(w, key, i))
  {
    hide QueueOk, Representable;
    var q, r := Queue(w, key), Leave(w, key, i);
    WithoutOk(q, i, key, w.next);
    forall k
      ensures IdsOk(Queue(r, k))
    {
      assert IdsOk(Queue(w, k));
      assert k == key ==> Queue(r, k) == Without(q, i);
    }
  }

  lemma {:induction false} PushRestWaiting(p: Pushing, key: Bytes, vals: seq<Bytes>, left: bool)
    requires WaitingOk(p.wait) && AllIdsOk(p.wait)
    ensures var r := PushRest(p, key, vals, left, true); WaitingOk(r.wait) && AllIdsOk(r.wait)
    decreases |vals|
  {
    hide WaitingOk, AllIdsOk, Pop, Leave;
    if vals != [] {
      if Queue(p.wait, key) != [] {
        LeaveOk(p.wait, key, 0);
        LeaveIds(p.wait, key, 0);
        PushRestWaiting(TryWake(p, key), key, vals[1..], left);
      } else {
        var e := Push(p.entry, vals[0], left);
        PushRestWaiting(p.(entry := e.entry, touches := p.touches + e.touches, count := e.out), key, vals[1..], left);
      }
    }
  }

  lemma PushWaiting(cur: Option<Entry>, wait: Waiting, args: seq<Bytes>, left: bool)
    requires |args| >= 3 && WaitingOk(wait) && AllIdsOk(wait)
    ensures var a := ActPush(true, cur, wait, args, left); WaitingOk(a.wait) && AllIdsOk(a.wait)
  {
    hide WaitingOk, AllIdsOk, Pop, Leave, PushRest;
    var e := PushIf(cur, args[2], left);
    if e.out.Some? {
      var p := Pushing(e.entry, e.touches, wait, [], e.out.value);
      if Queue(wait, args[1]) != [] {
        LeaveOk(wait, args[1], 0);
        LeaveIds(wait, args[1], 0);
      }
      var q := if Queue(wait, args[1]) != [] then TryWake(p, args[1]) else p;
      PushRestWaiting(q, args[1], args[3..], left);
    }
  }

  lemma {:induction false} ServeWaiting(wait: Waiting, key: Bytes, id: StreamId, stream: seq<StreamEntry>,
                                        sends: seq<Send>)
    requires WaitingOk(wait) && AllIdsOk(wait)
    ensures var w := ServeReaders(wait, key, id, stream, sends).0; WaitingOk(w) && AllIdsOk(w)
    decreases |Queue(wait, key)|
  {
    hide WaitingOk, AllIdsOk, After, Threshold, IdText;
    var q := Queue(wait, key);
    var i := FirstBehind(q, id);
    if i < |q| {
      LeaveOk(wait, key, i);
      LeaveIds(wait, key, i);
      var rest := WakeBehind(wait, key, id).0;
      ServeWaiting(rest, key, id, stream,
                   sends + [Send(q[i].fd, Streams([(key, After(stream, Threshold(IdText(q[i].lastId))))]))]);
    }
  }

  lemma XaddWaiting(c: Clock, cur: Option<Entry>, wait: Waiting, args: seq<Bytes>)
    requires |args| >= 4 && WaitingOk(wait) && AllIdsOk(wait)
    ensures var a := ActXadd(c, true, cur, wait, args); WaitingOk(a.wait) && AllIdsOk(a.wait)
  {
    hide WaitingOk, AllIdsOk, ServeReaders, XaddIf, ParseId;
    if (|args| - 3) % 2 == 0 {
      var e := XaddIf(cur, args[2], Pairs(args[3..]), c.wall);
      if e.out.Added? && ParseId(e.out.id).Some? && e.entry.Some? && e.entry.value.value.Strm? {
        ServeWaiting(wait, args[1], ParseId(e.out.id).value, e.entry.value.value.stream, []);
      }
    }
  }

  lemma BlpopWaiting(env: Env, c: Clock, fd: int, cur: Option<Entry>, wait: Waiting, args: seq<Bytes>)
    requires |args| >= 3 && WaitingOk(wait) && AllIdsOk(wait)
    ensures var a := ActBlpop(env, c, true, fd, cur, wait, args); WaitingOk(a.wait) && AllIdsOk(a.wait)
  {
    hide WaitingOk, Pop, Block, Queue;
    if env.parse(args[2]).Some? {
      var timeout := env.millis(env.parse(args[2]).value);
      BlockOk(wait, fd, args[1], ZERO, timeout, Popper, c.now);
      BlockQueue(wait, fd, args[1], ZERO, timeout, Popper, c.now);
      var w := Block(wait, fd, args[1], ZERO, timeout, Popper, c.now);
      forall k
        ensures IdsOk(Queue(w, k))
      {
        assert IdsOk(Queue(wait, k));
      }
    }
  }

  /** Every command of a client keeps the promise. */
  lemma ExecSound(env: Env, c: Clock, core: Core, fd: int, cmd: Cmd, args: seq<Bytes>)
    requires |args| >= MinArgs(cmd) && Sound(core, c.now) && ClockOk(c)
    ensures Sound(Exec(env, c, true, core, fd, cmd, args).core, c.now)
  {
    hide DbOk, WaitingOk, AllIdsOk, NoLost, ActOn, GeoRefused, ExecMset, ExecXread, SetPairs, Purge;
    ExecOk(env, c, true, core, fd, cmd, args);
    if cmd.MSET? {
      MsetNoLost(c, core, args);
    } else if cmd.KEYS? {
      PurgeNoLost(core, c.now);
    } else if cmd.XREAD? {
      XreadNoLost(c, core, fd, args);
    } else {
      SingleNoLost(env, c, core, fd, cmd, args);
    }
  }

  lemma SingleNoLost(env: Env, c: Clock, core: Core, fd: int, cmd: Cmd, args: seq<Bytes>)
    requires IsSingle(cmd) && |args| >= MinArgs(cmd) && Sound(core, c.now) && ClockOk(c)
    ensures var r := Exec(env, c, true, core, fd, cmd, args).core; NoLost(r) && WaitingOk(r.wait) && AllIdsOk(r.wait)
  {
    hide DbOk, WaitingOk, AllIdsOk, ActOn, GeoRefused, QueueQuiet, Queue, Find;
    var key := args[1];
    var cur, refused := Find(core.db, key, c.now), GeoRefused(core.db, key, c.now);
    var a := ActOn(env, c, true, fd, cmd, cur, core.wait, refused, args);
    assert QueueQuiet(ValueAt(core.db, key), Queue(core.wait, key));
    LiveQuiet(core.db, key, c.now, Queue(core.wait, key));
    FindOk(core.db, key, c.now);
    ActNoLost(env, c, fd, cmd, cur, core.wait, refused, args, ValueAt(core.db, key));
    ActWaiting(env, c, fd, cmd, cur, core.wait, refused, args);
    PerformNoLost(core, key, a, c.now);
  }

  lemma {:induction false} SetPairsNoLost(core: Core, args: seq<Bytes>, i: nat, now: int)
    requires i <= |args| && (|args| - i) % 2 == 0 && NoLost(core)
    ensures NoLost(Core(SetPairs(core.db, args, i), core.wait))
    decreases |args| - i
  {
    hide QueueQuiet, Queue;
    if i < |args| {
      var e := SetAny(args[i + 1], None);
      StringQuiet(args[i + 1], Queue(core.wait, args[i]));
      PerformNoLost(core, args[i], Act(Some(Change(e.entry, e.touches)), core.wait, None, []), now);
      SetPairsNoLost(Core(Apply(core.db, args[i], e), core.wait), args, i + 2, now);
    }
  }

  lemma StringQuiet(text: Bytes, q: seq<Waiter>)
    ensures QueueQuiet(Some(Str(text)), q)
  {}

  lemma MsetNoLost(c: Clock, core: Core, args: seq<Bytes>)
    requires |args| >= 3 && NoLost(core)
    ensures NoLost(ExecMset(c, core, args).core) && ExecMset(c, core, args).core.wait == core.wait
  {
    hide NoLost, SetPairs, AllTakeStrings;
    if (|args| - 1) % 2 == 0 { SetPairsNoLost(core, args, 1, c.now); }
  }

  lemma PurgeNoLost(core: Core, now: int)
    requires NoLost(core) && DbOk(core.db, now)
    ensures NoLost(core.(db := Purge(core.db, now)))
  {
    hide DbOk, Queue;
    var r := Purge(core.db, now);
    forall k
      ensures QueueQuiet(ValueAt(r, k), Queue(core.wait, k))
    {
      LiveQuiet(core.db, k, now, Queue(core.wait, k));
      assert ValueAt(r, k) == ValueOpt(Find(core.db, k, now));
    }
  }

  // ---------------------------------------------------------------- every run

  lemma NamedSound(env: Env, c: Clock, core: Core, fd: int, name: Bytes, args: seq<Bytes>)
    requires Sound(core, c.now) && ClockOk(c)
    ensures Sound(ExecNamed(env, c, true, core, fd, name, args).core, c.now)
  {
    hide Sound, Lookup, Exec;
    if Lookup(name).Some? && |args| >= MinArgs(Lookup(name).value) {
      ExecSound(env, c, core, fd, Lookup(name).value, args);
    }
  }

  lemma {:induction false} QueuedSound(env: Env, c: Clock, core: Core, fd: int, queued: seq<seq<Bytes>>)
    requires Sound(core, c.now) && ClockOk(c)
    ensures Sound(RunQueued(env, c, true, core, fd, queued).core, c.now)
    decreases |queued|
  {
    hide Sound, ExecNamed;
    if queued != [] {
      var args := queued[0];
      var name := if args == [] then [] else args[0];
      NamedSound(env, c, core, fd, name, args);
      QueuedSound(env, c, ExecNamed(env, c, true, core, fd, name, args).core, fd, queued[1..]);
    }
  }

  lemma StepSound(env: Env, c: Clock, s: Server, fd: int, args: seq<Bytes>)
    requires Sound(s.core, c.now) && ClockOk(c)
    ensures Sound(Step(env, c, true, s, fd, args).server.core, c.now)
  {
    hide Sound, ExecNamed, RunQueued, VerbOf, Dirty, WatchKeys;
    if args != [] {
      NamedSound(env, c, s.core, fd, ToUpper(args[0]), args);
      QueuedSound(env, c, s.core, fd, TxOf(s, fd).queued);
    }
  }

  lemma FewerSound(core: Core, w: Waiting, now: int)
    requires Sound(core, now) && WaitingOk(w)
    requires forall k, x :: x in Queue(w, k) ==> x in Queue(core.wait, k)
    ensures Sound(Core(core.db, w), now)
  {
    hide DbOk, WaitingOk, Quiet, Queue, Representable;
    forall k
      ensures QueueQuiet(ValueAt(core.db, k), Queue(w, k)) && IdsOk(Queue(w, k))
    {
      assert QueueQuiet(ValueAt(core.db, k), Queue(core.wait, k)) && IdsOk(Queue(core.wait, k));
    }
  }

  lemma UnblockFewer(w: Waiting, fd: int)
    requires WaitingOk(w)
    ensures forall k, x :: x in Queue(Unblock(w, fd), k) ==> x in Queue(w, k)
  {
    hide QueueOk;
    if fd in w.index {
      UnblockIsLeave(w, fd);
      var key := w.index[fd].key;
      WithoutOk(Queue(w, key), Position(Queue(w, key), w.index[fd]), key, w.next);
    }
  }

  lemma LaterSound(core: Core, now: int, later: int)
    requires Sound(core, now) && now <= later
    ensures Sound(core, later)
  {
    hide WaitingOk, AllIdsOk, NoLost, EntryOk;
    LaterOk(core.db, now, later);
  }

  /** No lost wake-up: in every state a server reaches, whatever its clients send, in or outside transactions, and
      whoever disconnects or times out, no BLPOP waits on a key whose list has an element, and no XREAD
      recorded with the id it was checked against waits on a stream that holds a newer entry. */
  lemma {:induction false} NoLostWakeup(env: Env, es: seq<Event>, now: int)
    requires Sessions.Timely(now, es)
    ensures Sound(HappenAll(env, FRESH_SERVER, es).core, TimeAfter(now, es))
    decreases |es|
  {
    hide Sound, Step, Expire, Unblock, WaitingOk;
    if es == [] {
      FreshSound(now);
    } else {
      var init, last := es[..|es| - 1], es[|es| - 1];
      NoLostWakeup(env, init, now);
      var s, t := HappenAll(env, FRESH_SERVER, init), TimeAfter(now, init);
      match last
      case Command(c, fd, args) =>
        LaterSound(s.core, t, c.now);
        StepSound(env, c, s, fd, args);
      case Disconnect(fd) =>
        WaitingOfSound(s.core, t);
        UnblockOk(s.core.wait, fd);
        UnblockFewer(s.core.wait, fd);
        FewerSound(s.core, Unblock(s.core.wait, fd), t);
      case Sweep(when) =>
        WaitingOfSound(s.core, t);
        ExpireOk(s.core.wait, when);
        forall k
          ensures forall x :: x in Queue(Expire(s.core.wait, when), k) ==> x in Queue(s.core.wait, k)
        {
          ExpireMembers(s.core.wait, when, k);
        }
        FewerSound(s.core, Expire(s.core.wait, when), t);
    }
  }

  lemma WaitingOfSound(core: Core, now: int)
    requires Sound(core, now)
    ensures WaitingOk(core.wait)
  {}

  lemma FreshSound(now: int)
    ensures Sound(FRESH_SERVER.core, now)
  {}

  // ---------------------------------------------------------------- what woken readers are sent

  lemma ThresholdOfText(id: StreamId)
    requires Representable(id) && id.timestamp >= 0
    ensures Threshold(IdText(id)) == id
  {
    hide ParseInt64, ToText;
    IdRoundTrip(id);
  }

  lemma {:induction false} AfterSnoc(stream: seq<StreamEntry>, x: StreamEntry, id: StreamId)
    ensures After(stream + [x], id) == After(stream, id) + if Less(id, x.parsed) then [x] else []
    decreases |stream|
  {
    hide Less;
    var s := stream + [x];
    if stream != [] {
      AfterSnoc(stream[1..], x, id);
      assert s[1..] == stream[1..] + [x];
    } else {
      assert s[1..] == [];
    }
  }

  predicate InArrivalOrder(q: seq<Waiter>) {
    forall i, j :: 0 <= i < j < |q| ==> q[i].ticket < q[j].ticket
  }

  lemma {:induction false} BehindInOrder(q: seq<Waiter>, id: StreamId)
    requires InArrivalOrder(q)
    ensures InArrivalOrder(Behind(q, id))
    decreases |q|
  {
    hide Less;
    if q != [] {
      BehindInOrder(q[1..], id);
      BehindMembers(q[1..], id);
      var r := Behind(q[1..], id);
      forall i | 0 <= i < |r|
        ensures q[0].ticket < r[i].ticket
      {
        assert r[i] in r && r[i] in q[1..];
      }
      assert InArrivalOrder([q[0]] + r);
    }
  }

  /** A waiting XREAD that is behind a new entry is sent exactly that entry. */
  lemma MessageIsNewEntry(x: Waiter, key: Bytes, stream: seq<StreamEntry>, e: StreamEntry)
    requires x.kind == Reader(true) && Quiet(Some(Strm(stream)), x) && Less(x.lastId, e.parsed)
    requires Representable(x.lastId) && x.lastId.timestamp >= 0
    ensures Message(x, key, stream + [e]) == Send(x.fd, Streams([(key, [e])]))
  {
    hide Less, After, Threshold, IdText;
    ThresholdOfText(x.lastId);
    AfterSnoc(stream, e, x.lastId);
    assert [] + [e] == [e];
  }

  /** `q` waited on `key` before an entry was added that made it `stream`. */
  predicate ReadersServed(o: Outcome, key: Bytes, q: seq<Waiter>, stream: seq<StreamEntry>) {
    stream != [] &&
    var e := stream[|stream| - 1];
    var woken := Behind(q, e.parsed);
    o.reply == Some(Bulk(e.id)) && o.sends == News(woken, key, stream) &&
    InArrivalOrder(woken) &&
    (forall i :: 0 <= i < |woken| && woken[i].kind == Reader(true)
      ==> i < |o.sends| && o.sends[i] == Send(woken[i].fd, Streams([(key, [e])]))) &&
    Queue(o.core.wait, key) == UpToDate(q, e.parsed)
  }

  /** Woken readers: an accepted XADD sends a message to exactly the waiters behind the new entry, in order of
      arrival; every XREAD among them recorded with the id it was checked against gets exactly the new entry; and nobody
      who still waits on the key is behind it. */
  lemma WokenReaders(env: Env, c: Clock, core: Core, fd: int, args: seq<Bytes>)
    requires |args| >= 4 && (|args| - 3) % 2 == 0 && Sound(core, c.now) && ClockOk(c)
    requires XaddIf(Find(core.db, args[1], c.now), args[2], Pairs(args[3..]), c.wall).out.Added?
    ensures
      var o := Exec(env, c, true, core, fd, XADD, args);
      ReadersServed(o, args[1], Queue(core.wait, args[1]), StreamOf(ValueAt(o.core.db, args[1])))
  {
    hide DbOk, WaitingOk, StreamOk, XaddIf, ServeReaders, Behind, UpToDate, Less, Find, AllIdsOk, NoLost, Queue, News,
         IdsOk, QueueQuiet, ActXadd;
    var key, q := args[1], Queue(core.wait, args[1]);
    var cur := Find(core.db, key, c.now);
    FindOk(core.db, key, c.now);
    XaddAppends(cur, args[2], Pairs(args[3..]), c);
    var eff := XaddIf(cur, args[2], Pairs(args[3..]), c.wall);
    var stream := eff.entry.value.value.stream;
    var e := stream[|stream| - 1];
    XaddOutcome(c, cur, core.wait, args, eff.entry.value, eff.touches, eff.out.id, e.parsed, stream);
    ServeReadersDoes(core.wait, key, e.parsed, stream, []);
    assert [] + News(Behind(q, e.parsed), key, stream) == News(Behind(q, e.parsed), key, stream);
    QueueOfSound(core, key, c.now);
    BehindInOrder(q, e.parsed);
    var before := StreamOf(ValueOpt(cur));
    assert stream == before + [e];
    NewsIsNewEntry(q, key, core.wait.next, before, e);
  }

  lemma XaddOutcome(c: Clock, cur: Option<Entry>, wait: Waiting, args: seq<Bytes>, e: Entry, touches: nat, text: Bytes,
                    id: StreamId, stream: seq<StreamEntry>)
    requires |args| >= 4 && |args[3..]| % 2 == 0
    requires XaddIf(cur, args[2], Pairs(args[3..]), c.wall) == Effect(Some(e), touches, Added(text))
    requires ParseId(text) == Some(id) && e.value == Strm(stream)
    ensures
      var (rest, sends) := ServeReaders(wait, args[1], id, stream, []);
      ActXadd(c, true, cur, wait, args) == Act(Some(Change(Some(e), touches)), rest, Some(Bulk(text)), sends)
  {
    hide XaddIf, ServeReaders, ParseId;
  }

  lemma NewsIsNewEntry(q: seq<Waiter>, key: Bytes, next: nat, before: seq<StreamEntry>, e: StreamEntry)
    requires QueueOk(q, key, next) && IdsOk(q) && QueueQuiet(Some(Strm(before)), q)
    ensures var woken := Behind(q, e.parsed);
      forall i :: 0 <= i < |woken| && woken[i].kind == Reader(true)
        ==> News(woken, key, before + [e])[i] == Send(woken[i].fd, Streams([(key, [e])]))
  {
    hide Behind, Message, Less;
    var woken, stream := Behind(q, e.parsed), before + [e];
    BehindMembers(q, e.parsed);
    forall i | 0 <= i < |woken| && woken[i].kind == Reader(true)
      ensures Message(woken[i], key, stream) == Send(woken[i].fd, Streams([(key, [e])]))
    {
      assert woken[i] in woken;
      MessageIsNewEntry(woken[i], key, before, e);
    }
  }

  lemma QueueOfSound(core: Core, key: Bytes, now: int)
    requires Sound(core, now)
    ensures var q := Queue(core.wait, key);
      QueueOk(q, key, core.wait.next) && IdsOk(q) &&
      QueueQuiet(Some(Strm(StreamOf(ValueOpt(Find(core.db, key, now))))), q)
  {
    hide DbOk;
    LiveQuiet(core.db, key, now, Queue(core.wait, key));
  }

  const EXAMPLE_ENTRY: StreamEntry := StreamEntry("3-1", StreamId(3, 1), [("f", "v")])

  /** Why the id matters, in a run from the empty server: after XADD k 3-1 f v, XREAD BLOCK with the bare id `5` is
      recorded as 0-0, and so waits on a stream that holds an entry newer than that. */
  lemma BareIdExample(env: Env)
    ensures
      var s := Step(env, Clock(0, 0), true, FRESH_SERVER, 1, ["XADD", "k", "3-1", "f", "v"]).server;
      var o := Step(env, Clock(0, 0), true, s, 7, ["XREAD", "BLOCK", "0", "STREAMS", "k", "5"]);
      o.reply == None && |Queue(o.server.core.wait, "k")| == 1 && Queue(o.server.core.wait, "k")[0].lastId == ZERO &&
      StreamOf(ValueAt(o.server.core.db, "k")) == [EXAMPLE_ENTRY] && After([EXAMPLE_ENTRY], ZERO) == [EXAMPLE_ENTRY]
  {
    hide Step, Exec, VerbOf, Lookup, ToUpper, After;
    ExampleNames();
    var args := ["XREAD", "BLOCK", "0", "STREAMS", "k", "5"];
    ExampleStream(env);
    var s := Step(env, Clock(0, 0), true, FRESH_SERVER, 1, ["XADD", "k", "3-1", "f", "v"]).server;
    DataStep(env, s, 7, XREAD, args);
    BareIdWaits(env, s.core);
  }

  lemma ExampleNames()
    ensures ToUpper("XADD") == "XADD" && VerbOf("XADD") == Data && Lookup("XADD") == Some(XADD)
    ensures ToUpper("XREAD") == "XREAD" && VerbOf("XREAD") == Data && Lookup("XREAD") == Some(XREAD)
  {}

  lemma DataStep(env: Env, s: Server, fd: int, cmd: Cmd, args: seq<Bytes>)
    requires |args| >= MinArgs(cmd) && args != [] && s.txs == map[]
    requires VerbOf(ToUpper(args[0])) == Data && Lookup(ToUpper(args[0])) == Some(cmd)
    ensures var o := Exec(env, Clock(0, 0), true, s.core, fd, cmd, args);
      Step(env, Clock(0, 0), true, s, fd, args) == StepOut(s.(core := o.core), o.reply, o.sends)
  {
    hide Exec, VerbOf, Lookup, ToUpper;
  }

  lemma ExampleStream(env: Env)
    ensures var s := Step(env, Clock(0, 0), true, FRESH_SERVER, 1, ["XADD", "k", "3-1", "f", "v"]).server;
      s.core.db.data == map["k" := Entry(Strm([EXAMPLE_ENTRY]), None)] && s.core.wait == NO_WAITERS && s.txs == map[]
  {
    hide Step, VerbOf, Lookup, ToUpper, ParseId, ParseInt64;
    ExampleNames();
    var args := ["XADD", "k", "3-1", "f", "v"];
    DataStep(env, FRESH_SERVER, 1, XADD, args);
    ExampleId();
    assert args[3..] == ["f", "v"] && ["f", "v"][2..] == [];
    assert Pairs(args[3..]) == [("f", "v")];
    assert [] + [EXAMPLE_ENTRY] == [EXAMPLE_ENTRY];
  }

  lemma ExampleId()
    ensures ParseId("3-1") == Some(StreamId(3, 1))
  {
    hide ParseId, ParseInt64;
    IdRoundTrip(StreamId(3, 1));
    assert ToText(3) == "3" && ToText(1) == "1";
    assert IdText(StreamId(3, 1)) == "3-1";
  }

  lemma BareIdWaits(env: Env, core: Core)
    requires core.db.data == map["k" := Entry(Strm([EXAMPLE_ENTRY]), None)] && core.wait == NO_WAITERS
    ensures
      var o := Exec(env, Clock(0, 0), true, core, 7, XREAD, ["XREAD", "BLOCK", "0", "STREAMS", "k", "5"]);
      o.reply == None && |Queue(o.core.wait, "k")| == 1 && Queue(o.core.wait, "k")[0].lastId == ZERO &&
      StreamOf(ValueAt(o.core.db, "k")) == [EXAMPLE_ENTRY] && After([EXAMPLE_ENTRY], ZERO) == [EXAMPLE_ENTRY]
  {
    hide After, ParseRead, Threshold, ParseId, ParseInt64;
    var e, db := EXAMPLE_ENTRY, core.db;
    var args := ["XREAD", "BLOCK", "0", "STREAMS", "k", "5"];
    ExampleArgs();
    ExampleReads();
    assert StreamAt(db, "k", 0) == [e] && ResolveId([e], "5") == "5";
    assert ["k"][1..] == [] && ["5"][1..] == [];
    assert ReadAll(db, ["k"], ["5"], 0) == [("k", [])];
    assert Visit(db, ["k"], 0) == db;
  }

  lemma ExampleArgs()
    ensures ParseRead(["XREAD", "BLOCK", "0", "STREAMS", "k", "5"]) == ReadOk(Some(0), ["k"], ["5"])
    ensures ParseId("5") == None && Threshold("5") == StreamId(5, 0)
  {
    var args := ["XREAD", "BLOCK", "0", "STREAMS", "k", "5"];
    assert ToUpper(args[1]) == "BLOCK" && ToUpper(args[3]) == "STREAMS";
    assert ParseInt64("0") == Some(0) by { ParseToText(0); assert ToText(0) == "0"; }
    assert ParseInt64("5") == Some(5) by { ParseToText(5); assert ToText(5) == "5"; }
    assert args[4..5] == ["k"] && args[5..] == ["5"];
  }

  lemma ExampleReads()
    ensures After([EXAMPLE_ENTRY], StreamId(5, 0)) == [] && After([EXAMPLE_ENTRY], ZERO) == [EXAMPLE_ENTRY]
  {
    var e := EXAMPLE_ENTRY;
    assert [e][1..] == [] && [e][0] == e;
    assert Less(ZERO, e.parsed) && !Less(StreamId(5, 0), e.parsed);
    assert [e] + [] == [e];
  }

  // ---------------------------------------------------------------- what a push hands over

  /** The list elements sent to woken clients. */
  function Delivered(sends: seq<Send>): (r: seq<Bytes>) {
    if sends == [] then []
    else
      var last := sends[|sends| - 1].reply;
      Delivered(sends[..|sends| - 1]) + if last.Array? && |last.items| == 2 then [last.items[1]] else []
  }

  /** Everything a push has stored or sent so far. */
  function Accounted(p: Pushing): (r: multiset<Bytes>) {
    multiset(ItemsOf(ValueOpt(p.entry))) + multiset(Delivered(p.sends))
  }

  lemma TryWakeAccounts(p: Pushing, key: Bytes)
    requires Queue(p.wait, key) != [] && p.entry.Some? && p.entry.value.value.Lst?
    ensures Accounted(TryWake(p, key)) == Accounted(p)
  {
    hide Wake;
    var items := p.entry.value.value.items;
    if items != [] {
      var r := TryWake(p, key);
      assert items == [items[0]] + items[1..];
      assert r.sends[..|r.sends| - 1] == p.sends;
    } else {
      assert items[0..] == items;
    }
  }

  lemma PushAccounts(p: Pushing, v: Bytes, left: bool)
    requires p.entry.Some? && p.entry.value.value.Lst?
    ensures var e := Push(p.entry, v, left);
      Accounted(p.(entry := e.entry, touches := p.touches + e.touches, count := e.out)) == Accounted(p) + multiset{v}
  {}

  lemma StillAList(p: Pushing, key: Bytes, v: Bytes, left: bool)
    requires p.entry.Some? && p.entry.value.value.Lst?
    ensures var e := Push(p.entry, v, left).entry; e.Some? && e.value.value.Lst?
    ensures Queue(p.wait, key) != [] ==>
      var q := TryWake(p, key);
      q.entry.Some? && q.entry.value.value.Lst? && Queue(q.wait, key) == Queue(p.wait, key)[1..]
  {
    hide Wake;
    if Queue(p.wait, key) != [] { WakeQueue(p.wait, key); }
  }

  /** As many of the remaining values are dropped as there are waiters left. */
  function Dropped(waiters: nat, values: nat): (n: nat)
    ensures n <= values
  {
    if waiters < values then waiters else values
  }

  function From(vals: seq<Bytes>, n: nat): (r: multiset<Bytes>)
    requires n <= |vals|
  {
    multiset(vals[n..])
  }

  lemma FromNext(vals: seq<Bytes>, n: nat)
    requires n <= |vals|
    ensures vals == [] ==> From(vals, n) == multiset{}
    ensures vals != [] && n > 0 ==> From(vals, n) == From(vals[1..], n - 1)
    ensures vals != [] && n == 0 ==> From(vals, 0) == multiset{vals[0]} + From(vals[1..], 0)
  {
    if vals == [] {
      assert vals[n..] == [];
    } else if n > 0 {
      assert vals[1..][n - 1..] == vals[n..];
    } else {
      assert vals[0..] == [vals[0]] + vals[1..] && vals[1..][0..] == vals[1..];
    }
  }

  lemma {:induction false} PushRestAccounts(p: Pushing, key: Bytes, vals: seq<Bytes>, left: bool)
    requires p.entry.Some? && p.entry.value.value.Lst?
    ensures Accounted(PushRest(p, key, vals, left, true))
         == Accounted(p) + From(vals, Dropped(|Queue(p.wait, key)|, |vals|))
    decreases |vals|
  {
    hide Accounted, Wake, TryWake, Push, Queue, From;
    var n := Dropped(|Queue(p.wait, key)|, |vals|);
    FromNext(vals, n);
    if vals == [] {
    } else if Queue(p.wait, key) != [] {
      StillAList(p, key, vals[0], left);
      TryWakeAccounts(p, key);
      PushRestAccounts(TryWake(p, key), key, vals[1..], left);
    } else {
      var e := Push(p.entry, vals[0], left);
      StillAList(p, key, vals[0], left);
      PushAccounts(p, vals[0], left);
      PushRestAccounts(p.(entry := e.entry, touches := p.touches + e.touches, count := e.out), key, vals[1..], left);
    }
  }

  /** Who gets what when one value is pushed while somebody waits: the front waiter is sent the head of the list as it is
      after the push, the rest stays, and nobody else leaves a queue. */
  lemma PushFeedsFront(cur: Option<Entry>, wait: Waiting, args: seq<Bytes>, left: bool)
    requires |args| == 3 && (cur.Some? ==> cur.value.value.Lst?) && Queue(wait, args[1]) != []
    ensures
      var a := ActPush(true, cur, wait, args, left);
      var key, before := args[1], ItemsOf(ValueOpt(cur));
      var all := if left then [args[2]] + before else before + [args[2]];
      a.reply == Some(Integer(|all|)) && a.sends == [Send(Queue(wait, key)[0].fd, Array([key, all[0]]))] &&
      a.change.Some? && ItemsOf(ValueOpt(a.change.value.entry)) == all[1..] &&
      Queue(a.wait, key) == Queue(wait, key)[1..] && forall k :: k != key ==> Queue(a.wait, k) == Queue(wait, k)
  {
    hide Wake;
    var key := args[1];
    assert args[3..] == [];
    WakeQueue(wait, key);
    OthersStay(wait, key);
    var e := PushIf(cur, args[2], left);
    assert [] + [Send(Queue(wait, key)[0].fd, Array([key, ItemsOf(ValueOpt(e.entry))[0]]))]
        == [Send(Queue(wait, key)[0].fd, Array([key, ItemsOf(ValueOpt(e.entry))[0]]))];
  }

  lemma OthersStay(wait: Waiting, key: Bytes)
    ensures forall k :: k != key ==> Queue(Wake(wait, key).0, k) == Queue(wait, k)
  {}

  /** A push hands over every value it was given, to the list or to woken clients, exactly when it has one value
      or at most one client waits: otherwise each further waiter uses up a value without storing or sending it. */
  lemma PushHandsOver(cur: Option<Entry>, wait: Waiting, args: seq<Bytes>, left: bool)
    requires |args| >= 3 && (cur.Some? ==> cur.value.value.Lst?)
    ensures
      var a := ActPush(true, cur, wait, args, left);
      a.change.Some? &&
      (multiset(ItemsOf(ValueOpt(a.change.value.entry))) + multiset(Delivered(a.sends))
         == multiset(ItemsOf(ValueOpt(cur))) + multiset(args[2..])
       <==> |args| == 3 || |Queue(wait, args[1])| <= 1)
  {
    hide PushRest, TryWake, Wake, Accounted, Delivered;
    var key, rest := args[1], args[3..];
    var e := PushIf(cur, args[2], left);
    var p := Pushing(e.entry, e.touches, wait, [], e.out.value);
    FirstValueAccounted(cur, wait, args[2], left);
    var q := if Queue(wait, key) != [] then TryWake(p, key) else p;
    if Queue(wait, key) != [] {
      WakeQueue(wait, key);
      TryWakeAccounts(p, key);
      TryWakeKeeps(p, key);
    }
    PushRestAccounts(q, key, rest, left);
    var n := Dropped(|Queue(q.wait, key)|, |rest|);
    var r := PushRest(q, key, rest, left, true);
    assert Accounted(r) == multiset(ItemsOf(ValueOpt(cur))) + multiset{args[2]} + multiset(rest[n..]);
    assert args[2..] == [args[2]] + rest;
    DroppedMatters(multiset(ItemsOf(ValueOpt(cur))), args[2], rest, n);
    AccountedIs(r);
  }

  lemma AccountedIs(p: Pushing)
    ensures Accounted(p) == multiset(ItemsOf(ValueOpt(p.entry))) + multiset(Delivered(p.sends))
  {}

  lemma FirstValueAccounted(cur: Option<Entry>, wait: Waiting, v: Bytes, left: bool)
    requires cur.Some? ==> cur.value.value.Lst?
    ensures var e := PushIf(cur, v, left);
      e.out.Some? && Accounted(Pushing(e.entry, e.touches, wait, [], e.out.value))
                     == multiset(ItemsOf(ValueOpt(cur))) + multiset{v}
  {
    PushAccounts(Pushing(Some(ListEntry(cur)), 0, wait, [], 0), v, left);
  }

  lemma DroppedMatters(before: multiset<Bytes>, first: Bytes, rest: seq<Bytes>, n: nat)
    requires n <= |rest|
    ensures before + multiset{first} + multiset(rest[n..]) == before + multiset([first] + rest) <==> n == 0
  {
    assert rest == rest[..n] + rest[n..];
    assert |multiset(rest[..n])| == n;
    var gap := multiset(rest[..n]);
    assert before + multiset([first] + rest) == before + multiset{first} + multiset(rest[n..]) + gap;
    assert |before + multiset([first] + rest)| == |before + multiset{first} + multiset(rest[n..])| + n;
  }

  lemma TryWakeKeeps(p: Pushing, key: Bytes)
    requires Queue(p.wait, key) != [] && p.entry.Some? && p.entry.value.value.Lst?
    ensures var r := TryWake(p, key);
      r.entry.Some? && r.entry.value.value.Lst? && r.wait == Wake(p.wait, key).0
  {
    hide Wake;
  }
}
