/** Blocked clients (src/blocking_manager): one FIFO queue per key, and an index from a client's descriptor to
    the list node of its latest wait. A list node is identified by the ticket it got on arrival. `kind` records
    which command is waiting; the code keeps no such tag, and nothing here branches on it. */
module Blocking {
  import opened Base
  import opened StreamIds

  /** `exact`: `lastId` is the id that the XREAD was checked against. */
  datatype WaitKind = Popper | Reader(exact: bool)

  /** A wait without deadline (`time_point::max`) has deadline None. */
  datatype Waiter =
    Waiter(fd: int, key: Bytes, deadline: Option<int>, lastId: StreamId, kind: WaitKind, ticket: nat)

  datatype Waiting = Waiting(queues: map<Bytes, seq<Waiter>>, index: map<int, Waiter>, next: nat)

  const NO_WAITERS: Waiting := Waiting(map[], map[], 0)

  function Queue(w: Waiting, key: Bytes): (q: seq<Waiter>) {
    if key in w.queues then w.queues[key] else []
  }

  /** Replace a queue; an empty one is erased. */
  function PutQueue(queues: map<Bytes, seq<Waiter>>, key: Bytes, q: seq<Waiter>): (r: map<Bytes, seq<Waiter>>) {
    if q == [] then queues - {key} else queues[key := q]
  }

  function NewWaiter(w: Waiting, fd: int, key: Bytes, lastId: StreamId, timeout: int, kind: WaitKind, now: int)
    : (r: Waiter)
  {
    Waiter(fd, key, if timeout == 0 then None else Some(now + timeout), lastId, kind, w.next)
  }

  /** `block_client_for_stream`; `block_client` is the same with a zero id. */
  function Block(w: Waiting, fd: int, key: Bytes, lastId: StreamId, timeout: int, kind: WaitKind, now: int)
    : (r: Waiting)
  {
    var x := NewWaiter(w, fd, key, lastId, timeout, kind, now);
    Waiting(w.queues[key := Queue(w, key) + [x]], w.index[fd := x], w.next + 1)
  }

  function Without(q: seq<Waiter>, i: nat): (r: seq<Waiter>)
    requires i < |q|
  {
    q[..i] + q[i + 1..]
  }

  function Leave(w: Waiting, key: Bytes, i: nat): (r: Waiting)
    requires i < |Queue(w, key)|
  {
    w.(queues := PutQueue(w.queues, key, Without(Queue(w, key), i)), index := w.index - {Queue(w, key)[i].fd})
  }

  /** `wake_client`: the front of the queue leaves. */
  function Wake(w: Waiting, key: Bytes): (r: (Waiting, Option<Waiter>)) {
    if Queue(w, key) == [] then (w, None) else (Leave(w, key, 0), Some(Queue(w, key)[0]))
  }

  /** Position of the first waiter that has not seen `id`, or the queue's length. */
  function FirstBehind(q: seq<Waiter>, id: StreamId): (i: nat)
    ensures i <= |q|
    ensures forall j :: 0 <= j < i ==> !Less(q[j].lastId, id)
    ensures i < |q| ==> Less(q[i].lastId, id)
  {
    if q == [] || Less(q[0].lastId, id) then 0 else 1 + FirstBehind(q[1..], id)
  }

  /** `wake_client_for_stream`: the first waiter behind `id` leaves. */
  function WakeBehind(w: Waiting, key: Bytes, id: StreamId): (r: (Waiting, Option<Waiter>)) {
    var q := Queue(w, key);
    var i := FirstBehind(q, id);
    if i == |q| then (w, None) else (Leave(w, key, i), Some(q[i]))
  }

  predicate Overdue(x: Waiter, now: int) {
    x.deadline.Some? && x.deadline.value <= now
  }

  function Patient(q: seq<Waiter>, now: int): (r: seq<Waiter>)
    ensures forall x :: x in r <==> x in q && !Overdue(x, now)
  {
    if q == [] then [] else if Overdue(q[0], now) then Patient(q[1..], now) else [q[0]] + Patient(q[1..], now)
  }

  function OverdueFds(q: seq<Waiter>, now: int): (r: seq<int>)
    ensures forall fd :: fd in r <==> exists x :: x in q && Overdue(x, now) && x.fd == fd
  {
    if q == [] then []
    else
      assert forall x :: x in q <==> x == q[0] || x in q[1..];
      if Overdue(q[0], now) then [q[0].fd] + OverdueFds(q[1..], now) else OverdueFds(q[1..], now)
  }

  ghost predicate ExpiredFd(w: Waiting, fd: int, now: int) {
    exists k :: k in w.queues && fd in OverdueFds(w.queues[k], now)
  }

  /** `get_expired_clients`: every overdue waiter leaves. */
  ghost function Expire(w: Waiting, now: int): (r: Waiting) {
    w.(queues := map k | k in w.queues && Patient(w.queues[k], now) != [] :: Patient(w.queues[k], now),
       index := map fd | fd in w.index && !ExpiredFd(w, fd, now) :: w.index[fd])
  }

  function Position(q: seq<Waiter>, x: Waiter): (i: nat)
    requires x in q
    ensures i < |q| && q[i] == x
  {
    if q[0] == x then 0 else 1 + Position(q[1..], x)
  }

  /** `unblock_client`: the node the index knows leaves. */
  function Unblock(w: Waiting, fd: int): (r: Waiting) {
    if fd !in w.index then w
    else
      var x := w.index[fd];
      var q := Queue(w, x.key);
      if x in q then w.(queues := PutQueue(w.queues, x.key, Without(q, Position(q, x))), index := w.index - {fd})
      else w.(index := w.index - {fd})
  }

  // ---------------------------------------------------------------- invariants

  /** In arrival order, each node once, each under its own key. */
  predicate QueueOk(q: seq<Waiter>, key: Bytes, next: nat) {
    (forall i, j :: 0 <= i < j < |q| ==> q[i].ticket < q[j].ticket) &&
    (forall i :: 0 <= i < |q| ==> q[i].key == key && q[i].ticket < next)
  }

  /** No empty queues; every index entry points to a live queue node with that descriptor and key. */
  predicate WaitingOk(w: Waiting) {
    (forall k :: k in w.queues ==> w.queues[k] != [] && QueueOk(w.queues[k], k, w.next)) &&
    (forall fd :: fd in w.index ==> w.index[fd].fd == fd && w.index[fd] in Queue(w, w.index[fd].key))
  }

  /** The other direction: every queue node is the one the index knows for its descriptor. */
  predicate Bijective(w: Waiting) {
    forall k, i :: k in w.queues && 0 <= i < |w.queues[k]|
      ==> w.queues[k][i].fd in w.index && w.index[w.queues[k][i].fd] == w.queues[k][i]
  }

  lemma WithoutOk(q: seq<Waiter>, i: nat, key: Bytes, next: nat)
    requires i < |q| && QueueOk(q, key, next)
    ensures QueueOk(Without(q, i), key, next)
    ensures forall x :: x in Without(q, i) <==> x in q && x != q[i]
  {
    WithoutMembers(q, i, key, next);
  }

  lemma WithoutMembers(q: seq<Waiter>, i: nat, key: Bytes, next: nat)
    requires i < |q| && QueueOk(q, key, next)
    ensures forall x :: x in Without(q, i) <==> x in q && x != q[i]
  {
    var r := Without(q, i);
    forall x
      ensures x in r <==> x in q && x != q[i]
    {
      if x in q && x != q[i] {
        var j :| 0 <= j < |q| && q[j] == x;
        assert x == r[if j < i then j else j - 1];
      }
      if x in r {
        var j :| 0 <= j < |r| && r[j] == x;
        assert x == q[if j < i then j else j + 1];
      }
    }
  }

  lemma BlockOk(w: Waiting, fd: int, key: Bytes, lastId: StreamId, timeout: int, kind: WaitKind, now: int)
    requires WaitingOk(w)
    ensures WaitingOk(Block(w, fd, key, lastId, timeout, kind, now))
  {
    var q, r := Queue(w, key), Block(w, fd, key, lastId, timeout, kind, now);
    var x := NewWaiter(w, fd, key, lastId, timeout, kind, now);
    assert Queue(r, key) == q + [x];
    forall f | f in r.index
      ensures r.index[f].fd == f && r.index[f] in Queue(r, r.index[f].key)
    {
      if f == fd {
        assert (q + [x])[|q|] == x;
      } else if w.index[f].key == key {
        var j :| 0 <= j < |q| && q[j] == w.index[f];
        assert (q + [x])[j] == w.index[f];
      }
    }
  }

  /** Queues and index stay in bijection exactly when the client was not already waiting. */
  lemma BlockBijective(w: Waiting, fd: int, key: Bytes, lastId: StreamId, timeout: int, kind: WaitKind, now: int)
    requires WaitingOk(w) && Bijective(w)
    ensures Bijective(Block(w, fd, key, lastId, timeout, kind, now)) <==> fd !in w.index
  {
    var q, r := Queue(w, key), Block(w, fd, key, lastId, timeout, kind, now);
    var x := NewWaiter(w, fd, key, lastId, timeout, kind, now);
    if fd in w.index {
      var old_ := w.index[fd];
      var p := Queue(w, old_.key);
      var i :| 0 <= i < |p| && p[i] == old_;
      assert r.queues[old_.key][i] == old_ && old_ != x;
    } else {
      forall k, i | k in r.queues && 0 <= i < |r.queues[k]|
        ensures r.queues[k][i].fd in r.index && r.index[r.queues[k][i].fd] == r.queues[k][i]
      {
        if k == key && i == |q| {
          assert r.queues[k][i] == x;
        } else {
          assert r.queues[k][i] == w.queues[k][i];
        }
      }
    }
  }

  lemma LeaveOk(w: Waiting, key: Bytes, i: nat)
    requires WaitingOk(w) && i < |Queue(w, key)|
    ensures WaitingOk(Leave(w, key, i))
    ensures Bijective(w) ==> Bijective(Leave(w, key, i))
  {
    hide QueueOk;
    var q, r := Queue(w, key), Leave(w, key, i);
    WithoutOk(q, i, key, w.next);
    assert Queue(r, key) == Without(q, i);
    if Bijective(w) {
      forall k, j | k in r.queues && 0 <= j < |r.queues[k]|
        ensures r.queues[k][j].fd in r.index && r.index[r.queues[k][j].fd] == r.queues[k][j]
      {
        var x := r.queues[k][j];
        assert x in r.queues[k];
        InQueue(w, k, x);
        assert q[i] == w.queues[key][i];
        if k != key { DifferentKeys(w, k, x, key, i); }
      }
    }
  }

  lemma InQueue(w: Waiting, k: Bytes, x: Waiter)
    requires Bijective(w) && k in w.queues && x in w.queues[k]
    ensures x.fd in w.index && w.index[x.fd] == x
  {
    var j :| 0 <= j < |w.queues[k]| && w.queues[k][j] == x;
  }

  lemma DifferentKeys(w: Waiting, k: Bytes, x: Waiter, key: Bytes, i: nat)
    requires WaitingOk(w) && k in w.queues && x in w.queues[k] && i < |Queue(w, key)| && k != key
    ensures x != Queue(w, key)[i]
  {
    assert QueueOk(w.queues[k], k, w.next) && QueueOk(w.queues[key], key, w.next);
  }

  /** `wake_client` and `wake_client_for_stream` keep both invariants. */
  lemma WakeOk(w: Waiting, key: Bytes, id: StreamId)
    requires WaitingOk(w)
    ensures WaitingOk(Wake(w, key).0) && WaitingOk(WakeBehind(w, key, id).0)
    ensures Bijective(w) ==> Bijective(Wake(w, key).0) && Bijective(WakeBehind(w, key, id).0)
  {
    hide Leave, WaitingOk, Bijective;
    var q := Queue(w, key);
    if q != [] {
      LeaveOk(w, key, 0);
      var i := FirstBehind(q, id);
      if i < |q| { LeaveOk(w, key, i); }
    }
  }

  lemma LeftBehind(q: seq<Waiter>, i: nat, key: Bytes, next: nat, y: Waiter)
    requires QueueOk(q, key, next) && i < |q| && y in Without(q, i)
    requires forall j :: 0 <= j < i ==> q[j] != y
    ensures q[i].ticket < y.ticket && y in q
  {
    WithoutOk(q, i, key, next);
    var j :| 0 <= j < |q| && q[j] == y;
  }

  /** First in, first out: whoever is woken arrived before everyone who stays in that queue. */
  lemma WakeIsFifo(w: Waiting, key: Bytes)
    requires WaitingOk(w)
    ensures var (r, x) := Wake(w, key);
      (x.None? <==> Queue(w, key) == []) &&
      (x.Some? ==> forall y :: y in Queue(r, key) ==> x.value.ticket < y.ticket)
  {
    hide QueueOk, Without;
    var q := Queue(w, key);
    if q != [] {
      assert Queue(Wake(w, key).0, key) == Without(q, 0);
      forall y | y in Without(q, 0)
        ensures q[0].ticket < y.ticket
      {
        LeftBehind(q, 0, key, w.next, y);
      }
    }
  }

  /** For a stream: whoever is woken was behind, and arrived before everyone who stays and was behind too. */
  lemma WakeBehindIsFifo(w: Waiting, key: Bytes, id: StreamId)
    requires WaitingOk(w)
    ensures var (r, x) := WakeBehind(w, key, id);
      (x.None? <==> forall y :: y in Queue(w, key) ==> !Less(y.lastId, id)) &&
      (x.Some? ==> Less(x.value.lastId, id) &&
                   forall y :: y in Queue(r, key) && Less(y.lastId, id) ==> x.value.ticket < y.ticket)
  {
    hide QueueOk, Without, Less;
    var q := Queue(w, key);
    var i := FirstBehind(q, id);
    if i < |q| {
      assert q[i] in q;
      assert Queue(WakeBehind(w, key, id).0, key) == Without(q, i);
      forall y | y in Without(q, i) && Less(y.lastId, id)
        ensures q[i].ticket < y.ticket
      {
        LeftBehind(q, i, key, w.next, y);
      }
    }
  }

  lemma UnblockOk(w: Waiting, fd: int)
    requires WaitingOk(w)
    ensures WaitingOk(Unblock(w, fd)) && fd !in Unblock(w, fd).index
    ensures Bijective(w) ==> Bijective(Unblock(w, fd))
    ensures Bijective(w) ==> forall k :: forall x :: x in Queue(Unblock(w, fd), k) ==> x.fd != fd
  {
    hide Leave, Bijective, QueueOk;
    if fd in w.index {
      var x := w.index[fd];
      var q := Queue(w, x.key);
      LeaveOk(w, x.key, Position(q, x));
      UnblockIsLeave(w, fd);
    }
    var r := Unblock(w, fd);
    if Bijective(w) {
      assert Bijective(r);
      forall k, x | x in Queue(r, k)
        ensures x.fd != fd
      {
        InQueue(r, k, x);
      }
    }
  }

  lemma UnblockIsLeave(w: Waiting, fd: int)
    requires WaitingOk(w) && fd in w.index
    ensures w.index[fd] in Queue(w, w.index[fd].key)
    ensures Unblock(w, fd) == Leave(w, w.index[fd].key, Position(Queue(w, w.index[fd].key), w.index[fd]))
  {}

  lemma {:induction false} PatientOk(q: seq<Waiter>, now: int, key: Bytes, next: nat)
    requires QueueOk(q, key, next)
    ensures QueueOk(Patient(q, now), key, next)
    decreases |q|
  {
    if q != [] {
      assert QueueOk(q[1..], key, next);
      PatientOk(q[1..], now, key, next);
      var r := Patient(q[1..], now);
      forall i | 0 <= i < |r|
        ensures q[0].ticket < r[i].ticket
      {
        assert r[i] in r && r[i] in q[1..];
      }
    }
  }

  /** Exactly the overdue waiters leave, so nothing that stays is overdue. */
  lemma ExpireMembers(w: Waiting, now: int, k: Bytes)
    ensures forall x :: x in Queue(Expire(w, now), k) <==> x in Queue(w, k) && !Overdue(x, now)
  {
    hide Overdue;
  }

  /** Every finite deadline lies after `now`. */
  predicate NoneOverdue(w: Waiting, now: int) {
    forall k, x :: k in w.queues && x in w.queues[k] && x.deadline.Some? ==> now < x.deadline.value
  }

  lemma SweepLeavesNone(w: Waiting, now: int)
    ensures NoneOverdue(Expire(w, now), now)
  {
    hide Patient;
    var r := Expire(w, now);
    forall k, x | k in r.queues && x in r.queues[k] && x.deadline.Some?
      ensures now < x.deadline.value
    {
      ExpireMembers(w, now, k);
      assert x in Queue(r, k);
    }
  }

  /** Whoever arrived with this ticket still waits on the key. */
  predicate StillWaits(w: Waiting, key: Bytes, ticket: nat) {
    exists x :: x in Queue(w, key) && x.ticket == ticket
  }

  /** A client that starts to wait at `now` is let go by a sweep at `t` exactly when it set a timeout that is over by
      then; a zero timeout is none. */
  lemma WaitsUntil(w: Waiting, fd: int, key: Bytes, lastId: StreamId, timeout: int, kind: WaitKind, now: int, t: int)
    requires WaitingOk(w)
    ensures var r := Block(w, fd, key, lastId, timeout, kind, now);
      StillWaits(r, key, w.next) && (StillWaits(Expire(r, t), key, w.next) <==> timeout == 0 || t < now + timeout)
  {
    hide Patient, OverdueFds;
    var r := Block(w, fd, key, lastId, timeout, kind, now);
    var q := Queue(r, key);
    var x := q[|q| - 1];
    assert x in q && x.ticket == w.next;
    ExpireMembers(r, t, key);
    assert forall y :: y in q && y.ticket == w.next ==> y == x;
    assert StillWaits(Expire(r, t), key, w.next) <==> !Overdue(x, t);
  }

  lemma ExpireOk(w: Waiting, now: int)
    requires WaitingOk(w)
    ensures WaitingOk(Expire(w, now))
  {
    hide QueueOk, Overdue;
    var r := Expire(w, now);
    forall k | k in r.queues
      ensures r.queues[k] != [] && QueueOk(r.queues[k], k, r.next)
    {
      PatientOk(w.queues[k], now, k, w.next);
    }
    forall fd | fd in r.index
      ensures r.index[fd] in Queue(r, r.index[fd].key)
    {
      var x := w.index[fd];
      ExpireMembers(w, now, x.key);
      assert x in w.queues[x.key];
      assert fd !in OverdueFds(w.queues[x.key], now);
    }
  }

  lemma ExpireBijective(w: Waiting, now: int)
    requires WaitingOk(w) && Bijective(w)
    ensures Bijective(Expire(w, now))
  {
    hide QueueOk, Overdue, ExpiredFd, WaitingOk;
    var r := Expire(w, now);
    forall k, i | k in r.queues && 0 <= i < |r.queues[k]|
      ensures r.queues[k][i].fd in r.index && r.index[r.queues[k][i].fd] == r.queues[k][i]
    {
      var x := r.queues[k][i];
      ExpireMembers(w, now, k);
      assert x in r.queues[k] && x in w.queues[k];
      InQueue(w, k, x);
      NotExpired(w, k, x, now);
    }
  }

  lemma NotExpired(w: Waiting, k: Bytes, x: Waiter, now: int)
    requires WaitingOk(w) && Bijective(w) && k in w.queues && x in w.queues[k] && !Overdue(x, now)
    ensures !ExpiredFd(w, x.fd, now)
  {
    hide QueueOk, Overdue;
    InQueue(w, k, x);
    forall j, y | j in w.queues && y in w.queues[j] && y.fd == x.fd
      ensures y == x
    {
      InQueue(w, j, y);
    }
  }

  // ---------------------------------------------------------------- whole runs

  datatype WaitOp =
    | BlockFd(fd: int, key: Bytes, lastId: StreamId, timeout: int, kind: WaitKind, now: int)
    | WakeFirst(key: Bytes)
    | WakeStream(key: Bytes, id: StreamId)
    | UnblockFd(fd: int)
    | ExpireAt(now: int)

  ghost function WaitStep(w: Waiting, op: WaitOp): (r: Waiting) {
    match op
    case BlockFd(fd, key, lastId, timeout, kind, now) => Block(w, fd, key, lastId, timeout, kind, now)
    case WakeFirst(key) => Wake(w, key).0
    case WakeStream(key, id) => WakeBehind(w, key, id).0
    case UnblockFd(fd) => Unblock(w, fd)
    case ExpireAt(now) => Expire(w, now)
  }

  ghost function WaitRun(ops: seq<WaitOp>): (r: Waiting) {
    if ops == [] then NO_WAITERS else WaitStep(WaitRun(ops[..|ops| - 1]), ops[|ops| - 1])
  }

  /** No client blocks while it is already waiting. */
  ghost predicate NeverTwice(ops: seq<WaitOp>) {
    forall i :: 0 <= i < |ops| && ops[i].BlockFd? ==> ops[i].fd !in WaitRun(ops[..i]).index
  }

  /** Every run keeps the index pointing at live queue nodes; if no client ever blocked twice, queues and index are in
      bijection. */
  lemma {:induction false} IndexAgrees(ops: seq<WaitOp>)
    ensures WaitingOk(WaitRun(ops))
    ensures NeverTwice(ops) ==> Bijective(WaitRun(ops))
    decreases |ops|
  {
    hide WaitingOk, Bijective, WaitStep;
    if ops == [] {
      NobodyWaits();
    } else {
      var init, last := ops[..|ops| - 1], ops[|ops| - 1];
      IndexAgrees(init);
      StepKeeps(WaitRun(init), last);
      if NeverTwice(ops) {
        assert forall i :: 0 <= i < |init| ==> ops[..i] == init[..i] && ops[i] == init[i];
        assert ops[|init|] == last;
      }
    }
  }

  lemma NobodyWaits()
    ensures WaitingOk(NO_WAITERS) && Bijective(NO_WAITERS)
  {}

  lemma StepKeeps(w: Waiting, op: WaitOp)
    requires WaitingOk(w)
    ensures WaitingOk(WaitStep(w, op))
    ensures Bijective(w) && (op.BlockFd? ==> op.fd !in w.index) ==> Bijective(WaitStep(w, op))
  {
    hide WaitingOk, Bijective, Block, Wake, WakeBehind, Unblock, Expire;
    match op
    case BlockFd(fd, key, lastId, timeout, kind, now) =>
      BlockOk(w, fd, key, lastId, timeout, kind, now);
      if Bijective(w) { BlockBijective(w, fd, key, lastId, timeout, kind, now); }
    case WakeFirst(key) => WakeOk(w, key, StreamId(0, 0));
    case WakeStream(key, id) => WakeOk(w, key, id);
    case UnblockFd(fd) => UnblockOk(w, fd);
    case ExpireAt(now) =>
      ExpireOk(w, now);
      if Bijective(w) { ExpireBijective(w, now); }
  }

  // ---------------------------------------------------------------- the manager, updated in place

  lemma NobodyBehind(id: StreamId)
    ensures FirstBehind([], id) == 0
  {}

  method FindBehind(q: seq<Waiter>, id: StreamId) returns (i: nat)
    ensures i == FirstBehind(q, id)
  {
    i := 0;
    while i < |q| && !Less(q[i].lastId, id)
      invariant i <= |q| && FirstBehind(q, id) == i + FirstBehind(q[i..], id)
    {
      assert q[i..][1..] == q[i + 1..];
      i := i + 1;
    }
  }

  lemma SweepOne(q: seq<Waiter>, i: nat, now: int, left: seq<Waiter>, expired: seq<int>)
    requires i < |q|
    ensures left + Patient(q[i..], now) == (if Overdue(q[i], now) then left else left + [q[i]]) + Patient(q[i + 1..], now)
    ensures expired + OverdueFds(q[i..], now)
         == (if Overdue(q[i], now) then expired + [q[i].fd] else expired) + OverdueFds(q[i + 1..], now)
  {
    hide Overdue;
    assert q[i..][1..] == q[i + 1..];
  }

  /** One queue of the sweep: overdue nodes are erased while iterating. */
  method SweepQueue(q: seq<Waiter>, now: int) returns (left: seq<Waiter>, expired: seq<int>)
    ensures left == Patient(q, now) && expired == OverdueFds(q, now)
  {
    left, expired := [], [];
    var i := 0;
    while i < |q|
      invariant 0 <= i <= |q|
      invariant Patient(q, now) == left + Patient(q[i..], now)
      invariant OverdueFds(q, now) == expired + OverdueFds(q[i..], now)
    {
      SweepOne(q, i, now, left, expired);
      if Overdue(q[i], now) {
        expired := expired + [q[i].fd];
      } else {
        left := left + [q[i]];
      }
      i := i + 1;
    }
  }

  /** The fds swept from the queues of `order`, in that order. */
  function SweptFds(queues: map<Bytes, seq<Waiter>>, order: seq<Bytes>, now: int): (r: seq<int>)
    requires forall k :: k in order ==> k in queues
    ensures forall fd :: fd in r <==> exists k :: k in order && fd in OverdueFds(queues[k], now)
  {
    if order == [] then []
    else
      var last := order[|order| - 1];
      assert forall k :: k in order <==> k == last || k in order[..|order| - 1];
      SweptFds(queues, order[..|order| - 1], now) + OverdueFds(queues[last], now)
  }

  lemma SweptSnoc(queues: map<Bytes, seq<Waiter>>, order: seq<Bytes>, k: Bytes, now: int)
    requires (forall j :: j in order ==> j in queues) && k in queues
    ensures SweptFds(queues, order + [k], now) == SweptFds(queues, order, now) + OverdueFds(queues[k], now)
  {
    assert (order + [k])[..|order|] == order;
  }

  lemma SweptNone(queues: map<Bytes, seq<Waiter>>, now: int)
    ensures SweptFds(queues, [], now) == []
  {}

  /** The whole sweep, visiting the queues in any order. */
  method SweepAll(all: map<Bytes, seq<Waiter>>, now: int)
    returns (queues: map<Bytes, seq<Waiter>>, expired: seq<int>, ghost order: seq<Bytes>)
    ensures queues == map k | k in all && Patient(all[k], now) != [] :: Patient(all[k], now)
    ensures (forall k :: k in order <==> k in all) && |order| == |all|
    ensures expired == SweptFds(all, order, now)
  {
    hide Patient, OverdueFds, SweptFds;
    queues, expired, order := map[], [], [];
    SweptNone(all, now);
    var todo := all.Keys;
    ghost var done: set<Bytes> := {};
    while todo != {}
      invariant todo + done == all.Keys && todo !! done
      invariant queues.Keys <= done
      invariant forall k :: k in done ==> (k in queues <==> Patient(all[k], now) != [])
      invariant forall k :: k in queues ==> queues[k] == Patient(all[k], now)
      invariant (forall k :: k in order <==> k in done) && |order| == |done|
      invariant expired == SweptFds(all, order, now)
      decreases todo
    {
      var k :| k in todo;
      todo, done := todo - {k}, done + {k};
      var left, some := SweepQueue(all[k], now);
      expired := expired + some;
      SweptSnoc(all, order, k, now);
      order := order + [k];
      if left != [] {
        queues := queues[k := left];
      }
    }
  }

  lemma SweptIsExpired(w: Waiting, order: seq<Bytes>, now: int)
    requires forall k :: k in order <==> k in w.queues
    ensures forall fd :: fd in SweptFds(w.queues, order, now) <==> ExpiredFd(w, fd, now)
  {}

  method EraseFds(index: map<int, Waiter>, fds: seq<int>) returns (r: map<int, Waiter>)
    ensures r == map fd | fd in index && fd !in fds :: index[fd]
  {
    r := index;
    for i := 0 to |fds|
      invariant r == map fd | fd in index && fd !in fds[..i] :: index[fd]
    {
      assert fds[..i + 1] == fds[..i] + [fds[i]];
      r := r - {fds[i]};
    }
    assert fds[..|fds|] == fds;
  }

  class BlockingManager {
    var queues: map<Bytes, seq<Waiter>>
    var index: map<int, Waiter>
    var next: nat

    ghost function Contents(): (w: Waiting)
      reads this
    {
      Waiting(queues, index, next)
    }

    constructor ()
      ensures Contents() == NO_WAITERS
    {
      queues, index, next := map[], map[], 0;
    }

    method BlockClientForStream(fd: int, key: Bytes, lastId: StreamId, timeout: int, kind: WaitKind, now: int)
      modifies this
      ensures Contents() == Block(old(Contents()), fd, key, lastId, timeout, kind, now)
    {
      var deadline := if timeout == 0 then None else Some(now + timeout);
      var client := Waiter(fd, key, deadline, lastId, kind, next);
      next := next + 1;
      if key !in queues {
        queues := queues[key := []];
      }
      queues := queues[key := queues[key] + [client]];
      index := index[fd := client];
    }

    /** A waiter leaves its queue and the index; an empty queue goes. */
    method TakeOut(key: Bytes, i: nat) returns (client: Waiter)
      requires i < |Queue(Contents(), key)|
      modifies this
      ensures Contents() == Leave(old(Contents()), key, i) && client == old(Queue(Contents(), key)[i])
    {
      client := queues[key][i];
      assert queues[key := []] - {key} == queues - {key};
      queues := queues[key := queues[key][..i] + queues[key][i + 1..]];
      index := index - {client.fd};
      if queues[key] == [] {
        queues := queues - {key};
      }
    }

    method WakeClient(key: Bytes) returns (r: Option<Waiter>)
      modifies this
      ensures (Contents(), r) == Wake(old(Contents()), key)
    {
      if key !in queues || queues[key] == [] {
        return None;
      }
      var client := TakeOut(key, 0);
      return Some(client);
    }

    method WakeClientForStream(key: Bytes, newEntryId: Bytes) returns (r: Option<Waiter>)
      modifies this
      ensures (Contents(), r) == match ParseId(newEntryId)
                                 case None => (old(Contents()), None)
                                 case Some(id) => WakeBehind(old(Contents()), key, id)
    {
      hide ParseId, FirstBehind, Leave;
      if key !in queues || queues[key] == [] {
        if ParseId(newEntryId).Some? { NobodyBehind(ParseId(newEntryId).value); }
        return None;
      }
      var sid := ParseId(newEntryId);
      if sid.None? {
        return None;
      }
      var i := FindBehind(queues[key], sid.value);
      if i == |queues[key]| {
        return None;
      }
      var client := TakeOut(key, i);
      return Some(client);
    }

    /** Returns the descriptors of the overdue waiters, queue by queue, each queue in arrival order. */
    method GetExpiredClients(now: int) returns (expired: seq<int>, ghost order: seq<Bytes>)
      modifies this
      ensures Contents() == Expire(old(Contents()), now)
      ensures (forall k :: k in order <==> k in old(queues)) && |order| == |old(queues)|
      ensures expired == SweptFds(old(queues), order, now)
      ensures NoneOverdue(Contents(), now)
    {
      hide Patient, SweptFds, ExpiredFd, NoneOverdue;
      ghost var w := Contents();
      SweepLeavesNone(w, now);
      queues, expired, order := SweepAll(queues, now);
      SweptIsExpired(w, order, now);
      index := EraseFds(index, expired);
    }

    method UnblockClient(fd: int)
      modifies this
      ensures Contents() == Unblock(old(Contents()), fd)
    {
      if fd !in index {
        return;
      }
      var client := index[fd];
      if client.key in queues {
        var q := queues[client.key];
        if client in q {
          var i := Position(q, client);
          queues := PutQueue(queues, client.key, q[..i] + q[i + 1..]);
        }
      }
      index := index - {fd};
    }

    /** The earliest finite deadline, if any. */
    method GetNextDeadline() returns (earliest: Option<int>)
      ensures earliest.None? <==> forall k, x :: k in queues && x in queues[k] ==> x.deadline.None?
      ensures earliest.Some? ==> exists k, x :: k in queues && x in queues[k] && x.deadline == earliest
      ensures earliest.Some? ==> forall k, x :: k in queues && x in queues[k] && x.deadline.Some?
                                                ==> earliest.value <= x.deadline.value
      ensures forall now :: NoneOverdue(Contents(), now) && earliest.Some? ==> now < earliest.value
    {
      earliest := EarliestIn(queues);
    }

    method IsBlocked(fd: int) returns (r: bool)
      ensures r <==> fd in index
      ensures WaitingOk(Contents()) && Bijective(Contents()) ==>
        (r <==> exists k, x :: k in queues && x in queues[k] && x.fd == fd)
    {
      if WaitingOk(Contents()) && Bijective(Contents()) { WaitsSomewhere(Contents(), fd); }
      r := fd in index;
    }
  }

  lemma WaitsSomewhere(w: Waiting, fd: int)
    requires WaitingOk(w) && Bijective(w)
    ensures fd in w.index <==> exists k, x :: k in w.queues && x in w.queues[k] && x.fd == fd
  {
    hide QueueOk;
    if fd in w.index {
      var x := w.index[fd];
      assert x.key in w.queues && x in w.queues[x.key];
    }
  }

  predicate NoLater(e: Option<int>, x: Waiter) {
    x.deadline.Some? ==> e.Some? && e.value <= x.deadline.value
  }

  predicate AllNoLater(e: Option<int>, q: seq<Waiter>) {
    forall x :: x in q ==> NoLater(e, x)
  }

  method EarliestInQueue(q: seq<Waiter>, start: Option<int>) returns (earliest: Option<int>)
    ensures earliest == start || (earliest.Some? && exists x :: x in q && x.deadline == earliest)
    ensures start.Some? ==> earliest.Some? && earliest.value <= start.value
    ensures AllNoLater(earliest, q)
  {
    earliest := start;
    for i := 0 to |q|
      invariant earliest == start || (earliest.Some? && exists x :: x in q && x.deadline == earliest)
      invariant start.Some? ==> earliest.Some? && earliest.value <= start.value
      invariant forall j :: 0 <= j < i ==> NoLater(earliest, q[j])
    {
      if q[i].deadline.Some? && (earliest.None? || q[i].deadline.value < earliest.value) {
        earliest := q[i].deadline;
        assert q[i] in q;
      }
    }
  }

  method EarliestIn(queues: map<Bytes, seq<Waiter>>) returns (earliest: Option<int>)
    ensures earliest.None? <==> forall k, x :: k in queues && x in queues[k] ==> x.deadline.None?
    ensures earliest.Some? ==> exists k, x :: k in queues && x in queues[k] && x.deadline == earliest
    ensures earliest.Some? ==> forall k, x :: k in queues && x in queues[k] && x.deadline.Some?
                                              ==> earliest.value <= x.deadline.value
  {
    earliest := None;
    var todo := queues.Keys;
    ghost var done: set<Bytes> := {};
    while todo != {}
      invariant todo + done == queues.Keys
      invariant forall k :: k in done ==> AllNoLater(earliest, queues[k])
      invariant earliest.Some? ==> exists k, x :: k in queues && x in queues[k] && x.deadline == earliest
      decreases todo
    {
      var k :| k in todo;
      todo, done := todo - {k}, done + {k};
      earliest := EarliestInQueue(queues[k], earliest);
    }
    assert forall k :: k in queues ==> AllNoLater(earliest, queues[k]);
  }
}
