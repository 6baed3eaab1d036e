/** Buffered writes (src/connection/connection_pool.cpp): every connection with pending bytes is on the dirty list, so
    one flush empties all of them. `wire` is what a connection's socket has taken; a flush drops what it does not take.
    `taken(fd)` is how many bytes the socket of `fd` takes in one flush. */
module ConnectionPools {
  import opened Base

  datatype Conn = Conn(pending: Bytes, dirty: bool, wire: Bytes)

  datatype Pool = Pool(connections: map<int, Conn>, dirtyFds: seq<int>)

  const NO_CONNECTIONS: Pool := Pool(map[], [])

  datatype PoolOp = AddFd(fd: int) | RemoveFd(fd: int) | Send(fd: int, data: Bytes) | FlushAll(taken: int -> nat)

  /** `mark_dirty`. */
  function MarkDirty(p: Pool, fd: int): (r: Pool)
    requires fd in p.connections
  {
    if p.connections[fd].dirty then p
    else Pool(p.connections[fd := p.connections[fd].(dirty := true)], p.dirtyFds + [fd])
  }

  /** `send_to`, and writing through `get_pending_write`: append, and mark dirty. */
  function SendTo(p: Pool, fd: int, data: Bytes): (r: Pool) {
    if fd !in p.connections then p
    else
      var c := p.connections[fd];
      MarkDirty(p.(connections := p.connections[fd := c.(pending := c.pending + data)]), fd)
  }

  /** `flush` stops sending at the first refusal and clears the buffer in any case. */
  function Flushed(c: Conn, taken: nat): (r: Conn) {
    Conn([], false, c.wire + c.pending[..Min(taken, |c.pending|)])
  }

  /** The loop of `flush_all`; a descriptor may be stale, or stand in the list twice after being reused. */
  function FlushFds(cs: map<int, Conn>, fds: seq<int>, taken: int -> nat): (r: map<int, Conn>) {
    if fds == [] then cs
    else if fds[0] in cs then FlushFds(cs[fds[0] := Flushed(cs[fds[0]], taken(fds[0]))], fds[1..], taken)
    else FlushFds(cs, fds[1..], taken)
  }

  function Do(p: Pool, op: PoolOp): (r: Pool) {
    match op
    case AddFd(fd) => p.(connections := p.connections[fd := Conn([], false, [])])
    case RemoveFd(fd) => p.(connections := p.connections - {fd})
    case Send(fd, data) => SendTo(p, fd, data)
    case FlushAll(taken) => Pool(FlushFds(p.connections, p.dirtyFds, taken), [])
  }

  function DoAll(ops: seq<PoolOp>): (r: Pool) {
    if |ops| == 0 then NO_CONNECTIONS else Do(DoAll(ops[..|ops| - 1]), ops[|ops| - 1])
  }

  /** Pending bytes mean dirty, dirty means listed. */
  predicate PoolOk(p: Pool) {
    forall fd :: fd in p.connections ==>
      (p.connections[fd].pending != [] ==> p.connections[fd].dirty) &&
      (p.connections[fd].dirty ==> fd in p.dirtyFds)
  }

  /** A flush leaves nothing pending; the socket gets a prefix of what was pending. */
  lemma {:induction false} FlushDoes(cs: map<int, Conn>, fds: seq<int>, taken: int -> nat, fd: int)
    requires fd in cs
    ensures FlushFds(cs, fds, taken).Keys == cs.Keys
    ensures FlushFds(cs, fds, taken)[fd] == if fd in fds then Flushed(cs[fd], taken(fd)) else cs[fd]
    decreases |fds|
  {
    if fds != [] {
      var next := if fds[0] in cs then cs[fds[0] := Flushed(cs[fds[0]], taken(fds[0]))] else cs;
      FlushDoes(next, fds[1..], taken, fd);
      assert fd in fds <==> fd == fds[0] || fd in fds[1..];
      FlushTwice(cs[fd], taken(fd));
    }
  }

  lemma FlushTwice(c: Conn, taken: nat)
    ensures Flushed(Flushed(c, taken), taken) == Flushed(c, taken)
  {
    var r := Flushed(c, taken);
    assert r.wire + [] == r.wire;
  }

  /** What one flush does to one connection: everything that was pending arrives exactly when the socket takes it all. */
  predicate FlushesTo(c: Conn, r: Conn, taken: nat) {
    r.pending == [] && !r.dirty && c.wire <= r.wire <= c.wire + c.pending &&
    (r.wire == c.wire + c.pending <==> taken >= |c.pending|)
  }

  lemma FlushAllDoes(p: Pool, taken: int -> nat, fd: int)
    requires PoolOk(p) && fd in p.connections
    ensures var r := Do(p, FlushAll(taken));
      fd in r.connections && FlushesTo(p.connections[fd], r.connections[fd], taken(fd))
  {
    FlushDoes(p.connections, p.dirtyFds, taken, fd);
    var c := p.connections[fd];
    assert c.pending == [] ==> c.wire + c.pending == c.wire;
    PrefixTaken(c.wire, c.pending, Min(taken(fd), |c.pending|));
  }

  lemma PrefixTaken(wire: Bytes, pending: Bytes, n: nat)
    requires n <= |pending|
    ensures wire <= wire + pending[..n] <= wire + pending
    ensures wire + pending[..n] == wire + pending <==> n == |pending|
  {
    assert wire + pending == wire + pending[..n] + pending[n..];
    assert |wire + pending[..n]| == |wire| + n;
    assert n == |pending| ==> pending[..n] == pending;
  }

  lemma DoOk(p: Pool, op: PoolOp)
    requires PoolOk(p)
    ensures PoolOk(Do(p, op))
  {
    match op
    case Send(fd, data) =>
      if fd in p.connections && !p.connections[fd].dirty {
        assert (p.dirtyFds + [fd])[|p.dirtyFds|] == fd;
        assert forall x :: x in p.dirtyFds ==> x in p.dirtyFds + [fd];
      }
    case FlushAll(taken) =>
      forall fd | fd in Do(p, op).connections
        ensures Do(p, op).connections[fd].pending == [] && !Do(p, op).connections[fd].dirty
      {
        FlushKeys(p.connections, p.dirtyFds, taken);
        FlushAllDoes(p, taken, fd);
      }
    case _ =>
  }

  lemma {:induction false} FlushKeys(cs: map<int, Conn>, fds: seq<int>, taken: int -> nat)
    ensures FlushFds(cs, fds, taken).Keys == cs.Keys
    decreases |fds|
  {
    if fds != [] {
      FlushKeys(if fds[0] in cs then cs[fds[0] := Flushed(cs[fds[0]], taken(fds[0]))] else cs, fds[1..], taken);
    }
  }

  /** Whatever was added, removed, reused or sent: after a flush no connection has anything pending, and each socket has
      got a prefix of what was pending, all of it exactly when it took it all. */
  lemma {:induction false} NothingStaysPending(ops: seq<PoolOp>, taken: int -> nat)
    ensures PoolOk(DoAll(ops))
    ensures forall fd :: fd in DoAll(ops).connections ==>
      fd in DoAll(ops + [FlushAll(taken)]).connections &&
      FlushesTo(DoAll(ops).connections[fd], DoAll(ops + [FlushAll(taken)]).connections[fd], taken(fd))
    decreases |ops|
  {
    hide Do, FlushesTo;
    if |ops| != 0 {
      NothingStaysPending(ops[..|ops| - 1], taken);
      DoOk(DoAll(ops[..|ops| - 1]), ops[|ops| - 1]);
    }
    var more := ops + [FlushAll(taken)];
    assert more[..|more| - 1] == ops && more[|more| - 1] == FlushAll(taken);
    forall fd | fd in DoAll(ops).connections
      ensures var r := Do(DoAll(ops), FlushAll(taken));
        fd in r.connections && FlushesTo(DoAll(ops).connections[fd], r.connections[fd], taken(fd))
    {
      FlushAllDoes(DoAll(ops), taken, fd);
    }
  }

  /** What was sent to a connection since it was added; None without a connection. */
  function Given(ops: seq<PoolOp>, fd: int): (r: Option<Bytes>) {
    if |ops| == 0 then None
    else
      var before := Given(ops[..|ops| - 1], fd);
      match ops[|ops| - 1]
      case AddFd(f) => if f == fd then Some([]) else before
      case RemoveFd(f) => if f == fd then None else before
      case Send(f, data) => if f == fd && before.Some? then Some(before.value + data) else before
      case FlushAll(_) => before
  }

  /** Since the connection was added, every flush found a socket that took all that was pending. */
  predicate TookAll(ops: seq<PoolOp>, fd: int) {
    |ops| == 0 ||
    (var init, last := ops[..|ops| - 1], ops[|ops| - 1];
     (last.AddFd? && last.fd == fd) ||
     (TookAll(init, fd) &&
      (last.FlushAll? && fd in DoAll(init).connections ==>
         last.taken(fd) >= |DoAll(init).connections[fd].pending|)))
  }

  /** The bytes on the wire and those still pending are what was given, or fewer. */
  predicate Holds(c: Conn, given: Bytes, all: bool) {
    if all then c.wire + c.pending == given else |c.wire| + |c.pending| < |given|
  }

  lemma OneMore(p: Pool, op: PoolOp, fd: int, given: Bytes, all: bool)
    requires PoolOk(p) && fd in p.connections && Holds(p.connections[fd], given, all)
    requires op.AddFd? || op.RemoveFd? ==> op.fd != fd
    ensures fd in Do(p, op).connections
    ensures Holds(Do(p, op).connections[fd], if op.Send? && op.fd == fd then given + op.data else given,
                  all && (op.FlushAll? ==> op.taken(fd) >= |p.connections[fd].pending|))
  {
    var c := p.connections[fd];
    match op
    case Send(f, data) => assert f == fd ==> c.wire + (c.pending + data) == c.wire + c.pending + data;
    case FlushAll(taken) =>
      FlushAllDoes(p, taken, fd);
      var r := Do(p, op).connections[fd];
      assert r.wire + r.pending == r.wire;
      assert |r.wire| <= |c.wire + c.pending|;
      assert |r.wire| == |c.wire + c.pending| ==> r.wire == c.wire + c.pending;
    case _ =>
  }

  /** In every run, what a connection's socket has taken followed by what is pending is what was sent to it, in order and
      without a gap, if and only if no flush since it was added met a socket that took less than all. */
  lemma {:induction false} InOrder(ops: seq<PoolOp>, fd: int)
    ensures fd in DoAll(ops).connections <==> Given(ops, fd).Some?
    ensures Given(ops, fd).Some? ==>
      var c := DoAll(ops).connections[fd];
      Holds(c, Given(ops, fd).value, TookAll(ops, fd)) &&
      (c.wire + c.pending == Given(ops, fd).value <==> TookAll(ops, fd))
    decreases |ops|
  {
    if |ops| != 0 {
      var init, op := ops[..|ops| - 1], ops[|ops| - 1];
      InOrder(init, fd);
      NothingStaysPending(init, _ => 0);
      if op.AddFd? && op.fd == fd {
        assert Holds(Do(DoAll(init), op).connections[fd], [], true);
      } else if Given(init, fd).Some? && !(op.RemoveFd? && op.fd == fd) {
        OneMore(DoAll(init), op, fd, Given(init, fd).value, TookAll(init, fd));
      } else if op.FlushAll? {
        FlushKeys(DoAll(init).connections, DoAll(init).dirtyFds, op.taken);
      }
    }
  }

  class ConnectionPool {
    var connections: map<int, Conn>
    var dirtyFds: seq<int>

    ghost function Contents(): (p: Pool)
      reads this
    {
      Pool(connections, dirtyFds)
    }

    constructor ()
      ensures Contents() == NO_CONNECTIONS
    {
      connections, dirtyFds := map[], [];
    }

    method Add(fd: int)
      modifies this
      ensures Contents() == Do(old(Contents()), AddFd(fd))
      ensures PoolOk(old(Contents())) ==> PoolOk(Contents())
    {
      connections := connections[fd := Conn([], false, [])];
    }

    method Remove(fd: int)
      modifies this
      ensures Contents() == Do(old(Contents()), RemoveFd(fd))
      ensures PoolOk(old(Contents())) ==> PoolOk(Contents())
    {
      connections := connections - {fd};
    }

    /** Unknown descriptors are ignored. */
    method SendData(fd: int, data: Bytes)
      modifies this
      ensures Contents() == Do(old(Contents()), Send(fd, data))
      ensures PoolOk(old(Contents())) ==> PoolOk(Contents())
    {
      if PoolOk(Contents()) { DoOk(Contents(), Send(fd, data)); }
      if fd !in connections {
        return;
      }
      var c := connections[fd];
      connections := connections[fd := c.(pending := c.pending + data)];
      if !connections[fd].dirty {
        connections := connections[fd := connections[fd].(dirty := true)];
        dirtyFds := dirtyFds + [fd];
      }
    }

    method Flush(taken: int -> nat)
      modifies this
      ensures Contents() == Do(old(Contents()), FlushAll(taken))
      ensures PoolOk(old(Contents())) ==>
        connections.Keys == old(connections).Keys && forall fd :: fd in connections ==> connections[fd].pending == []
    {
      ghost var p := Contents();
      connections := FlushLoop(connections, dirtyFds, taken);
      dirtyFds := [];
      if PoolOk(p) {
        FlushKeys(p.connections, p.dirtyFds, taken);
        forall fd | fd in connections
          ensures connections[fd].pending == []
        {
          FlushAllDoes(p, taken, fd);
        }
      }
    }
  }

  method FlushLoop(cs: map<int, Conn>, fds: seq<int>, taken: int -> nat) returns (r: map<int, Conn>)
    ensures r == FlushFds(cs, fds, taken)
  {
    r := cs;
    for i := 0 to |fds|
      invariant FlushFds(r, fds[i..], taken) == FlushFds(cs, fds, taken)
    {
      assert fds[i..][0] == fds[i] && fds[i..][1..] == fds[i + 1..];
      if fds[i] in r {
        r := r[fds[i] := Flushed(r[fds[i]], taken(fds[i]))];
      }
    }
  }
}
