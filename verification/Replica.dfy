/** The replica's end of the replication stream (`ReplicaConnector::process_buffer_impl`): bytes arrive in
    arbitrary chunks, whole commands are handed on, and `REPLCONF GETACK` is answered with the offset. */
module Replica {
  import opened Base
  import opened Decimal
  import opened Resp

  predicate IsGetAck(args: seq<Bytes>) {
    |args| >= 2 && ToUpper(args[0]) == "REPLCONF" && ToUpper(args[1]) == "GETACK"
  }

  function Ack(offset: int): (r: Bytes) {
    EncodeArray(["REPLCONF", "ACK", ToText(offset)])
  }

  /** What the connector has produced so far, and what it still holds. */
  datatype Link = Link(commands: seq<Bytes>, acks: Bytes, pending: Bytes, offset: int)

  const START: Link := Link([], [], [], 0)

  /** One round of the loop when a command is at the front of the buffer; a command accepted early is
      cut at the end of the buffer. */
  function Take(l: Link, p: Parsed): (r: Link) {
    var cut := Min(p.consumed, |l.pending|);
    var kept := l.(pending := l.pending[cut..], offset := l.offset + p.consumed);
    if IsGetAck(p.args) then kept.(acks := l.acks + Ack(l.offset))
    else kept.(commands := l.commands + [l.pending[..cut]])
  }

  function Drain(l: Link): (r: Link)
    decreases |l.pending|
  {
    match ParseOne(l.pending)
    case None => l
    case Some(p) => Drain(Take(l, p))
  }

  function Deliver(l: Link, chunk: Bytes): (r: Link) {
    Drain(l.(pending := l.pending + chunk))
  }

  function DeliverAll(l: Link, chunks: seq<Bytes>): (r: Link)
    decreases |chunks|
  {
    if chunks == [] then l else DeliverAll(Deliver(l, chunks[0]), chunks[1..])
  }

  class ReplicaConnector {
    var pending: Bytes
    var offset: int

    constructor ()
      ensures pending == [] && offset == 0
    {
      pending, offset := [], 0;
    }

    /** `process_propagated_commands`: append what was read, then run the loop. */
    method ProcessPropagated(chunk: Bytes) returns (commands: seq<Bytes>, acks: Bytes)
      modifies this
      ensures Link(commands, acks, pending, offset) == Deliver(Link([], [], old(pending), old(offset)), chunk)
    {
      pending := pending + chunk;
      commands, acks := ProcessBuffer();
    }

    method ProcessBuffer() returns (commands: seq<Bytes>, acks: Bytes)
      modifies this
      ensures Link(commands, acks, pending, offset) == Drain(Link([], [], old(pending), old(offset)))
    {
      commands, acks := [], [];
      ghost var start := Link([], [], pending, offset);
      while true
        invariant Drain(Link(commands, acks, pending, offset)) == Drain(start)
        decreases |pending|
      {
        var parsed := ParseOneInto(pending);
        if parsed.None? {
          break;
        }
        var cut := Min(parsed.value.consumed, |pending|);
        ghost var before := Link(commands, acks, pending, offset);
        if IsGetAck(parsed.value.args) {
          var ack := EncodeRespCommand(["REPLCONF", "ACK", ToText(offset)]);
          acks := acks + ack;
        } else {
          commands := commands + [pending[..cut]];
        }
        offset := offset + parsed.value.consumed;
        pending := pending[cut..];
        assert Link(commands, acks, pending, offset) == Take(before, parsed.value);
      }
    }
  }

  // ---------------------------------------------------------------- what an answer says

  /** A GETACK is recognised by its first two words, in any mix of cases. */
  lemma GetAckIs(args: seq<Bytes>)
    ensures IsGetAck(args) <==> |args| >= 2 && Spells(args[0], "REPLCONF") && Spells(args[1], "GETACK")
  {
    if |args| >= 2 {
      SpellsIs(args[0], "REPLCONF");
      SpellsIs(args[1], "GETACK");
    }
  }

  /** An answer parses as one whole command of three words that carries the offset. */
  lemma AckSays(n: nat, more: Bytes)
    requires n <= INT64_MAX
    ensures var p := ParseOne(Ack(n) + more);
      p.Some? && p.value.consumed == |Ack(n)| && |p.value.args| == 3 && p.value.args[0] == "REPLCONF" &&
      p.value.args[1] == "ACK" && ParseInt64(p.value.args[2]) == Some(n)
  {
    hide ParseOne, EncodeArray, ParseInt64, Digits;
    var args := ["REPLCONF", "ACK", ToText(n)];
    Int64Length(n);
    ParseToText(n);
    RoundTrip(args, more);
  }

  /** The offsets that the master reads in a string of answers, if that is what it is. */
  function ReadAcks(s: Bytes): (r: Option<seq<int>>)
    decreases |s|
  {
    if s == [] then Some([])
    else
      match ParseOne(s)
      case None => None
      case Some(p) =>
        if p.consumed > |s| || |p.args| != 3 || p.args[0] != "REPLCONF" || p.args[1] != "ACK" then None
        else
          var n, rest := ParseInt64(p.args[2]), ReadAcks(s[p.consumed..]);
          if n.None? || rest.None? then None else Some([n.value] + rest.value)
  }

  /** For every GETACK of the stream, the number of bytes before it. */
  function Offsets(frames: seq<Bytes>, before: int): (r: seq<int>)
    requires AllFrames(frames)
  {
    if frames == [] then []
    else
      var args, rest := FrameArgs(frames[0]), Offsets(frames[1..], before + |frames[0]|);
      if |args| >= 2 && Spells(args[0], "REPLCONF") && Spells(args[1], "GETACK") then [before] + rest else rest
  }

  lemma {:induction false} AnswersRead(frames: seq<Bytes>, before: nat)
    requires AllFrames(frames) && before + |Concat(frames)| <= INT64_MAX
    ensures ReadAcks(Answers(frames, before)) == Some(Offsets(frames, before))
    decreases |frames|
  {
    hide ParseOne, IsFrame, Ack, ParseInt64, Spells, IsGetAck;
    if frames != [] {
      var w, more := frames[0], frames[1..];
      AnswersRead(more, before + |w|);
      GetAckIs(FrameArgs(w));
      if IsGetAck(FrameArgs(w)) {
        var rest := Answers(more, before + |w|);
        AckSays(before, rest);
        AckNotEmpty(before);
        assert (Ack(before) + rest)[|Ack(before)|..] == rest;
      }
    }
  }

  lemma AckNotEmpty(n: int)
    ensures Ack(n) != []
  {}

  // ---------------------------------------------------------------- the stream the master sends

  /** The commands to hand on: every frame that is not a GETACK, in order. */
  function Forwarded(frames: seq<Bytes>): (r: seq<Bytes>)
    requires AllFrames(frames)
  {
    if frames == [] then []
    else if IsGetAck(FrameArgs(frames[0])) then Forwarded(frames[1..])
    else [frames[0]] + Forwarded(frames[1..])
  }

  /** The answers to send: for every GETACK, the number of bytes of stream that precede it. */
  function Answers(frames: seq<Bytes>, before: int): (r: Bytes)
    requires AllFrames(frames)
  {
    if frames == [] then []
    else
      var rest := Answers(frames[1..], before + |frames[0]|);
      if IsGetAck(FrameArgs(frames[0])) then Ack(before) + rest else rest
  }

  /** How many frames are complete within the first `n` bytes. */
  function Whole(frames: seq<Bytes>, n: nat): (j: nat)
    ensures j <= |frames|
  {
    if frames == [] || n < |frames[0]| then 0 else 1 + Whole(frames[1..], n - |frames[0]|)
  }

  /** A delivery may end after `n` bytes: not inside the last two bytes of a command. */
  predicate SafeCut(frames: seq<Bytes>, n: nat)
    requires AllFrames(frames)
  {
    if frames == [] then n == 0
    else if n < |frames[0]| then n < AcceptLength(frames[0])
    else SafeCut(frames[1..], n - |frames[0]|)
  }

  // ---------------------------------------------------------------- draining whole frames

  lemma TakeFrame(l: Link, w: Bytes, tail: Bytes)
    requires IsFrame(w) && l.pending == w + tail
    ensures var ack := IsGetAck(FrameArgs(w));
      Drain(l) == Drain(Link(if ack then l.commands else l.commands + [w],
                             if ack then l.acks + Ack(l.offset) else l.acks, tail, l.offset + |w|))
  {
    hide IsFrame, ParseOne;
    FrameThenMore(w, tail);
    assert l.pending[|w|..] == tail && l.pending[..|w|] == w;
  }

  lemma {:induction false} DrainFrames(l: Link, frames: seq<Bytes>, tail: Bytes)
    requires AllFrames(frames) && l.pending == Concat(frames) + tail
    ensures Drain(l) == Drain(Link(l.commands + Forwarded(frames), l.acks + Answers(frames, l.offset), tail,
                                   l.offset + |Concat(frames)|))
    decreases |frames|
  {
    hide IsFrame, FrameArgs, ParseOne, Ack, Drain, IsGetAck;
    if frames == [] {
      assert l.commands + [] == l.commands && l.acks + [] == l.acks && l.pending == tail;
    } else {
      var w, rest := frames[0], frames[1..];
      var more := Concat(rest) + tail;
      assert l.pending == w + more;
      TakeFrame(l, w, more);
      if IsGetAck(FrameArgs(w)) {
        DrainFrames(Link(l.commands, l.acks + Ack(l.offset), more, l.offset + |w|), rest, tail);
        var acks := Answers(rest, l.offset + |w|);
        assert l.acks + Ack(l.offset) + acks == l.acks + (Ack(l.offset) + acks);
      } else {
        DrainFrames(Link(l.commands + [w], l.acks, more, l.offset + |w|), rest, tail);
        assert l.commands + [w] + Forwarded(rest) == l.commands + ([w] + Forwarded(rest));
      }
    }
  }

  lemma {:induction false} ForwardedSplit(a: seq<Bytes>, b: seq<Bytes>)
    requires AllFrames(a) && AllFrames(b)
    ensures AllFrames(a + b) && Forwarded(a + b) == Forwarded(a) + Forwarded(b)
    decreases |a|
  {
    hide IsFrame, FrameArgs, IsGetAck;
    if a == [] {
      assert a + b == b;
    } else {
      ForwardedSplit(a[1..], b);
      assert (a + b)[1..] == a[1..] + b;
    }
  }

  lemma {:induction false} AnswersSplit(a: seq<Bytes>, b: seq<Bytes>, before: int)
    requires AllFrames(a) && AllFrames(b)
    ensures AllFrames(a + b)
    ensures Answers(a + b, before) == Answers(a, before) + Answers(b, before + |Concat(a)|)
    decreases |a|
  {
    hide IsFrame, FrameArgs, IsGetAck, Ack;
    if a == [] {
      assert a + b == b;
    } else {
      AnswersSplit(a[1..], b, before + |a[0]|);
      assert (a + b)[1..] == a[1..] + b;
    }
  }

  // ---------------------------------------------------------------- where a cut falls

  /** The first `n` bytes of a stream are its whole frames plus a piece of the next one. */
  lemma {:induction false} CutAt(frames: seq<Bytes>, n: nat) returns (head: Bytes)
    requires AllFrames(frames) && n <= |Concat(frames)|
    ensures var j := Whole(frames, n);
      Concat(frames)[..n] == Concat(frames[..j]) + head &&
      (j == |frames| ==> head == []) &&
      (j < |frames| ==> |head| < |frames[j]| && head == frames[j][..|head|] &&
                        (SafeCut(frames, n) <==> |head| < AcceptLength(frames[j]))) &&
      (j == |frames| ==> SafeCut(frames, n))
    decreases |frames|
  {
    hide IsFrame, AcceptLength;
    var S := Concat(frames);
    if frames == [] {
      head := [];
    } else if n < |frames[0]| {
      head := S[..n];
      assert frames[0][..n] == S[..n];
    } else {
      var f, rest := frames[0], frames[1..];
      head := CutAt(rest, n - |f|);
      var j := Whole(rest, n - |f|);
      assert S[..n] == f + Concat(rest)[..n - |f|];
      assert frames[..j + 1][0] == f && frames[..j + 1][1..] == rest[..j];
      assert f + (Concat(rest[..j]) + head) == Concat(frames[..j + 1]) + head;
    }
  }

  /** A safe piece of a command is not a command yet; an unsafe one already is. */
  lemma PieceParses(w: Bytes, head: Bytes)
    requires IsFrame(w) && |head| < |w| && head == w[..|head|]
    ensures |head| < AcceptLength(w) ==> ParseOne(head).None?
    ensures |head| >= AcceptLength(w) ==> ParseOne(head) == Some(Parsed(FrameArgs(w), |w|))
  {
    FramePrefix(w, |head|);
  }

  lemma ConcatEnds(frames: seq<Bytes>)
    ensures Concat(frames[..0]) == [] && frames[0..] == frames
    ensures frames != [] ==> |Concat(frames)| == |frames[0]| + |Concat(frames[1..])|
  {
    assert frames[..0] == [];
  }

  lemma OneMoreFrame(frames: seq<Bytes>, j: nat)
    requires j < |frames|
    ensures |Concat(frames[..j + 1])| == |frames[0]| + |Concat(frames[1..][..j])|
    ensures frames[j + 1..] == frames[1..][j..]
  {
    assert frames[..j + 1][0] == frames[0] && frames[..j + 1][1..] == frames[1..][..j];
  }

  lemma {:induction false} WholeOfRest(frames: seq<Bytes>, n: nat, m: nat)
    requires n <= m <= |Concat(frames)|
    ensures
      var j := Whole(frames, n);
      var b := |Concat(frames[..j])|;
      b <= n && Whole(frames, m) == j + Whole(frames[j..], m - b)
    decreases |frames|
  {
    hide Concat;
    ConcatEnds(frames);
    if frames == [] || n < |frames[0]| {
    } else {
      var f, rest := frames[0], frames[1..];
      WholeOfRest(rest, n - |f|, m - |f|);
      var j := Whole(rest, n - |f|);
      OneMoreFrame(frames, j);
    }
  }

  lemma {:induction false} SafeOfRest(frames: seq<Bytes>, n: nat, m: nat)
    requires AllFrames(frames) && n <= m <= |Concat(frames)|
    ensures
      var j := Whole(frames, n);
      var b := |Concat(frames[..j])|;
      b <= n && AllFrames(frames[j..]) && (SafeCut(frames, m) <==> SafeCut(frames[j..], m - b))
    decreases |frames|
  {
    hide IsFrame, AcceptLength, Concat;
    ConcatEnds(frames);
    if frames == [] || n < |frames[0]| {
    } else {
      var f, rest := frames[0], frames[1..];
      SafeOfRest(rest, n - |f|, m - |f|);
      var j := Whole(rest, n - |f|);
      OneMoreFrame(frames, j);
    }
  }

  // ---------------------------------------------------------------- the main invariant

  /** After `n` delivered bytes the connector has handed on and answered exactly the complete commands and
      holds exactly the bytes after them. */
  predicate InSync(l: Link, frames: seq<Bytes>, n: nat)
    requires AllFrames(frames) && n <= |Concat(frames)|
  {
    var done := frames[..Whole(frames, n)];
    l.commands == Forwarded(done) && l.acks == Answers(done, 0) &&
    l.offset == |Concat(done)| && l.offset <= n && l.pending == Concat(frames)[l.offset..n]
  }

  /** The stretch from the start of the frame that holds byte `n` up to byte `m`: `k` whole frames and a piece. */
  lemma PieceAt(frames: seq<Bytes>, n: nat, m: nat) returns (k: nat, head: Bytes)
    requires AllFrames(frames) && n <= m <= |Concat(frames)|
    ensures
      var i := Whole(frames, n);
      var b := |Concat(frames[..i])|;
      b <= n && i + k == Whole(frames, m) && Concat(frames)[b..m] == Concat(frames[i..i + k]) + head &&
      |Concat(frames[..i + k])| + |head| == m && |Concat(frames[..i + k])| == b + |Concat(frames[i..i + k])| &&
      (i + k == |frames| ==> head == [] && SafeCut(frames, m)) &&
      (i + k < |frames| ==> |head| < |frames[i + k]| && head == frames[i + k][..|head|] &&
                            (SafeCut(frames, m) <==> |head| < AcceptLength(frames[i + k])))
  {
    hide IsFrame, AcceptLength, SafeCut, Whole, Concat;
    var i := Whole(frames, n);
    var todo, b := frames[i..], |Concat(frames[..i])|;
    assert frames == frames[..i] + todo;
    ConcatSplit(frames[..i], todo);
    WholeOfRest(frames, n, m);
    SafeOfRest(frames, n, m);
    head := CutAt(todo, m - b);
    k := Whole(todo, m - b);
    assert todo[..k] == frames[i..i + k];
    assert Concat(frames)[b..m] == Concat(todo)[..m - b];
    assert frames[..i + k] == frames[..i] + todo[..k];
    ConcatSplit(frames[..i], todo[..k]);
    assert i + k < |frames| ==> frames[i + k] == todo[k];
  }

  /** A chunk extends the buffer to whole frames plus a piece of one more. */
  lemma AfterChunk(l: Link, frames: seq<Bytes>, n: nat, chunk: Bytes) returns (head: Bytes)
    requires AllFrames(frames) && n + |chunk| <= |Concat(frames)|
    requires InSync(l, frames, n) && chunk == Concat(frames)[n..n + |chunk|]
    ensures
      var m := n + |chunk|;
      var j := Whole(frames, m);
      var done := frames[..j];
      Deliver(l, chunk) == Drain(Link(Forwarded(done), Answers(done, 0), head, |Concat(done)|)) &&
      |Concat(done)| + |head| == m && Concat(frames)[|Concat(done)|..m] == head &&
      (j == |frames| ==> head == [] && SafeCut(frames, m)) &&
      (j < |frames| ==> |head| < |frames[j]| && head == frames[j][..|head|] &&
                        (SafeCut(frames, m) <==> |head| < AcceptLength(frames[j])))
  {
    hide IsFrame, AcceptLength, Drain, SafeCut, Whole, Forwarded, Answers, Concat;
    var S, m := Concat(frames), n + |chunk|;
    var i := Whole(frames, n);
    var k;
    k, head := PieceAt(frames, n, m);
    var b, more := |Concat(frames[..i])|, frames[i..i + k];
    var pending := l.pending + chunk;
    assert pending == S[b..m];
    DrainFrames(l.(pending := pending), more, head);
    assert frames[..i + k] == frames[..i] + more;
    ForwardedSplit(frames[..i], more);
    AnswersSplit(frames[..i], more, 0);
    assert S[b + |Concat(more)|..m] == pending[|Concat(more)|..] == head;
  }

  lemma DeliverInSync(l: Link, frames: seq<Bytes>, n: nat, chunk: Bytes)
    requires AllFrames(frames) && n + |chunk| <= |Concat(frames)|
    requires InSync(l, frames, n) && chunk == Concat(frames)[n..n + |chunk|]
    requires SafeCut(frames, n + |chunk|)
    ensures InSync(Deliver(l, chunk), frames, n + |chunk|)
  {
    hide IsFrame, AcceptLength, SafeCut, Whole, Forwarded, Answers, Concat, ParseOne;
    var head := AfterChunk(l, frames, n, chunk);
    var j := Whole(frames, n + |chunk|);
    if j < |frames| {
      PieceParses(frames[j], head);
    } else {
      EmptyDoesNotParse();
    }
  }

  lemma EmptyDoesNotParse()
    ensures ParseOne([]) == None
  {}

  /** Deliveries end after these many bytes. */
  predicate CutsAreSafe(frames: seq<Bytes>, n: nat, chunks: seq<Bytes>)
    requires AllFrames(frames)
  {
    forall i :: 0 <= i <= |chunks| ==> SafeCut(frames, n + |Concat(chunks[..i])|)
  }

  lemma CutsOfRest(frames: seq<Bytes>, n: nat, chunks: seq<Bytes>)
    requires AllFrames(frames) && chunks != []
    ensures CutsAreSafe(frames, n, chunks)
        <==> SafeCut(frames, n) && CutsAreSafe(frames, n + |chunks[0]|, chunks[1..])
  {
    hide SafeCut, IsFrame;
    assert chunks[..0] == [];
    forall i | 0 < i <= |chunks|
      ensures |Concat(chunks[..i])| == |chunks[0]| + |Concat(chunks[1..][..i - 1])|
    {
      assert chunks[..i][0] == chunks[0] && chunks[..i][1..] == chunks[1..][..i - 1];
    }
    if CutsAreSafe(frames, n, chunks) {
      forall i | 0 <= i <= |chunks| - 1
        ensures SafeCut(frames, n + |chunks[0]| + |Concat(chunks[1..][..i])|)
      {
        assert SafeCut(frames, n + |Concat(chunks[..i + 1])|);
      }
    }
  }

  lemma {:induction false} DeliverAllInSync(l: Link, frames: seq<Bytes>, n: nat, chunks: seq<Bytes>)
    requires AllFrames(frames) && n + |Concat(chunks)| <= |Concat(frames)|
    requires InSync(l, frames, n) && Concat(chunks) == Concat(frames)[n..n + |Concat(chunks)|]
    requires CutsAreSafe(frames, n, chunks)
    ensures InSync(DeliverAll(l, chunks), frames, n + |Concat(chunks)|)
    decreases |chunks|
  {
    hide IsFrame, SafeCut, Whole, Deliver, InSync;
    if chunks != [] {
      var c, rest := chunks[0], chunks[1..];
      var S := Concat(frames);
      assert c == Concat(chunks)[..|c|] == S[n..n + |c|];
      assert Concat(rest) == Concat(chunks)[|c|..] == S[n + |c|..n + |c| + |Concat(rest)|];
      CutsOfRest(frames, n, chunks);
      assert rest[..0] == [];
      assert SafeCut(frames, n + |c| + |Concat(rest[..0])|);
      DeliverInSync(l, frames, n, c);
      DeliverAllInSync(Deliver(l, c), frames, n + |c|, rest);
    }
  }

  /** Chunking is irrelevant: however a stream of commands is cut into deliveries, as long as no delivery
      ends inside the last two bytes of a command, the connector has handed on exactly the complete
      non-GETACK commands in order, answered every complete GETACK with the byte count before it, and
      what it consumed plus what it holds is what was delivered. */
  lemma ChunkingIrrelevant(frames: seq<Bytes>, chunks: seq<Bytes>)
    requires AllFrames(frames) && Concat(chunks) <= Concat(frames)
    requires CutsAreSafe(frames, 0, chunks)
    ensures
      var l := DeliverAll(START, chunks);
      var done := frames[..Whole(frames, |Concat(chunks)|)];
      l.commands == Forwarded(done) && l.acks == Answers(done, 0) &&
      l.offset == |Concat(done)| && l.offset + |l.pending| == |Concat(chunks)| &&
      Concat(done) + l.pending == Concat(chunks) &&
      (|Concat(chunks)| <= INT64_MAX ==> ReadAcks(l.acks) == Some(Offsets(done, 0)))
  {
    hide IsFrame, SafeCut, DeliverAll, Whole, Forwarded, Answers, ReadAcks, Offsets;
    NothingYet(frames);
    DeliverAllInSync(START, frames, 0, chunks);
    var done := frames[..Whole(frames, |Concat(chunks)|)];
    assert frames == done + frames[|done|..];
    ConcatSplit(done, frames[|done|..]);
    assert Concat(frames)[..|Concat(done)|] == Concat(done);
    if |Concat(chunks)| <= INT64_MAX { AnswersRead(done, 0); }
  }

  lemma NothingYet(frames: seq<Bytes>)
    requires AllFrames(frames)
    ensures InSync(START, frames, 0)
  {
    if frames != [] {
      assert IsFrame(frames[0]);
    }
  }

  // ---------------------------------------------------------------- what an unsafe cut does

  /** Once the buffer does not start with `*`, nothing is ever recognised again. */
  lemma {:induction false} Stuck(l: Link, chunks: seq<Bytes>)
    requires var all := l.pending + Concat(chunks); all != [] && all[0] != '*'
    ensures DeliverAll(l, chunks) == l.(pending := l.pending + Concat(chunks))
    decreases |chunks|
  {
    if chunks == [] {
      assert l.pending + [] == l.pending;
    } else {
      var p := l.pending + chunks[0];
      assert p == [] || p[0] == (l.pending + Concat(chunks))[0];
      assert Deliver(l, chunks[0]) == l.(pending := p);
      assert p + Concat(chunks[1..]) == l.pending + Concat(chunks);
      Stuck(l.(pending := p), chunks[1..]);
    }
  }

  function Encoded(cmds: seq<seq<Bytes>>): (frames: seq<Bytes>) {
    seq(|cmds|, i requires 0 <= i < |cmds| => EncodeArray(cmds[i]))
  }

  lemma EncodedFrames(cmds: seq<seq<Bytes>>)
    requires forall i :: 0 <= i < |cmds| ==> Bounded(cmds[i])
    ensures AllFrames(Encoded(cmds))
    ensures forall i :: 0 <= i < |cmds| ==> FrameArgs(Encoded(cmds)[i]) == cmds[i]
  {
    forall i | 0 <= i < |cmds|
      ensures IsFrame(Encoded(cmds)[i]) && FrameArgs(Encoded(cmds)[i]) == cmds[i]
    {
      EncodedIsFrame(cmds[i]);
    }
  }

  lemma {:induction false} ItemsEndWithCrlf(args: seq<Bytes>)
    requires args != []
    ensures |EncodeItems(args)| >= 2 && EncodeItems(args)[|EncodeItems(args)| - 2..] == CRLF
    decreases |args|
  {
    if |args| > 1 {
      ItemsEndWithCrlf(args[1..]);
    } else {
      assert args[1..] == [];
    }
  }

  lemma CommandEndsWithCrlf(args: seq<Bytes>, k: nat)
    requires args != [] && |EncodeArray(args)| - 2 <= k < |EncodeArray(args)|
    ensures EncodeArray(args)[k] != '*'
  {
    hide EncodeItems, Digits;
    ItemsEndWithCrlf(args);
    var w, items := EncodeArray(args), EncodeItems(args);
    assert w[k] == items[|items| - 2..][k - (|w| - 2)] == CRLF[k - (|w| - 2)];
  }

  lemma ByteAfterPiece(frames: seq<Bytes>, j: nat, k: nat)
    requires j < |frames| && k < |frames[j]|
    ensures |Concat(frames[..j])| + k < |Concat(frames)|
    ensures Concat(frames)[|Concat(frames[..j])| + k] == frames[j][k]
  {
    var done, rest := frames[..j], frames[j..];
    assert frames == done + rest;
    ConcatSplit(done, rest);
    assert Concat(rest) == frames[j] + Concat(rest[1..]);
  }

  /** What follows a piece cut inside a command's last two bytes does not start a command. */
  lemma NoStarFollows(cmds: seq<seq<Bytes>>, rest: seq<Bytes>, j: nat, m: nat, head: Bytes)
    requires j < |cmds| && cmds[j] != [] && |head| < |EncodeArray(cmds[j])| <= |head| + 2
    requires m == |Concat(Encoded(cmds)[..j])| + |head| <= |Concat(Encoded(cmds))|
    requires Concat(rest) == Concat(Encoded(cmds))[m..]
    ensures Concat(rest) != [] && Concat(rest)[0] != '*'
  {
    hide Concat, EncodeArray;
    ByteAfterPiece(Encoded(cmds), j, |head|);
    CommandEndsWithCrlf(cmds[j], |head|);
    assert Concat(Encoded(cmds))[m..][0] == Concat(Encoded(cmds))[m];
  }

  /** Such a delivery empties the buffer too early, with one or two bytes of a command still to come. */
  lemma TakenEarly(l: Link, cmds: seq<seq<Bytes>>, n: nat, chunk: Bytes) returns (j: nat, head: Bytes)
    requires (forall i :: 0 <= i < |cmds| ==> Bounded(cmds[i])) && AllFrames(Encoded(cmds))
    requires n + |chunk| <= |Concat(Encoded(cmds))|
    requires InSync(l, Encoded(cmds), n) && chunk == Concat(Encoded(cmds))[n..n + |chunk|]
    requires !SafeCut(Encoded(cmds), n + |chunk|)
    ensures Deliver(l, chunk).pending == []
    ensures j < |cmds| && cmds[j] != [] && |head| < |EncodeArray(cmds[j])| <= |head| + 2
    ensures n + |chunk| == |Concat(Encoded(cmds)[..j])| + |head|
  {
    hide AcceptLength, SafeCut, Whole, InSync, Concat, IsFrame, ParseOne, EncodeArray;
    var frames := Encoded(cmds);
    EncodedFrames(cmds);
    head := AfterChunk(l, frames, n, chunk);
    j := Whole(frames, n + |chunk|);
    PieceParses(frames[j], head);
    AcceptAtLeast(frames[j]);
    EmptyDoesNotParse();
  }

  /** A delivery that ends inside the last two bytes of a command leaves the connector stuck on them. */
  lemma UnsafeCut(l: Link, cmds: seq<seq<Bytes>>, n: nat, chunk: Bytes, rest: seq<Bytes>)
    requires (forall i :: 0 <= i < |cmds| ==> Bounded(cmds[i])) && AllFrames(Encoded(cmds))
    requires n + |chunk| <= |Concat(Encoded(cmds))|
    requires InSync(l, Encoded(cmds), n) && chunk == Concat(Encoded(cmds))[n..n + |chunk|]
    requires !SafeCut(Encoded(cmds), n + |chunk|)
    requires Concat(rest) == Concat(Encoded(cmds))[n + |chunk|..]
    ensures DeliverAll(Deliver(l, chunk), rest).pending == Concat(rest) && Concat(rest) != []
    ensures DeliverAll(Deliver(l, chunk), rest).commands == Deliver(l, chunk).commands
  {
    hide SafeCut, InSync, Concat, EncodeArray, Deliver, DeliverAll, Bounded, AllFrames;
    var j, head := TakenEarly(l, cmds, n, chunk);
    NoStarFollows(cmds, rest, j, n + |chunk|, head);
    var d := Deliver(l, chunk);
    assert d.pending + Concat(rest) == Concat(rest);
    Stuck(d, rest);
  }

  lemma AcceptAtLeast(w: Bytes)
    requires IsFrame(w)
    ensures |w| - 2 <= AcceptLength(w) <= |w|
    ensures AcceptLength(w) < |w| ==> FrameArgs(w) != []
  {}

  /** The exact condition: a stream of printed commands, delivered completely, leaves nothing in the
      buffer if and only if no delivery ended inside the last two bytes of a command. */
  lemma SyncIffSafe(cmds: seq<seq<Bytes>>, chunks: seq<Bytes>)
    requires forall i :: 0 <= i < |cmds| ==> Bounded(cmds[i])
    requires Concat(chunks) == Concat(Encoded(cmds))
    ensures AllFrames(Encoded(cmds))
    ensures DeliverAll(START, chunks).pending == [] <==> CutsAreSafe(Encoded(cmds), 0, chunks)
  {
    hide SafeCut, DeliverAll, IsFrame, InSync;
    var frames := Encoded(cmds);
    EncodedFrames(cmds);
    NothingYet(frames);
    if CutsAreSafe(frames, 0, chunks) {
      ChunkingIrrelevant(frames, chunks);
      WholeAll(frames);
    } else {
      SafeAtZero(frames);
      SomeUnsafe(START, cmds, 0, chunks);
    }
  }

  lemma SafeAtZero(frames: seq<Bytes>)
    requires AllFrames(frames)
    ensures SafeCut(frames, 0)
  {
    if frames != [] {
      assert IsFrame(frames[0]);
    }
  }

  lemma {:induction false} WholeAll(frames: seq<Bytes>)
    ensures Whole(frames, |Concat(frames)|) == |frames|
    ensures frames[..|frames|] == frames
  {
    if frames != [] {
      WholeAll(frames[1..]);
    }
  }

  lemma NoChunksNoCuts(frames: seq<Bytes>, n: nat)
    requires AllFrames(frames) && SafeCut(frames, n)
    ensures CutsAreSafe(frames, n, [])
  {
    var none: seq<Bytes> := [];
    assert forall i :: 0 <= i <= |none| ==> none[..i] == [];
  }

  lemma {:induction false} SomeUnsafe(l: Link, cmds: seq<seq<Bytes>>, n: nat, chunks: seq<Bytes>)
    requires forall i :: 0 <= i < |cmds| ==> Bounded(cmds[i])
    requires AllFrames(Encoded(cmds)) && n <= |Concat(Encoded(cmds))|
    requires InSync(l, Encoded(cmds), n) && SafeCut(Encoded(cmds), n)
    requires Concat(chunks) == Concat(Encoded(cmds))[n..]
    requires !CutsAreSafe(Encoded(cmds), n, chunks)
    ensures DeliverAll(l, chunks).pending != []
    decreases |chunks|
  {
    hide SafeCut, InSync, IsFrame, Deliver, Encoded;
    var frames := Encoded(cmds);
    NoChunksNoCuts(frames, n);
    var c, rest := chunks[0], chunks[1..];
    assert c == Concat(chunks)[..|c|] == Concat(frames)[n..n + |c|];
    assert Concat(rest) == Concat(chunks)[|c|..] == Concat(frames)[n + |c|..];
    if SafeCut(frames, n + |c|) {
      CutsOfRest(frames, n, chunks);
      DeliverInSync(l, frames, n, c);
      SomeUnsafe(Deliver(l, c), cmds, n + |c|, rest);
    } else {
      UnsafeCut(l, cmds, n, c, rest);
    }
  }
}
