/** Transactions read off a client's own history (src/handler/command_handler.cpp): when it is inside one, which commands
    wait in its queue, and how each word is answered then. */
module SessionLaws {
  import opened Base
  import opened Blocking
  import opened Commands
  import opened Sessions

  /** The client said a word of this kind. */
  predicate Said(e: Event, fd: int, verb: Verb) {
    e.Command? && e.fd == fd && e.args != [] && VerbOf(ToUpper(e.args[0])) == verb
  }

  /** Whatever was open is over: EXEC, DISCARD, or the connection is gone. */
  predicate Ends(e: Event, fd: int) {
    Said(e, fd, Exec_) || Said(e, fd, Discard) || (e.Disconnect? && e.fd == fd)
  }

  /** A MULTI at `i` that nothing has ended since. */
  predicate OpenSince(es: seq<Event>, fd: int, i: nat) {
    i < |es| && Said(es[i], fd, Multi) && forall j :: i < j < |es| ==> !Ends(es[j], fd)
  }

  ghost predicate Inside(es: seq<Event>, fd: int) {
    exists i: nat :: OpenSince(es, fd, i)
  }

  /** The first of them: later ones, inside the transaction, are refused. */
  predicate Began(es: seq<Event>, fd: int, i: nat) {
    OpenSince(es, fd, i) && forall k: nat :: k < i ==> !OpenSince(es, fd, k)
  }

  /** The client's commands that are not transaction words, in order. */
  function DataOf(es: seq<Event>, fd: int): (r: seq<seq<Bytes>>) {
    if es == [] then []
    else
      var rest, last := DataOf(es[..|es| - 1], fd), es[|es| - 1];
      if Said(last, fd, Data) then rest + [last.args] else rest
  }

  // ---------------------------------------------------------------- one event more

  lemma OpenGrows(es: seq<Event>, last: Event, fd: int, i: nat)
    ensures OpenSince(es + [last], fd, i) <==>
      (i < |es| && OpenSince(es, fd, i) && !Ends(last, fd)) || (i == |es| && Said(last, fd, Multi))
  {
    hide VerbOf, ToUpper;
    var all := es + [last];
    assert all[|es|] == last;
    if i < |es| {
      assert forall j :: 0 <= j < |es| ==> all[j] == es[j];
    }
  }

  lemma InsideGrows(es: seq<Event>, last: Event, fd: int)
    ensures Inside(es + [last], fd) <==> (Inside(es, fd) && !Ends(last, fd)) || Said(last, fd, Multi)
  {
    hide OpenSince, Said, Ends;
    forall i: nat
      ensures OpenSince(es + [last], fd, i) <==>
        (i < |es| && OpenSince(es, fd, i) && !Ends(last, fd)) || (i == |es| && Said(last, fd, Multi))
    {
      OpenGrows(es, last, fd, i);
    }
    OpenIsWithin(es, fd);
    if Said(last, fd, Multi) {
      assert OpenSince(es + [last], fd, |es|);
    } else if Inside(es, fd) && !Ends(last, fd) {
      var i: nat :| OpenSince(es, fd, i);
      assert OpenSince(es + [last], fd, i);
    }
  }

  lemma OpenIsWithin(es: seq<Event>, fd: int)
    ensures forall i: nat :: OpenSince(es, fd, i) ==> i < |es|
  {}

  lemma BeganGrows(es: seq<Event>, last: Event, fd: int, i: nat)
    requires Began(es + [last], fd, i)
    ensures if i < |es| then Began(es, fd, i) && !Ends(last, fd) else i == |es| && (Inside(es, fd) ==> Ends(last, fd))
  {
    hide OpenSince, Said, Ends;
    forall k: nat
      ensures OpenSince(es + [last], fd, k) <==>
        (k < |es| && OpenSince(es, fd, k) && !Ends(last, fd)) || (k == |es| && Said(last, fd, Multi))
    {
      OpenGrows(es, last, fd, k);
    }
    OpenIsWithin(es, fd);
  }

  lemma DataGrows(es: seq<Event>, last: Event, fd: int, i: nat)
    requires i <= |es|
    ensures DataOf((es + [last])[i..], fd) == DataOf(es[i..], fd) + if Said(last, fd, Data) then [last.args] else []
  {
    hide Said;
    var all := (es + [last])[i..];
    assert all[..|all| - 1] == es[i..] && all[|all| - 1] == last;
  }

  /** The queue after one event more. */
  function NextQueue(t: Tx, inMulti: bool, e: Event, fd: int): (r: seq<seq<Bytes>>) {
    if !inMulti then [] else if t.inMulti && Said(e, fd, Data) then t.queued + [e.args] else t.queued
  }

  lemma ExecCloses(env: Env, c: Clock, s: Server, fd: int)
    ensures TxOf(ExecStep(env, c, true, s, fd).server, fd) == if TxOf(s, fd).inMulti then NO_TX else TxOf(s, fd)
  {
    hide RunQueued, Dirty;
  }

  /** The client's transaction after one of its commands. */
  lemma OwnTx(env: Env, c: Clock, s: Server, fd: int, args: seq<Bytes>)
    requires args != []
    ensures
      var t, u, verb := TxOf(s, fd), TxOf(Step(env, c, true, s, fd, args).server, fd), VerbOf(ToUpper(args[0]));
      if verb.Exec_? || verb.Discard? then u == if t.inMulti then NO_TX else t
      else if verb.Data? then u == if t.inMulti then t.(queued := t.queued + [args]) else t
      else u.queued == t.queued && u.inMulti == (t.inMulti || verb.Multi?)
  {
    hide VerbOf, ExecNamed, ExecStep, WatchKeys, ToUpper;
    ExecCloses(env, c, s, fd);
  }

  lemma OwnMoves(env: Env, c: Clock, s: Server, fd: int, args: seq<Bytes>)
    requires var t := TxOf(s, fd); !t.inMulti ==> t.queued == []
    ensures
      var e := Command(c, fd, args);
      var t, u := TxOf(s, fd), TxOf(Step(env, c, true, s, fd, args).server, fd);
      (u.inMulti <==> (t.inMulti && !Ends(e, fd)) || Said(e, fd, Multi)) && u.queued == NextQueue(t, u.inMulti, e, fd)
  {
    hide VerbOf, ToUpper, TxOf;
    if args != [] {
      hide Step;
      OwnTx(env, c, s, fd, args);
    }
  }

  /** How one event moves the client's transaction. */
  lemma TxMoves(env: Env, s: Server, e: Event, fd: int)
    requires var t := TxOf(s, fd); !t.inMulti ==> t.queued == []
    ensures
      var t, u := TxOf(s, fd), TxOf(Happen(env, s, e), fd);
      (u.inMulti <==> (t.inMulti && !Ends(e, fd)) || Said(e, fd, Multi)) && u.queued == NextQueue(t, u.inMulti, e, fd)
  {
    hide VerbOf, Step, ToUpper, Expire, Unblock;
    if e.Command? && e.fd == fd {
      OwnMoves(env, e.clock, s, fd, e.args);
    } else if e.Command? {
      OtherTxs(env, e.clock, s, e.fd, e.args, fd);
    }
  }

  // ---------------------------------------------------------------- every run

  /** In every run a client is inside a transaction exactly when it has said MULTI and nothing has ended that since, and its
      queue holds exactly what it has said since the first such MULTI, transaction words apart. */
  lemma {:induction false} TransactionIsHistory(env: Env, es: seq<Event>, fd: int)
    ensures
      var t := TxOf(HappenAll(env, FRESH_SERVER, es), fd);
      (t.inMulti <==> Inside(es, fd)) && (!t.inMulti ==> t.queued == []) &&
      forall i: nat :: Began(es, fd, i) ==> t.queued == DataOf(es[i..], fd)
    decreases |es|
  {
    hide Happen, OpenSince, Said, Ends, DataOf;
    OpenIsWithin(es, fd);
    if es == [] {
      NothingBegan(fd);
    } else {
      var init, last := es[..|es| - 1], es[|es| - 1];
      assert es == init + [last];
      TransactionIsHistory(env, init, fd);
      var s := HappenAll(env, FRESH_SERVER, init);
      TxMoves(env, s, last, fd);
      InsideGrows(init, last, fd);
      var t := TxOf(HappenAll(env, FRESH_SERVER, es), fd);
      forall i: nat | Began(es, fd, i)
        ensures t.queued == DataOf(es[i..], fd)
      {
        QueueGrows(init, last, fd, i, TxOf(s, fd), t);
      }
    }
  }

  lemma NothingBegan(fd: int)
    ensures !Inside([], fd) && forall i: nat :: !Began([], fd, i)
  {}

  lemma QueueGrows(es: seq<Event>, last: Event, fd: int, i: nat, t: Tx, u: Tx)
    requires Began(es + [last], fd, i) && (t.inMulti <==> Inside(es, fd)) && (!t.inMulti ==> t.queued == [])
    requires Began(es, fd, i) ==> t.queued == DataOf(es[i..], fd)
    requires u.inMulti <==> (t.inMulti && !Ends(last, fd)) || Said(last, fd, Multi)
    requires u.queued == NextQueue(t, u.inMulti, last, fd)
    ensures u.queued == DataOf((es + [last])[i..], fd)
  {
    hide VerbOf, ToUpper, DataOf;
    BeganGrows(es, last, fd, i);
    DataGrows(es, last, fd, i);
    if i == |es| {
      assert es[i..] == [];
      assert DataOf([], fd) == [] by { NoData(fd); }
    } else {
      assert Inside(es, fd);
    }
  }

  lemma NoData(fd: int)
    ensures DataOf([], fd) == []
  {}

  // ---------------------------------------------------------------- what each word is answered

  ghost function Reply(env: Env, es: seq<Event>, e: Event): (r: Option<Commands.Reply>) {
    Served(env, true, HappenAll(env, FRESH_SERVER, es), e).reply
  }

  /** MULTI opens a transaction, DISCARD and EXEC need one, WATCH must come before it, and anything else said inside is put
      off; what is refused or put off leaves keyspace and wait queues alone. */
  lemma WordsAreAnswered(env: Env, es: seq<Event>, c: Clock, fd: int, args: seq<Bytes>)
    requires args != []
    ensures
      var e := Command(c, fd, args);
      var before, after := HappenAll(env, FRESH_SERVER, es), HappenAll(env, FRESH_SERVER, es + [e]);
      var r := Reply(env, es, e);
      (Said(e, fd, Multi) ==> (r == Some(Ok) <==> !Inside(es, fd))) &&
      (Said(e, fd, Discard) ==> (r == Some(Ok) <==> Inside(es, fd))) &&
      (Said(e, fd, Watch) ==> (r == Some(Ok) <==> !Inside(es, fd) && |args| >= 2)) &&
      (Said(e, fd, Unwatch) ==> r == Some(Ok)) &&
      (Said(e, fd, Data) && Inside(es, fd) ==> r == Some(Queued)) &&
      (!Said(e, fd, Exec_) && (Said(e, fd, Data) ==> Inside(es, fd)) ==> after.core == before.core) &&
      (Said(e, fd, Exec_) && !Inside(es, fd) ==> r.Some? && r.value.Error? && after == before)
  {
    hide VerbOf, ExecNamed, RunQueued, Dirty, WatchKeys, ToUpper, Inside;
    TransactionIsHistory(env, es, fd);
    assert (es + [Command(c, fd, args)])[..|es|] == es;
  }

  /** An EXEC that commits runs exactly what the client said since MULTI, in that order, and answers in that order. */
  lemma CommitRunsHistory(env: Env, es: seq<Event>, c: Clock, fd: int, args: seq<Bytes>, i: nat)
    requires args != [] && Said(Command(c, fd, args), fd, Exec_) && Began(es, fd, i)
    ensures
      var s := HappenAll(env, FRESH_SERVER, es);
      var r := RunQueued(env, c, true, s.core, fd, DataOf(es[i..], fd));
      var o := Served(env, true, s, Command(c, fd, args));
      if Dirty(s.core.db, TxOf(s, fd).watched) then o.reply == Some(NullArray) && o.server.core == s.core && o.sends == []
      else o.reply == Some(Batch(r.replies)) && o.server.core == r.core && o.sends == r.sends
  {
    hide VerbOf, RunQueued, Dirty, ToUpper, DataOf;
    TransactionIsHistory(env, es, fd);
    assert Inside(es, fd);
  }
}
