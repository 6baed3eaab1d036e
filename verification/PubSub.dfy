/** Subscriptions (src/pubsub/pubsub_manager.hpp): two maps that are each other's inverse. */
module PubSub {
  import opened Base

  datatype Subs = Subs(byFd: map<int, set<Bytes>>, byChannel: map<Bytes, set<int>>)

  const NO_SUBS: Subs := Subs(map[], map[])

  function Channels(s: Subs, fd: int): (r: set<Bytes>) {
    if fd in s.byFd then s.byFd[fd] else {}
  }

  function Members(s: Subs, channel: Bytes): (r: set<int>) {
    if channel in s.byChannel then s.byChannel[channel] else {}
  }

  /** The relation both maps stand for. */
  predicate Related(s: Subs, fd: int, channel: Bytes) {
    channel in Channels(s, fd)
  }

  /** The maps are mutually inverse and hold no empty bucket. */
  ghost predicate SubsOk(s: Subs) {
    (forall fd, c :: c in Channels(s, fd) <==> fd in Members(s, c)) &&
    (forall fd :: fd in s.byFd ==> s.byFd[fd] != {}) &&
    (forall c :: c in s.byChannel ==> s.byChannel[c] != {})
  }

  /** Drop `fd` from a channel's bucket, and the bucket when it is empty. */
  function Leave(buckets: map<Bytes, set<int>>, channel: Bytes, fd: int): (r: map<Bytes, set<int>>) {
    if channel !in buckets then buckets
    else if buckets[channel] - {fd} == {} then buckets - {channel} else buckets[channel := buckets[channel] - {fd}]
  }

  function Subscribe(s: Subs, fd: int, channel: Bytes): (r: Subs) {
    Subs(s.byFd[fd := Channels(s, fd) + {channel}], s.byChannel[channel := Members(s, channel) + {fd}])
  }

  function Unsubscribe(s: Subs, fd: int, channel: Bytes): (r: Subs) {
    if fd !in s.byFd then s
    else
      var left := s.byFd[fd] - {channel};
      Subs(if left == {} then s.byFd - {fd} else s.byFd[fd := left], Leave(s.byChannel, channel, fd))
  }

  /** `unsubscribe(fd)`: out of every bucket. */
  ghost function Drop(s: Subs, fd: int): (r: Subs) {
    if fd !in s.byFd then s
    else Subs(s.byFd - {fd},
              map c | c in s.byChannel && (c in s.byFd[fd] ==> s.byChannel[c] - {fd} != {}) ::
                if c in s.byFd[fd] then s.byChannel[c] - {fd} else s.byChannel[c])
  }

  datatype SubOp = Sub(fd: int, channel: Bytes) | Unsub(fd: int, channel: Bytes) | Gone(fd: int)

  ghost function Do(s: Subs, op: SubOp): (r: Subs) {
    match op
    case Sub(fd, c) => Subscribe(s, fd, c)
    case Unsub(fd, c) => Unsubscribe(s, fd, c)
    case Gone(fd) => Drop(s, fd)
  }

  ghost function DoAll(ops: seq<SubOp>): (r: Subs) {
    if ops == [] then NO_SUBS else Do(DoAll(ops[..|ops| - 1]), ops[|ops| - 1])
  }

  /** What the operations mean, with no maps in sight: who is subscribed to what. */
  ghost predicate Wants(ops: seq<SubOp>, fd: int, channel: Bytes) {
    ops != [] &&
    (var last := ops[|ops| - 1];
     match last
     case Sub(f, c) => (f == fd && c == channel) || Wants(ops[..|ops| - 1], fd, channel)
     case Unsub(f, c) => !(f == fd && c == channel) && Wants(ops[..|ops| - 1], fd, channel)
     case Gone(f) => f != fd && Wants(ops[..|ops| - 1], fd, channel))
  }

  lemma SubscribeOk(s: Subs, fd: int, channel: Bytes)
    requires SubsOk(s)
    ensures SubsOk(Subscribe(s, fd, channel))
    ensures forall f, c :: Related(Subscribe(s, fd, channel), f, c) <==> (f == fd && c == channel) || Related(s, f, c)
  {
    var r := Subscribe(s, fd, channel);
    assert forall c :: Members(r, c) == if c == channel then Members(s, c) + {fd} else Members(s, c);
    assert forall f :: Channels(r, f) == if f == fd then Channels(s, f) + {channel} else Channels(s, f);
  }

  lemma UnsubscribeOk(s: Subs, fd: int, channel: Bytes)
    requires SubsOk(s)
    ensures SubsOk(Unsubscribe(s, fd, channel))
    ensures forall f, c :: Related(Unsubscribe(s, fd, channel), f, c) <==> !(f == fd && c == channel) && Related(s, f, c)
  {
    if fd in s.byFd {
      var r := Unsubscribe(s, fd, channel);
      assert forall c :: c in Channels(s, fd) <==> fd in Members(s, c);
      assert forall c :: Members(r, c) == if c == channel then Members(s, c) - {fd} else Members(s, c);
      assert forall f :: Channels(r, f) == if f == fd then Channels(s, f) - {channel} else Channels(s, f);
    }
  }

  lemma DropOk(s: Subs, fd: int)
    requires SubsOk(s)
    ensures SubsOk(Drop(s, fd))
    ensures forall f, c :: Related(Drop(s, fd), f, c) <==> f != fd && Related(s, f, c)
  {
    if fd in s.byFd {
      var r := Drop(s, fd);
      forall c
        ensures Members(r, c) == Members(s, c) - {fd}
      {
        assert c in Channels(s, fd) <==> fd in Members(s, c);
      }
      assert forall f :: Channels(r, f) == if f == fd then {} else Channels(s, f);
    }
  }

  /** Every run keeps the two maps mutually inverse without empty buckets, and they stand for exactly the
      subscriptions that were made and not taken back. */
  lemma {:induction false} MapsAgree(ops: seq<SubOp>)
    ensures SubsOk(DoAll(ops))
    ensures forall fd, c :: Related(DoAll(ops), fd, c) <==> Wants(ops, fd, c)
    decreases |ops|
  {
    hide Subscribe, Unsubscribe, Drop, SubsOk, Related;
    if ops == [] {
      NobodyYet();
    } else {
      var init, last := ops[..|ops| - 1], ops[|ops| - 1];
      MapsAgree(init);
      match last
      case Sub(fd, c) => SubscribeOk(DoAll(init), fd, c);
      case Unsub(fd, c) => UnsubscribeOk(DoAll(init), fd, c);
      case Gone(fd) => DropOk(DoAll(init), fd);
    }
  }

  lemma NobodyYet()
    ensures SubsOk(NO_SUBS) && forall fd, c :: !Related(NO_SUBS, fd, c)
  {}

  class PubSubManager {
    var subscriptions: map<int, set<Bytes>>
    var channelSubscribers: map<Bytes, set<int>>

    ghost function Contents(): (s: Subs)
      reads this
    {
      Subs(subscriptions, channelSubscribers)
    }

    constructor ()
      ensures Contents() == NO_SUBS
    {
      subscriptions, channelSubscribers := map[], map[];
    }

    method SubscribeTo(fd: int, channel: Bytes) returns (n: nat)
      modifies this
      ensures Contents() == Subscribe(old(Contents()), fd, channel)
      ensures n == |Channels(Contents(), fd)|
    {
      if channel !in channelSubscribers {
        channelSubscribers := channelSubscribers[channel := {}];
      }
      channelSubscribers := channelSubscribers[channel := channelSubscribers[channel] + {fd}];
      if fd !in subscriptions {
        subscriptions := subscriptions[fd := {}];
      }
      subscriptions := subscriptions[fd := subscriptions[fd] + {channel}];
      n := |subscriptions[fd]|;
    }

    method UnsubscribeFrom(fd: int, channel: Bytes) returns (n: nat)
      modifies this
      ensures Contents() == Unsubscribe(old(Contents()), fd, channel)
      ensures n == |Channels(Contents(), fd)|
    {
      if fd !in subscriptions {
        return 0;
      }
      channelSubscribers := Leave(channelSubscribers, channel, fd);
      var left := subscriptions[fd] - {channel};
      n := |left|;
      if n == 0 {
        subscriptions := subscriptions - {fd};
      } else {
        subscriptions := subscriptions[fd := left];
      }
    }

    /** A disconnecting client leaves every channel. */
    method UnsubscribeAll(fd: int)
      modifies this
      ensures Contents() == Drop(old(Contents()), fd)
    {
      if fd !in subscriptions {
        return;
      }
      channelSubscribers := LeaveAll(channelSubscribers, subscriptions[fd], fd);
      subscriptions := subscriptions - {fd};
    }

    method IsSubscribed(fd: int) returns (r: bool)
      requires SubsOk(Contents())
      ensures r <==> exists c :: Related(Contents(), fd, c)
    {
      r := fd in subscriptions && subscriptions[fd] != {};
      if r {
        var c :| c in subscriptions[fd];
        assert Related(Contents(), fd, c);
      }
    }

    method GetSubscribers(channel: Bytes) returns (r: set<int>)
      requires SubsOk(Contents())
      ensures forall fd :: fd in r <==> Related(Contents(), fd, channel)
    {
      r := if channel in channelSubscribers then channelSubscribers[channel] else {};
      assert forall fd :: channel in Channels(Contents(), fd) <==> fd in Members(Contents(), channel);
    }
  }

  /** The loop of `unsubscribe(fd)` over the client's channels, in any order. */
  method LeaveAll(buckets: map<Bytes, set<int>>, channels: set<Bytes>, fd: int) returns (r: map<Bytes, set<int>>)
    ensures r == map c | c in buckets && (c in channels ==> buckets[c] - {fd} != {}) ::
                   if c in channels then buckets[c] - {fd} else buckets[c]
  {
    r := buckets;
    var todo := channels;
    while todo != {}
      invariant todo <= channels
      invariant r == map c | c in buckets && (c in channels - todo ==> buckets[c] - {fd} != {}) ::
                       if c in channels - todo then buckets[c] - {fd} else buckets[c]
      decreases todo
    {
      var c :| c in todo;
      r := Leave(r, c, fd);
      todo := todo - {c};
    }
    assert channels - todo == channels;
  }
}
