/** In-process publish and subscribe over bounded queues. */
module Broadcaster {
  type Event = string
  type Channel = string

  const MAX_QUEUED := 100

  /** A subscriber's queue: full at 100 events. */
  class Queue {
    var items: seq<Event>

    constructor ()
      ensures items == []
    {
      items := [];
    }

    method PutNowait(e: Event) returns (ok: bool)
      modifies this
      ensures ok <==> |old(items)| < 100
      ensures items == if ok then old(items) + [e] else old(items)
    {
      ok := |items| < MAX_QUEUED;
      if ok {
        items := items + [e];
      }
    }
  }

  // ----- What a history of operations means -----

  datatype Op =
    | Subscribed(q: Queue, channel: Channel)
    | Sent(channel: Channel, event: Event)
    | Took(q: Queue, event: Event)
    | Closed(q: Queue)

  /** The subscribers of a channel that have not been closed. */
  ghost function LiveOn(h: seq<Op>, channel: Channel): set<Queue> {
    if h == [] then {}
    else
      var before := LiveOn(h[..|h| - 1], channel);
      match h[|h| - 1]
      case Subscribed(q, c) => if c == channel then before + {q} else before
      case Closed(q) => before - {q}
      case _ => before
  }

  /** The events given to the subscriber since it subscribed. */
  ghost function Yielded(h: seq<Op>, q: Queue): seq<Event> {
    if h == [] then []
    else
      var front := h[..|h| - 1];
      match h[|h| - 1]
      case Subscribed(other, _) => if other == q then [] else Yielded(front, q)
      case Took(other, e) => if other == q then Yielded(front, q) + [e] else Yielded(front, q)
      case _ => Yielded(front, q)
  }

  /** Every event broadcast on the channel while q was subscribed to it. */
  ghost function Broadcasts(h: seq<Op>, q: Queue, channel: Channel): seq<Event> {
    if h == [] then []
    else
      var front := h[..|h| - 1];
      match h[|h| - 1]
      case Subscribed(other, _) => if other == q then [] else Broadcasts(front, q, channel)
      case Sent(c, e) =>
        if c == channel && q in LiveOn(front, channel) then Broadcasts(front, q, channel) + [e]
        else Broadcasts(front, q, channel)
      case _ => Broadcasts(front, q, channel)
  }

  /** Those of them that came while fewer than 100 of the earlier ones were still waiting. */
  ghost function Accepted(h: seq<Op>, q: Queue, channel: Channel): seq<Event>
    decreases |h|, 0
  {
    if h == [] then []
    else
      var front := h[..|h| - 1];
      match h[|h| - 1]
      case Subscribed(other, _) => if other == q then [] else Accepted(front, q, channel)
      case Sent(c, e) =>
        if c == channel && q in LiveOn(front, channel) && HasRoom(front, q, channel)
        then Accepted(front, q, channel) + [e]
        else Accepted(front, q, channel)
      case _ => Accepted(front, q, channel)
  }

  ghost predicate HasRoom(h: seq<Op>, q: Queue, channel: Channel)
    decreases |h|, 1
  {
    |Accepted(h, q, channel)| - |Yielded(h, q)| < 100
  }

  /** There was room at every broadcast since q subscribed. */
  ghost predicate NeverFull(h: seq<Op>, q: Queue, channel: Channel) {
    if h == [] then true
    else
      var front := h[..|h| - 1];
      match h[|h| - 1]
      case Subscribed(other, _) => other == q || NeverFull(front, q, channel)
      case Sent(c, _) =>
        NeverFull(front, q, channel) && (c == channel && q in LiveOn(front, channel) ==> HasRoom(front, q, channel))
      case _ => NeverFull(front, q, channel)
  }

  /** A subscriber loses nothing exactly when its queue was never full at a broadcast. */
  lemma {:induction false} NothingLostIff(h: seq<Op>, q: Queue, channel: Channel)
    ensures |Accepted(h, q, channel)| <= |Broadcasts(h, q, channel)|
    ensures Accepted(h, q, channel) == Broadcasts(h, q, channel) <==> NeverFull(h, q, channel)
  {
    if h != [] {
      var front := h[..|h| - 1];
      NothingLostIff(front, q, channel);
      if h[|h| - 1].Sent? {
        var accepted, sent, e := Accepted(front, q, channel), Broadcasts(front, q, channel), h[|h| - 1].event;
        assert (accepted + [e])[..|accepted|] == accepted && (sent + [e])[..|sent|] == sent;
      }
    }
  }

  ghost function Kept<T>(s: seq<T>, keep: seq<bool>): seq<T>
    requires |keep| == |s|
  {
    if s == [] then []
    else
      var n := |s| - 1;
      if keep[n] then Kept(s[..n], keep[..n]) + [s[n]] else Kept(s[..n], keep[..n])
  }

  /** `a` is `b` with some elements left out. */
  ghost predicate InOrderWithin<T>(a: seq<T>, b: seq<T>) {
    exists keep: seq<bool> :: |keep| == |b| && Kept(b, keep) == a
  }

  lemma DroppingKeepsOrder<T>(a: seq<T>, b: seq<T>, e: T)
    requires InOrderWithin(a, b)
    ensures InOrderWithin(a, b + [e]) && InOrderWithin(a + [e], b + [e])
  {
    var keep: seq<bool> :| |keep| == |b| && Kept(b, keep) == a;
    assert (b + [e])[..|b|] == b;
    assert (keep + [true])[..|b|] == keep && (keep + [false])[..|b|] == keep;
    assert Kept(b + [e], keep + [false]) == a && Kept(b + [e], keep + [true]) == a + [e];
  }

  /** What a subscriber gets is what was broadcast, in order, with some events missing. */
  lemma {:induction false} AcceptedInOrder(h: seq<Op>, q: Queue, channel: Channel)
    ensures InOrderWithin(Accepted(h, q, channel), Broadcasts(h, q, channel))
  {
    if h == [] {
      assert Kept<Event>([], []) == [];
    } else {
      var front := h[..|h| - 1];
      assert Kept<Event>([], []) == [];
      AcceptedInOrder(front, q, channel);
      match h[|h| - 1] {
        case Sent(_, e) => DroppingKeepsOrder(Accepted(front, q, channel), Broadcasts(front, q, channel), e);
        case _ =>
      }
    }
  }

  lemma Latest(h: seq<Op>, op: Op)
    ensures (h + [op])[..|h|] == h && (h + [op])[|h|] == op
  {
  }

  method PutAll(queues: set<Queue>, event: Event) returns (delivered: nat)
    modifies queues
    ensures delivered == |set q | q in queues && |old(q.items)| < 100|
    ensures forall q :: q in queues ==> q.items == if |old(q.items)| < 100 then old(q.items) + [event] else old(q.items)
  {
    var todo := queues;
    ghost var grown: set<Queue> := {};
    delivered := 0;
    while todo != {}
      invariant todo <= queues
      invariant forall q :: q in todo ==> q.items == old(q.items)
      invariant forall q :: q in queues - todo ==> q.items == if |old(q.items)| < 100 then old(q.items) + [event] else old(q.items)
      invariant grown <= queues - todo
      invariant forall q :: q in queues - todo ==> (q in grown <==> |old(q.items)| < 100)
      invariant delivered == |grown|
    {
      var q :| q in todo;
      var ok := q.PutNowait(event);
      if ok {
        delivered := delivered + 1;
        grown := grown + {q};
      }
      todo := todo - {q};
    }
    assert grown == set q | q in queues && |old(q.items)| < 100;
  }

  class Broadcaster {
    var channels: map<Channel, set<Queue>>
    ghost var history: seq<Op>

    function QueuesOf(channel: Channel): set<Queue>
      reads this
    {
      if channel in channels then channels[channel] else {}
    }

    ghost function AllQueues(): set<Queue>
      reads this
    {
      set channel, q | channel in channels && q in channels[channel] :: q
    }

    /** The channel map holds the live subscribers and no empty channel, and no queue is on two channels. */
    ghost predicate ChannelsOk()
      reads this
    {
      && (forall channel :: QueuesOf(channel) == LiveOn(history, channel))
      && (forall channel :: channel in channels ==> channels[channel] != {})
      && (forall a, b, q :: q in QueuesOf(a) && q in QueuesOf(b) ==> a == b)
    }

    /** What a live subscriber was given, followed by its queue, is what it accepted. */
    ghost predicate QueuesOk()
      reads this, AllQueues()
    {
      forall channel, q :: channel in channels && q in channels[channel] ==>
        && Yielded(history, q) + q.items == Accepted(history, q, channel)
        && |q.items| <= 100
    }

    ghost predicate Valid()
      reads this, AllQueues()
    {
      ChannelsOk() && QueuesOk()
    }

    constructor ()
      ensures Valid() && history == []
    {
      channels, history := map[], [];
    }

    method Subscribe(channel: Channel) returns (queue: Queue)
      requires Valid()
      modifies this
      ensures Valid() && fresh(queue) && history == old(history) + [Subscribed(queue, channel)]
    {
      queue := new Queue();
      Latest(history, Subscribed(queue, channel));
      channels := channels[channel := QueuesOf(channel) + {queue}];
      history := history + [Subscribed(queue, channel)];
    }

    /** One step of the subscriber's iteration, once there is an event. */
    method Get(queue: Queue, channel: Channel) returns (event: Event)
      requires Valid() && queue in QueuesOf(channel) && queue.items != []
      modifies this`history, queue
      ensures Valid() && history == old(history) + [Took(queue, event)]
    {
      event := queue.items[0];
      Latest(history, Took(queue, event));
      queue.items := queue.items[1..];
      history := history + [Took(queue, event)];
    }

    /** The subscriber's iteration is closed. */
    method Close(queue: Queue, channel: Channel)
      requires Valid() && queue in QueuesOf(channel)
      modifies this
      ensures Valid() && history == old(history) + [Closed(queue)]
    {
      Latest(history, Closed(queue));
      channels := channels[channel := channels[channel] - {queue}];
      if channels[channel] == {} {
        channels := channels - {channel};
      }
      history := history + [Closed(queue)];
    }

    method Broadcast(channel: Channel, event: Event) returns (delivered: nat)
      requires Valid()
      modifies this`history, QueuesOf(channel)
      ensures Valid() && history == old(history) + [Sent(channel, event)]
      ensures delivered == |set q | q in QueuesOf(channel) && |old(q.items)| < 100|
      ensures forall q :: q in QueuesOf(channel) ==>
                q.items == if |old(q.items)| < 100 then old(q.items) + [event] else old(q.items)
    {
      Latest(history, Sent(channel, event));
      delivered := PutAll(QueuesOf(channel), event);
      history := history + [Sent(channel, event)];
      forall c, q | c in channels && q in channels[c]
        ensures Yielded(history, q) + q.items == Accepted(history, q, c) && |q.items| <= 100
      {
        assert Yielded(history, q) == Yielded(old(history), q);
        if c == channel {
          assert q in QueuesOf(channel);
          assert Yielded(history, q) + (old(q.items) + [event]) == Yielded(history, q) + old(q.items) + [event];
        } else {
          assert q in old(QueuesOf(c)) && q !in old(QueuesOf(channel));
          assert q.items == old(q.items);
        }
      }
    }

    method ChannelSize(channel: Channel) returns (size: nat)
      requires Valid()
      ensures size == |LiveOn(history, channel)|
    {
      size := |QueuesOf(channel)|;
    }
  }
}
