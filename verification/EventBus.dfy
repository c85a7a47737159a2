/** The in-process bus between the audit log and the live dashboard: each subscriber has a
    bounded queue, and publishing schedules one delivery per subscriber on the event loop,
    which runs them in order. */
module EventBus {
  /** A subscriber's queue is known by its creation number; `queues[q]` is its content. */
  datatype BusView<E> = BusView(
    queueSize: int,
    attached: bool,
    subscribers: seq<nat>,
    queues: seq<seq<E>>,
    scheduled: seq<(nat, E)>)

  /** A non-positive size means an unbounded queue. */
  predicate Full(size: int, length: nat) {
    size > 0 && length >= size
  }

  function Subscribed<E>(b: BusView<E>): BusView<E> {
    b.(subscribers := b.subscribers + [|b.queues|], queues := b.queues + [[]])
  }

  function Without(s: seq<nat>, q: nat): seq<nat> {
    if s == [] then [] else if s[0] == q then s[1..] else [s[0]] + Without(s[1..], q)
  }

  function Unsubscribed<E>(b: BusView<E>, q: nat): BusView<E> {
    b.(subscribers := Without(b.subscribers, q))
  }

  /** One delivery of the event for each of the first `n` subscribers. */
  function Deliveries<E>(subs: seq<nat>, n: nat, e: E): seq<(nat, E)>
    requires n <= |subs|
  {
    if n == 0 then [] else Deliveries(subs, n - 1, e) + [(subs[n - 1], e)]
  }

  function Published<E>(b: BusView<E>, e: E): BusView<E> {
    if b.attached then b.(scheduled := b.scheduled + Deliveries(b.subscribers, |b.subscribers|, e)) else b
  }

  /** Puts the event if there is room, and drops it otherwise. */
  function SafePut<E>(b: BusView<E>, q: nat, e: E): BusView<E> {
    if q < |b.queues| && !Full(b.queueSize, |b.queues[q]|) then b.(queues := b.queues[q := b.queues[q] + [e]]) else b
  }

  /** The event loop runs the oldest scheduled delivery. */
  function Ran<E>(b: BusView<E>): BusView<E> {
    if b.scheduled == [] then b
    else SafePut(b.(scheduled := b.scheduled[1..]), b.scheduled[0].0, b.scheduled[0].1)
  }

  /** A consumer takes the oldest event from its queue. */
  function Got<E>(b: BusView<E>, q: nat): BusView<E> {
    if q < |b.queues| && b.queues[q] != [] then b.(queues := b.queues[q := b.queues[q][1..]]) else b
  }

  class EventBus<E(==)> {
    const queueSize: int
    var attached: bool
    var subscribers: seq<nat>
    var queues: seq<seq<E>>
    var scheduled: seq<(nat, E)>

    ghost function View(): BusView<E>
      reads this
    {
      BusView(queueSize, attached, subscribers, queues, scheduled)
    }

    constructor (queueSize: int)
      ensures View() == BusView(queueSize, false, [], [], [])
    {
      this.queueSize, attached := queueSize, false;
      subscribers, queues, scheduled := [], [], [];
    }

    method AttachLoop()
      modifies this
      ensures View() == old(View()).(attached := true)
    {
      attached := true;
    }

    method Subscribe() returns (q: nat)
      modifies this
      ensures q == |old(queues)| && View() == Subscribed(old(View()))
    {
      q := |queues|;
      queues := queues + [[]];
      subscribers := subscribers + [q];
    }

    method Unsubscribe(q: nat)
      modifies this
      ensures View() == Unsubscribed(old(View()), q)
    {
      if q in subscribers {
        subscribers := Without(subscribers, q);
      } else {
        WithoutAbsent(subscribers, q);
      }
    }

    method Publish(e: E)
      modifies this
      ensures View() == Published(old(View()), e)
    {
      if !attached {
        return;
      }
      var subs := subscribers;
      for i := 0 to |subs|
        invariant View() == old(View()).(scheduled := old(scheduled) + Deliveries(subs, i, e))
      {
        scheduled := scheduled + [(subs[i], e)];
      }
    }

    /** The subscriber takes its oldest event, if there is one. */
    method Get(q: nat) returns (events: seq<E>)
      modifies this
      ensures View() == Got(old(View()), q)
      ensures events == if q < |old(queues)| && old(queues)[q] != [] then [old(queues)[q][0]] else []
    {
      events := [];
      if q < |queues| && queues[q] != [] {
        events := [queues[q][0]];
        queues := queues[q := queues[q][1..]];
      }
    }

    method RunNext() returns (ran: bool)
      modifies this
      ensures ran == (old(scheduled) != []) && View() == Ran(old(View()))
    {
      ran := scheduled != [];
      if ran {
        var (q, e) := scheduled[0];
        scheduled := scheduled[1..];
        if q < |queues| && !Full(queueSize, |queues[q]|) {
          queues := queues[q := queues[q] + [e]];
        }
      }
    }
  }

  /** Running the oldest delivery puts its event at the end of its queue while the queue is below its size, or has
      none, and otherwise leaves the queue as it is; the other queues are left alone in either case. */
  lemma DeliveryMeaning<E>(b: BusView<E>, p: nat)
    requires b.scheduled != [] && b.scheduled[0].0 < |b.queues| && p < |b.queues|
    ensures var (q, e) := b.scheduled[0];
            && Ran(b).scheduled == b.scheduled[1..] && |Ran(b).queues| == |b.queues|
            && Ran(b).queues[p] ==
               if p == q && (b.queueSize <= 0 || |b.queues[q]| < b.queueSize) then b.queues[q] + [e] else b.queues[p]
  {
  }

  lemma WithoutAbsent(s: seq<nat>, q: nat)
    requires q !in s
    ensures Without(s, q) == s
  {
  }
}
