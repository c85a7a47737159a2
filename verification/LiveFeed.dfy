/** What a dashboard subscriber sees of the audit log. Entries are published inside the
    lock that appends them, so one feed step appends and publishes. The bus never looks
    into events; they are represented by their positions in the log. */
module LiveFeed {
  import opened Graphs
  import opened EventBus

  datatype Step =
    | Attach
    | Append
    | Join
    | Leave(q: nat)
    | RunLoop
    | Consume(q: nat)

  /** `since[q]` and `until[q]` bound the log entries appended while q was subscribed;
      `dropped[q]` and `detached[q]` record that an entry met a full queue or a missing loop. */
  datatype Feed = Feed(
    log: nat,
    bus: BusView<nat>,
    consumed: seq<seq<nat>>,
    since: seq<nat>,
    until: seq<nat>,
    dropped: seq<bool>,
    detached: seq<bool>)

  function Start(queueSize: int): Feed {
    Feed(0, BusView(queueSize, false, [], [], []), [], [], [], [], [])
  }

  predicate Shaped(f: Feed) {
    |f.bus.queues| == |f.consumed| == |f.since| == |f.until| == |f.dropped| == |f.detached|
  }

  function Take(f: Feed, step: Step): Feed
    requires Shaped(f)
  {
    match step
    case Attach => f.(bus := f.bus.(attached := true))
    case Append =>
      f.(log := f.log + 1, bus := Published(f.bus, f.log),
         until := seq(|f.until|, q requires 0 <= q < |f.until| => if q in f.bus.subscribers then f.log + 1 else f.until[q]),
         detached := seq(|f.detached|, q requires 0 <= q < |f.detached| =>
           f.detached[q] || (q in f.bus.subscribers && !f.bus.attached)))
    case Join =>
      f.(bus := Subscribed(f.bus), consumed := f.consumed + [[]], since := f.since + [f.log], until := f.until + [f.log],
         dropped := f.dropped + [false], detached := f.detached + [false])
    case Leave(q) => f.(bus := Unsubscribed(f.bus, q))
    case RunLoop =>
      if f.bus.scheduled == [] then f
      else
        var q := f.bus.scheduled[0].0;
        f.(bus := Ran(f.bus),
           dropped := if q < |f.dropped| && Full(f.bus.queueSize, |f.bus.queues[q]|) then f.dropped[q := true] else f.dropped)
    case Consume(q) =>
      if q < |f.bus.queues| && f.bus.queues[q] != [] then
        f.(bus := Got(f.bus, q), consumed := f.consumed[q := f.consumed[q] + [f.bus.queues[q][0]]])
      else f
  }

  function Run(queueSize: int, steps: seq<Step>): (f: Feed)
    ensures Shaped(f)
  {
    if steps == [] then Start(queueSize) else Take(Run(queueSize, steps[..|steps| - 1]), steps[|steps| - 1])
  }

  // ---- What a subscriber has received or will receive ----

  /** The scheduled deliveries for one queue, in order. */
  function For(scheduled: seq<(nat, nat)>, q: nat): seq<nat> {
    if scheduled == [] then []
    else
      var last := scheduled[|scheduled| - 1];
      For(scheduled[..|scheduled| - 1], q) + if last.0 == q then [last.1] else []
  }

  lemma {:induction false} ForConcat(a: seq<(nat, nat)>, b: seq<(nat, nat)>, q: nat)
    ensures For(a + b, q) == For(a, q) + For(b, q)
  {
    if b == [] {
      assert a + b == a;
    } else {
      assert (a + b)[..|a + b| - 1] == a + b[..|b| - 1];
      ForConcat(a, b[..|b| - 1], q);
    }
  }

  lemma ForLast(d: seq<(nat, nat)>, last: (nat, nat), q: nat)
    ensures For(d + [last], q) == For(d, q) + if last.0 == q then [last.1] else []
  {
    assert (d + [last])[..|d|] == d;
  }

  lemma PrefixMember(subs: seq<nat>, n: nat, q: nat)
    requires NoDuplicates(subs) && 0 < n <= |subs|
    ensures q in subs[..n] <==> q in subs[..n - 1] || q == subs[n - 1]
    ensures subs[n - 1] !in subs[..n - 1]
  {
    assert subs[..n] == subs[..n - 1] + [subs[n - 1]];
  }

  lemma {:induction false} ForDeliveries(subs: seq<nat>, n: nat, e: nat, q: nat)
    requires NoDuplicates(subs) && n <= |subs|
    ensures For(Deliveries(subs, n, e), q) == if q in subs[..n] then [e] else []
  {
    if n > 0 {
      ForDeliveries(subs, n - 1, e, q);
      ForLast(Deliveries(subs, n - 1, e), (subs[n - 1], e), q);
      PrefixMember(subs, n, q);
    }
  }

  /** Everything consumed, queued and still scheduled, oldest first. */
  function Stream(f: Feed, q: nat): seq<nat>
    requires Shaped(f) && q < |f.bus.queues|
  {
    f.consumed[q] + f.bus.queues[q] + For(f.bus.scheduled, q)
  }

  predicate Increasing(s: seq<nat>) {
    forall i, j :: 0 <= i < j < |s| ==> s[i] < s[j]
  }

  predicate Within(s: seq<nat>, lo: nat, hi: nat) {
    forall i :: 0 <= i < |s| ==> lo <= s[i] < hi
  }

  function Range(lo: nat, hi: nat): seq<nat> {
    if lo >= hi then [] else Range(lo, hi - 1) + [hi - 1]
  }

  /** What holds of one subscriber. */
  ghost predicate QueueInv(f: Feed, q: nat)
    requires Shaped(f) && q < |f.bus.queues|
  {
    && f.since[q] <= f.until[q] <= f.log
    && (q in f.bus.subscribers ==> f.until[q] == f.log)
    && Increasing(Stream(f, q)) && Within(Stream(f, q), f.since[q], f.until[q])
    && (f.bus.queueSize > 0 ==> |f.bus.queues[q]| <= f.bus.queueSize)
    && (!f.dropped[q] && !f.detached[q] ==> Stream(f, q) == Range(f.since[q], f.until[q]))
  }

  ghost predicate FeedInv(f: Feed) {
    && Shaped(f) && NoDuplicates(f.bus.subscribers)
    && (forall i :: 0 <= i < |f.bus.subscribers| ==> f.bus.subscribers[i] < |f.bus.queues|)
    && (forall i :: 0 <= i < |f.bus.scheduled| ==> f.bus.scheduled[i].0 < |f.bus.queues|)
    && (forall q :: 0 <= q < |f.bus.queues| ==> QueueInv(f, q))
  }

  lemma IncreasingAppend(s: seq<nat>, lo: nat, hi: nat)
    requires Increasing(s) && Within(s, lo, hi) && lo <= hi
    ensures Increasing(s + [hi]) && Within(s + [hi], lo, hi + 1)
  {
  }

  lemma ForPublished(b: BusView<nat>, e: nat, q: nat)
    requires NoDuplicates(b.subscribers)
    ensures For(Published(b, e).scheduled, q) ==
            For(b.scheduled, q) + if q in b.subscribers && b.attached then [e] else []
  {
    if b.attached {
      var subs := b.subscribers;
      var d := Deliveries(subs, |subs|, e);
      ForConcat(b.scheduled, d, q);
      ForDeliveries(subs, |subs|, e, q);
      assert subs[..|subs|] == subs;
    }
  }

  lemma AppendedStream(f: Feed, q: nat)
    requires Shaped(f) && q < |f.bus.queues| && NoDuplicates(f.bus.subscribers)
    ensures Stream(Take(f, Append), q) ==
            if q in f.bus.subscribers && f.bus.attached then Stream(f, q) + [f.log] else Stream(f, q)
  {
    ForPublished(f.bus, f.log, q);
    var a, b := f.consumed[q] + f.bus.queues[q], For(f.bus.scheduled, q);
    assert a + (b + [f.log]) == a + b + [f.log];
    assert a + (b + []) == a + b;
  }

  lemma AppendKeeps(f: Feed, q: nat)
    requires Shaped(f) && q < |f.bus.queues| && NoDuplicates(f.bus.subscribers) && QueueInv(f, q)
    ensures QueueInv(Take(f, Append), q)
  {
    AppendedFields(f, q);
    AppendedStream(f, q);
    if q in f.bus.subscribers {
      ListenerKeeps(f, Take(f, Append), q);
    } else {
      BystanderKeeps(f, Take(f, Append), q);
    }
  }

  /** A subscriber's stream after an entry, in terms of the fields of both states. */
  lemma ListenerKeeps(f: Feed, f': Feed, q: nat)
    requires Shaped(f) && Shaped(f') && q < |f.bus.queues| && q < |f'.bus.queues| && QueueInv(f, q) && q in f.bus.subscribers
    requires f'.log == f.log + 1 && f'.since[q] == f.since[q] && f'.until[q] == f.log + 1
    requires f'.bus.queues[q] == f.bus.queues[q] && f'.bus.queueSize == f.bus.queueSize
    requires f'.dropped[q] == f.dropped[q] && f'.detached[q] == (f.detached[q] || !f.bus.attached)
    requires Stream(f', q) == if f.bus.attached then Stream(f, q) + [f.log] else Stream(f, q)
    ensures QueueInv(f', q)
  {
    if f.bus.attached {
      IncreasingAppend(Stream(f, q), f.since[q], f.log);
      RangeStep(f.since[q], f.log);
    } else {
      WithinMore(Stream(f, q), f.since[q], f.log);
    }
  }

  lemma RangeStep(lo: nat, hi: nat)
    requires lo <= hi
    ensures Range(lo, hi + 1) == Range(lo, hi) + [hi]
  {
  }

  lemma WithinMore(s: seq<nat>, lo: nat, hi: nat)
    requires Within(s, lo, hi)
    ensures Within(s, lo, hi + 1)
  {
  }

  lemma BystanderKeeps(f: Feed, f': Feed, q: nat)
    requires Shaped(f) && Shaped(f') && q < |f.bus.queues| && q < |f'.bus.queues| && QueueInv(f, q) && q !in f'.bus.subscribers
    requires f'.log == f.log + 1 && f'.since[q] == f.since[q] && f'.until[q] == f.until[q]
    requires f'.bus.queues[q] == f.bus.queues[q] && f'.bus.queueSize == f.bus.queueSize
    requires f'.dropped[q] == f.dropped[q] && f'.detached[q] == f.detached[q] && Stream(f', q) == Stream(f, q)
    ensures QueueInv(f', q)
  {
  }

  lemma AppendedFields(f: Feed, q: nat)
    requires Shaped(f) && q < |f.bus.queues|
    ensures var f' := Take(f, Append);
            && f'.log == f.log + 1 && f'.since[q] == f.since[q] && f'.bus.queues[q] == f.bus.queues[q]
            && f'.bus.queueSize == f.bus.queueSize && f'.bus.subscribers == f.bus.subscribers && f'.dropped[q] == f.dropped[q]
            && f'.until[q] == (if q in f.bus.subscribers then f.log + 1 else f.until[q])
            && f'.detached[q] == (f.detached[q] || (q in f.bus.subscribers && !f.bus.attached))
  {
  }

  lemma {:induction false} ForAbsent(s: seq<(nat, nat)>, q: nat)
    requires forall i :: 0 <= i < |s| ==> s[i].0 != q
    ensures For(s, q) == []
  {
    if s != [] {
      ForAbsent(s[..|s| - 1], q);
    }
  }

  lemma ForFirst(s: seq<(nat, nat)>, q: nat)
    requires s != []
    ensures For(s, q) == (if s[0].0 == q then [s[0].1] else []) + For(s[1..], q)
  {
    ForConcat([s[0]], s[1..], q);
    assert [s[0]] + s[1..] == s;
  }

  lemma DropOne(a: seq<nat>, x: nat, b: seq<nat>, lo: nat, hi: nat)
    requires Increasing(a + [x] + b) && Within(a + [x] + b, lo, hi)
    ensures Increasing(a + b) && Within(a + b, lo, hi)
  {
    var s, t := a + [x] + b, a + b;
    assert forall i :: 0 <= i < |t| ==> t[i] == s[if i < |a| then i else i + 1];
  }

  lemma RunLoopKeeps(f: Feed, q: nat)
    requires FeedInv(f) && q < |f.bus.queues| && f.bus.scheduled != []
    ensures QueueInv(Take(f, RunLoop), q)
  {
    assert QueueInv(f, q);
    var f' := Take(f, RunLoop);
    var (to, e) := f.bus.scheduled[0];
    ForFirst(f.bus.scheduled, q);
    if to != q {
      assert Stream(f', q) == Stream(f, q);
    } else if Full(f.bus.queueSize, |f.bus.queues[q]|) {
      var a := f.consumed[q] + f.bus.queues[q];
      assert Stream(f, q) == a + [e] + For(f.bus.scheduled[1..], q);
      DropOne(a, e, For(f.bus.scheduled[1..], q), f.since[q], f.until[q]);
    } else {
      assert Stream(f', q) == Stream(f, q);
    }
  }

  lemma ConsumeKeeps(f: Feed, c: nat, q: nat)
    requires FeedInv(f) && q < |f.bus.queues|
    ensures QueueInv(Take(f, Consume(c)), q)
  {
    assert QueueInv(f, q);
    var f' := Take(f, Consume(c));
    if c == q && f.bus.queues[q] != [] {
      assert f.bus.queues[q] == [f.bus.queues[q][0]] + f.bus.queues[q][1..];
    }
    assert Stream(f', q) == Stream(f, q);
  }

  lemma {:induction false} WithoutElements(s: seq<nat>, q: nat)
    requires NoDuplicates(s)
    ensures NoDuplicates(Without(s, q)) && forall x :: x in Without(s, q) <==> x in s && x != q
  {
    if s != [] && s[0] != q {
      WithoutElements(s[1..], q);
      assert s == [s[0]] + s[1..];
      assert s[0] !in s[1..];
    } else if s != [] {
      assert s == [s[0]] + s[1..];
      assert s[0] !in s[1..];
    }
  }

  lemma JoinKeeps(f: Feed, q: nat)
    requires FeedInv(f) && q < |Take(f, Join).bus.queues|
    ensures QueueInv(Take(f, Join), q)
  {
    var f' := Take(f, Join);
    if q == |f.bus.queues| {
      ForAbsent(f.bus.scheduled, q);
      assert Stream(f', q) == [];
      assert Range(f.log, f.log) == [];
    } else {
      assert QueueInv(f, q);
      assert Stream(f', q) == Stream(f, q);
      assert q in f'.bus.subscribers ==> q in f.bus.subscribers;
    }
  }

  lemma StepKeepsShape(f: Feed, step: Step)
    requires FeedInv(f)
    ensures var b := Take(f, step).bus;
            && NoDuplicates(b.subscribers)
            && (forall i :: 0 <= i < |b.subscribers| ==> b.subscribers[i] < |b.queues|)
            && (forall i :: 0 <= i < |b.scheduled| ==> b.scheduled[i].0 < |b.queues|)
  {
    if step.Append? {
      DeliveriesAddressed(f.bus.subscribers, |f.bus.subscribers|, f.log);
    } else if step.Leave? {
      WithoutElements(f.bus.subscribers, step.q);
      forall i | 0 <= i < |Without(f.bus.subscribers, step.q)|
        ensures Without(f.bus.subscribers, step.q)[i] < |f.bus.queues|
      {
        assert Without(f.bus.subscribers, step.q)[i] in f.bus.subscribers;
      }
    }
  }

  lemma {:induction false} DeliveriesAddressed(subs: seq<nat>, n: nat, e: nat)
    requires n <= |subs|
    ensures |Deliveries(subs, n, e)| == n && forall i :: 0 <= i < n ==> Deliveries(subs, n, e)[i] == (subs[i], e)
  {
    if n > 0 {
      DeliveriesAddressed(subs, n - 1, e);
    }
  }

  lemma StepKeeps(f: Feed, step: Step)
    requires FeedInv(f)
    ensures FeedInv(Take(f, step))
  {
    StepKeepsShape(f, step);
    forall q | 0 <= q < |Take(f, step).bus.queues|
      ensures QueueInv(Take(f, step), q)
    {
      if !step.Join? { assert QueueInv(f, q); }
      match step
      case Attach => assert Stream(Take(f, step), q) == Stream(f, q);
      case Append => AppendKeeps(f, q);
      case Join => JoinKeeps(f, q);
      case Leave(c) =>
        WithoutElements(f.bus.subscribers, c);
        assert Stream(Take(f, step), q) == Stream(f, q);
      case RunLoop => if f.bus.scheduled != [] { RunLoopKeeps(f, q); }
      case Consume(c) => ConsumeKeeps(f, c, q);
    }
  }

  lemma {:induction false} RunKeeps(queueSize: int, steps: seq<Step>)
    ensures FeedInv(Run(queueSize, steps))
  {
    if steps != [] {
      RunKeeps(queueSize, steps[..|steps| - 1]);
      StepKeeps(Run(queueSize, steps[..|steps| - 1]), steps[|steps| - 1]);
    }
  }

  /** In every run, what a subscriber has consumed and still has queued is a duplicate-free,
      in-order part of the entries appended while it was subscribed, and its queue respects
      the bound; once its deliveries have run it is the whole of them, unless its queue was
      full at a delivery or an entry was appended while no loop was attached. */
  lemma FeedRefinesLog(queueSize: int, steps: seq<Step>, q: nat)
    requires q < |Run(queueSize, steps).bus.queues|
    ensures var f := Run(queueSize, steps);
            var seen := f.consumed[q] + f.bus.queues[q];
            && Increasing(seen) && Within(seen, f.since[q], f.until[q]) && f.until[q] <= f.log
            && (queueSize > 0 ==> |f.bus.queues[q]| <= queueSize)
            && (For(f.bus.scheduled, q) == [] && !f.dropped[q] && !f.detached[q] ==> seen == Range(f.since[q], f.until[q]))
  {
    RunKeeps(queueSize, steps);
    SizeStays(queueSize, steps);
    var f := Run(queueSize, steps);
    var seen := f.consumed[q] + f.bus.queues[q];
    assert QueueInv(f, q);
    assert Stream(f, q) == seen + For(f.bus.scheduled, q);
    assert forall i :: 0 <= i < |seen| ==> seen[i] == Stream(f, q)[i];
  }

  lemma {:induction false} SizeStays(queueSize: int, steps: seq<Step>)
    ensures Run(queueSize, steps).bus.queueSize == queueSize
  {
    if steps != [] {
      SizeStays(queueSize, steps[..|steps| - 1]);
    }
  }

  // ---- The history behind the bounds and the gaps ----

  /** The step runs a delivery to q while q's queue is at its size. */
  predicate FullAt(f: Feed, step: Step, q: nat) {
    && step.RunLoop? && f.bus.scheduled != [] && f.bus.scheduled[0].0 == q
    && q < |f.bus.queues| && f.bus.queueSize > 0 && |f.bus.queues[q]| == f.bus.queueSize
  }

  /** Step `n` of the history does. */
  ghost predicate MeetsFullQueue(queueSize: int, steps: seq<Step>, n: nat, q: nat)
    requires n < |steps|
  {
    FullAt(Run(queueSize, steps[..n]), steps[n], q)
  }

  /** The step appends an entry for the subscriber q while no loop is attached. */
  predicate UnheardAt(f: Feed, step: Step, q: nat) {
    step == Append && q in f.bus.subscribers && !f.bus.attached
  }

  ghost predicate MeetsNoLoop(queueSize: int, steps: seq<Step>, n: nat, q: nat)
    requires n < |steps|
  {
    UnheardAt(Run(queueSize, steps[..n]), steps[n], q)
  }

  lemma RunFront(queueSize: int, steps: seq<Step>, n: nat)
    requires 0 < n <= |steps|
    ensures Run(queueSize, steps[..n]) == Take(Run(queueSize, steps[..n - 1]), steps[n - 1])
  {
    assert steps[..n][..n - 1] == steps[..n - 1];
  }

  lemma FlagsStep(f: Feed, step: Step, q: nat)
    requires FeedInv(f) && q < |Take(f, step).bus.queues|
    ensures Shaped(Take(f, step))
    ensures Take(f, step).dropped[q] <==> (q < |f.bus.queues| && f.dropped[q]) || FullAt(f, step, q)
    ensures Take(f, step).detached[q] <==> (q < |f.bus.queues| && f.detached[q]) || UnheardAt(f, step, q)
  {
    if q < |f.bus.queues| {
      assert QueueInv(f, q);
    } else {
      NotSubscribedYet(f, q);
    }
  }

  lemma NotSubscribedYet(f: Feed, q: nat)
    requires FeedInv(f) && q >= |f.bus.queues|
    ensures q !in f.bus.subscribers
  {
    forall i | 0 <= i < |f.bus.subscribers| ensures f.bus.subscribers[i] != q {}
  }

  ghost predicate EverFull(queueSize: int, steps: seq<Step>, n: nat, q: nat)
    requires n <= |steps|
  {
    exists m :: 0 <= m < n && MeetsFullQueue(queueSize, steps, m, q)
  }

  ghost predicate EverUnheard(queueSize: int, steps: seq<Step>, n: nat, q: nat)
    requires n <= |steps|
  {
    exists m :: 0 <= m < n && MeetsNoLoop(queueSize, steps, m, q)
  }

  lemma EverStep(queueSize: int, steps: seq<Step>, n: nat, q: nat)
    requires 0 < n <= |steps|
    ensures var f := Run(queueSize, steps[..n - 1]);
            && (EverFull(queueSize, steps, n, q) <==> EverFull(queueSize, steps, n - 1, q) || FullAt(f, steps[n - 1], q))
            && (EverUnheard(queueSize, steps, n, q) <==> EverUnheard(queueSize, steps, n - 1, q) || UnheardAt(f, steps[n - 1], q))
  {
    var f := Run(queueSize, steps[..n - 1]);
    assert MeetsFullQueue(queueSize, steps, n - 1, q) == FullAt(f, steps[n - 1], q);
    assert MeetsNoLoop(queueSize, steps, n - 1, q) == UnheardAt(f, steps[n - 1], q);
  }

  lemma NothingBefore(queueSize: int, steps: seq<Step>, n: nat, q: nat)
    requires n <= |steps| && q >= |Run(queueSize, steps[..n]).bus.queues|
    ensures !EverFull(queueSize, steps, n, q) && !EverUnheard(queueSize, steps, n, q)
  {
    forall m | 0 <= m < n
      ensures !MeetsFullQueue(queueSize, steps, m, q) && !MeetsNoLoop(queueSize, steps, m, q)
    {
      QueuesGrow(queueSize, steps, m, n);
      RunKeeps(queueSize, steps[..m]);
      NotSubscribedYet(Run(queueSize, steps[..m]), q);
    }
  }

  /** A subscriber is marked as dropped exactly if one of its deliveries met its queue at its size, and as detached
      exactly if an entry was appended for it while no loop was attached. */
  lemma {:induction false} FlagsIff(queueSize: int, steps: seq<Step>, n: nat, q: nat)
    requires n <= |steps| && q < |Run(queueSize, steps[..n]).bus.queues|
    ensures Run(queueSize, steps[..n]).dropped[q] <==> EverFull(queueSize, steps, n, q)
    ensures Run(queueSize, steps[..n]).detached[q] <==> EverUnheard(queueSize, steps, n, q)
  {
    NoQueuesAtFirst(queueSize, steps);
    if n > 0 {
      RunFront(queueSize, steps, n);
      RunKeeps(queueSize, steps[..n - 1]);
      FlagsStep(Run(queueSize, steps[..n - 1]), steps[n - 1], q);
      EverStep(queueSize, steps, n, q);
      if q < |Run(queueSize, steps[..n - 1]).bus.queues| {
        FlagsIff(queueSize, steps, n - 1, q);
      } else {
        NothingBefore(queueSize, steps, n - 1, q);
      }
    }
  }

  lemma NoQueuesAtFirst(queueSize: int, steps: seq<Step>)
    ensures |Run(queueSize, steps[..0]).bus.queues| == 0
  {
    assert steps[..0] == [];
  }

  lemma {:induction false} QueuesGrow(queueSize: int, steps: seq<Step>, m: nat, n: nat)
    requires m <= n <= |steps|
    ensures |Run(queueSize, steps[..m]).bus.queues| <= |Run(queueSize, steps[..n]).bus.queues|
    decreases n - m
  {
    if m < n {
      RunFront(queueSize, steps, n);
      QueuesGrow(queueSize, steps, m, n - 1);
      TakeGrows(Run(queueSize, steps[..n - 1]), steps[n - 1]);
    }
  }

  lemma TakeGrows(f: Feed, step: Step)
    requires Shaped(f)
    ensures |Take(f, step).bus.queues| >= |f.bus.queues|
  {
  }

  /** How many subscriptions there are. */
  function Joins(steps: seq<Step>): nat {
    if steps == [] then 0 else Joins(steps[..|steps| - 1]) + if steps[|steps| - 1].Join? then 1 else 0
  }

  /** After `n` steps, q has subscribed, at step `j`, and has not left since. */
  predicate Listens(steps: seq<Step>, j: nat, n: nat, q: nat) {
    j < n <= |steps| && steps[j] == Join && Joins(steps[..j]) == q && forall m :: j < m < n ==> steps[m] != Leave(q)
  }

  predicate Listening(steps: seq<Step>, n: nat, q: nat) {
    exists j :: 0 <= j < n && Listens(steps, j, n, q)
  }

  lemma {:induction false} QueuesAreJoins(queueSize: int, steps: seq<Step>)
    ensures |Run(queueSize, steps).bus.queues| == Joins(steps)
  {
    if steps != [] {
      QueuesAreJoins(queueSize, steps[..|steps| - 1]);
    }
  }

  /** The subscribers are the queues that have been joined and not left. */
  lemma {:induction false} SubscribedIff(queueSize: int, steps: seq<Step>, n: nat, q: nat)
    requires n <= |steps|
    ensures q in Run(queueSize, steps[..n]).bus.subscribers <==> Listening(steps, n, q)
  {
    if n == 0 {
      assert steps[..0] == [];
    } else {
      var f, step := Run(queueSize, steps[..n - 1]), steps[n - 1];
      RunFront(queueSize, steps, n);
      RunKeeps(queueSize, steps[..n - 1]);
      QueuesAreJoins(queueSize, steps[..n - 1]);
      SubscribedIff(queueSize, steps, n - 1, q);
      SubscribedStep(f, step, q);
      ListeningStep(steps, n, q);
    }
  }

  lemma SubscribedStep(f: Feed, step: Step, q: nat)
    requires FeedInv(f)
    ensures q in Take(f, step).bus.subscribers <==>
            if step == Join && |f.bus.queues| == q then true else q in f.bus.subscribers && step != Leave(q)
  {
    if step.Leave? { WithoutElements(f.bus.subscribers, step.q); }
  }

  // ---- The entries a subscriber is entitled to ----

  /** Subscriber q joined when the log had `lo` entries, and left when it had `hi` or listens still with `hi`. */
  ghost predicate Entitled(queueSize: int, steps: seq<Step>, n: nat, q: nat, lo: nat, hi: nat)
    requires n <= |steps|
  {
    && (exists j :: 0 <= j < n && steps[j] == Join && Joins(steps[..j]) == q && Appends(steps[..j]) == lo)
    && (if Listening(steps, n, q) then hi == Appends(steps[..n])
        else exists j :: 0 <= j < n && steps[j] == Leave(q) && Listening(steps, j, q) && Appends(steps[..j]) == hi)
  }

  /** How many entries are appended. */
  function Appends(steps: seq<Step>): nat {
    if steps == [] then 0 else Appends(steps[..|steps| - 1]) + if steps[|steps| - 1].Append? then 1 else 0
  }

  lemma {:induction false} LogIsAppends(queueSize: int, steps: seq<Step>)
    ensures Run(queueSize, steps).log == Appends(steps)
  {
    if steps != [] {
      LogIsAppends(queueSize, steps[..|steps| - 1]);
    }
  }

  lemma CountStep(steps: seq<Step>, n: nat)
    requires 0 < n <= |steps|
    ensures Joins(steps[..n]) == Joins(steps[..n - 1]) + (if steps[n - 1].Join? then 1 else 0)
    ensures Appends(steps[..n]) == Appends(steps[..n - 1]) + (if steps[n - 1].Append? then 1 else 0)
  {
    assert steps[..n][..n - 1] == steps[..n - 1];
  }

  lemma BoundsStep(f: Feed, step: Step, q: nat)
    requires FeedInv(f) && q < |Take(f, step).bus.queues|
    ensures Shaped(Take(f, step))
    ensures Take(f, step).since[q] == if q < |f.bus.queues| then f.since[q] else f.log
    ensures Take(f, step).until[q] ==
            if q >= |f.bus.queues| then f.log else if step == Append && q in f.bus.subscribers then f.log + 1 else f.until[q]
    ensures q >= |f.bus.queues| ==> step == Join && q == |f.bus.queues|
  {
  }

  /** The recorded bounds of each subscriber are the ones it is entitled to. */
  lemma {:induction false} BoundsMeaning(queueSize: int, steps: seq<Step>, n: nat, q: nat)
    requires n <= |steps| && q < |Run(queueSize, steps[..n]).bus.queues|
    ensures var f := Run(queueSize, steps[..n]); Entitled(queueSize, steps, n, q, f.since[q], f.until[q])
  {
    NoQueuesAtFirst(queueSize, steps);
    if n > 0 {
      var f := Run(queueSize, steps[..n - 1]);
      RunFront(queueSize, steps, n);
      PrefixFacts(queueSize, steps, n - 1, q);
      if q < |f.bus.queues| {
        BoundsMeaning(queueSize, steps, n - 1, q);
      }
      BoundsStepEntitled(queueSize, steps, n, q, f);
    }
  }

  lemma PrefixFacts(queueSize: int, steps: seq<Step>, m: nat, q: nat)
    requires m <= |steps|
    ensures var f := Run(queueSize, steps[..m]);
            && FeedInv(f) && f.log == Appends(steps[..m]) && |f.bus.queues| == Joins(steps[..m])
            && (q in f.bus.subscribers <==> Listening(steps, m, q))
  {
    RunKeeps(queueSize, steps[..m]);
    QueuesAreJoins(queueSize, steps[..m]);
    LogIsAppends(queueSize, steps[..m]);
    SubscribedIff(queueSize, steps, m, q);
  }

  lemma BoundsStepEntitled(queueSize: int, steps: seq<Step>, n: nat, q: nat, f: Feed)
    requires 0 < n <= |steps| && FeedInv(f) && f.log == Appends(steps[..n - 1]) && |f.bus.queues| == Joins(steps[..n - 1])
    requires q in f.bus.subscribers <==> Listening(steps, n - 1, q)
    requires q < |f.bus.queues| ==> Entitled(queueSize, steps, n - 1, q, f.since[q], f.until[q])
    requires q < |Take(f, steps[n - 1]).bus.queues|
    ensures Shaped(Take(f, steps[n - 1]))
    ensures Entitled(queueSize, steps, n, q, Take(f, steps[n - 1]).since[q], Take(f, steps[n - 1]).until[q])
  {
    BoundsStep(f, steps[n - 1], q);
    if q < |f.bus.queues| {
      ListenersAreCurrent(f, q);
      BoundsKept(queueSize, steps, n, q, f.since[q], f.until[q], Take(f, steps[n - 1]).until[q]);
    } else {
      EntitledFresh(queueSize, steps, n, q);
    }
  }

  lemma ListenersAreCurrent(f: Feed, q: nat)
    requires FeedInv(f) && q < |f.bus.queues|
    ensures q in f.bus.subscribers ==> f.until[q] == f.log
  {
    assert QueueInv(f, q);
  }

  lemma EntitledFresh(queueSize: int, steps: seq<Step>, n: nat, q: nat)
    requires 0 < n <= |steps| && steps[n - 1] == Join && Joins(steps[..n - 1]) == q
    ensures Entitled(queueSize, steps, n, q, Appends(steps[..n - 1]), Appends(steps[..n - 1]))
  {
    CountStep(steps, n);
    ListeningStep(steps, n, q);
  }

  lemma BoundsKept(queueSize: int, steps: seq<Step>, n: nat, q: nat, lo: nat, hi: nat, hi': nat)
    requires 0 < n <= |steps| && Entitled(queueSize, steps, n - 1, q, lo, hi)
    requires Joins(steps[..n - 1]) > q
    requires hi' == if steps[n - 1] == Append && Listening(steps, n - 1, q) then Appends(steps[..n - 1]) + 1 else hi
    ensures Entitled(queueSize, steps, n, q, lo, hi')
  {
    ListeningStep(steps, n, q);
    CountStep(steps, n);
    var j :| 0 <= j < n - 1 && steps[j] == Join && Joins(steps[..j]) == q && Appends(steps[..j]) == lo;
    assert 0 <= j < n;
    if !Listening(steps, n, q) {
      if Listening(steps, n - 1, q) {
        assert steps[n - 1] == Leave(q);
      } else {
        var m :| 0 <= m < n - 1 && steps[m] == Leave(q) && Listening(steps, m, q) && Appends(steps[..m]) == hi;
        assert 0 <= m < n;
      }
    }
  }

  /** Completeness in terms of the history alone. A subscriber whose queue was never at its size when one of its
      deliveries ran, and for which no entry was appended without a loop, has received, once its deliveries
      have run, exactly the entries appended from its subscription until it left, or until now. */
  lemma NothingIsLost(queueSize: int, steps: seq<Step>, q: nat)
    requires q < |Run(queueSize, steps).bus.queues| && For(Run(queueSize, steps).bus.scheduled, q) == []
    requires !EverFull(queueSize, steps, |steps|, q) && !EverUnheard(queueSize, steps, |steps|, q)
    ensures var f := Run(queueSize, steps);
            && Entitled(queueSize, steps, |steps|, q, f.since[q], f.until[q])
            && f.consumed[q] + f.bus.queues[q] == Range(f.since[q], f.until[q])
  {
    assert steps[..|steps|] == steps;
    FlagsIff(queueSize, steps, |steps|, q);
    BoundsMeaning(queueSize, steps, |steps|, q);
    FeedRefinesLog(queueSize, steps, q);
  }

  /** A loop is attached exactly once some step has attached one. */
  lemma {:induction false} AttachedIff(queueSize: int, steps: seq<Step>)
    ensures Run(queueSize, steps).bus.attached <==> Attach in steps
  {
    if steps != [] {
      AttachedIff(queueSize, steps[..|steps| - 1]);
      assert steps == steps[..|steps| - 1] + [steps[|steps| - 1]];
    }
  }

  lemma ListeningStep(steps: seq<Step>, n: nat, q: nat)
    requires 0 < n <= |steps|
    ensures Listening(steps, n, q) <==>
            if steps[n - 1] == Join && Joins(steps[..n - 1]) == q then true
            else Listening(steps, n - 1, q) && steps[n - 1] != Leave(q)
  {
    if Listening(steps, n, q) && !(steps[n - 1] == Join && Joins(steps[..n - 1]) == q) {
      var j :| 0 <= j < n && Listens(steps, j, n, q);
      assert Listens(steps, j, n - 1, q);
    }
    if Listening(steps, n - 1, q) && steps[n - 1] != Leave(q) {
      var j :| 0 <= j < n - 1 && Listens(steps, j, n - 1, q);
      assert Listens(steps, j, n, q);
    }
    if steps[n - 1] == Join && Joins(steps[..n - 1]) == q {
      assert Listens(steps, n - 1, n, q);
    }
  }
}
