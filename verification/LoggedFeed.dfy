/** The audit log and its live feed together: what a subscriber receives are records of the log. The feed of
    log positions is carried over to the records themselves. */
module LoggedFeed {
  import opened AuditChain
  import opened EventBus
  import F = LiveFeed

  datatype Op =
    | Attach
    | Write(ts: real, event: string, payload: Json)
    | Join
    | Leave(q: nat)
    | RunLoop
    | Consume(q: nat)

  /** The log, the bus, and what each subscriber has taken from its queue. */
  datatype State = State(log: Log, bus: BusView<Fields>, consumed: seq<seq<Fields>>)

  function Start(queueSize: int): State {
    State(Log([], Text(GENESIS_HASH)), BusView(queueSize, false, [], [], []), [])
  }

  function Written(sha: Sha, log: Log, op: Op): Fields
    requires op.Write?
  {
    Seal(sha, Entry(op.ts, op.event, op.payload, log.last))
  }

  /** An append writes its record and publishes the same record, under one lock. */
  function Act(sha: Sha, s: State, op: Op): State {
    match op
    case Attach => s.(bus := s.bus.(attached := true))
    case Write(ts, event, payload) =>
      s.(log := Perform(sha, s.log, Append(ts, event, payload)), bus := Published(s.bus, Written(sha, s.log, op)))
    case Join => s.(bus := Subscribed(s.bus), consumed := s.consumed + [[]])
    case Leave(q) => s.(bus := Unsubscribed(s.bus, q))
    case RunLoop => s.(bus := Ran(s.bus))
    case Consume(q) =>
      if q < |s.bus.queues| && q < |s.consumed| && s.bus.queues[q] != [] then
        s.(bus := Got(s.bus, q), consumed := s.consumed[q := s.consumed[q] + [s.bus.queues[q][0]]])
      else s
  }

  function ActAll(sha: Sha, queueSize: int, ops: seq<Op>): State {
    if ops == [] then Start(queueSize) else Act(sha, ActAll(sha, queueSize, ops[..|ops| - 1]), ops[|ops| - 1])
  }

  function StepOf(op: Op): F.Step {
    match op
    case Attach => F.Attach
    case Write(_, _, _) => F.Append
    case Join => F.Join
    case Leave(q) => F.Leave(q)
    case RunLoop => F.RunLoop
    case Consume(q) => F.Consume(q)
  }

  function StepsOf(ops: seq<Op>): seq<F.Step> {
    if ops == [] then [] else StepsOf(ops[..|ops| - 1]) + [StepOf(ops[|ops| - 1])]
  }

  // ---- Reading positions as records ----

  function Mapped(s: seq<nat>, f: nat -> Fields): (r: seq<Fields>)
    ensures |r| == |s| && forall i :: 0 <= i < |s| ==> r[i] == f(s[i])
  {
    seq(|s|, i requires 0 <= i < |s| => f(s[i]))
  }

  function MappedQueues(qs: seq<seq<nat>>, f: nat -> Fields): (r: seq<seq<Fields>>)
    ensures |r| == |qs| && forall i :: 0 <= i < |qs| ==> r[i] == Mapped(qs[i], f)
  {
    seq(|qs|, i requires 0 <= i < |qs| => Mapped(qs[i], f))
  }

  function MappedPairs(s: seq<(nat, nat)>, f: nat -> Fields): (r: seq<(nat, Fields)>)
    ensures |r| == |s| && forall i :: 0 <= i < |s| ==> r[i] == (s[i].0, f(s[i].1))
  {
    seq(|s|, i requires 0 <= i < |s| => (s[i].0, f(s[i].1)))
  }

  function MappedBus(b: BusView<nat>, f: nat -> Fields): BusView<Fields> {
    BusView(b.queueSize, b.attached, b.subscribers, MappedQueues(b.queues, f), MappedPairs(b.scheduled, f))
  }

  lemma {:induction false} DeliveriesMapped(subs: seq<nat>, n: nat, e: nat, f: nat -> Fields)
    requires n <= |subs|
    ensures MappedPairs(Deliveries(subs, n, e), f) == Deliveries(subs, n, f(e))
  {
    if n > 0 {
      DeliveriesMapped(subs, n - 1, e, f);
    }
  }

  lemma PublishedMapped(b: BusView<nat>, e: nat, f: nat -> Fields)
    ensures MappedBus(Published(b, e), f) == Published(MappedBus(b, f), f(e))
  {
    if b.attached {
      var d := Deliveries(b.subscribers, |b.subscribers|, e);
      DeliveriesMapped(b.subscribers, |b.subscribers|, e, f);
      assert MappedPairs(b.scheduled + d, f) == MappedPairs(b.scheduled, f) + MappedPairs(d, f);
    }
  }

  lemma SubscribedMapped(b: BusView<nat>, f: nat -> Fields)
    ensures MappedBus(Subscribed(b), f) == Subscribed(MappedBus(b, f))
  {
    assert MappedQueues(b.queues + [[]], f) == MappedQueues(b.queues, f) + [[]];
  }

  lemma SafePutMapped(b: BusView<nat>, q: nat, e: nat, f: nat -> Fields)
    ensures MappedBus(SafePut(b, q, e), f) == SafePut(MappedBus(b, f), q, f(e))
  {
    if q < |b.queues| && !Full(b.queueSize, |b.queues[q]|) {
      assert Mapped(b.queues[q] + [e], f) == Mapped(b.queues[q], f) + [f(e)];
      assert MappedQueues(b.queues[q := b.queues[q] + [e]], f) == MappedQueues(b.queues, f)[q := Mapped(b.queues[q], f) + [f(e)]];
    }
  }

  lemma RanMapped(b: BusView<nat>, f: nat -> Fields)
    ensures MappedBus(Ran(b), f) == Ran(MappedBus(b, f))
  {
    if b.scheduled != [] {
      var rest := b.(scheduled := b.scheduled[1..]);
      assert MappedPairs(b.scheduled[1..], f) == MappedPairs(b.scheduled, f)[1..];
      SafePutMapped(rest, b.scheduled[0].0, b.scheduled[0].1, f);
    }
  }

  lemma GotMapped(b: BusView<nat>, q: nat, f: nat -> Fields)
    ensures MappedBus(Got(b, q), f) == Got(MappedBus(b, f), q)
  {
    if q < |b.queues| && b.queues[q] != [] {
      assert Mapped(b.queues[q][1..], f) == Mapped(b.queues[q], f)[1..];
      assert MappedQueues(b.queues[q := b.queues[q][1..]], f) == MappedQueues(b.queues, f)[q := Mapped(b.queues[q], f)[1..]];
    }
  }

  // ---- The feed of positions describes the feed of records ----

  /** The function reads each position of the log as its record. */
  ghost predicate Reads(f: nat -> Fields, log: Log) {
    forall i :: 0 <= i < |Records(log.lines)| ==> f(i) == Records(log.lines)[i]
  }

  ghost predicate Describes(feed: F.Feed, s: State, f: nat -> Fields) {
    && |Records(s.log.lines)| == feed.log
    && s.bus == MappedBus(feed.bus, f) && s.consumed == MappedQueues(feed.consumed, f)
  }

  lemma WriteAddsRecord(sha: Sha, log: Log, op: Op)
    requires op.Write?
    ensures var log' := Perform(sha, log, Append(op.ts, op.event, op.payload));
            Records(log'.lines) == Records(log.lines) + [Written(sha, log, op)]
  {
    var r := Written(sha, log, op);
    var lines' := log.lines + [Record(r)];
    assert lines'[..|log.lines|] == log.lines && lines'[..|lines'|] == lines';
    RecordsStep(lines', |log.lines|);
  }

  lemma ActDescribed(sha: Sha, s: State, op: Op, feed: F.Feed, f: nat -> Fields)
    requires F.Shaped(feed) && Describes(feed, s, f) && Reads(f, Act(sha, s, op).log)
    ensures Describes(F.Take(feed, StepOf(op)), Act(sha, s, op), f)
  {
    match op
    case Attach =>
    case Write(_, _, _) =>
      WriteAddsRecord(sha, s.log, op);
      assert f(feed.log) == Written(sha, s.log, op);
      PublishedMapped(feed.bus, feed.log, f);
    case Join =>
      SubscribedMapped(feed.bus, f);
      assert MappedQueues(feed.consumed + [[]], f) == MappedQueues(feed.consumed, f) + [[]];
    case Leave(q) =>
    case RunLoop => RanMapped(feed.bus, f);
    case Consume(q) => ConsumeDescribed(sha, s, q, feed, f);
  }

  lemma ConsumeDescribed(sha: Sha, s: State, q: nat, feed: F.Feed, f: nat -> Fields)
    requires F.Shaped(feed) && Describes(feed, s, f)
    ensures Describes(F.Take(feed, F.Consume(q)), Act(sha, s, Consume(q)), f)
  {
    if q < |feed.bus.queues| && feed.bus.queues[q] != [] {
      var first := feed.bus.queues[q][0];
      GotMapped(feed.bus, q, f);
      assert Mapped(feed.consumed[q] + [first], f) == Mapped(feed.consumed[q], f) + [f(first)];
      assert MappedQueues(feed.consumed[q := feed.consumed[q] + [first]], f)
          == MappedQueues(feed.consumed, f)[q := Mapped(feed.consumed[q], f) + [f(first)]];
    }
  }

  lemma ReadsEarlier(sha: Sha, s: State, op: Op, f: nat -> Fields)
    requires Reads(f, Act(sha, s, op).log)
    ensures Reads(f, s.log)
  {
    if op.Write? {
      WriteAddsRecord(sha, s.log, op);
      forall i | 0 <= i < |Records(s.log.lines)| ensures f(i) == Records(s.log.lines)[i] {
        assert Records(Act(sha, s, op).log.lines)[i] == Records(s.log.lines)[i];
      }
    }
  }

  lemma {:induction false} RunDescribed(sha: Sha, queueSize: int, ops: seq<Op>, f: nat -> Fields)
    requires Reads(f, ActAll(sha, queueSize, ops).log)
    ensures Describes(F.Run(queueSize, StepsOf(ops)), ActAll(sha, queueSize, ops), f)
  {
    if ops != [] {
      var front, op := ops[..|ops| - 1], ops[|ops| - 1];
      var s := ActAll(sha, queueSize, front);
      ReadsEarlier(sha, s, op, f);
      RunDescribed(sha, queueSize, front, f);
      ActDescribed(sha, s, op, F.Run(queueSize, StepsOf(front)), f);
      assert StepsOf(ops)[..|StepsOf(ops)| - 1] == StepsOf(front);
    }
  }

  lemma {:induction false} RunStaysValid(sha: Sha, queueSize: int, ops: seq<Op>)
    ensures var log := ActAll(sha, queueSize, ops).log;
            Check(sha, log.lines).Valid? && log.last == Text(LastHash(sha, Records(log.lines)))
  {
    if ops != [] {
      var front, op := ops[..|ops| - 1], ops[|ops| - 1];
      RunStaysValid(sha, queueSize, front);
      if op.Write? {
        AppendKeepsValid(sha, ActAll(sha, queueSize, front).log, op.ts, op.event, op.payload);
      }
    }
  }

  /** The records at these positions. */
  predicate RecordsAt(seen: seq<Fields>, records: seq<Fields>, at: seq<nat>) {
    |at| == |seen| && F.Increasing(at) && forall i :: 0 <= i < |at| ==> at[i] < |records| && seen[i] == records[at[i]]
  }

  function RecordReader(records: seq<Fields>): nat -> Fields {
    (i: nat) => if 0 <= i < |records| then records[i] else map[]
  }

  /** Over every interleaving of writes, subscriptions, deliveries and consumption the log stays valid, and what
      a subscriber has consumed and has queued are records of the log, in order and without repetition, from
      the time of its subscription. Once its deliveries have run they are all of these records, unless one
      met a full queue or no attached loop. */
  lemma SubscribersSeeRecords(sha: Sha, queueSize: int, ops: seq<Op>, q: nat)
    requires q < |ActAll(sha, queueSize, ops).bus.queues|
    ensures var s, feed := ActAll(sha, queueSize, ops), F.Run(queueSize, StepsOf(ops));
            var records := Records(s.log.lines);
            && Check(sha, s.log.lines).Valid?
            && q < |s.consumed| && q < |feed.consumed| && q < |feed.bus.queues|
            && (var seen, at := s.consumed[q] + s.bus.queues[q], feed.consumed[q] + feed.bus.queues[q];
                && RecordsAt(seen, records, at) && F.Within(at, feed.since[q], feed.until[q]) && feed.until[q] <= |records|
                && (F.For(feed.bus.scheduled, q) == [] && !feed.dropped[q] && !feed.detached[q] ==>
                    at == F.Range(feed.since[q], feed.until[q])))
  {
    var s, feed := ActAll(sha, queueSize, ops), F.Run(queueSize, StepsOf(ops));
    var records := Records(s.log.lines);
    RunStaysValid(sha, queueSize, ops);
    RunDescribed(sha, queueSize, ops, RecordReader(records));
    F.FeedRefinesLog(queueSize, StepsOf(ops), q);
    var seen, at := s.consumed[q] + s.bus.queues[q], feed.consumed[q] + feed.bus.queues[q];
    forall i | 0 <= i < |at| ensures at[i] < |records| && seen[i] == records[at[i]] {
      assert seen[i] == RecordReader(records)(at[i]);
    }
  }

  // ---- From what is written to what is seen ----

  /** The events that are written, in order. */
  function Events(ops: seq<Op>): seq<Event> {
    if ops == [] then []
    else
      var op := ops[|ops| - 1];
      Events(ops[..|ops| - 1]) + if op.Write? then [Event(op.ts, op.event, op.payload)] else []
  }

  /** The records of the log are the written events. */
  lemma {:induction false} RecordsAreWrites(sha: Sha, queueSize: int, ops: seq<Op>)
    ensures var records, events := Records(ActAll(sha, queueSize, ops).log.lines), Events(ops);
            |records| == |events| && forall i :: 0 <= i < |events| ==> Holds(records[i], events[i])
  {
    if ops != [] {
      var front, op := ops[..|ops| - 1], ops[|ops| - 1];
      RecordsAreWrites(sha, queueSize, front);
      if op.Write? {
        var log := ActAll(sha, queueSize, front).log;
        WriteAddsRecord(sha, log, op);
        SealedHolds(sha, op.ts, op.event, op.payload, log.last);
      }
    }
  }

  /** Each record a subscriber sees holds the event that was written at its position. */
  lemma SubscribersSeeEvents(sha: Sha, queueSize: int, ops: seq<Op>, q: nat)
    requires q < |ActAll(sha, queueSize, ops).bus.queues|
    ensures var s, feed := ActAll(sha, queueSize, ops), F.Run(queueSize, StepsOf(ops));
            && q < |s.consumed| && q < |feed.consumed| && q < |feed.bus.queues|
            && (var seen, at := s.consumed[q] + s.bus.queues[q], feed.consumed[q] + feed.bus.queues[q];
                && |seen| == |at| && F.Increasing(at)
                && forall i :: 0 <= i < |seen| ==> at[i] < |Events(ops)| && Holds(seen[i], Events(ops)[at[i]]))
  {
    SubscribersSeeRecords(sha, queueSize, ops, q);
    RecordsAreWrites(sha, queueSize, ops);
  }

  lemma {:induction false} RangeAt(lo: nat, hi: nat, i: nat)
    requires lo <= hi && i < hi - lo
    ensures |F.Range(lo, hi)| == hi - lo && F.Range(lo, hi)[i] == lo + i
    decreases hi
  {
    if i < hi - 1 - lo {
      RangeAt(lo, hi - 1, i);
    } else {
      RangeSize(lo, hi - 1);
    }
  }

  lemma {:induction false} RangeSize(lo: nat, hi: nat)
    requires lo <= hi
    ensures |F.Range(lo, hi)| == hi - lo
    decreases hi
  {
    if lo < hi { RangeSize(lo, hi - 1); }
  }

  /** A subscriber whose queue was never at its size when one of its deliveries ran, and for which nothing was
      written without a loop, sees, once its deliveries have run, every event written from its subscription
      until it left or until now, in order. */
  lemma NoEventIsLost(sha: Sha, queueSize: int, ops: seq<Op>, q: nat)
    requires q < |ActAll(sha, queueSize, ops).bus.queues| && q < |F.Run(queueSize, StepsOf(ops)).bus.queues|
    requires F.For(F.Run(queueSize, StepsOf(ops)).bus.scheduled, q) == []
    requires !F.EverFull(queueSize, StepsOf(ops), |StepsOf(ops)|, q) && !F.EverUnheard(queueSize, StepsOf(ops), |StepsOf(ops)|, q)
    ensures var s, feed := ActAll(sha, queueSize, ops), F.Run(queueSize, StepsOf(ops));
            var lo, hi := feed.since[q], feed.until[q];
            && q < |s.consumed| && lo <= hi <= |Events(ops)|
            && F.Entitled(queueSize, StepsOf(ops), |StepsOf(ops)|, q, lo, hi)
            && (var seen := s.consumed[q] + s.bus.queues[q];
                |seen| == hi - lo && forall i :: 0 <= i < hi - lo ==> Holds(seen[i], Events(ops)[lo + i]))
  {
    var s, feed := ActAll(sha, queueSize, ops), F.Run(queueSize, StepsOf(ops));
    SubscribersSeeEvents(sha, queueSize, ops, q);
    WithinEvents(sha, queueSize, ops, q);
    F.NothingIsLost(queueSize, StepsOf(ops), q);
    EventsInRange(s.consumed[q] + s.bus.queues[q], Events(ops), feed.consumed[q] + feed.bus.queues[q], feed.since[q], feed.until[q]);
  }

  lemma WithinEvents(sha: Sha, queueSize: int, ops: seq<Op>, q: nat)
    requires q < |ActAll(sha, queueSize, ops).bus.queues| && q < |F.Run(queueSize, StepsOf(ops)).bus.queues|
    ensures var feed := F.Run(queueSize, StepsOf(ops)); feed.since[q] <= feed.until[q] <= |Events(ops)|
  {
    SubscribersSeeRecords(sha, queueSize, ops, q);
    RecordsAreWrites(sha, queueSize, ops);
    F.RunKeeps(queueSize, StepsOf(ops));
    assert F.QueueInv(F.Run(queueSize, StepsOf(ops)), q);
  }

  lemma EventsInRange(seen: seq<Fields>, events: seq<Event>, at: seq<nat>, lo: nat, hi: nat)
    requires lo <= hi <= |events| && |seen| == |at| && at == F.Range(lo, hi)
    requires forall i :: 0 <= i < |seen| ==> at[i] < |events| && Holds(seen[i], events[at[i]])
    ensures |seen| == hi - lo && forall i :: 0 <= i < hi - lo ==> Holds(seen[i], events[lo + i])
  {
    RangeSize(lo, hi);
    forall i | 0 <= i < hi - lo ensures Holds(seen[i], events[lo + i]) {
      RangeAt(lo, hi, i);
    }
  }
}
