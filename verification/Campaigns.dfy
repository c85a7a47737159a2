/** Campaign records: scheduling, repeating, pausing and retrying groups of runs. */
module Campaigns {
  import opened Prelude
  import opened RunModel

  datatype CampaignStatus = Scheduled | Ongoing | OnHold | Done | Unsuccessful

  datatype Record = Record(
    status: CampaignStatus,
    updatedAt: Time,
    scenarioNames: seq<string>,
    runIds: seq<RunId>,
    scheduledAt: Option<Time>,
    repeatInterval: Option<nat>,
    repeatRemaining: int)

  /** The planner's status of a run, if it knows the run. */
  type Statuses = RunId -> Option<RunStatus>

  predicate Over(s: Option<RunStatus>) {
    s == Some(Completed) || s == Some(RunFailed) || s == Some(RunAborted)
  }

  predicate AllOver(ids: seq<RunId>, statuses: Statuses) {
    forall i :: 0 <= i < |ids| ==> Over(statuses(ids[i]))
  }

  /** A scheduled time counts as given only when it is not zero. */
  predicate HasSchedule(r: Record) {
    r.scheduledAt.Some? && r.scheduledAt.value != 0.0
  }

  predicate Due(r: Record, now: Time) {
    (if HasSchedule(r) then r.scheduledAt.value else 0.0) <= now
  }

  /** What a launch finds: which scenarios are loaded, and the ids of the runs it starts. */
  datatype Launcher = Launcher(loaded: string -> bool, supply: nat -> RunId)

  /** The loaded scenarios among the first `n` names, in order. */
  function Loaded(names: seq<string>, n: nat, l: Launcher): seq<string>
    requires n <= |names|
  {
    if n == 0 then [] else Loaded(names, n - 1, l) + if l.loaded(names[n - 1]) then [names[n - 1]] else []
  }

  function Supplied(supply: nat -> RunId, n: nat): (r: seq<RunId>)
    ensures |r| == n
  {
    if n == 0 then [] else Supplied(supply, n - 1) + [supply(n - 1)]
  }

  /** One run for each loaded scenario. */
  function NewRuns(names: seq<string>, l: Launcher): seq<RunId> {
    Supplied(l.supply, |Loaded(names, |names|, l)|)
  }

  function Launched(r: Record, l: Launcher, now: Time): Record {
    r.(runIds := r.runIds + NewRuns(r.scenarioNames, l), status := Ongoing, updatedAt := now,
       repeatRemaining := if r.repeatRemaining > 0 then r.repeatRemaining - 1 else r.repeatRemaining)
  }

  predicate TickLaunches(r: Record, now: Time) {
    r.status.Scheduled? && Due(r, now)
  }

  predicate TickReschedules(r: Record, statuses: Statuses) {
    && r.status.Ongoing?
    && r.repeatInterval.Some? && r.repeatInterval.value != 0 && r.repeatRemaining > 0
    && r.runIds != [] && AllOver(r.runIds, statuses)
  }

  function Ticked(r: Record, statuses: Statuses, l: Launcher, now: Time): Record {
    if TickLaunches(r, now) then Launched(r, l, now)
    else if TickReschedules(r, statuses) then
      r.(status := Scheduled, scheduledAt := Some(now + r.repeatInterval.value as real), updatedAt := now)
    else r
  }

  /** Reading the summary closes a campaign whose runs are all over. */
  function Summarized(r: Record, statuses: Statuses): Record {
    if !r.status.OnHold? && !r.status.Scheduled? && r.runIds != [] && AllOver(r.runIds, statuses) then
      r.(status := if exists i :: 0 <= i < |r.runIds| && statuses(r.runIds[i]) == Some(RunFailed) then Unsuccessful else Done)
    else r
  }

  function PausedRecord(r: Record, now: Time): Record {
    r.(status := OnHold, updatedAt := now)
  }

  /** Resuming goes back to the schedule whenever one was ever set. */
  function ResumedRecord(r: Record, now: Time): Record {
    r.(status := if HasSchedule(r) then Scheduled else Ongoing, updatedAt := now)
  }

  /** The runs, among the first `n`, whose status is one of the given ones, in their order. */
  function Matching(ids: seq<RunId>, n: nat, statuses: Statuses, wanted: set<RunStatus>): (r: seq<RunId>)
    requires n <= |ids|
    ensures |r| <= n
  {
    if n == 0 then []
    else
      Matching(ids, n - 1, statuses, wanted)
      + if statuses(ids[n - 1]).Some? && statuses(ids[n - 1]).value in wanted then [ids[n - 1]] else []
  }

  lemma {:induction false} MatchingMembers(ids: seq<RunId>, n: nat, statuses: Statuses, wanted: set<RunStatus>, id: RunId)
    requires n <= |ids|
    ensures id in Matching(ids, n, statuses, wanted) <==>
            (exists i :: 0 <= i < n && ids[i] == id) && statuses(id).Some? && statuses(id).value in wanted
  {
    if n > 0 {
      MatchingMembers(ids, n - 1, statuses, wanted, id);
    }
  }

  function FailedRuns(r: Record, statuses: Statuses): seq<RunId> {
    Matching(r.runIds, |r.runIds|, statuses, {RunFailed})
  }

  const OVER := {Completed, RunFailed, RunAborted}

  /** Failed runs are started again under their own scenario; `supply` supplies the new ids. */
  function Retried(r: Record, statuses: Statuses, scenarioOf: RunId -> string, supply: nat -> RunId, now: Time): Record {
    var failed := FailedRuns(r, statuses);
    r.(scenarioNames := r.scenarioNames + Names(failed, scenarioOf),
       runIds := r.runIds + Supplied(supply, |failed|),
       status := if failed != [] then Ongoing else r.status,
       updatedAt := now)
  }

  function Names(ids: seq<RunId>, scenarioOf: RunId -> string): seq<string> {
    seq(|ids|, i requires 0 <= i < |ids| => scenarioOf(ids[i]))
  }

  /** A new campaign; without a future schedule it launches at once. */
  function Created(names: seq<string>, at: Option<Time>, interval: Option<nat>, repeatCount: int, l: Launcher, now: Time): Record {
    var scheduled := at.Some? && at.value != 0.0 && at.value > now;
    var r := Record(if scheduled then Scheduled else Ongoing, now, names, [], if scheduled then at else None, interval, repeatCount);
    if scheduled then r else Launched(r, l, now)
  }

  class Campaign {
    var status: CampaignStatus
    var updatedAt: Time
    var scenarioNames: seq<string>
    var runIds: seq<RunId>
    var scheduledAt: Option<Time>
    var repeatInterval: Option<nat>
    var repeatRemaining: int

    ghost function View(): Record
      reads this
    {
      Record(status, updatedAt, scenarioNames, runIds, scheduledAt, repeatInterval, repeatRemaining)
    }

    constructor (names: seq<string>, at: Option<Time>, interval: Option<nat>, repeatCount: int, l: Launcher, now: Time)
      ensures View() == Created(names, at, interval, repeatCount, l, now)
    {
      var scheduled := at.Some? && at.value != 0.0 && at.value > now;
      status, updatedAt, scenarioNames, runIds := if scheduled then Scheduled else Ongoing, now, names, [];
      scheduledAt, repeatInterval, repeatRemaining := if scheduled then at else None, interval, repeatCount;
      new;
      if !scheduled {
        Launch(l, now);
      }
    }

    /** Starts a run of every named scenario that is loaded. */
    method Launch(l: Launcher, now: Time)
      modifies this
      ensures View() == Launched(old(View()), l, now)
    {
      var launched := [];
      for i := 0 to |scenarioNames|
        invariant launched == Supplied(l.supply, |Loaded(scenarioNames, i, l)|)
      {
        if l.loaded(scenarioNames[i]) {
          launched := launched + [l.supply(|launched|)];
        }
      }
      runIds := runIds + launched;
      status := Ongoing;
      updatedAt := now;
      if repeatRemaining > 0 {
        repeatRemaining := repeatRemaining - 1;
      }
    }

    /** One scheduler turn for this campaign. */
    method Tick(statuses: Statuses, l: Launcher, now: Time)
      modifies this
      ensures View() == Ticked(old(View()), statuses, l, now)
    {
      if status.Scheduled? && (if scheduledAt.Some? then scheduledAt.value else 0.0) <= now {
        Launch(l, now);
        return;
      }
      if !status.Ongoing? || repeatInterval.None? || repeatInterval.value == 0 || repeatRemaining <= 0 {
        return;
      }
      if runIds != [] && AllOver(runIds, statuses) {
        status := Scheduled;
        scheduledAt := Some(now + repeatInterval.value as real);
        updatedAt := now;
      }
    }

    /** Counts the finished and failed runs and closes the campaign if all are over. A campaign that
        has not launched yet reports the runs it is going to launch. */
    method Summary(statuses: Statuses) returns (total: nat, terminal: nat)
      modifies this
      ensures View() == Summarized(old(View()), statuses)
      ensures terminal == |Matching(runIds, |runIds|, statuses, OVER)|
      ensures total == if runIds == [] && old(status).Scheduled? then |scenarioNames| else |runIds|
      ensures terminal <= total && (runIds != [] ==> (terminal == total <==> AllOver(runIds, statuses)))
    {
      var failed;
      terminal, failed := CountOver(statuses);
      total := |runIds|;
      if status.Scheduled? && total == 0 {
        total := |scenarioNames|;
      }
      if !status.OnHold? && !status.Scheduled? && total != 0 && terminal == total {
        status := if failed then Unsuccessful else Done;
      }
    }

    method CountOver(statuses: Statuses) returns (terminal: nat, failed: bool)
      ensures terminal == |Matching(runIds, |runIds|, statuses, OVER)|
      ensures terminal <= |runIds| && (terminal == |runIds| <==> AllOver(runIds, statuses))
      ensures failed <==> exists j :: 0 <= j < |runIds| && statuses(runIds[j]) == Some(RunFailed)
    {
      terminal, failed := 0, false;
      for i := 0 to |runIds|
        invariant terminal == |Matching(runIds, i, statuses, OVER)|
        invariant terminal == i <==> forall j :: 0 <= j < i ==> Over(statuses(runIds[j]))
        invariant failed <==> exists j :: 0 <= j < i && statuses(runIds[j]) == Some(RunFailed)
      {
        assert Over(statuses(runIds[i])) <==> statuses(runIds[i]).Some? && statuses(runIds[i]).value in OVER;
        if Over(statuses(runIds[i])) {
          terminal := terminal + 1;
        }
        failed := failed || statuses(runIds[i]) == Some(RunFailed);
      }
    }

    method Pause(now: Time)
      modifies this
      ensures View() == PausedRecord(old(View()), now)
    {
      status, updatedAt := OnHold, now;
    }

    method Resume(now: Time)
      modifies this
      ensures View() == ResumedRecord(old(View()), now)
    {
      status, updatedAt := if scheduledAt.Some? && scheduledAt.value != 0.0 then Scheduled else Ongoing, now;
    }

    /** The loop over the runs: names each failed run's scenario again and starts a run for it. */
    method CollectFailed(ids: seq<RunId>, statuses: Statuses, scenarioOf: RunId -> string, supply: nat -> RunId)
      returns (added: seq<RunId>)
      modifies this`scenarioNames
      ensures var failed := Matching(ids, |ids|, statuses, {RunFailed});
              added == Supplied(supply, |failed|) && scenarioNames == old(scenarioNames) + Names(failed, scenarioOf)
    {
      added := [];
      ghost var failed := [];
      for i := 0 to |ids|
        invariant failed == Matching(ids, i, statuses, {RunFailed})
        invariant added == Supplied(supply, |failed|)
        invariant scenarioNames == old(scenarioNames) + Names(failed, scenarioOf)
      {
        if statuses(ids[i]) == Some(RunFailed) {
          NamesExtend(failed, ids[i], scenarioOf);
          failed := failed + [ids[i]];
          added := added + [supply(|added|)];
          scenarioNames := scenarioNames + [scenarioOf(ids[i])];
        }
      }
    }

    /** Starts every failed run again and appends the new runs and their scenario names. */
    method RetryFailed(statuses: Statuses, scenarioOf: RunId -> string, supply: nat -> RunId, now: Time)
      returns (added: seq<RunId>)
      modifies this
      ensures View() == Retried(old(View()), statuses, scenarioOf, supply, now)
      ensures runIds == old(runIds) + added && |added| == |FailedRuns(old(View()), statuses)|
    {
      added := CollectFailed(runIds, statuses, scenarioOf, supply);
      runIds := runIds + added;
      if added != [] {
        status := Ongoing;
      }
      updatedAt := now;
    }
  }

  lemma NamesExtend(ids: seq<RunId>, id: RunId, scenarioOf: RunId -> string)
    ensures Names(ids + [id], scenarioOf) == Names(ids, scenarioOf) + [scenarioOf(id)]
  {
  }

  // ---- Histories ----

  datatype Event =
    | Tick(statuses: Statuses, l: Launcher, now: Time)
    | Summarize(statuses: Statuses)
    | Pause(now: Time)
    | Resume(now: Time)
    | Retry(statuses: Statuses, scenarioOf: RunId -> string, supply: nat -> RunId, now: Time)

  function Next(r: Record, e: Event): Record {
    match e
    case Tick(statuses, l, now) => Ticked(r, statuses, l, now)
    case Summarize(statuses) => Summarized(r, statuses)
    case Pause(now) => PausedRecord(r, now)
    case Resume(now) => ResumedRecord(r, now)
    case Retry(statuses, scenarioOf, supply, now) => Retried(r, statuses, scenarioOf, supply, now)
  }

  /** What an event writes to the audit log. */
  datatype Entry = LaunchEntry | RepeatEntry | PauseEntry | ResumeEntry | RetryEntry

  function Appended(r: Record, e: Event): seq<Entry> {
    match e
    case Tick(statuses, _, now) =>
      if TickLaunches(r, now) then [LaunchEntry] else if TickReschedules(r, statuses) then [RepeatEntry] else []
    case Summarize(_) => []
    case Pause(_) => [PauseEntry]
    case Resume(_) => [ResumeEntry]
    case Retry(_, _, _, _) => [RetryEntry]
  }

  /** Reading the summary finds all runs over and another outcome than the recorded one. */
  predicate Closes(r: Record, statuses: Statuses) {
    && !r.status.OnHold? && !r.status.Scheduled? && r.runIds != [] && AllOver(r.runIds, statuses)
    && r.status != if exists i :: 0 <= i < |r.runIds| && statuses(r.runIds[i]) == Some(RunFailed) then Unsuccessful else Done
  }

  /** The only change of a campaign that is not logged is its closing, and reading the summary is what
      closes it. */
  lemma UnloggedCampaignChanges(r: Record, e: Event)
    ensures Next(r, e) != r && Appended(r, e) == [] <==> e.Summarize? && Closes(r, e.statuses)
  {
    if e.Summarize? {
      assert Next(r, e) == Summarized(r, e.statuses);
    }
  }

  function After(start: Record, h: seq<Event>): Record {
    if h == [] then start else Next(After(start, h[..|h| - 1]), h[|h| - 1])
  }

  /** Launches by the ticks of a history. */
  function Launches(start: Record, h: seq<Event>): nat {
    if h == [] then 0
    else
      var e := h[|h| - 1];
      Launches(start, h[..|h| - 1]) + if e.Tick? && TickLaunches(After(start, h[..|h| - 1]), e.now) then 1 else 0
  }

  function Resumes(h: seq<Event>): nat {
    if h == [] then 0 else Resumes(h[..|h| - 1]) + if h[|h| - 1].Resume? then 1 else 0
  }

  /** The campaign was scheduled once and has no repeats left. */
  predicate Exhausted(r: Record) {
    HasSchedule(r) && r.repeatRemaining <= 0
  }

  /** Resumes of a history that meet an exhausted campaign. */
  function Overruns(start: Record, h: seq<Event>): nat {
    if h == [] then 0
    else
      Overruns(start, h[..|h| - 1])
      + if h[|h| - 1].Resume? && Exhausted(After(start, h[..|h| - 1])) then 1 else 0
  }

  /** Launches of a history for which no repeat was left. */
  function Unpaid(start: Record, h: seq<Event>): nat {
    if h == [] then 0
    else
      var e, r := h[|h| - 1], After(start, h[..|h| - 1]);
      Unpaid(start, h[..|h| - 1]) + if e.Tick? && TickLaunches(r, e.now) && r.repeatRemaining <= 0 then 1 else 0
  }

  /** Waiting for its time with no repeats left. */
  predicate Pending(r: Record) {
    r.status.Scheduled? && r.repeatRemaining <= 0
  }

  /** Launches are paid for by repeats, except those that a resume of an exhausted campaign allows. */
  lemma {:induction false} LaunchesArePaid(start: Record, h: seq<Event>)
    requires start.repeatRemaining >= 0 && !Pending(start)
    ensures After(start, h).repeatRemaining >= 0
    ensures Launches(start, h) + After(start, h).repeatRemaining == start.repeatRemaining + Unpaid(start, h)
    ensures Unpaid(start, h) + (if Pending(After(start, h)) then 1 else 0) <= Overruns(start, h) <= Resumes(h)
  {
    if h != [] {
      LaunchesArePaid(start, h[..|h| - 1]);
    }
  }

  /** A paused campaign comes back to life: by a resume, or by a retry that finds a failed run. */
  predicate Wakes(r: Record, e: Event) {
    e.Resume? || (e.Retry? && exists i :: 0 <= i < |r.runIds| && e.statuses(r.runIds[i]) == Some(RunFailed))
  }

  ghost predicate Undisturbed(start: Record, h: seq<Event>) {
    h != [] ==> Undisturbed(start, h[..|h| - 1]) && !Wakes(After(start, h[..|h| - 1]), h[|h| - 1])
  }

  lemma WakesIffActive(r: Record, e: Event)
    requires r.status.OnHold?
    ensures Next(r, e).status.OnHold? <==> !Wakes(r, e)
  {
    if e.Retry? {
      if i :| 0 <= i < |r.runIds| && e.statuses(r.runIds[i]) == Some(RunFailed) {
        MatchingMembers(r.runIds, |r.runIds|, e.statuses, {RunFailed}, r.runIds[i]);
      }
      var failed := FailedRuns(r, e.statuses);
      if failed != [] {
        MatchingMembers(r.runIds, |r.runIds|, e.statuses, {RunFailed}, failed[0]);
      }
    }
  }

  /** Pausing puts any campaign on hold, and on hold it launches nothing and keeps its repeats until something wakes
      it: ticks and summaries never do. */
  lemma {:induction false} PausedLaunchesNothing(start: Record, now: Time, h: seq<Event>)
    requires Undisturbed(Next(start, Pause(now)), h)
    ensures var r := Next(start, Pause(now));
            After(r, h).status.OnHold? && Launches(r, h) == 0 && After(r, h).repeatRemaining == start.repeatRemaining
  {
    if h != [] {
      var r := Next(start, Pause(now));
      PausedLaunchesNothing(start, now, h[..|h| - 1]);
      WakesIffActive(After(r, h[..|h| - 1]), h[|h| - 1]);
    }
  }

  /** A tick puts a running campaign back on schedule exactly if it has an interval, repeats left and at least one
      run, and each of its runs has completed, failed or been aborted; the next launch is one interval away. */
  lemma RescheduledIff(r: Record, statuses: Statuses, l: Launcher, now: Time)
    requires r.status.Ongoing?
    ensures var r' := Next(r, Tick(statuses, l, now));
            && (r'.status.Scheduled? <==>
                && r.repeatInterval.Some? && r.repeatInterval.value > 0 && r.repeatRemaining > 0 && |r.runIds| > 0
                && forall i :: 0 <= i < |r.runIds| ==>
                     statuses(r.runIds[i]) in {Some(Completed), Some(RunFailed), Some(RunAborted)})
            && (r'.status.Scheduled? ==> r'.scheduledAt == Some(now + r.repeatInterval.value as real) && r'.runIds == r.runIds)
            && (!r'.status.Scheduled? ==> r' == r)
  {
    assert AllOver(r.runIds, statuses) <==>
           forall i :: 0 <= i < |r.runIds| ==> statuses(r.runIds[i]) in {Some(Completed), Some(RunFailed), Some(RunAborted)};
  }

  /** The launch, if any, made when the campaign is created. */
  function FirstLaunch(at: Option<Time>, now: Time): nat {
    if at.Some? && at.value != 0.0 && at.value > now then 0 else 1
  }

  /** However ticks, summaries, pauses, resumes and retries interleave, a campaign launches at
      most repeat_count times plus once per resume of the exhausted campaign; as long as no resume
      meets it exhausted, the launches made and the launches remaining add up to repeat_count. */
  lemma CampaignRepeats(names: seq<string>, at: Option<Time>, interval: Option<nat>, repeatCount: int, l: Launcher,
                        now: Time, h: seq<Event>)
    requires repeatCount >= 1
    ensures var start := Created(names, at, interval, repeatCount, l, now);
            var total, left := FirstLaunch(at, now) + Launches(start, h), After(start, h).repeatRemaining;
            && left >= 0 && total + left == repeatCount + Unpaid(start, h)
            && Unpaid(start, h) <= Overruns(start, h)
            && (Overruns(start, h) == 0 ==> total + left == repeatCount)
            && total <= repeatCount + Overruns(start, h)
  {
    LaunchesArePaid(Created(names, at, interval, repeatCount, l, now), h);
  }

  /** What decides whether a resume breaks the count, for any record: the next due tick launches
      without using up a repeat exactly if the resumed campaign was exhausted. */
  lemma ResumeOverrunsIffExhausted(r: Record, resumed: Time, statuses: Statuses, l: Launcher, now: Time)
    requires r.repeatRemaining >= 0 && Due(r, now)
    ensures var before := ResumedRecord(r, resumed);
            var after := Ticked(before, statuses, l, now);
            Exhausted(r) <==> TickLaunches(before, now) && after.repeatRemaining == r.repeatRemaining
  {
  }

  /** Again and again: resume, then tick once the time has come, with the given launchers. */
  function ResumeAndTick(launches: seq<Launcher>, statuses: Statuses, now: Time): seq<Event> {
    if launches == [] then []
    else
      ResumeAndTick(launches[..|launches| - 1], statuses, now)
      + [Resume(now)] + [Tick(statuses, launches[|launches| - 1], now)]
  }

  lemma {:induction false} HistoriesConcat(start: Record, h: seq<Event>, g: seq<Event>)
    ensures After(start, h + g) == After(After(start, h), g)
    ensures Launches(start, h + g) == Launches(start, h) + Launches(After(start, h), g)
    ensures Overruns(start, h + g) == Overruns(start, h) + Overruns(After(start, h), g)
  {
    if g == [] {
      assert h + g == h;
    } else {
      assert (h + g)[..|h + g| - 1] == h + g[..|g| - 1];
      HistoriesConcat(start, h, g[..|g| - 1]);
    }
  }

  lemma EventAppended(start: Record, h: seq<Event>, e: Event)
    ensures var r := After(start, h);
            && After(start, h + [e]) == Next(r, e)
            && Launches(start, h + [e]) == Launches(start, h) + (if e.Tick? && TickLaunches(r, e.now) then 1 else 0)
            && Overruns(start, h + [e]) == Overruns(start, h) + (if e.Resume? && Exhausted(r) then 1 else 0)
  {
    assert (h + [e])[..|h + [e]| - 1] == h;
  }

  /** One resume and the tick after it. */
  lemma ResumeLaunchesOnce(start: Record, h: seq<Event>, l: Launcher, statuses: Statuses, now: Time)
    requires HasSchedule(After(start, h)) && After(start, h).scheduledAt.value <= now && After(start, h).repeatRemaining >= 0
    ensures var r, h' := After(start, h), h + [Resume(now)] + [Tick(statuses, l, now)];
            && Launches(start, h') == Launches(start, h) + 1 && After(start, h').scheduledAt == r.scheduledAt
            && After(start, h').repeatRemaining == Less(r.repeatRemaining, 1)
            && Overruns(start, h') == Overruns(start, h) + Less(1, r.repeatRemaining)
  {
    EventAppended(start, h, Resume(now));
    EventAppended(start, h + [Resume(now)], Tick(statuses, l, now));
  }

  lemma {:induction false} ResumeLaunches(start: Record, launches: seq<Launcher>, statuses: Statuses, now: Time)
    requires HasSchedule(start) && start.scheduledAt.value <= now && start.repeatRemaining >= 0
    ensures var h := ResumeAndTick(launches, statuses, now);
            && Launches(start, h) == |launches|
            && After(start, h).scheduledAt == start.scheduledAt
            && After(start, h).repeatRemaining == Less(start.repeatRemaining, |launches|)
            && Overruns(start, h) == Less(|launches|, start.repeatRemaining)
  {
    if launches != [] {
      var front, last := launches[..|launches| - 1], launches[|launches| - 1];
      ResumeLaunches(start, front, statuses, now);
      ResumeLaunchesOnce(start, ResumeAndTick(front, statuses, now), last, statuses, now);
    }
  }

  function Less(a: int, b: int): int {
    if a >= b then a - b else 0
  }

  /** The bound is reached for every repeat count: a scheduled campaign launches once more at every
      resume, since its schedule is never cleared, and from some resume on each launch exceeds the
      count. */
  lemma ResumesRelaunch(names: seq<string>, at: Time, interval: Option<nat>, repeatCount: int, first: Launcher,
                        launches: seq<Launcher>, statuses: Statuses, now: Time)
    requires 0.0 < now < at && repeatCount >= 1
    ensures var start := Created(names, Some(at), interval, repeatCount, first, now);
            var h := [Tick(statuses, first, at)] + ResumeAndTick(launches, statuses, at);
            && Launches(start, h) == 1 + |launches|
            && Overruns(start, h) == Less(|launches|, repeatCount - 1)
            && (|launches| >= repeatCount ==> Launches(start, h) == repeatCount + Overruns(start, h) > repeatCount)
  {
    var start := Created(names, Some(at), interval, repeatCount, first, now);
    var tick := Tick(statuses, first, at);
    EventAppended(start, [], tick);
    assert [] + [tick] == [tick];
    ResumeLaunches(Next(start, tick), launches, statuses, at);
    HistoriesConcat(start, [tick], ResumeAndTick(launches, statuses, at));
  }
}
