/** The auto-restarter of one orchestrator: who is restarted, and how often. */
module Restarts {
  import opened Options
  import opened SlidingBudget

  type BotId = nat

  const FLEET_OUTAGE_MIN_DOWN: nat := 3

  datatype Config = Config(failureThreshold: int, cooldownMs: int, maxRestartsPerWindow: nat, windowMs: int)
  datatype Sample = Live | Down | Booting | Unknown
  datatype Outcome = Restarted | Skipped(transient: bool) | Threw
  datatype Report = Report(bot: BotId, sample: Sample)

  /** `restarting` holds the time the running restart was decided. `spent` is history: every restart that
      spent budget since the bot was first seen. */
  datatype BotState = BotState(
    failures: int, restartsAt: seq<Time>, restarting: Option<Time>, notified: bool, spent: seq<Time>)

  const Unseen := BotState(0, [], None, false, [])

  // ----- One bot -----

  function Track(config: Config, s: BotState, sample: Sample, now: Time): BotState {
    if sample.Booting? || sample.Unknown? || s.restarting.Some? then s
    else if sample.Live? then s.(failures := 0)
    else
      var s1 := s.(failures := s.failures + 1);
      if s1.failures < config.failureThreshold then s1
      else if s.restartsAt != [] && now - s.restartsAt[|s.restartsAt| - 1] < config.cooldownMs then s1
      else
        var recent := Recent(s.restartsAt, now, config.windowMs);
        if |recent| >= config.maxRestartsPerWindow then s1.(restartsAt := recent, notified := true)
        else s1.(restartsAt := recent, notified := false, restarting := Some(now))
  }

  /** A transient skip is free; a restart, a failed one and a blocked one spend budget. */
  function Ends(s: BotState, outcome: Outcome): BotState {
    if s.restarting.None? then s
    else
      var at := s.restarting.value;
      var s1 := s.(restarting := None, failures := 0);
      if outcome.Skipped? && outcome.transient then s1
      else s1.(restartsAt := s.restartsAt + [at], spent := s.spent + [at])
  }

  datatype Event = Sampled(sample: Sample, now: Time) | Ended(outcome: Outcome)

  function Step(config: Config, s: BotState, e: Event): BotState {
    match e
    case Sampled(sample, now) => Track(config, s, sample, now)
    case Ended(outcome) => Ends(s, outcome)
  }

  function Run(config: Config, events: seq<Event>): BotState {
    if events == [] then Unseen else Step(config, Run(config, events[..|events| - 1]), events[|events| - 1])
  }

  /** The clock of the reports never runs backwards. */
  ghost predicate InClockOrder(events: seq<Event>) {
    forall i, j :: 0 <= i < j < |events| && events[i].Sampled? && events[j].Sampled? ==> events[i].now <= events[j].now
  }

  // ----- What every run keeps -----

  predicate LongAgo(config: Config, at: Time, now: Time) {
    now - at >= config.windowMs && now - at >= config.cooldownMs
  }

  /** Restarts that spent budget are a window apart by the budget, and a cooldown apart one by one. */
  ghost predicate WellSpent(config: Config, spent: seq<Time>) {
    && Ordered(spent) && Spaced(spent, config.maxRestartsPerWindow, config.windowMs)
    && (forall i :: 0 <= i < |spent| - 1 ==> spent[i + 1] - spent[i] >= config.cooldownMs)
  }

  /** What the bot's list no longer has is past its window and its cooldown. */
  ghost predicate Forgotten(config: Config, s: BotState, now: Time) {
    && |s.restartsAt| <= |s.spent| && s.restartsAt == s.spent[|s.spent| - |s.restartsAt|..]
    && (forall i :: 0 <= i < |s.spent| - |s.restartsAt| ==> LongAgo(config, s.spent[i], now))
  }

  ghost predicate NotAfter(spent: seq<Time>, now: Time) {
    forall i :: 0 <= i < |spent| ==> spent[i] <= now
  }

  ghost predicate Cooled(config: Config, spent: seq<Time>, at: Time) {
    forall i :: 0 <= i < |spent| ==> at - spent[i] >= config.cooldownMs
  }

  /** A restart under way was within budget when it was decided. */
  ghost predicate Allowed(config: Config, s: BotState, at: Time) {
    |s.restartsAt| < config.maxRestartsPerWindow && NotAfter(s.spent, at) && Cooled(config, s.spent, at) &&
      Forgotten(config, s, at)
  }

  /** `now` is the time of the last report. */
  ghost predicate Budgeted(config: Config, s: BotState, now: Time) {
    && WellSpent(config, s.spent) && Forgotten(config, s, now) && NotAfter(s.spent, now)
    && (s.restarting.Some? ==> s.restarting.value <= now && Allowed(config, s, s.restarting.value))
  }

  lemma TimePasses(config: Config, s: BotState, before: Time, now: Time)
    requires Budgeted(config, s, before) && before <= now
    ensures Budgeted(config, s, now)
  {
    hide WellSpent, Allowed;
  }

  lemma CooledDown(config: Config, s: BotState, now: Time)
    requires WellSpent(config, s.spent) && Forgotten(config, s, now)
    requires s.restartsAt != [] ==> now - s.restartsAt[|s.restartsAt| - 1] >= config.cooldownMs
    ensures Cooled(config, s.spent, now)
  {
    hide Spaced;
    forall i | 0 <= i < |s.spent|
      ensures now - s.spent[i] >= config.cooldownMs
    {
      if i >= |s.spent| - |s.restartsAt| {
        assert s.restartsAt[|s.restartsAt| - 1] == s.spent[|s.spent| - 1];
      } else {
        assert LongAgo(config, s.spent[i], now);
      }
    }
  }

  lemma PrunedStaysForgotten(config: Config, s: BotState, now: Time)
    requires Ordered(s.spent) && Forgotten(config, s, now) && Cooled(config, s.spent, now)
    ensures Forgotten(config, s.(restartsAt := Recent(s.restartsAt, now, config.windowMs)), now)
  {
    var gone := |s.spent| - |s.restartsAt|;
    assert Ordered(s.restartsAt);
    RecentIsTail(s.restartsAt, now, config.windowMs);
    hide Ordered, Recent;
    var recent := Recent(s.restartsAt, now, config.windowMs);
    assert recent == s.spent[|s.spent| - |recent|..];
    forall i | 0 <= i < |s.spent| - |recent|
      ensures LongAgo(config, s.spent[i], now)
    {
      if i >= gone {
        assert s.restartsAt[i - gone] == s.spent[i];
      }
    }
  }

  lemma PruneKeeps(config: Config, s: BotState, now: Time)
    requires WellSpent(config, s.spent) && Forgotten(config, s, now)
    requires s.restartsAt != [] ==> now - s.restartsAt[|s.restartsAt| - 1] >= config.cooldownMs
    ensures Cooled(config, s.spent, now)
    ensures Forgotten(config, s.(restartsAt := Recent(s.restartsAt, now, config.windowMs)), now)
  {
    CooledDown(config, s, now);
    PrunedStaysForgotten(config, s, now);
  }

  lemma CountingKeeps(config: Config, s: BotState, s': BotState, now: Time)
    requires Budgeted(config, s, now) && s'.spent == s.spent && s'.restartsAt == s.restartsAt &&
             s'.restarting == s.restarting
    ensures Budgeted(config, s', now)
  {}

  lemma DecidingKeeps(config: Config, s: BotState, s': BotState, now: Time)
    requires Budgeted(config, s, now) && s.restarting.None?
    requires s.restartsAt != [] ==> now - s.restartsAt[|s.restartsAt| - 1] >= config.cooldownMs
    requires s'.spent == s.spent && s'.restartsAt == Recent(s.restartsAt, now, config.windowMs)
    requires s'.restarting.None? || (s'.restarting == Some(now) && |s'.restartsAt| < config.maxRestartsPerWindow)
    ensures Budgeted(config, s', now)
  {
    PruneKeeps(config, s, now);
    hide WellSpent, Recent, LongAgo;
  }

  lemma TrackKeeps(config: Config, s: BotState, sample: Sample, before: Time, now: Time)
    requires Budgeted(config, s, before) && before <= now
    ensures Budgeted(config, Track(config, s, sample, now), now)
  {
    TimePasses(config, s, before, now);
    var s' := Track(config, s, sample, now);
    hide Budgeted, Recent;
    if s'.restartsAt == s.restartsAt && s'.restarting == s.restarting {
      CountingKeeps(config, s, s', now);
    } else {
      DecidingKeeps(config, s, s', now);
    }
  }

  /** The failure count and the notice do not matter to the budget. */
  lemma ListOnly(config: Config, s: BotState)
    ensures forall t, s': BotState :: s'.restartsAt == s.restartsAt && s'.spent == s.spent ==>
              Forgotten(config, s', t) == Forgotten(config, s, t)
  {}

  lemma EndsKeeps(config: Config, s: BotState, outcome: Outcome, now: Time)
    requires Budgeted(config, s, now)
    ensures Budgeted(config, Ends(s, outcome), now)
  {
    if s.restarting.Some? {
      SpendingKeeps(config, s, s.restarting.value, now);
    }
    ListOnly(config, s);
    hide WellSpent, Forgotten, Allowed, NotAfter;
  }

  lemma SpendingKeeps(config: Config, s: BotState, at: Time, now: Time)
    requires WellSpent(config, s.spent) && Forgotten(config, s, now) && NotAfter(s.spent, now) && at <= now &&
             Allowed(config, s, at)
    ensures WellSpent(config, s.spent + [at]) && NotAfter(s.spent + [at], now)
    ensures forall s': BotState :: s'.restartsAt == s.restartsAt + [at] && s'.spent == s.spent + [at] ==>
              Forgotten(config, s', now)
  {
    AppendKeepsSpaced(s.spent, config.maxRestartsPerWindow, config.windowMs, |s.restartsAt|, at);
    hide Ordered, Spaced;
    var spent, list := s.spent + [at], s.restartsAt + [at];
    assert spent[|spent| - |list|..] == list;
  }

  /** The time of the last report, however many restarts ended since. */
  function LastReport(events: seq<Event>, default: Time): Time {
    if events == [] then default
    else if events[|events| - 1].Sampled? then events[|events| - 1].now
    else LastReport(events[..|events| - 1], default)
  }

  lemma {:induction false} LastReportIsLast(events: seq<Event>, default: Time, now: Time)
    requires forall i :: 0 <= i < |events| && events[i].Sampled? ==> events[i].now <= now
    requires default <= now
    ensures LastReport(events, default) <= now
  {
    if events != [] {
      LastReportIsLast(events[..|events| - 1], default, now);
    }
  }

  lemma {:induction false} RunKeeps(config: Config, events: seq<Event>, start: Time)
    requires InClockOrder(events) && forall i :: 0 <= i < |events| && events[i].Sampled? ==> start <= events[i].now
    ensures Budgeted(config, Run(config, events), LastReport(events, start))
  {
    hide Budgeted, Track, Ends;
    if events == [] {
      UnseenIsBudgeted(config, start);
    } else {
      var before, last := events[..|events| - 1], events[|events| - 1];
      RunKeeps(config, before, start);
      if last.Sampled? {
        LastReportIsLast(before, start, last.now);
        TrackKeeps(config, Run(config, before), last.sample, LastReport(before, start), last.now);
      } else {
        EndsKeeps(config, Run(config, before), last.outcome, LastReport(before, start));
      }
    }
  }

  lemma UnseenIsBudgeted(config: Config, now: Time)
    ensures Budgeted(config, Unseen, now)
  {}

  /** However reports and ending restarts interleave: no window holds more than the budget, and each restart
      comes a cooldown after the one before. */
  lemma RestartsAreBudgeted(config: Config, events: seq<Event>, start: Time, from: Time)
    requires InClockOrder(events) && forall i :: 0 <= i < |events| && events[i].Sampled? ==> start <= events[i].now
    ensures var spent := Run(config, events).spent;
            && CountIn(spent, from, config.windowMs) <= config.maxRestartsPerWindow
            && (forall i :: 0 <= i < |spent| - 1 ==> spent[i + 1] - spent[i] >= config.cooldownMs)
  {
    RunKeeps(config, events, start);
    SpacedMeansCapped(Run(config, events).spent, config.maxRestartsPerWindow, config.windowMs, from);
  }

  // ----- Who is restarted -----

  /** How often in a row the bot was down; samples that say nothing are passed over. */
  function Streak(config: Config, events: seq<Event>): nat {
    if events == [] then 0
    else
      var before := events[..|events| - 1];
      match events[|events| - 1]
      case Sampled(Down, _) => Streak(config, before) + 1
      case Sampled(Live, _) => 0
      case Sampled(_, _) => Streak(config, before)
      case Ended(_) => if Run(config, before).restarting.Some? then 0 else Streak(config, before)
  }

  lemma {:induction false} FailuresAreTheStreak(config: Config, events: seq<Event>)
    ensures Run(config, events).restarting.None? ==> Run(config, events).failures == Streak(config, events)
  {
    if events != [] {
      FailuresAreTheStreak(config, events[..|events| - 1]);
    }
  }

  lemma {:induction false} RecentPassesOverOld(gone: seq<Time>, kept: seq<Time>, now: Time, windowMs: int)
    requires forall i :: 0 <= i < |gone| ==> now - gone[i] >= windowMs
    ensures Recent(gone + kept, now, windowMs) == Recent(kept, now, windowMs)
    decreases |gone|
  {
    if gone == [] {
      assert gone + kept == kept;
    } else {
      assert (gone + kept)[1..] == gone[1..] + kept;
      RecentPassesOverOld(gone[1..], kept, now, windowMs);
    }
  }

  /** Fewer than `cap` are recent exactly if the `cap`-th from the end is not. */
  lemma RecentBelowCap(times: seq<Time>, now: Time, windowMs: int, cap: nat)
    requires Ordered(times)
    ensures |Recent(times, now, windowMs)| < cap <==>
              cap > 0 && (|times| < cap || now - times[|times| - cap] >= windowMs)
  {
    RecentIsTail(times, now, windowMs);
    RecentAreYoung(times, now, windowMs);
    var kept := Recent(times, now, windowMs);
    if |times| >= cap && |kept| >= cap > 0 {
      assert kept[|kept| - cap] == times[|times| - cap];
    }
  }

  /** What the list forgot is past its window and its cooldown, so the list judges as the whole history would. */
  lemma ListJudgesAsHistory(config: Config, s: BotState, now: Time)
    requires WellSpent(config, s.spent) && Forgotten(config, s, now)
    ensures Recent(s.spent, now, config.windowMs) == Recent(s.restartsAt, now, config.windowMs)
    ensures (s.restartsAt == [] || now - s.restartsAt[|s.restartsAt| - 1] >= config.cooldownMs) <==>
              Cooled(config, s.spent, now)
  {
    var gone := s.spent[..|s.spent| - |s.restartsAt|];
    assert s.spent == gone + s.restartsAt;
    assert forall i :: 0 <= i < |gone| ==> gone[i] == s.spent[i] && LongAgo(config, s.spent[i], now);
    RecentPassesOverOld(gone, s.restartsAt, now, config.windowMs);
    if s.restartsAt == [] || now - s.restartsAt[|s.restartsAt| - 1] >= config.cooldownMs {
      CooledDown(config, s, now);
    } else {
      assert s.restartsAt[|s.restartsAt| - 1] == s.spent[|s.spent| - 1];
    }
  }

  /** A report has a bot restarted exactly when it is not being restarted already, is down, has been down often
      enough in a row, had no restart within the cooldown, and has budget left in the window. */
  lemma RestartedExactly(config: Config, events: seq<Event>, start: Time, sample: Sample, now: Time)
    requires InClockOrder(events + [Sampled(sample, now)])
    requires forall i :: 0 <= i < |events| && events[i].Sampled? ==> start <= events[i].now
    requires start <= now
    ensures var s, s' := Run(config, events), Run(config, events + [Sampled(sample, now)]);
            (s.restarting.None? && s'.restarting.Some?) <==>
              && s.restarting.None? && sample.Down?
              && Streak(config, events) + 1 >= config.failureThreshold
              && (forall i :: 0 <= i < |s.spent| ==> now - s.spent[i] >= config.cooldownMs)
              && config.maxRestartsPerWindow > 0
              && (|s.spent| >= config.maxRestartsPerWindow ==>
                    now - s.spent[|s.spent| - config.maxRestartsPerWindow] >= config.windowMs)
    ensures var s, s' := Run(config, events), Run(config, events + [Sampled(sample, now)]);
            s.restarting.None? && s'.restarting.Some? ==> s'.restarting.value == now
  {
    var s, all := Run(config, events), events + [Sampled(sample, now)];
    assert all[..|events|] == events;
    BudgetedAtTheReport(config, events, start, sample, now);
    FailuresAreTheStreak(config, events);
    TrackDecides(config, s, sample, now);
    hide Budgeted, Track, Streak;
  }

  lemma BudgetedAtTheReport(config: Config, events: seq<Event>, start: Time, sample: Sample, now: Time)
    requires InClockOrder(events + [Sampled(sample, now)])
    requires forall i :: 0 <= i < |events| && events[i].Sampled? ==> start <= events[i].now
    requires start <= now
    ensures Budgeted(config, Run(config, events), now)
  {
    hide Budgeted;
    var all := events + [Sampled(sample, now)];
    assert forall i :: 0 <= i < |events| ==> all[i] == events[i];
    assert forall i :: 0 <= i < |events| && events[i].Sampled? ==> all[|events|].now >= all[i].now;
    RunKeeps(config, events, start);
    LastReportIsLast(events, start, now);
    TimePasses(config, Run(config, events), LastReport(events, start), now);
  }

  lemma TrackDecides(config: Config, s: BotState, sample: Sample, now: Time)
    requires Budgeted(config, s, now)
    ensures var s' := Track(config, s, sample, now);
            (s.restarting.None? && s'.restarting.Some?) <==>
              && s.restarting.None? && sample.Down?
              && s.failures + 1 >= config.failureThreshold
              && (forall i :: 0 <= i < |s.spent| ==> now - s.spent[i] >= config.cooldownMs)
              && config.maxRestartsPerWindow > 0
              && (|s.spent| >= config.maxRestartsPerWindow ==>
                    now - s.spent[|s.spent| - config.maxRestartsPerWindow] >= config.windowMs)
    ensures s.restarting.None? && Track(config, s, sample, now).restarting.Some? ==>
              Track(config, s, sample, now).restarting.value == now
  {
    ListJudgesAsHistory(config, s, now);
    RecentBelowCap(s.spent, now, config.windowMs, config.maxRestartsPerWindow);
    hide Spaced, Ordered, Forgotten, Recent, Allowed, NotAfter;
  }

  // ----- The fleet -----

  function DownIn(report: seq<Report>): nat {
    if report == [] then 0
    else DownIn(report[..|report| - 1]) + if report[|report| - 1].sample.Down? then 1 else 0
  }

  /** Down is the greater part of the report, and no mere handful. */
  predicate FleetOutage(report: seq<Report>) {
    DownIn(report) >= FLEET_OUTAGE_MIN_DOWN && DownIn(report) * 2 > |report|
  }

  ghost predicate OncePerBot(report: seq<Report>) {
    forall i, j :: 0 <= i < j < |report| ==> report[i].bot != report[j].bot
  }

  predicate Reported(report: seq<Report>, bot: BotId) {
    exists i :: 0 <= i < |report| && report[i].bot == bot
  }

  function StateFor(bots: map<BotId, BotState>, bot: BotId): BotState {
    if bot in bots then bots[bot] else Unseen
  }

  /** What one report does to one bot: it counts in a row, and only a bot that is down often enough is restarted. */
  ghost predicate TakesReport(config: Config, s: BotState, sample: Sample, now: Time, s': BotState) {
    && s'.spent == s.spent
    && (s.restarting.Some? || sample.Booting? || sample.Unknown? ==> s' == s)
    && (s.restarting.None? && sample.Live? ==> s' == s.(failures := 0))
    && (s.restarting.None? && sample.Down? ==> s'.failures == s.failures + 1)
    && (s.restarting.None? && s'.restarting.Some? ==>
          sample.Down? && s'.failures >= config.failureThreshold && s'.restarting.value == now)
  }

  lemma TrackTakesReport(config: Config, s: BotState, sample: Sample, now: Time)
    ensures TakesReport(config, s, sample, now, Track(config, s, sample, now))
  {
    hide Recent;
  }

  function DownAt(report: seq<Report>): set<int> {
    set i | 0 <= i < |report| && report[i].sample.Down?
  }

  lemma {:induction false} DownInCounts(report: seq<Report>)
    ensures DownIn(report) == |DownAt(report)|
  {
    if report != [] {
      var n := |report| - 1;
      DownInCounts(report[..n]);
      assert DownAt(report) == DownAt(report[..n]) + if report[n].sample.Down? then {n} else {};
    }
  }

  class AutoRestarter {
    const config: Config
    var bots: map<BotId, BotState>
    var fleetOutage: bool

    constructor (config: Config)
      ensures this.config == config && bots == map[] && !fleetOutage
    {
      this.config, bots, fleetOutage := config, map[], false;
    }

    method DetectFleetOutage(report: seq<Report>) returns (outage: bool)
      modifies `fleetOutage
      ensures outage == FleetOutage(report) == fleetOutage
      ensures outage <==> |DownAt(report)| >= 3 && 2 * |DownAt(report)| > |report|
    {
      var down := 0;
      var i := 0;
      while i < |report|
        invariant 0 <= i <= |report| && down == DownIn(report[..i])
      {
        assert report[..i + 1][..i] == report[..i];
        if report[i].sample.Down? {
          down := down + 1;
        }
        i := i + 1;
      }
      assert report[..i] == report;
      DownInCounts(report);
      outage := down >= FLEET_OUTAGE_MIN_DOWN && down * 2 > |report|;
      fleetOutage := outage;
    }

    /** Absent bots are forgotten; in an outage nobody is tracked; else every bot takes one step of its own. */
    method Observe(report: seq<Report>, now: Time)
      requires OncePerBot(report)
      modifies `bots, `fleetOutage
      ensures forall bot :: bot in bots ==> Reported(report, bot)
      ensures FleetOutage(report) ==> forall bot :: bot in bots <==> bot in old(bots) && Reported(report, bot)
      ensures FleetOutage(report) ==> forall bot :: bot in bots ==> bots[bot] == old(bots)[bot]
      ensures !FleetOutage(report) ==> forall i :: 0 <= i < |report| ==>
                report[i].bot in bots &&
                  bots[report[i].bot] == Track(config, StateFor(old(bots), report[i].bot), report[i].sample, now)
      ensures fleetOutage <==> |DownAt(report)| >= 3 && 2 * |DownAt(report)| > |report|
      ensures !fleetOutage ==> forall i :: 0 <= i < |report| ==>
                report[i].bot in bots &&
                  TakesReport(config, StateFor(old(bots), report[i].bot), report[i].sample, now, bots[report[i].bot])
    {
      hide Track, FleetOutage, TakesReport;
      var active := set r | r in report :: r.bot;
      bots := map bot | bot in bots && bot in active :: bots[bot];
      ghost var kept := bots;
      var outage := DetectFleetOutage(report);
      if !outage {
        TrackEach(report, now);
      }
    }

    method TrackEach(report: seq<Report>, now: Time)
      requires OncePerBot(report)
      modifies `bots
      ensures forall bot :: bot in bots ==> bot in old(bots) || Reported(report, bot)
      ensures forall i :: 0 <= i < |report| ==>
                report[i].bot in bots &&
                  bots[report[i].bot] == Track(config, StateFor(old(bots), report[i].bot), report[i].sample, now)
      ensures forall i :: 0 <= i < |report| ==>
                report[i].bot in bots &&
                  TakesReport(config, StateFor(old(bots), report[i].bot), report[i].sample, now, bots[report[i].bot])
    {
      hide Track, TakesReport;
      var i := 0;
      while i < |report|
        invariant 0 <= i <= |report|
        invariant forall bot :: bot in bots ==> bot in old(bots) || Reported(report, bot)
        invariant forall j :: 0 <= j < i ==>
                    report[j].bot in bots &&
                      bots[report[j].bot] == Track(config, StateFor(old(bots), report[j].bot), report[j].sample, now)
        invariant forall j :: i <= j < |report| ==> StateFor(bots, report[j].bot) == StateFor(old(bots), report[j].bot)
      {
        var bot := report[i].bot;
        bots := bots[bot := Track(config, StateFor(bots, bot), report[i].sample, now)];
        i := i + 1;
      }
      forall j | 0 <= j < |report|
        ensures TakesReport(config, StateFor(old(bots), report[j].bot), report[j].sample, now, bots[report[j].bot])
      {
        TrackTakesReport(config, StateFor(old(bots), report[j].bot), report[j].sample, now);
      }
    }

    method EndRestart(bot: BotId, outcome: Outcome)
      requires bot in bots
      modifies `bots
      ensures bots == old(bots)[bot := Ends(old(bots)[bot], outcome)]
      ensures old(bots)[bot].restarting.None? ==> bots == old(bots)
      ensures old(bots)[bot].restarting.Some? ==>
                && bots[bot].restarting.None? && bots[bot].failures == 0
                && bots[bot].spent == old(bots)[bot].spent +
                     (if outcome == Skipped(true) then [] else [old(bots)[bot].restarting.value])
    {
      var s := bots[bot];
      if s.restarting.Some? {
        var at := s.restarting.value;
        if !(outcome.Skipped? && outcome.transient) {
          s := s.(restartsAt := s.restartsAt + [at], spent := s.spent + [at]);
        }
        s := s.(restarting := None, failures := 0);
      }
      bots := bots[bot := s];
    }
  }
}
