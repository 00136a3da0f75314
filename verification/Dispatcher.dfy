/** The inbox dispatcher as the orchestrator runs it: each method is a stretch between two awaits, tied to
    its step in DispatchSpec, so what DispatchProofs says of runs holds of this object. */
module Dispatcher {
  import opened Options
  import opened Inbox
  import HandOuts
  import Spec = DispatchSpec
  import Proofs = DispatchProofs

  class InboxDispatcher {
    var waiters: map<Bot, Spec.Poll>
    var queued: map<Bot, Spec.Batch>
    var wokenWhileBusy: set<Bot>
    var polling: Option<Spec.Query>
    var started: bool
    var stopped: bool
    /** What each poll was resolved with. */
    var answers: map<Spec.Poll, Spec.Answer>
    var begun: seq<Bot>
    ghost var starts: seq<Time>
    ghost var owed: set<Spec.Poll>

    ghost function State(): Spec.Dispatcher
      reads this
    {
      Spec.Dispatcher(waiters, queued, wokenWhileBusy, polling, started, stopped, begun, starts, answers, owed)
    }

    ghost predicate Valid()
      reads this
    {
      Proofs.Inv(State())
    }

    constructor ()
      ensures State() == Spec.Initial && Valid()
    {
      waiters, queued, wokenWhileBusy, polling, started, stopped := map[], map[], {}, None, false, false;
      answers, begun, starts, owed := map[], [], [], {};
      new;
      Proofs.RunKeeps([]);
    }

    /** Settles one promise; nobody may settle it a second time. */
    method Resolve(p: Spec.Poll, items: seq<Spec.Lease>, queuedAt: Option<Time>, now: Time)
      requires p !in answers
      modifies `answers
      ensures answers == old(answers)[p := Spec.Answer(items, now, queuedAt)]
    {
      answers := answers[p := Spec.Answer(items, now, queuedAt)];
    }

    method EndPoll(bot: Bot, items: seq<Spec.Lease>, now: Time)
      requires bot in waiters && waiters[bot] !in answers
      modifies `waiters, `answers
      ensures State() == Spec.End(old(State()), bot, Spec.Answer(items, now, None))
      ensures waiters == old(waiters) - {bot}
      ensures answers == old(answers)[old(waiters)[bot] := Spec.Answer(items, now, None)]
    {
      var p := waiters[bot];
      waiters := waiters - {bot};
      Resolve(p, items, None, now);
    }

    method Start()
      requires Valid()
      modifies `stopped, `started
      ensures State() == Spec.Starts(old(State())) && Valid()
      ensures started && !stopped
    {
      hide Proofs.Inv;
      Proofs.StepKeeps(State(), Spec.Start);
      stopped, started := false, true;
    }

    method Stop(now: Time)
      requires Valid()
      modifies `stopped, `started, `wokenWhileBusy, `waiters, `answers
      ensures State() == Spec.Stops(old(State()), now) && Valid()
      ensures stopped && !started && wokenWhileBusy == {} && waiters == map[]
      ensures forall bot :: bot in old(waiters) ==>
                old(waiters)[bot] in answers && answers[old(waiters)[bot]] == Spec.Answer([], now, None)
      ensures forall q :: q in old(answers) ==> q in answers && answers[q] == old(answers)[q]
    {
      hide Proofs.Inv;
      Proofs.StepKeeps(State(), Spec.Stop(now));
      ghost var s := State();
      Proofs.WaitingPollsAreOpen(s);
      stopped, started, wokenWhileBusy := true, false, {};
      ResolveAll(s, now);
    }

    method ResolveAll(ghost s: Spec.Dispatcher, now: Time)
      requires Proofs.Inv(s) && waiters == s.waiters && answers == s.answers
      modifies `waiters, `answers
      ensures waiters == map[] && answers == Spec.Stops(s, now).answers
    {
      hide Proofs.Inv, Spec.AnswersAfter;
      Proofs.AnswersBefore(s, now);
      while waiters != map[]
        invariant forall bot :: bot in waiters ==> bot in s.waiters && waiters[bot] == s.waiters[bot]
        invariant answers == Spec.AnswersAfter(s, waiters.Keys, now)
        decreases |waiters|
      {
        var bot :| bot in waiters;
        Proofs.OneMoreEnded(s, waiters.Keys, bot, now);
        var p := waiters[bot];
        assert (waiters - {bot}).Keys == waiters.Keys - {bot};
        waiters := waiters - {bot};
        Resolve(p, [], None, now);
      }
    }

    /** Begins poll `p`. It is answered here, or it is the one poll of its bot in `waiters` when this returns. */
    method Wait(bot: Bot, now: Time) returns (p: Spec.Poll)
      requires Valid()
      modifies this
      ensures State() == Spec.Waits(old(State()), bot, now) && Valid()
      ensures p == |old(begun)|
      ensures begun == old(begun) + [bot]
      ensures old(stopped) ==> answers == old(answers)[p := Spec.Answer([], now, None)] && waiters == old(waiters)
      ensures !old(stopped) ==> queued == old(queued) - {bot}
      ensures !old(stopped) && bot in old(queued) && now - old(queued)[bot].leasedAt < INBOX_LEASE_MS ==>
                answers == old(answers)[p := Spec.Answer(old(queued)[bot].items, now, Some(old(queued)[bot].leasedAt))]
                  && waiters == old(waiters)
      ensures !old(stopped) && !(bot in old(queued) && now - old(queued)[bot].leasedAt < INBOX_LEASE_MS) ==>
                && waiters == old(waiters)[bot := p]
                && answers == if bot in old(waiters) then old(answers)[old(waiters)[bot] := Spec.Answer([], now, None)]
                              else old(answers)
    {
      hide Proofs.Inv, Spec.Waiting;
      Proofs.StepKeeps(State(), Spec.Wait(bot, now));
      Proofs.WaitingPollsAreOpen(State());
      p := |begun|;
      begun := begun + [bot];
      if stopped {
        Resolve(p, [], None, now);
        return;
      }
      if bot in queued {
        var ready := queued[bot];
        queued := queued - {bot};
        // The guard QueuedBatchesAreFresh rests on; a batch that fails it has left the queue all the same.
        if now - ready.leasedAt < INBOX_LEASE_MS {
          Resolve(p, ready.items, Some(ready.leasedAt), now);
          return;
        }
      }
      assert queued == old(queued) - {bot};
      TakeOver(bot, p, now);
    }

    /** A bot has one poll at most: whoever waited is answered empty. */
    method TakeOver(bot: Bot, p: Spec.Poll, now: Time)
      requires bot in waiters ==> waiters[bot] !in answers
      modifies `waiters, `answers
      ensures waiters == old(waiters)[bot := p]
      ensures answers == if bot in old(waiters) then old(answers)[old(waiters)[bot] := Spec.Answer([], now, None)]
                         else old(answers)
    {
      if bot in waiters {
        EndPoll(bot, [], now);
      }
      waiters := waiters[bot := p];
    }

    // The timer names its poll, so one that fires late ends nobody else's.
    method TimeOut(bot: Bot, p: Spec.Poll, now: Time)
      requires Valid()
      modifies `waiters, `answers
      ensures State() == Spec.TimesOut(old(State()), bot, p, now) && Valid()
      ensures if bot in old(waiters) && old(waiters)[bot] == p
              then waiters == old(waiters) - {bot} && answers == old(answers)[p := Spec.Answer([], now, None)]
              else waiters == old(waiters) && answers == old(answers)
    {
      hide Proofs.LeasesOnce, Proofs.LeasesOld, Proofs.WakesKept;
      Proofs.StepKeeps(State(), Spec.Timeout(bot, p, now));
      if bot in waiters && waiters[bot] == p {
        EndPoll(bot, [], now);
      }
    }

    /** A row was inserted for the bot. From here on a poll that waits is owed a query (WokenPollIsAskedFor). */
    method Wake(bot: Bot, now: Time)
      requires Valid()
      modifies `wokenWhileBusy, `polling, `starts, `owed
      ensures State() == Spec.Wakes(old(State()), bot, now) && Valid()
      ensures bot !in waiters ==> wokenWhileBusy == old(wokenWhileBusy) && polling == old(polling)
      ensures bot in waiters && old(polling).Some? ==>
                wokenWhileBusy == old(wokenWhileBusy) + {bot} && polling == old(polling)
      ensures bot in waiters && old(polling).None? ==> polling == Some(Spec.Query({bot}, now))
    {
      hide Proofs.Inv;
      Proofs.StepKeeps(State(), Spec.Wake(bot, now));
      if bot !in waiters {
        return;
      }
      owed := if started then owed + {waiters[bot]} else owed;
      if polling.Some? {
        wokenWhileBusy := wokenWhileBusy + {bot};
        return;
      }
      assert {bot} * waiters.Keys == {bot};
      BeginTick({bot}, now);
    }

    /** The interval's tick, up to its query. */
    method Tick(now: Time)
      requires Valid()
      modifies `polling, `starts, `owed
      ensures State() == Spec.Ticks(old(State()), waiters.Keys, now) && Valid()
      ensures polling == if old(polling).Some? || waiters == map[] then old(polling)
                        else Some(Spec.Query(waiters.Keys, now))
    {
      hide Proofs.Inv;
      Proofs.StepKeeps(State(), Spec.Interval(now));
      assert waiters.Keys * waiters.Keys == waiters.Keys;
      BeginTick(waiters.Keys, now);
      assert waiters == map[] <==> waiters.Keys == {};
    }

    // The stamp is taken here, with the query still to be sent: no lease of it can be older than the stamp.
    method BeginTick(bots: set<Bot>, now: Time)
      modifies `polling, `starts, `owed
      ensures State() == Spec.Ticks(old(State()), bots, now)
      ensures polling == if old(polling).Some? || bots * waiters.Keys == {} then old(polling)
                        else Some(Spec.Query(bots * waiters.Keys, now))
    {
      if polling.Some? {
        return;
      }
      var asking := set bot | bot in bots && bot in waiters;
      assert asking == bots * waiters.Keys;
      if asking == {} {
        return;
      }
      owed := owed - Spec.PollsOf(State(), asking);
      starts := starts + [now];
      polling := Some(Spec.Query(asking, now));
    }

    method HandOut(bot: Bot, items: seq<Spec.Lease>, leasedAt: Time, now: Time)
      requires bot in waiters ==> waiters[bot] !in answers
      modifies `waiters, `answers, `queued
      ensures State() == Spec.HandsOut(old(State()), bot, items, leasedAt, now)
      ensures if bot in old(waiters)
              then waiters == old(waiters) - {bot} && queued == old(queued) &&
                answers == old(answers)[old(waiters)[bot] := Spec.Answer(items, now, None)]
              else waiters == old(waiters) && answers == old(answers) && queued == old(queued)[bot :=
                if bot !in old(queued) then Spec.Batch(items, leasedAt)
                else Spec.Batch(old(queued)[bot].items + items,
                  if old(queued)[bot].leasedAt < leasedAt then old(queued)[bot].leasedAt else leasedAt)]
    {
      if bot in waiters {
        EndPoll(bot, items, now);
        return;
      }
      // The minimum keeps BatchClocked for both parts, though NobodyWaitsBesideABatch says there is only one.
      var batch := Spec.Batch(items, leasedAt);
      if bot in queued {
        batch := Spec.Batch(queued[bot].items + items, Spec.Min(queued[bot].leasedAt, leasedAt));
      }
      queued := queued[bot := batch];
    }

    /** The rows came back. No batch is ever put on top of another. */
    method EndQuery(groups: seq<Spec.Group>, query: nat, now: Time)
      requires Valid() && Spec.Returned(State(), groups) && query == |starts|
      modifies this
      ensures State() == Spec.QueryReturns(old(State()), groups, now) && Valid()
      ensures HandOuts.AllReached(old(State()), State(), groups, old(polling).value.leasedAt, now)
      ensures wokenWhileBusy == {}
      ensures polling == if started && old(wokenWhileBusy) * waiters.Keys != {}
                        then Some(Spec.Query(old(wokenWhileBusy) * waiters.Keys, now)) else None
    {
      hide Proofs.Inv, Proofs.LeasesOnce, Proofs.WakesKept, Spec.Returned, Spec.HandsOut, HandOuts.AllReached;
      ghost var s := State();
      Proofs.StepKeeps(s, Spec.QueryReturn(groups, now));
      HandOuts.QueryReaches(s, groups, now);
      Proofs.ReturnedWhilePolling(s, groups);
      var leasedAt := polling.value.leasedAt;
      var i := 0;
      while i < |groups|
        invariant 0 <= i <= |groups|
        invariant State() == Spec.HandsOutAll(s, groups[..i], leasedAt, now)
        invariant query == |starts| && starts == s.starts
        invariant wokenWhileBusy == s.woken && started == s.started
      {
        assert groups[..i + 1][..i] == groups[..i];
        Proofs.HandsOutToOpenPolls(s, groups, i, leasedAt, now);
        HandOut(groups[i].bot, Spec.Tokens(groups[i].rows, query), leasedAt, now);
        i := i + 1;
      }
      assert groups[..i] == groups;
      FinishTick(now);
    }

    method FailQuery(now: Time)
      requires Valid() && polling.Some?
      modifies `polling, `wokenWhileBusy, `starts, `owed
      ensures State() == Spec.QueryFails(old(State()), now) && Valid()
      ensures wokenWhileBusy == {}
      ensures polling == if started && old(wokenWhileBusy) * waiters.Keys != {}
                        then Some(Spec.Query(old(wokenWhileBusy) * waiters.Keys, now)) else None
    {
      hide Proofs.Inv;
      Proofs.StepKeeps(State(), Spec.QueryFail(now));
      FinishTick(now);
    }

    /** The tail of every query, also of one that failed: whoever was woken meanwhile is asked for. */
    method FinishTick(now: Time)
      modifies `polling, `wokenWhileBusy, `starts, `owed
      ensures State() == Spec.Ends(old(State()), now)
      ensures wokenWhileBusy == {}
      ensures polling == if started && old(wokenWhileBusy) * waiters.Keys != {}
                        then Some(Spec.Query(old(wokenWhileBusy) * waiters.Keys, now)) else None
    {
      polling := None;
      var woken := wokenWhileBusy;
      wokenWhileBusy := {};
      if woken != {} && started {
        BeginTick(woken, now);
      }
    }

    method ForgetStaleQueued(now: Time)
      requires Valid()
      modifies `queued
      ensures State() == Spec.Forgets(old(State()), now) && Valid()
      ensures forall bot :: bot in queued <==> bot in old(queued) && now - old(queued)[bot].leasedAt < INBOX_LEASE_MS
      ensures forall bot :: bot in queued ==> queued[bot] == old(queued)[bot]
    {
      hide Proofs.Inv;
      Proofs.StepKeeps(State(), Spec.Forget(now));
      var unseen := queued.Keys;
      ghost var before := queued;
      while unseen != {}
        invariant unseen <= before.Keys
        invariant forall bot :: bot in queued <==>
                  bot in before && (bot in unseen || now - before[bot].leasedAt < INBOX_LEASE_MS)
        invariant forall bot :: bot in queued ==> queued[bot] == before[bot]
        decreases |unseen|
      {
        var bot :| bot in unseen;
        unseen := unseen - {bot};
        if now - queued[bot].leasedAt >= INBOX_LEASE_MS {
          queued := queued - {bot};
        }
      }
      assert queued == Spec.Forgets(old(State()), now).queued;
    }
  }
}
