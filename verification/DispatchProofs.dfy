/** What every run of the dispatcher keeps. */
module DispatchProofs {
  import opened Options
  import opened Inbox
  import opened DispatchSpec

  /** Every poll begun is answered exactly once, unless it is the one poll its bot still waits with. */
  ghost predicate PollsOnce(s: Dispatcher) {
    && (forall bot :: bot in s.waiters ==> s.waiters[bot] < |s.begun| && s.begun[s.waiters[bot]] == bot)
    && (forall p :: p in s.answers ==> p < |s.begun|)
    && (forall p :: 0 <= p < |s.begun| ==> (p in s.answers <==> !Waiting(s, p)))
    && (s.stopped ==> s.waiters == map[])
  }

  /** Nobody waits while a batch is queued for them, so two queries never meet in one batch. */
  ghost predicate QueueApart(s: Dispatcher) {
    && s.waiters.Keys !! s.queued.Keys
    && (s.polling.Some? ==> s.polling.value.asking !! s.queued.Keys)
  }

  datatype Holder = Answered(p: Poll) | Queued(bot: Bot)

  predicate Holds(s: Dispatcher, h: Holder, lease: Lease) {
    match h
    case Answered(p) => p in s.answers && lease in s.answers[p].items
    case Queued(bot) => bot in s.queued && lease in s.queued[bot].items
  }

  ghost predicate HeldOnce(s: Dispatcher) {
    forall h, g, lease :: Holds(s, h, lease) && Holds(s, g, lease) ==> h == g
  }

  /** One lease of a row is in one place. */
  ghost predicate LeasesOnce(s: Dispatcher) {
    && HeldOnce(s)
    && (forall p :: p in s.answers ==> NoDuplicates(s.answers[p].items))
    && (forall bot :: bot in s.queued ==> NoDuplicates(s.queued[bot].items))
  }

  /** `asked` queries have handed out their rows. */
  ghost predicate LeasesOld(s: Dispatcher, asked: nat) {
    forall h, lease :: Holds(s, h, lease) ==> lease.query < asked
  }

  function Returns(s: Dispatcher): nat {
    if s.polling.Some? then |s.starts| else |s.starts| + 1
  }

  ghost predicate WakesKept(s: Dispatcher) {
    forall bot :: bot in s.waiters && s.waiters[bot] in s.owed ==> s.polling.Some? && bot in s.woken && s.started
  }

  ghost predicate Inv(s: Dispatcher) {
    && PollsOnce(s) && QueueApart(s) && LeasesOnce(s) && LeasesOld(s, Returns(s)) && WakesKept(s)
    && (s.polling.Some? ==> |s.starts| > 0)
    && (forall p :: p in s.owed ==> p < |s.begun|)
  }

  // ----- Polls -----

  lemma EndKeepsPolls(s: Dispatcher, bot: Bot, answer: Answer)
    requires PollsOnce(s)
    ensures PollsOnce(End(s, bot, answer))
  {}

  lemma AnsweredAtOnce(s: Dispatcher, bot: Bot, queued: map<Bot, Batch>, answer: Answer)
    requires PollsOnce(s)
    ensures PollsOnce(Resolve(s.(begun := s.begun + [bot], queued := queued), |s.begun|, answer))
  {
    var s' := Resolve(s.(begun := s.begun + [bot], queued := queued), |s.begun|, answer);
    assert bot in s.waiters ==> s.waiters[bot] < |s.begun|;
    forall p | 0 <= p < |s'.begun|
      ensures p in s'.answers <==> !Waiting(s', p)
    {
      if p < |s.begun| {
        assert s'.begun[p] == s.begun[p];
        assert Waiting(s', p) == Waiting(s, p);
      }
    }
  }

  lemma WaitsNow(s: Dispatcher, bot: Bot, queued: map<Bot, Batch>)
    requires PollsOnce(s) && bot !in s.waiters && !s.stopped
    ensures PollsOnce(s.(begun := s.begun + [bot], queued := queued, waiters := s.waiters[bot := |s.begun|]))
  {
    var s' := s.(begun := s.begun + [bot], queued := queued, waiters := s.waiters[bot := |s.begun|]);
    forall p | 0 <= p < |s'.begun|
      ensures p in s'.answers <==> !Waiting(s', p)
    {
      if p < |s.begun| {
        assert s'.begun[p] == s.begun[p];
        assert Waiting(s', p) == Waiting(s, p);
      }
    }
  }

  lemma WaitsKeepsPolls(s: Dispatcher, bot: Bot, now: Time)
    requires PollsOnce(s) && QueueApart(s)
    ensures PollsOnce(Waits(s, bot, now))
  {
    hide PollsOnce;
    var queued := s.queued - {bot};
    if s.stopped {
      AnsweredAtOnce(s, bot, s.queued, Answer([], now, None));
    } else if bot in s.queued && now - s.queued[bot].leasedAt < INBOX_LEASE_MS {
      AnsweredAtOnce(s, bot, queued, Answer(s.queued[bot].items, now, Some(s.queued[bot].leasedAt)));
    } else {
      EndKeepsPolls(s, bot, Answer([], now, None));
      WaitsNow(End(s, bot, Answer([], now, None)), bot, queued);
    }
  }

  lemma StopsKeepsPolls(s: Dispatcher, now: Time)
    requires PollsOnce(s)
    ensures PollsOnce(Stops(s, now))
  {}

  // ----- Leases -----

  predicate Placed(s: Dispatcher, bot: Bot, h: Holder) {
    h == if bot in s.waiters then Answered(s.waiters[bot]) else Queued(bot)
  }

  /** One batch goes to one place: the poll that waits, or the queue. */
  lemma HandsOutPlaces(s: Dispatcher, bot: Bot, items: seq<Lease>, leasedAt: Time, now: Time)
    requires PollsOnce(s) && bot !in s.queued
    ensures var s' := HandsOut(s, bot, items, leasedAt, now);
            && (forall h, lease :: Holds(s', h, lease) <==> Holds(s, h, lease) || (Placed(s, bot, h) && lease in items))
  {}

  lemma HandsOutKeepsPolls(s: Dispatcher, bot: Bot, items: seq<Lease>, leasedAt: Time, now: Time)
    requires PollsOnce(s) && s.waiters.Keys !! s.queued.Keys
    ensures var s' := HandsOut(s, bot, items, leasedAt, now);
            PollsOnce(s') && s'.waiters.Keys !! s'.queued.Keys
  {
    EndKeepsPolls(s, bot, Answer(items, now, None));
    if bot !in s.waiters {
      var s' := HandsOut(s, bot, items, leasedAt, now);
      assert forall p: Poll :: Waiting(s', p) == Waiting(s, p);
    }
  }

  lemma HandsOutKeepsLeases(s: Dispatcher, bot: Bot, items: seq<Lease>, leasedAt: Time, now: Time)
    requires PollsOnce(s) && LeasesOnce(s) && bot !in s.queued && NoDuplicates(items)
    requires forall h, lease :: Holds(s, h, lease) ==> lease !in items
    ensures LeasesOnce(HandsOut(s, bot, items, leasedAt, now))
  {
    HandsOutPlaces(s, bot, items, leasedAt, now);
    var s' := HandsOut(s, bot, items, leasedAt, now);
    assert HeldOnce(s') by {
      hide HandsOut, PollsOnce, Holds;
    }
    hide PollsOnce, Holds, HeldOnce, NoDuplicates;
  }

  /** While a query's groups are handed out, in the order the rows came back. */
  ghost predicate HandingOut(s: Dispatcher, s': Dispatcher, groups: seq<Group>) {
    && PollsOnce(s') && LeasesOnce(s') && s'.waiters.Keys !! s'.queued.Keys
    && s' == s.(waiters := s'.waiters, queued := s'.queued, answers := s'.answers)
    && (forall bot :: bot in s'.waiters ==> bot in s.waiters && s'.waiters[bot] == s.waiters[bot])
    && (forall bot :: bot in s'.queued ==> bot in s.queued || InGroups(groups, bot))
    && (forall h, lease :: Holds(s', h, lease) ==> Holds(s, h, lease) || FromGroups(groups, lease, |s.starts|))
  }

  predicate InGroups(groups: seq<Group>, bot: Bot) {
    exists i :: 0 <= i < |groups| && groups[i].bot == bot
  }

  predicate FromGroups(groups: seq<Group>, lease: Lease, query: nat) {
    lease.query == query && exists i :: 0 <= i < |groups| && lease.row in groups[i].rows
  }

  lemma TokensAreRows(rows: seq<Id>, query: nat)
    ensures forall lease :: lease in Tokens(rows, query) <==> lease.query == query && lease.row in rows
    ensures NoDuplicates(rows) ==> NoDuplicates(Tokens(rows, query))
  {
    forall row | row in rows
      ensures Lease(row, query) in Tokens(rows, query)
    {
      var i :| 0 <= i < |rows| && rows[i] == row;
      assert Tokens(rows, query)[i] == Lease(row, query);
    }
  }

  lemma {:induction false} HandsOutAllKeeps(s: Dispatcher, groups: seq<Group>, leasedAt: Time, now: Time)
    requires Inv(s) && Returned(s, groups)
    ensures HandingOut(s, HandsOutAll(s, groups, leasedAt, now), groups)
  {
    if groups != [] {
      var before, last := groups[..|groups| - 1], groups[|groups| - 1];
      HandsOutAllKeeps(s, before, leasedAt, now);
      HandsOutOne(s, HandsOutAll(s, before, leasedAt, now), groups, leasedAt, now);
    }
  }

  lemma HandsOutFrame(s: Dispatcher, bot: Bot, items: seq<Lease>, leasedAt: Time, now: Time)
    ensures var s' := HandsOut(s, bot, items, leasedAt, now);
            && s' == s.(waiters := s'.waiters, queued := s'.queued, answers := s'.answers)
            && s'.waiters == s.waiters - {bot}
            && s'.queued.Keys <= s.queued.Keys + {bot}
                    && (PollsOnce(s) ==> forall p :: p in s.answers ==>
                         p in s'.answers && s'.answers[p] == s.answers[p])
  {
    assert bot !in s.waiters ==> s.waiters == s.waiters - {bot};
  }

  lemma LastGroupIsNew(s: Dispatcher, mid: Dispatcher, groups: seq<Group>)
    requires Inv(s) && Returned(s, groups) && groups != [] && HandingOut(s, mid, groups[..|groups| - 1])
    ensures var last := groups[|groups| - 1];
            && last.bot !in mid.queued
            && NoDuplicates(Tokens(last.rows, |s.starts|))
            && (forall h, lease :: Holds(mid, h, lease) ==> lease !in Tokens(last.rows, |s.starts|))
  {
    hide PollsOnce, HeldOnce, WakesKept;
    var before, last := groups[..|groups| - 1], groups[|groups| - 1];
    TokensAreRows(last.rows, |s.starts|);
    assert forall i :: 0 <= i < |before| ==> groups[i] == before[i];
    forall h, lease | Holds(mid, h, lease)
      ensures lease !in Tokens(last.rows, |s.starts|)
    {
      if FromGroups(before, lease, |s.starts|) {
        var i :| 0 <= i < |before| && lease.row in before[i].rows;
        assert groups[i] == before[i] && Disjoint(groups[i].rows, last.rows);
      }
    }
  }

  lemma HandsOutOne(s: Dispatcher, mid: Dispatcher, groups: seq<Group>, leasedAt: Time, now: Time)
    requires Inv(s) && Returned(s, groups) && groups != [] && HandingOut(s, mid, groups[..|groups| - 1])
    ensures var last := groups[|groups| - 1];
            HandingOut(s, HandsOut(mid, last.bot, Tokens(last.rows, |s.starts|), leasedAt, now), groups)
  {
    hide Inv, PollsOnce, HeldOnce, LeasesOnce, NoDuplicates, Disjoint, Holds, FromGroups, InGroups, Returned, HandsOut;
    var last := groups[|groups| - 1];
    var items := Tokens(last.rows, |s.starts|);
    LastGroupIsNew(s, mid, groups);
    TokensAreRows(last.rows, |s.starts|);
    HandsOutKeepsPolls(mid, last.bot, items, leasedAt, now);
    HandsOutKeepsLeases(mid, last.bot, items, leasedAt, now);
    HandsOutPlaces(mid, last.bot, items, leasedAt, now);
    HandsOutFrame(mid, last.bot, items, leasedAt, now);
    GroupsGrow(groups, |s.starts|);
  }

  lemma GroupsGrow(groups: seq<Group>, query: nat)
    requires groups != []
    ensures var before, last := groups[..|groups| - 1], groups[|groups| - 1];
            && InGroups(groups, last.bot)
            && (forall bot :: InGroups(before, bot) ==> InGroups(groups, bot))
            && (forall lease :: FromGroups(before, lease, query) ==> FromGroups(groups, lease, query))
            && (forall lease: Lease :: lease.query == query && lease.row in last.rows ==>
                 FromGroups(groups, lease, query))
  {
    var before := groups[..|groups| - 1];
    assert forall i :: 0 <= i < |before| ==> groups[i] == before[i];
  }

  /** At each step of a hand-out the poll it would settle is still unsettled. */
  lemma HandsOutToOpenPolls(s: Dispatcher, groups: seq<Group>, i: nat, leasedAt: Time, now: Time)
    requires Inv(s) && Returned(s, groups) && i < |groups|
    ensures var mid := HandsOutAll(s, groups[..i], leasedAt, now);
            && (groups[i].bot in mid.waiters ==> mid.waiters[groups[i].bot] !in mid.answers)
            && groups[i].bot !in mid.queued
            && mid.starts == s.starts
  {
    ReturnedPrefix(s, groups, i);
    HandsOutAllKeeps(s, groups[..i], leasedAt, now);
    var mid := HandsOutAll(s, groups[..i], leasedAt, now);
    hide LeasesOnce, LeasesOld;
    assert forall j :: 0 <= j < i ==> groups[..i][j].bot == groups[j].bot;
    assert groups[i].bot in mid.waiters ==> Waiting(mid, mid.waiters[groups[i].bot]);
  }

  lemma ReturnedPrefix(s: Dispatcher, groups: seq<Group>, i: nat)
    requires Returned(s, groups) && i <= |groups|
    ensures Returned(s, groups[..i])
  {}

  lemma ReturnedWhilePolling(s: Dispatcher, groups: seq<Group>)
    requires Returned(s, groups)
    ensures s.polling.Some?
  {}

  lemma WaitingPollsAreOpen(s: Dispatcher)
    requires Inv(s)
    ensures forall bot :: bot in s.waiters ==>
              Waiting(s, s.waiters[bot]) && s.begun[s.waiters[bot]] == bot && s.waiters[bot] !in s.answers
    ensures forall p :: 0 <= p < |s.begun| ==> (p in s.answers <==> !Waiting(s, p))
    ensures |s.begun| !in s.answers
  {}

  lemma AnswersBefore(s: Dispatcher, now: Time)
    ensures AnswersAfter(s, s.waiters.Keys, now) == s.answers
  {
    assert forall p: Poll :: !Ended(s, s.waiters.Keys, p);
  }

  lemma EndedByOne(s: Dispatcher, waiting: set<Bot>, bot: Bot)
    requires Inv(s) && bot in waiting && bot in s.waiters
    ensures forall p: Poll :: Ended(s, waiting - {bot}, p) <==> Ended(s, waiting, p) || p == s.waiters[bot]
    ensures !Ended(s, waiting, s.waiters[bot]) && s.waiters[bot] !in s.answers && s.waiters[bot] < |s.begun|
  {
    WaitingPollsAreOpen(s);
    hide Inv;
    forall p: Poll
      ensures Ended(s, waiting - {bot}, p) <==> Ended(s, waiting, p) || p == s.waiters[bot]
    {
      if Waiting(s, p) && s.begun[p] == bot {
        assert p == s.waiters[bot];
      }
    }
  }

  lemma OneMoreEnded(s: Dispatcher, waiting: set<Bot>, bot: Bot, now: Time)
    requires Inv(s) && bot in waiting && bot in s.waiters
    ensures s.waiters[bot] !in AnswersAfter(s, waiting, now)
    ensures AnswersAfter(s, waiting - {bot}, now) ==
              AnswersAfter(s, waiting, now)[s.waiters[bot] := Answer([], now, None)]
  {
    hide Inv, Ended;
    EndedByOne(s, waiting, bot);
    var before, after := AnswersAfter(s, waiting, now), AnswersAfter(s, waiting - {bot}, now);
    forall p: Poll
      ensures p in after <==> p in before || p == s.waiters[bot]
      ensures p in after ==> after[p] == if p == s.waiters[bot] then Answer([], now, None) else before[p]
    {}
  }

  // ----- The end of a query -----

  lemma SamePlaces(s: Dispatcher, s': Dispatcher)
    requires s.answers == s'.answers && s.queued == s'.queued && s.begun == s'.begun && s.waiters == s'.waiters &&
             s.stopped == s'.stopped
    ensures PollsOnce(s) ==> PollsOnce(s')
    ensures LeasesOnce(s) ==> LeasesOnce(s')
    ensures forall h, lease :: Holds(s', h, lease) <==> Holds(s, h, lease)
  {
    assert forall p: Poll :: Waiting(s', p) == Waiting(s, p);
    assert forall h, lease :: Holds(s', h, lease) <==> Holds(s, h, lease);
  }

  /** A query begins only for bots that wait, so none of them has a batch queued. */
  lemma TicksKeeps(s: Dispatcher, bots: set<Bot>, now: Time)
    requires PollsOnce(s) && LeasesOnce(s) && s.waiters.Keys !! s.queued.Keys && LeasesOld(s, |s.starts| + 1)
    requires s.polling.None? && (forall p :: p in s.owed ==> p < |s.begun|)
    requires forall bot :: bot in s.waiters && s.waiters[bot] in s.owed ==> bot in bots
    ensures Inv(Ticks(s, bots, now))
  {
    var s' := Ticks(s, bots, now);
    SamePlaces(s, s');
    hide PollsOnce, LeasesOnce, Holds;
    var asking := bots * s.waiters.Keys;
    forall bot | bot in s.waiters && s.waiters[bot] in s.owed
      ensures asking != {} && s.waiters[bot] in PollsOf(s, asking)
    {
      assert bot in asking;
    }
    assert WakesKept(s');
    assert QueueApart(s');
    assert LeasesOld(s', Returns(s'));
  }

  lemma EndsKeeps(s: Dispatcher, now: Time)
    requires PollsOnce(s) && LeasesOnce(s) && s.waiters.Keys !! s.queued.Keys && LeasesOld(s, |s.starts| + 1)
    requires WakesKept(s) && (forall p :: p in s.owed ==> p < |s.begun|)
    ensures Inv(Ends(s, now))
  {
    var s1 := s.(polling := None, woken := {});
    SamePlaces(s, s1);
    hide PollsOnce, LeasesOnce, Holds;
    assert LeasesOld(s1, |s1.starts| + 1);
    TicksKeeps(s1, s.woken, now);
  }

  lemma QueryReturnsKeeps(s: Dispatcher, groups: seq<Group>, now: Time)
    requires Inv(s)
    ensures Inv(QueryReturns(s, groups, now))
  {
    if Returned(s, groups) {
      var leasedAt := s.polling.value.leasedAt;
      var s' := HandsOutAll(s, groups, leasedAt, now);
      HandsOutAllKeeps(s, groups, leasedAt, now);
      hide PollsOnce, LeasesOnce, Holds, Returned;
      assert LeasesOld(s', |s'.starts| + 1);
      EndsKeeps(s', now);
    }
  }

  lemma QueryFailsKeeps(s: Dispatcher, now: Time)
    requires Inv(s)
    ensures Inv(QueryFails(s, now))
  {
    if s.polling.Some? {
      EndsKeeps(s, now);
    }
  }

  // ----- The other steps -----

  lemma EndPlaces(s: Dispatcher, bot: Bot, answer: Answer)
    requires PollsOnce(s)
    ensures forall h, lease :: Holds(End(s, bot, answer), h, lease) <==>
              Holds(s, h, lease) || (bot in s.waiters && h == Answered(s.waiters[bot]) && lease in answer.items)
  {}

  lemma EndKeeps(s: Dispatcher, bot: Bot, now: Time)
    requires Inv(s)
    ensures Inv(End(s, bot, Answer([], now, None)))
  {
    EndKeepsPolls(s, bot, Answer([], now, None));
    EndPlaces(s, bot, Answer([], now, None));
    hide PollsOnce, Holds;
  }

  lemma QueuedBatchMoves(s: Dispatcher, bot: Bot, now: Time)
    requires PollsOnce(s) && !s.stopped && bot in s.queued && now - s.queued[bot].leasedAt < INBOX_LEASE_MS
    ensures var s' := Waits(s, bot, now);
            forall h, lease :: Holds(s', h, lease) <==>
                if h == Queued(bot) then false
                else if h == Answered(|s.begun|) then Holds(s, Queued(bot), lease) else Holds(s, h, lease)
  {}

  lemma QueuedBatchIsOnce(s: Dispatcher, bot: Bot, now: Time)
    requires PollsOnce(s) && LeasesOnce(s) && LeasesOld(s, Returns(s)) && !s.stopped && bot in s.queued &&
             now - s.queued[bot].leasedAt < INBOX_LEASE_MS
    ensures LeasesOnce(Waits(s, bot, now)) && LeasesOld(Waits(s, bot, now), Returns(s))
  {
    QueuedBatchMoves(s, bot, now);
    assert |s.begun| !in s.answers;
    hide PollsOnce, Holds, NoDuplicates;
  }

  /** Moving a queued batch to the poll that came for it moves its leases with it. */
  lemma QueuedIsAnswered(s: Dispatcher, bot: Bot, now: Time)
    requires Inv(s) && !s.stopped && bot in s.queued && now - s.queued[bot].leasedAt < INBOX_LEASE_MS
    ensures Inv(Waits(s, bot, now))
  {
    hide PollsOnce, LeasesOnce, LeasesOld;
    WaitsKeepsPolls(s, bot, now);
    QueuedBatchIsOnce(s, bot, now);
  }

  lemma WaitsKeeps(s: Dispatcher, bot: Bot, now: Time)
    requires Inv(s)
    ensures Inv(Waits(s, bot, now))
  {
    hide PollsOnce, Holds, NoDuplicates, HeldOnce;
    if !s.stopped && bot in s.queued && now - s.queued[bot].leasedAt < INBOX_LEASE_MS {
      QueuedIsAnswered(s, bot, now);
    } else {
      var s' := Waits(s, bot, now);
      WaitsKeepsPolls(s, bot, now);
      WaitsHoldsNothingNew(s, bot, now);
      FewerPlaces(s, s');
      NewPollIsNotOwed(s, bot, now);
    }
  }

  lemma FewerPlaces(s: Dispatcher, s': Dispatcher)
    requires LeasesOnce(s) && LeasesOld(s, Returns(s)) && Returns(s') == Returns(s)
    requires forall h, lease :: Holds(s', h, lease) ==> Holds(s, h, lease)
    requires forall p :: p in s'.answers ==>
               (p in s.answers && s'.answers[p] == s.answers[p]) ||
                 (s'.answers[p].items == [] && s'.answers[p].queuedAt == None)
    requires forall b :: b in s'.queued ==> b in s.queued && s'.queued[b] == s.queued[b]
    ensures LeasesOnce(s') && LeasesOld(s', Returns(s'))
  {
    hide Holds;
  }

  lemma NewPollIsNotOwed(s: Dispatcher, bot: Bot, now: Time)
    requires Inv(s) && (s.stopped || bot !in s.queued || now - s.queued[bot].leasedAt >= INBOX_LEASE_MS)
    ensures WakesKept(Waits(s, bot, now)) && QueueApart(Waits(s, bot, now))
  {}

  lemma WaitsHoldsNothingNew(s: Dispatcher, bot: Bot, now: Time)
    requires Inv(s) && (s.stopped || bot !in s.queued || now - s.queued[bot].leasedAt >= INBOX_LEASE_MS)
    ensures var s' := Waits(s, bot, now);
            && (forall h, lease :: Holds(s', h, lease) ==> Holds(s, h, lease))
            && (forall p :: p in s'.answers ==>
                 (p in s.answers && s'.answers[p] == s.answers[p]) ||
                   (s'.answers[p].items == [] && s'.answers[p].queuedAt == None))
            && (forall b :: b in s'.queued ==> b in s.queued && s'.queued[b] == s.queued[b])
  {}

  lemma OwedIsLocal(s: Dispatcher, owed: set<Poll>, woken: set<Bot>)
    requires Inv(s)
    ensures var s' := s.(owed := owed, woken := woken);
            && PollsOnce(s') && LeasesOnce(s') && QueueApart(s') && LeasesOld(s', Returns(s'))
  {
    SamePlaces(s, s.(owed := owed, woken := woken));
  }

  lemma WakesKeeps(s: Dispatcher, bot: Bot, now: Time)
    requires Inv(s)
    ensures Inv(Wakes(s, bot, now))
  {
    hide LeasesOnce, QueueApart, LeasesOld;
    if bot in s.waiters {
      var owed := if s.started then s.owed + {s.waiters[bot]} else s.owed;
      OwedIsLocal(s, owed, s.woken);
      OwedIsLocal(s, owed, s.woken + {bot});
      assert s.waiters[bot] < |s.begun|;
      if s.polling.None? {
        WakesAsk(s, owed, bot, now);
      } else {
        hide PollsOnce;
      }
    }
  }

  lemma WakesAsk(s: Dispatcher, owed: set<Poll>, bot: Bot, now: Time)
    requires Inv(s) && bot in s.waiters && s.polling.None? && owed <= s.owed + {s.waiters[bot]}
    ensures Inv(Ticks(s.(owed := owed), {bot}, now))
  {
    OwedIsLocal(s, owed, s.woken);
    var s' := s.(owed := owed);
    forall b | b in s'.waiters && s'.waiters[b] in s'.owed
      ensures b == bot
    {
      assert s.begun[s.waiters[b]] == b && s.begun[s.waiters[bot]] == bot;
    }
    hide PollsOnce, LeasesOnce;
    TicksKeeps(s', {bot}, now);
  }

  lemma ForgetsKeeps(s: Dispatcher, now: Time)
    requires Inv(s)
    ensures Inv(Forgets(s, now))
  {
    var s' := Forgets(s, now);
    assert forall p: Poll :: Waiting(s', p) == Waiting(s, p);
    assert PollsOnce(s');
    FewerPlaces(s, s') by {
      assert forall h, lease :: Holds(s', h, lease) ==> Holds(s, h, lease);
    }
    hide PollsOnce, Holds, LeasesOnce;
  }

  lemma StopsKeeps(s: Dispatcher, now: Time)
    requires Inv(s)
    ensures Inv(Stops(s, now))
  {
    var s' := Stops(s, now);
    StopsKeepsPolls(s, now);
    FewerPlaces(s, s') by {
      assert forall h, lease :: Holds(s', h, lease) ==> Holds(s, h, lease);
    }
    hide PollsOnce, Holds, LeasesOnce;
  }

  lemma StartsKeeps(s: Dispatcher)
    requires Inv(s)
    ensures Inv(Starts(s))
  {
    var s' := Starts(s);
    assert forall p: Poll :: Waiting(s', p) == Waiting(s, p);
    assert forall h, lease :: Holds(s', h, lease) <==> Holds(s, h, lease);
    assert LeasesOnce(s') && LeasesOld(s', Returns(s'));
  }

  lemma StepKeeps(s: Dispatcher, e: Event)
    requires Inv(s)
    ensures Inv(Step(s, e))
  {
    hide PollsOnce, QueueApart, LeasesOnce, LeasesOld, WakesKept;
    match e
    case Wait(bot, now) => WaitsKeeps(s, bot, now);
    case Timeout(bot, p, now) => EndKeeps(s, bot, now);
    case Wake(bot, now) => WakesKeeps(s, bot, now);
    case Interval(now) => IntervalKeeps(s, now);
    case QueryReturn(groups, now) => QueryReturnsKeeps(s, groups, now);
    case QueryFail(now) => QueryFailsKeeps(s, now);
    case Start => StartsKeeps(s);
    case Stop(now) => StopsKeeps(s, now);
    case Forget(now) => ForgetsKeeps(s, now);
  }

  lemma IntervalKeeps(s: Dispatcher, now: Time)
    requires Inv(s)
    ensures Inv(Ticks(s, s.waiters.Keys, now))
  {
    if s.polling.None? {
      TicksKeeps(s, s.waiters.Keys, now);
    }
  }

  lemma {:induction false} RunKeeps(events: seq<Event>)
    ensures Inv(Run(events))
  {
    if events != [] {
      RunKeeps(events[..|events| - 1]);
      StepKeeps(Run(events[..|events| - 1]), events[|events| - 1]);
    }
  }

  // ----- What callers rely on -----

  /** A poll is answered exactly when it no longer waits: never twice, never not at all. */
  lemma EveryPollIsAnsweredOnce(events: seq<Event>, p: Poll)
    requires p < |Run(events).begun|
    ensures var s := Run(events); p in s.answers <==> !Waiting(s, p)
  {
    RunKeeps(events);
  }

  lemma AnswersAreFinal(s: Dispatcher, e: Event, p: Poll)
    requires Inv(s) && p in s.answers
    ensures p in Step(s, e).answers && Step(s, e).answers[p] == s.answers[p]
  {
    hide Inv, Waits, TimesOut, Returned;
    WaitsIsFinal(s, e, p);
    match e
    case QueryReturn(groups, now) =>
      if Returned(s, groups) {
        ReturnedWhilePolling(s, groups);
        HandsOutAllKeepsAnswers(s, groups, s.polling.value.leasedAt, now, p);
      }
    case _ => WaitingPollsAreOpen(s);
  }

  lemma WaitsIsFinal(s: Dispatcher, e: Event, p: Poll)
    requires Inv(s) && p in s.answers
    ensures e.Wait? ==> p in Waits(s, e.bot, e.now).answers && Waits(s, e.bot, e.now).answers[p] == s.answers[p]
    ensures e.Timeout? ==>
              p in TimesOut(s, e.bot, e.p, e.now).answers && TimesOut(s, e.bot, e.p, e.now).answers[p] == s.answers[p]
  {
    WaitingPollsAreOpen(s);
    hide Inv;
  }

  lemma {:induction false} HandsOutAllKeepsAnswers(s: Dispatcher, groups: seq<Group>, leasedAt: Time, now: Time,
      p: Poll)
    requires Inv(s) && Returned(s, groups) && p in s.answers
    ensures var s' := HandsOutAll(s, groups, leasedAt, now); p in s'.answers && s'.answers[p] == s.answers[p]
  {
    hide LeasesOnce, PollsOnce, HandsOut;
    if groups != [] {
      var before, last := groups[..|groups| - 1], groups[|groups| - 1];
      HandsOutAllKeeps(s, before, leasedAt, now);
      HandsOutAllKeepsAnswers(s, before, leasedAt, now, p);
      HandsOutFrame(HandsOutAll(s, before, leasedAt, now), last.bot, Tokens(last.rows, |s.starts|), leasedAt, now);
    }
  }

  /** One lease of a row reaches at most one poll, and at most once. */
  lemma LeaseReachesOnePoll(events: seq<Event>, p: Poll, q: Poll, i: nat, j: nat)
    requires var s := Run(events);
             p in s.answers && q in s.answers && i < |s.answers[p].items| && j < |s.answers[q].items| &&
               s.answers[p].items[i] == s.answers[q].items[j]
    ensures p == q && i == j
  {
    RunKeeps(events);
    var s := Run(events);
    assert Holds(s, Answered(p), s.answers[p].items[i]) && Holds(s, Answered(q), s.answers[p].items[i]);
  }

  // ----- The age of what is handed out -----

  predicate Begun(lease: Lease, starts: seq<Time>) {
    1 <= lease.query <= |starts|
  }

  /** A queued batch is stamped no later than any query its leases came from began. */
  ghost predicate BatchClocked(batch: Batch, starts: seq<Time>) {
    forall lease :: lease in batch.items ==> Begun(lease, starts) && batch.leasedAt <= starts[lease.query - 1]
  }

  ghost predicate AnswerClocked(answer: Answer, starts: seq<Time>) {
    answer.queuedAt.Some? ==>
      forall lease :: lease in answer.items ==>
          Begun(lease, starts) && answer.at - starts[lease.query - 1] < INBOX_LEASE_MS
  }

  ghost predicate Clocked(s: Dispatcher) {
    && (s.polling.Some? ==> s.starts != [] && s.starts[|s.starts| - 1] == s.polling.value.leasedAt)
    && (forall bot :: bot in s.queued ==> BatchClocked(s.queued[bot], s.starts))
    && (forall p :: p in s.answers ==> AnswerClocked(s.answers[p], s.starts))
  }

  lemma LaterStartsKeep(s: Dispatcher, now: Time)
    requires Clocked(s)
    ensures forall bot :: bot in s.queued ==> BatchClocked(s.queued[bot], s.starts + [now])
    ensures forall p :: p in s.answers ==> AnswerClocked(s.answers[p], s.starts + [now])
  {}

  lemma TicksKeepsClocks(s: Dispatcher, bots: set<Bot>, now: Time)
    requires Clocked(s)
    ensures Clocked(Ticks(s, bots, now))
  {
    LaterStartsKeep(s, now);
    hide BatchClocked, AnswerClocked;
  }

  lemma HandsOutKeepsClocks(s: Dispatcher, bot: Bot, items: seq<Lease>, leasedAt: Time, now: Time)
    requires Clocked(s) && s.starts != [] && s.starts[|s.starts| - 1] == leasedAt
    requires forall lease :: lease in items ==> lease.query == |s.starts|
    ensures var s' := HandsOut(s, bot, items, leasedAt, now);
            Clocked(s') && s'.starts == s.starts && s'.polling == s.polling
  {
    assert BatchClocked(Batch(items, leasedAt), s.starts);
    if bot in s.queued {
      assert BatchClocked(Batch(s.queued[bot].items + items, Min(s.queued[bot].leasedAt, leasedAt)), s.starts);
    }
    assert AnswerClocked(Answer(items, now, None), s.starts);
    hide BatchClocked, AnswerClocked;
  }

  lemma {:induction false} HandsOutAllKeepsClocks(s: Dispatcher, groups: seq<Group>, leasedAt: Time, now: Time)
    requires Clocked(s) && s.starts != [] && s.starts[|s.starts| - 1] == leasedAt
    ensures var s' := HandsOutAll(s, groups, leasedAt, now);
            Clocked(s') && s'.starts == s.starts && s'.polling == s.polling
  {
    hide Clocked, HandsOut;
    if groups != [] {
      var before, last := groups[..|groups| - 1], groups[|groups| - 1];
      HandsOutAllKeepsClocks(s, before, leasedAt, now);
      TokensAreRows(last.rows, |s.starts|);
      HandsOutKeepsClocks(HandsOutAll(s, before, leasedAt, now), last.bot, Tokens(last.rows, |s.starts|), leasedAt,
        now);
    }
  }

  lemma EndsKeepsClocks(s: Dispatcher, now: Time)
    requires Clocked(s)
    ensures Clocked(Ends(s, now))
  {
    var s1 := s.(polling := None, woken := {});
    assert Clocked(s1) by {
      hide BatchClocked, AnswerClocked;
    }
    hide Clocked, Ticks;
    TicksKeepsClocks(s1, s.woken, now);
  }

  lemma WakesKeepsClocks(s: Dispatcher, bot: Bot, now: Time)
    requires Clocked(s)
    ensures Clocked(Wakes(s, bot, now))
  {
    hide BatchClocked, AnswerClocked;
    if bot in s.waiters {
      var s1 := s.(owed := if s.started then s.owed + {s.waiters[bot]} else s.owed);
      assert Clocked(s1) && (s.polling.Some? ==> Clocked(Wakes(s, bot, now)));
      hide Clocked, Ticks;
      TicksKeepsClocks(s1, {bot}, now);
    }
  }

  lemma WaitsKeepsClocks(s: Dispatcher, bot: Bot, now: Time)
    requires Clocked(s)
    ensures Clocked(Waits(s, bot, now))
  {
    assert AnswerClocked(Answer([], now, None), s.starts);
    if bot in s.queued && now - s.queued[bot].leasedAt < INBOX_LEASE_MS {
      assert AnswerClocked(Answer(s.queued[bot].items, now, Some(s.queued[bot].leasedAt)), s.starts);
    }
    hide BatchClocked, AnswerClocked;
  }

  lemma StopsKeepsClocks(s: Dispatcher, now: Time)
    requires Clocked(s)
    ensures Clocked(Stops(s, now))
  {
    assert AnswerClocked(Answer([], now, None), s.starts);
    hide BatchClocked, AnswerClocked, Ended;
  }

  lemma QueryReturnsKeepsClocks(s: Dispatcher, groups: seq<Group>, now: Time)
    requires Clocked(s)
    ensures Clocked(QueryReturns(s, groups, now))
  {
    if Returned(s, groups) {
      HandsOutAllKeepsClocks(s, groups, s.polling.value.leasedAt, now);
      hide Clocked, Returned;
      EndsKeepsClocks(HandsOutAll(s, groups, s.polling.value.leasedAt, now), now);
    }
  }

  lemma StepKeepsClocks(s: Dispatcher, e: Event)
    requires Clocked(s)
    ensures Clocked(Step(s, e))
  {
    hide BatchClocked;
    match e
    case Wait(bot, now) =>
      hide Clocked, Waits;
      WaitsKeepsClocks(s, bot, now);
    case Timeout(bot, p, now) =>
      assert AnswerClocked(Answer([], now, None), s.starts);
      hide AnswerClocked;
    case Wake(bot, now) =>
      hide Clocked;
      WakesKeepsClocks(s, bot, now);
    case Interval(now) =>
      hide Clocked;
      TicksKeepsClocks(s, s.waiters.Keys, now);
    case QueryReturn(groups, now) =>
      hide Clocked, QueryReturns;
      QueryReturnsKeepsClocks(s, groups, now);
    case QueryFail(now) =>
      hide Clocked;
      EndsKeepsClocks(s, now);
    case Start => hide AnswerClocked;
    case Stop(now) =>
      hide Clocked, Stops;
      StopsKeepsClocks(s, now);
    case Forget(now) => hide AnswerClocked;
  }

  lemma {:induction false} RunKeepsClocks(events: seq<Event>)
    ensures Clocked(Run(events))
  {
    if events != [] {
      RunKeepsClocks(events[..|events| - 1]);
      StepKeepsClocks(Run(events[..|events| - 1]), events[|events| - 1]);
    }
  }

  /** No poll is handed rows that may be leased again: of each lease in an answer out of the queue, the query
      that took it began less than a lease before the answer. */
  lemma QueuedBatchesAreFresh(events: seq<Event>, p: Poll, i: nat)
    requires var s := Run(events); p in s.answers && s.answers[p].queuedAt.Some? && i < |s.answers[p].items|
    ensures var s := Run(events);
            var query := s.answers[p].items[i].query;
            1 <= query <= |s.starts| && s.answers[p].at - s.starts[query - 1] < INBOX_LEASE_MS
  {
    RunKeepsClocks(events);
    var s := Run(events);
    assert AnswerClocked(s.answers[p], s.starts);
    assert s.answers[p].items[i] in s.answers[p].items;
  }

  // ----- More callers rely on -----

  /** No bot both waits and has a batch queued, nor is one asked for while it has: batches are never merged. */
  lemma NobodyWaitsBesideABatch(events: seq<Event>)
    ensures var s := Run(events);
            s.waiters.Keys !! s.queued.Keys && (s.polling.Some? ==> s.polling.value.asking !! s.queued.Keys)
  {
    RunKeeps(events);
  }

  /** No wake-up is lost: a poll woken while a query was in flight is, when that query ends in whatever way,
      answered by it or asked for by the query that begins there. */
  lemma WokenPollIsAskedFor(events: seq<Event>, bot: Bot, end: Event)
    requires var s := Run(events); bot in s.waiters && s.waiters[bot] in s.owed
    requires end.QueryFail? || (end.QueryReturn? && Returned(Run(events), end.groups))
    ensures var s, s' := Run(events), Step(Run(events), end);
            && s.polling.Some?
            && ((bot !in s'.waiters && s.waiters[bot] in s'.answers)
                || (s'.polling.Some? && bot in s'.polling.value.asking && s'.starts == s.starts + [end.now] &&
                   s'.waiters[bot] !in s'.owed))
  {
    hide LeasesOnce, LeasesOld, NoDuplicates;
    RunKeeps(events);
    var s := Run(events);
    if end.QueryReturn? {
      var mid := HandsOutAll(s, end.groups, s.polling.value.leasedAt, end.now);
      HandsOutAllKeeps(s, end.groups, s.polling.value.leasedAt, end.now);
      hide Returned;
      assert Waiting(s, s.waiters[bot]);
      assert bot !in mid.waiters ==> !Waiting(mid, s.waiters[bot]);
      EndAsksTheWoken(mid, bot, end.now);
    } else {
      EndAsksTheWoken(s, bot, end.now);
    }
  }

  lemma EndAsksTheWoken(s: Dispatcher, bot: Bot, now: Time)
    requires bot in s.waiters ==> bot in s.woken && s.started
    ensures var s' := Ends(s, now);
            && s'.waiters == s.waiters && s'.answers == s.answers
            && (bot in s.waiters ==>
                 s'.polling.Some? && bot in s'.polling.value.asking && s'.starts == s.starts + [now] &&
                   s.waiters[bot] !in s'.owed)
  {
    if bot in s.waiters {
      assert bot in s.woken * s.waiters.Keys;
      assert s.waiters[bot] in PollsOf(s.(polling := None, woken := {}), s.woken * s.waiters.Keys);
    }
  }
}
