/** Where the rows of a query go, said of the dispatcher's own fields: every group reaches its bot. */
module HandOuts {
  import opened Options
  import opened Inbox
  import opened DispatchSpec
  import opened DispatchProofs

  /** The rows in their order, each as a lease of that query. */
  ghost predicate LeasesOf(items: seq<Lease>, rows: seq<Id>, query: nat) {
    |items| == |rows| && forall k :: 0 <= k < |rows| ==> items[k] == Lease(rows[k], query)
  }

  /** The poll that waited is answered with the group's rows, or they are the bot's queued batch. */
  ghost predicate Reached(s: Dispatcher, s': Dispatcher, g: Group, leasedAt: Time, now: Time) {
    if g.bot in s.waiters
    then
      && s.waiters[g.bot] in s'.answers && g.bot !in s'.waiters && g.bot !in s'.queued
      && LeasesOf(s'.answers[s.waiters[g.bot]].items, g.rows, |s.starts|)
      && s'.answers[s.waiters[g.bot]].at == now && s'.answers[s.waiters[g.bot]].queuedAt.None?
    else
      && g.bot in s'.queued && g.bot !in s'.waiters
      && LeasesOf(s'.queued[g.bot].items, g.rows, |s.starts|) && s'.queued[g.bot].leasedAt == leasedAt
  }

  ghost predicate OthersUntouched(s: Dispatcher, s': Dispatcher, groups: seq<Group>) {
    && (forall bot :: !InGroups(groups, bot) ==>
          && (bot in s'.waiters <==> bot in s.waiters) && (bot in s.waiters ==> s'.waiters[bot] == s.waiters[bot])
          && (bot in s'.queued <==> bot in s.queued) && (bot in s.queued ==> s'.queued[bot] == s.queued[bot]))
    && (forall p :: p in s.answers ==> p in s'.answers && s'.answers[p] == s.answers[p])
    && (forall p :: p in s'.answers && p !in s.answers ==>
          p < |s.begun| && Waiting(s, p) && InGroups(groups, s.begun[p]))
  }

  ghost predicate AllReached(s: Dispatcher, s': Dispatcher, groups: seq<Group>, leasedAt: Time, now: Time) {
    && (forall i :: 0 <= i < |groups| ==> Reached(s, s', groups[i], leasedAt, now))
    && OthersUntouched(s, s', groups)
  }

  lemma NothingHandedOut(s: Dispatcher, leasedAt: Time, now: Time)
    ensures AllReached(s, s, [], leasedAt, now)
  {
  }

  lemma TokensAreLeases(rows: seq<Id>, query: nat)
    ensures LeasesOf(Tokens(rows, query), rows, query)
  {
  }

  lemma LastIsReached(s: Dispatcher, mid: Dispatcher, g: Group, leasedAt: Time, now: Time)
    requires g.bot in s.waiters <==> g.bot in mid.waiters
    requires g.bot in s.waiters ==> mid.waiters[g.bot] == s.waiters[g.bot]
    requires g.bot !in mid.queued
    ensures Reached(s, HandsOut(mid, g.bot, Tokens(g.rows, |s.starts|), leasedAt, now), g, leasedAt, now)
  {
    TokensAreLeases(g.rows, |s.starts|);
    hide LeasesOf, Tokens;
  }

  lemma EarlierStayReached(s: Dispatcher, mid: Dispatcher, s': Dispatcher, g: Group, last: Bot, leasedAt: Time,
      now: Time)
    requires PollsOnce(s) && Reached(s, mid, g, leasedAt, now) && g.bot != last
    requires HandsOutFor(s, mid, s', last)
    ensures Reached(s, s', g, leasedAt, now)
  {
    hide LeasesOf;
    assert g.bot in s.waiters ==> s.begun[s.waiters[g.bot]] == g.bot;
    assert last in s.waiters ==> s.begun[s.waiters[last]] == last;
  }

  /** A hand-out touches one bot and the poll that bot waited with. */
  ghost predicate HandsOutFor(s: Dispatcher, mid: Dispatcher, s': Dispatcher, last: Bot) {
    && s'.waiters == mid.waiters - {last}
    && (forall bot :: bot != last ==>
          (bot in s'.queued <==> bot in mid.queued) && (bot in mid.queued ==> s'.queued[bot] == mid.queued[bot]))
    && (forall p :: (last in s.waiters ==> p != s.waiters[last]) ==>
          (p in s'.answers <==> p in mid.answers) && (p in mid.answers ==> s'.answers[p] == mid.answers[p]))
    && (forall p :: p in s'.answers && p !in mid.answers ==> last in s.waiters && p == s.waiters[last])
  }

  lemma HandsOutTouchesOne(s: Dispatcher, mid: Dispatcher, last: Bot, items: seq<Lease>, leasedAt: Time, now: Time)
    requires last in mid.waiters ==> last in s.waiters && mid.waiters[last] == s.waiters[last]
    ensures HandsOutFor(s, mid, HandsOut(mid, last, items, leasedAt, now), last)
  {
    HandsOutFrame(mid, last, items, leasedAt, now);
  }

  lemma OthersStayUntouched(s: Dispatcher, mid: Dispatcher, s': Dispatcher, groups: seq<Group>)
    requires groups != [] && PollsOnce(s) && OthersUntouched(s, mid, groups[..|groups| - 1])
    requires HandsOutFor(s, mid, s', groups[|groups| - 1].bot)
    ensures OthersUntouched(s, s', groups)
  {
    GroupsGrow(groups, 0);
    WaitersAreOpen(s);
    hide PollsOnce, InGroups;
  }

  lemma WaitersAreOpen(s: Dispatcher)
    requires PollsOnce(s)
    ensures forall bot :: bot in s.waiters ==> var p := s.waiters[bot];
              p < |s.begun| && s.begun[p] == bot && Waiting(s, p) && p !in s.answers
  {
  }

  lemma OneMoreReached(s: Dispatcher, mid: Dispatcher, groups: seq<Group>, leasedAt: Time, now: Time)
    requires Inv(s) && Returned(s, groups) && groups != []
    requires HandingOut(s, mid, groups[..|groups| - 1]) && AllReached(s, mid, groups[..|groups| - 1], leasedAt, now)
    ensures var last := groups[|groups| - 1];
            AllReached(s, HandsOut(mid, last.bot, Tokens(last.rows, |s.starts|), leasedAt, now), groups, leasedAt, now)
  {
    hide LeasesOnce, LeasesOld, WakesKept, QueueApart, PollsOnce, HandsOut, Tokens, Reached, HandsOutFor, Disjoint,
      NoDuplicates, InGroups;
    var before, last := groups[..|groups| - 1], groups[|groups| - 1];
    var s' := HandsOut(mid, last.bot, Tokens(last.rows, |s.starts|), leasedAt, now);
    LastIsUntouched(s, mid, groups);
    LastIsReached(s, mid, last, leasedAt, now);
    HandsOutTouchesOne(s, mid, last.bot, Tokens(last.rows, |s.starts|), leasedAt, now);
    OthersStayUntouched(s, mid, s', groups);
    forall i | 0 <= i < |before|
      ensures Reached(s, s', groups[i], leasedAt, now)
    {
      assert before[i] == groups[i];
      EarlierStayReached(s, mid, s', groups[i], last.bot, leasedAt, now);
    }
  }

  lemma LastIsUntouched(s: Dispatcher, mid: Dispatcher, groups: seq<Group>)
    requires Inv(s) && Returned(s, groups) && groups != [] && HandingOut(s, mid, groups[..|groups| - 1])
    ensures var last := groups[|groups| - 1];
            !InGroups(groups[..|groups| - 1], last.bot) && last.bot !in mid.queued
  {
    LastGroupIsNew(s, mid, groups);
    var before := groups[..|groups| - 1];
    forall i | 0 <= i < |before|
      ensures before[i].bot != groups[|groups| - 1].bot
    {
      assert before[i] == groups[i];
    }
  }

  lemma {:induction false} HandsOutAllReaches(s: Dispatcher, groups: seq<Group>, leasedAt: Time, now: Time)
    requires Inv(s) && Returned(s, groups)
    ensures AllReached(s, HandsOutAll(s, groups, leasedAt, now), groups, leasedAt, now)
  {
    hide Inv, Returned, AllReached, HandingOut;
    if groups == [] {
      NothingHandedOut(s, leasedAt, now);
    } else {
      var before := groups[..|groups| - 1];
      ReturnedPrefix(s, groups, |groups| - 1);
      HandsOutAllReaches(s, before, leasedAt, now);
      HandsOutAllKeeps(s, before, leasedAt, now);
      OneMoreReached(s, HandsOutAll(s, before, leasedAt, now), groups, leasedAt, now);
    }
  }

  /** When a query comes back, each bot it brought rows for has exactly those rows, in their order: in the answer of
      the poll that waited, or queued for its next poll under the clock of this query. Nobody else notices. */
  lemma LeasedRowsReachTheirBots(events: seq<Event>, groups: seq<Group>, now: Time, i: nat)
    requires Returned(Run(events), groups) && i < |groups|
    ensures var s, s' := Run(events), Step(Run(events), QueryReturn(groups, now));
            Reached(s, s', groups[i], s.polling.value.leasedAt, now) && OthersUntouched(s, s', groups)
  {
    RunKeeps(events);
    QueryReaches(Run(events), groups, now);
  }

  lemma QueryReaches(s: Dispatcher, groups: seq<Group>, now: Time)
    requires Inv(s) && Returned(s, groups)
    ensures AllReached(s, QueryReturns(s, groups, now), groups, s.polling.value.leasedAt, now)
  {
    var leasedAt := s.polling.value.leasedAt;
    HandsOutAllReaches(s, groups, leasedAt, now);
    hide Inv, Returned, HandsOutAll;
    EndsTouchesNobody(s, HandsOutAll(s, groups, leasedAt, now), groups, leasedAt, now);
  }

  lemma EndsTouchesNobody(s: Dispatcher, mid: Dispatcher, groups: seq<Group>, leasedAt: Time, now: Time)
    requires AllReached(s, mid, groups, leasedAt, now)
    ensures AllReached(s, Ends(mid, now), groups, leasedAt, now)
  {
    var s' := Ends(mid, now);
    assert s'.waiters == mid.waiters && s'.queued == mid.queued && s'.answers == mid.answers;
    hide Ends, LeasesOf, InGroups, Waiting;
    forall i | 0 <= i < |groups|
      ensures Reached(s, s', groups[i], leasedAt, now)
    {
      assert Reached(s, mid, groups[i], leasedAt, now);
    }
    hide Reached;
  }
}
