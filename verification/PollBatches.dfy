/** What becomes of one pulled batch, and of a customer whose turn has failed, said of the loop's own fields. */
module PollBatches {
  import opened Options
  import opened PollSpec
  import opened PollProofs

  // ----- A batch -----

  /** The batch's i-th message is neither remembered nor in flight, and no earlier one has its wamid. */
  ghost predicate IsNew(seen: seq<Wamid>, inFlight: set<Wamid>, items: seq<Item>, i: int) {
    && 0 <= i < |items| && items[i].wamid !in seen && items[i].wamid !in inFlight
    && forall j :: 0 <= j < i ==> items[j].wamid != items[i].wamid
  }

  ghost function NewOf(seen: seq<Wamid>, inFlight: set<Wamid>, items: seq<Item>): seq<Item>
    decreases |items|
  {
    if items == [] then []
    else
      var n := |items| - 1;
      NewOf(seen, inFlight, items[..n]) + if IsNew(seen, inFlight, items, n) then [items[n]] else []
  }

  ghost function SeenAgain(seen: seq<Wamid>, items: seq<Item>): seq<Item>
    decreases |items|
  {
    if items == [] then []
    else
      var n := |items| - 1;
      SeenAgain(seen, items[..n]) + if items[n].wamid in seen then [items[n]] else []
  }

  ghost predicate Brings(items: seq<Item>, w: Wamid) {
    exists i :: 0 <= i < |items| && items[i].wamid == w
  }

  /** Whatever is not remembered is in flight. */
  ghost predicate InFlightWith(s: Loop, inFlight: set<Wamid>, items: seq<Item>) {
    forall w :: w in inFlight <==> w in s.inFlight || (w !in s.seen && Brings(items, w))
  }

  /** The message whose failure holds its customer is back. */
  ghost predicate HeadReturns(s: Loop, items: seq<Item>, c: Customer) {
    c in s.failedHead &&
      exists i :: IsNew(s.seen, s.inFlight, items, i) && items[i].from == c && items[i].wamid == s.failedHead[c].wamid
  }

  /** Taken front to back: the new ones are accepted in the order of the batch, the remembered ones acked
      again, and all others are in flight already. No handler starts and none ends. */
  ghost predicate Takes(s: Loop, s': Loop, items: seq<Item>) {
    && s'.accepted == s.accepted + NewOf(s.seen, s.inFlight, items)
    && s'.acked == s.acked + SeenAgain(s.seen, items)
    && InFlightWith(s, s'.inFlight, items)
    && (forall c :: c in s'.failedHead <==> c in s.failedHead && !HeadReturns(s, items, c))
    && (forall c :: c in s'.failedHead ==> s'.failedHead[c] == s.failedHead[c])
    && s'.seen == s.seen && s'.remembered == s.remembered && s'.starts == s.starts && s'.late == s.late
    && s'.abandoned == s.abandoned && s'.limits == s.limits && s'.mode == s.mode
  }

  lemma {:induction false} EnqueueAllAppend(s: Loop, items: seq<Item>, item: Item)
    ensures EnqueueAll(s, items + [item]) == Enqueue(EnqueueAll(s, items), item)
    decreases |items|
  {
    if items == [] {
      assert (items + [item])[1..] == [];
    } else {
      assert (items + [item])[1..] == items[1..] + [item];
      EnqueueAllAppend(Enqueue(s, items[0]), items[1..], item);
    }
  }

  lemma IsNewEarlier(seen: seq<Wamid>, inFlight: set<Wamid>, items: seq<Item>, n: nat, i: int)
    requires n <= |items| && i < n
    ensures IsNew(seen, inFlight, items[..n], i) == IsNew(seen, inFlight, items, i)
  {
  }

  lemma NothingTaken(s: Loop)
    ensures Takes(s, s, [])
  {
  }

  lemma InFlightGrows(s: Loop, inFlight: set<Wamid>, items: seq<Item>)
    requires items != [] && InFlightWith(s, inFlight, items[..|items| - 1])
    ensures var w := items[|items| - 1].wamid;
            && InFlightWith(s, if w in s.seen then inFlight else inFlight + {w}, items)
            && (IsNew(s.seen, s.inFlight, items, |items| - 1) <==> w !in s.seen && w !in inFlight)
  {
    var n, last := |items| - 1, items[|items| - 1].wamid;
    forall w
      ensures Brings(items, w) <==> Brings(items[..n], w) || last == w
    {
      if Brings(items[..n], w) {
        var i :| 0 <= i < n && items[..n][i].wamid == w;
        assert items[i].wamid == w;
      }
      if Brings(items, w) {
        var i :| 0 <= i < |items| && items[i].wamid == w;
        assert i < n ==> items[..n][i].wamid == w;
      }
    }
    assert IsNew(s.seen, s.inFlight, items, n) ==> !Brings(items[..n], last);
    forall j | 0 <= j < n && !Brings(items[..n], last)
      ensures items[j].wamid != last
    {
      assert items[..n][j].wamid == items[j].wamid;
    }
  }

  lemma HeadReturnsWithLast(s: Loop, items: seq<Item>, c: Customer)
    requires items != [] && c in s.failedHead
    ensures var n := |items| - 1;
            HeadReturns(s, items, c) ==
              (HeadReturns(s, items[..n], c) ||
               (IsNew(s.seen, s.inFlight, items, n) && items[n].from == c && items[n].wamid == s.failedHead[c].wamid))
  {
    var n := |items| - 1;
    forall i: int | i < n
      ensures IsNew(s.seen, s.inFlight, items[..n], i) == IsNew(s.seen, s.inFlight, items, i)
    {
      IsNewEarlier(s.seen, s.inFlight, items, n, i);
    }
    if HeadReturns(s, items[..n], c) {
      var i :| IsNew(s.seen, s.inFlight, items[..n], i) && items[..n][i].from == c &&
        items[..n][i].wamid == s.failedHead[c].wamid;
      assert IsNew(s.seen, s.inFlight, items, i) && items[i].from == c;
    }
    if HeadReturns(s, items, c) {
      var i :| IsNew(s.seen, s.inFlight, items, i) && items[i].from == c && items[i].wamid == s.failedHead[c].wamid;
      assert i < n ==> IsNew(s.seen, s.inFlight, items[..n], i) && items[..n][i].from == c;
    }
  }

  lemma OneMoreTaken(s: Loop, s': Loop, items: seq<Item>)
    requires items != [] && Takes(s, s', items[..|items| - 1])
    ensures Takes(s, Enqueue(s', items[|items| - 1]), items)
  {
    hide IsNew, HeadReturns, InFlightWith, NewOf, SeenAgain;
    var n := |items| - 1;
    LastOfBatch(s, items);
    InFlightGrows(s, s'.inFlight, items);
    forall c | c in s.failedHead
      ensures HeadReturns(s, items, c) ==
              (HeadReturns(s, items[..n], c) || (IsNew(s.seen, s.inFlight, items, n) && items[n].from == c &&
               items[n].wamid == s.failedHead[c].wamid))
    {
      HeadReturnsWithLast(s, items, c);
    }
    EnqueueKeepsTheRest(s', items[n]);
    hide Enqueue;
  }

  lemma LastOfBatch(s: Loop, items: seq<Item>)
    requires items != []
    ensures var n := |items| - 1;
            && NewOf(s.seen, s.inFlight, items) ==
                 NewOf(s.seen, s.inFlight, items[..n]) +
                   (if IsNew(s.seen, s.inFlight, items, n) then [items[n]] else [])
            && SeenAgain(s.seen, items) ==
                 SeenAgain(s.seen, items[..n]) + (if items[n].wamid in s.seen then [items[n]] else [])
  {
  }

  /** What one message changes, and when. */
  lemma EnqueueKeepsTheRest(s: Loop, item: Item)
    ensures var s' := Enqueue(s, item);
            var untaken := item.wamid !in s.seen && item.wamid !in s.inFlight;
            && s'.accepted == (if untaken then s.accepted + [item] else s.accepted)
            && s'.acked == (if item.wamid in s.seen then s.acked + [item] else s.acked)
            && s'.inFlight == (if item.wamid in s.seen then s.inFlight else s.inFlight + {item.wamid})
            && s'.failedHead == (if untaken then ClearFailedHead(s.failedHead, item) else s.failedHead)
            && s'.seen == s.seen && s'.remembered == s.remembered && s'.starts == s.starts && s'.late == s.late
            && s'.abandoned == s.abandoned && s'.limits == s.limits && s'.mode == s.mode
  {
    var e, s1 := Entry(item, |s.accepted|), Accepted(s, item);
    assert s1 == s.(inFlight := s1.inFlight, failedHead := s1.failedHead, accepted := s1.accepted, owners := s1.owners);
    assert StartOnLane(s1, e) == s1.(lanes := StartOnLane(s1, e).lanes);
    hide StartOnLane;
  }

  lemma {:induction false} EnqueueAllTakes(s: Loop, items: seq<Item>)
    ensures Takes(s, EnqueueAll(s, items), items)
    decreases |items|
  {
    if items == [] {
      NothingTaken(s);
    } else {
      var n := |items| - 1;
      assert items == items[..n] + [items[n]];
      EnqueueAllAppend(s, items[..n], items[n]);
      EnqueueAllTakes(s, items[..n]);
      OneMoreTaken(s, EnqueueAll(s, items[..n]), items);
    }
  }

  /** A batch counts for the run of the loop that asked for it, and is then taken as a whole. */
  lemma BatchIsTaken(s: Loop, items: seq<Item>)
    ensures if s.mode == Running(true)
            then Takes(s.(mode := Running(false)), Step(s, PullReturn(items)), items)
            else Step(s, PullReturn(items)) == s
  {
    EnqueueAllTakes(s.(mode := Running(false)), items);
  }

  // ----- The order in which a batch starts -----

  /** Who of the accepted is `c`'s, with the tickets counted from `base`. */
  ghost function LinedUp(items: seq<Item>, base: nat, c: Customer): seq<Entry>
    decreases |items|
  {
    if items == [] then []
    else
      var n := |items| - 1;
      LinedUp(items[..n], base, c) + if items[n].from == c then [Entry(items[n], base + n)] else []
  }

  /** Each customer's new messages go to the end of the customer's line, in the order of the batch. */
  lemma {:induction false} BatchJoinsLines(s: Loop, items: seq<Item>, c: Customer)
    requires InBatch(s)
    ensures Line(EnqueueAll(s, items), c) == Line(s, c) + LinedUp(NewOf(s.seen, s.inFlight, items), |s.accepted|, c)
    decreases |items|
  {
    hide Line, InBatch, IsNew, InFlightWith, HeadReturns, SeenAgain, Enqueue;
    if items == [] {
      assert Line(s, c) + [] == Line(s, c);
    } else {
      var n := |items| - 1;
      var s', taken := EnqueueAll(s, items[..n]), NewOf(s.seen, s.inFlight, items[..n]);
      assert items == items[..n] + [items[n]];
      EnqueueAllAppend(s, items[..n], items[n]);
      EnqueueAllTakes(s, items[..n]);
      EnqueueAllKeeps(s, items[..n]);
      BatchJoinsLines(s, items[..n], c);
      LastJoinsLine(s, s', items, c);
      LinedUpAppend(taken, items[n], |s.accepted|, c);
      var isNew := IsNew(s.seen, s.inFlight, items, n);
      var last := if isNew && items[n].from == c then [Entry(items[n], |s.accepted| + |taken|)] else [];
      Regrouped(Line(s, c), LinedUp(taken, |s.accepted|, c), last);
      assert NewOf(s.seen, s.inFlight, items) == if isNew then taken + [items[n]] else taken;
    }
  }

  lemma Regrouped(a: seq<Entry>, b: seq<Entry>, c: seq<Entry>)
    ensures (a + b) + c == a + (b + c) && b + [] == b
  {
  }

  lemma LinedUpAppend(items: seq<Item>, item: Item, base: nat, c: Customer)
    ensures LinedUp(items + [item], base, c) ==
              LinedUp(items, base, c) + if item.from == c then [Entry(item, base + |items|)] else []
  {
    assert (items + [item])[..|items|] == items;
  }

  lemma LastJoinsLine(s: Loop, s': Loop, items: seq<Item>, c: Customer)
    requires items != [] && Takes(s, s', items[..|items| - 1]) && InBatch(s')
    ensures var n := |items| - 1;
            Line(Enqueue(s', items[n]), c) ==
              Line(s', c) + if IsNew(s.seen, s.inFlight, items, n) && items[n].from == c
                            then [Entry(items[n], |s'.accepted|)] else []
  {
    hide Line, IsNew;
    var n := |items| - 1;
    EnqueueLines(s', items[n]);
    EnqueueKeepsTheRest(s', items[n]);
    InFlightGrows(s, s'.inFlight, items);
  }

  /** The ticket the batch's i-th message is given, when it is new. */
  ghost function TicketOf(s: Loop, items: seq<Item>, i: nat): Ticket
    requires i <= |items|
  {
    |s.accepted| + |NewOf(s.seen, s.inFlight, items[..i])|
  }

  lemma {:induction false} NewOfAt(seen: seq<Wamid>, inFlight: set<Wamid>, items: seq<Item>, i: nat)
    requires IsNew(seen, inFlight, items, i)
    ensures i < |items|
    ensures var k := |NewOf(seen, inFlight, items[..i])|;
            k < |NewOf(seen, inFlight, items)| && NewOf(seen, inFlight, items)[k] == items[i]
    decreases |items|
  {
    var n := |items| - 1;
    if i < n {
      IsNewEarlier(seen, inFlight, items, n, i);
      assert items[..n][..i] == items[..i];
      NewOfAt(seen, inFlight, items[..n], i);
    }
  }

  lemma StepKeepsAccepted(s: Loop, event: Event)
    ensures s.accepted <= Step(s, event).accepted
  {
    match event
    case Stop => DropPendingForm(s.(mode := Stopped));
    case PullReturn(items) => BatchIsTaken(s, items);
    case LaneAdvance(c) => if AtHead(s, c, Settling) { DrainKeepsAccepted(Popped(s, c)); }
    case _ =>
  }

  lemma {:induction false} DrainKeepsAccepted(s: Loop)
    ensures Drain(s).accepted == s.accepted
    decreases |s.pending|
  {
    if s.pending != [] && |s.lanes| < s.limits.maxInFlight {
      DrainKeepsAccepted(StartOnLane(s.(pending := s.pending[1..]), s.pending[0]));
    }
  }

  lemma {:induction false} RunSplits(s: Loop, before: seq<Event>, after: seq<Event>)
    ensures Run(s, before + after) == Run(Run(s, before), after)
    ensures Run(s, before).accepted <= Run(s, before + after).accepted
    decreases |after|
  {
    if after == [] {
      assert before + after == before;
    } else {
      var n := |after| - 1;
      assert (before + after)[..|before| + n] == before + after[..n];
      RunSplits(s, before, after[..n]);
      StepKeepsAccepted(Run(s, before + after[..n]), after[n]);
    }
  }

  /** Of two messages of one customer that one batch brought in, whatever happens later, the earlier one's
      handler starts before the later one's. */
  lemma BatchStartsInOrder(limits: Limits, before: seq<Event>, items: seq<Item>, after: seq<Event>, i: nat, j: nat,
      a: nat, b: nat)
    requires i < j
    requires var s := Run(Init(limits), before);
             && s.mode == Running(true)
             && IsNew(s.seen, s.inFlight, items, i) && IsNew(s.seen, s.inFlight, items, j)
             && items[i].from == items[j].from
             && var r := Run(Init(limits), before + [PullReturn(items)] + after);
                && a < |r.starts| && b < |r.starts|
                && r.starts[a].ticket == TicketOf(s, items, i) && r.starts[b].ticket == TicketOf(s, items, j)
    ensures var r := Run(Init(limits), before + [PullReturn(items)] + after);
            r.starts[a].item == items[i] && r.starts[b].item == items[j] && a < b
  {
    hide Run, Step, IsNew, NewOf, Init, TicketOf, WasAccepted;
    var s, events := Run(Init(limits), before), before + [PullReturn(items)] + after;
    TicketsFollowBatch(s, items, i, j);
    BatchStaysAccepted(limits, before, items, after);
    StartedIsAccepted(limits, events, a);
    StartedIsAccepted(limits, events, b);
    if b < a {
      StartsFollowAcceptance(limits, events, b, a);
    }
  }

  lemma TicketsFollowBatch(s: Loop, items: seq<Item>, i: nat, j: nat)
    requires i < j && IsNew(s.seen, s.inFlight, items, i) && IsNew(s.seen, s.inFlight, items, j)
    ensures var all := s.accepted + NewOf(s.seen, s.inFlight, items);
            && TicketOf(s, items, i) < TicketOf(s, items, j) < |all|
            && all[TicketOf(s, items, i)] == items[i] && all[TicketOf(s, items, j)] == items[j]
  {
    hide IsNew, NewOf;
    NewOfAt(s.seen, s.inFlight, items, i);
    NewOfAt(s.seen, s.inFlight, items, j);
    assert items[..j][..i] == items[..i];
    IsNewEarlier(s.seen, s.inFlight, items, j, i);
    NewOfAt(s.seen, s.inFlight, items[..j], i);
  }

  lemma BatchStaysAccepted(limits: Limits, before: seq<Event>, items: seq<Item>, after: seq<Event>)
    requires Run(Init(limits), before).mode == Running(true)
    ensures var s := Run(Init(limits), before);
            s.accepted + NewOf(s.seen, s.inFlight, items) <=
              Run(Init(limits), before + [PullReturn(items)] + after).accepted
  {
    assert (before + [PullReturn(items)])[..|before|] == before;
    RunSplits(Init(limits), before + [PullReturn(items)], after);
    BatchIsTaken(Run(Init(limits), before), items);
    hide Step, NewOf;
  }

  lemma StartedIsAccepted(limits: Limits, events: seq<Event>, a: nat)
    requires a < |Run(Init(limits), events).starts|
    ensures var s := Run(Init(limits), events);
            s.starts[a].ticket < |s.accepted| && s.accepted[s.starts[a].ticket] == s.starts[a].item
  {
    RunKeeps(limits, events);
    var s := Run(Init(limits), events);
    assert s.starts[a] in s.starts && WasAccepted(s, s.starts[a]);
  }

  /** The batch of a pull, in terms of the loop that asked for it. */
  lemma ReturnedBatchIsTaken(s: Loop, items: seq<Item>)
    requires Inv(s) && s.mode == Running(true)
    ensures var s' := PullReturns(s, items);
            && s'.mode == Running(false) && Takes(s.(mode := Running(false)), s', items)
            && forall c :: Line(s', c) == Line(s, c) + LinedUp(NewOf(s.seen, s.inFlight, items), |s.accepted|, c)
  {
    var s0 := s.(mode := Running(false));
    BatchIsTaken(s, items);
    BatchCanBegin(s);
    hide Inv, InBatch, Takes, EnqueueAll;
    forall c
      ensures Line(PullReturns(s, items), c) ==
                Line(s, c) + LinedUp(NewOf(s.seen, s.inFlight, items), |s.accepted|, c)
    {
      BatchJoinsLines(s0, items, c);
      assert Line(s0, c) == Line(s, c);
    }
  }

  lemma BatchCanBegin(s: Loop)
    requires Inv(s) && s.mode == Running(true)
    ensures InBatch(s.(mode := Running(false)))
  {
    hide Holding, Lined, SeenIsRecent, AckedAfterTurn;
    ModeIsQuiet(s, Running(false));
    SeenIsRecentStill(s, s.(mode := Running(false)));
    AckedStill(s, s.(mode := Running(false)));
  }

  lemma AckedStill(s: Loop, s': Loop)
    requires AckedAfterTurn(s) && s'.acked == s.acked && s'.remembered == s.remembered
    ensures AckedAfterTurn(s')
  {
  }

  /** A lane that moves on drops its head and nothing else, and free lanes are filled from those waiting. */
  lemma AdvanceMovesOn(s: Loop, c: Customer)
    requires Inv(s) && AtHead(s, c, Settling)
    ensures var s' := LaneAdvances(s, c);
            && (forall d :: Line(s', d) == Line(s, d))
            && (|s.lanes[c].queue| > 1 ==>
                  c in s'.lanes && s'.lanes[c].phase.Waiting? && s.lanes[c].queue[1..] <= s'.lanes[c].queue)
  {
    PoppedIsQuiet(s, c);
    DrainIsQuiet(Popped(s, c));
    DrainOnlyAppends(Popped(s, c), c);
    hide Line;
  }

  /** Those that wait for a lane get one in the order they began to wait. */
  lemma {:induction false} LongestWaitingGoFirst(s: Loop)
    ensures var s' := Drain(s);
            && |s'.pending| <= |s.pending| && s'.pending == s.pending[|s.pending| - |s'.pending|..]
            && (forall c :: c in s.lanes ==> c in s'.lanes)
            && (forall k :: 0 <= k < |s.pending| - |s'.pending| ==> s.pending[k].item.from in s'.lanes)
    decreases |s.pending|
  {
    if s.pending != [] && |s.lanes| < s.limits.maxInFlight {
      var s1 := StartOnLane(s.(pending := s.pending[1..]), s.pending[0]);
      LongestWaitingGoFirst(s1);
      var gone := |s.pending| - |Drain(s).pending|;
      assert s.pending[gone..] == s1.pending[gone - 1..];
      forall k | 0 <= k < gone
        ensures s.pending[k].item.from in Drain(s).lanes
      {
        assert k > 0 ==> s.pending[k] == s1.pending[k - 1];
      }
    }
  }

  lemma {:induction false} DrainOnlyAppends(s: Loop, c: Customer)
    ensures c in s.lanes ==>
              && c in Drain(s).lanes && Drain(s).lanes[c].phase == s.lanes[c].phase
              && s.lanes[c].queue <= Drain(s).lanes[c].queue
    decreases |s.pending|
  {
    if s.pending != [] && |s.lanes| < s.limits.maxInFlight {
      DrainOnlyAppends(StartOnLane(s.(pending := s.pending[1..]), s.pending[0]), c);
    }
  }

  lemma HeadIsFromLane(s: Loop, c: Customer)
    requires Inv(s) && c in s.lanes && s.lanes[c].queue != []
    ensures HeadOf(s, c).item.from == c
  {
    assert HeadOf(s, c) in s.lanes[c].queue;
  }

  // ----- Behind a failed message -----

  predicate NotTurning(s: Loop, c: Customer) {
    c in s.lanes ==> !s.lanes[c].phase.Turning?
  }

  /** `w` failed for `c` at `at`, and no turn of `c` is under way on its lane. */
  predicate HeldFor(s: Loop, c: Customer, w: Wamid, at: int) {
    c in s.failedHead && s.failedHead[c] == Head(w, at) && NotTurning(s, c)
  }

  /** The message does not come back, no late turn of it succeeds, and nobody looks at the lane past the timeout. */
  predicate LeavesHold(s: Loop, event: Event, c: Customer, w: Wamid, at: int) {
    match event
    case PullReturn(items) => forall item :: item in items ==> item.from != c || item.wamid != w
    case LateSuccess(t) => t in s.late ==> s.late[t].item.from != c || s.late[t].item.wamid != w
    case TurnStart(d, now) => d == c ==> now - at <= s.limits.handleTimeoutMs
    case _ => true
  }

  function Failure(c: Customer, now: int, timedOut: bool): Event {
    if timedOut then TurnTimeout(c, now) else TurnFailure(c, now)
  }

  lemma FailureHolds(s: Loop, c: Customer, now: int, timedOut: bool)
    requires LanesWellFormed(s) && AtHead(s, c, Turning)
    ensures HeldFor(Step(s, Failure(c, now, timedOut)), c, HeadOf(s, c).item.wamid, now)
  {
    assert HeadOf(s, c) in s.lanes[c].queue;
  }

  lemma {:induction false} EnqueueAllStartsNothing(s: Loop, items: seq<Item>, c: Customer)
    requires NotTurning(s, c)
    ensures NotTurning(EnqueueAll(s, items), c)
    decreases |items|
  {
    if items != [] {
      EnqueueAllStartsNothing(Enqueue(s, items[0]), items[1..], c);
    }
  }

  lemma {:induction false} DrainStartsNothing(s: Loop, c: Customer)
    requires NotTurning(s, c)
    ensures NotTurning(Drain(s), c) && Drain(s).failedHead == s.failedHead && Drain(s).starts == s.starts
    decreases |s.pending|
  {
    if s.pending != [] && |s.lanes| < s.limits.maxInFlight {
      DrainStartsNothing(StartOnLane(s.(pending := s.pending[1..]), s.pending[0]), c);
    }
  }

  ghost predicate StartsNoneOf(s: Loop, s': Loop, c: Customer) {
    s.starts <= s'.starts && forall k :: |s.starts| <= k < |s'.starts| ==> s'.starts[k].item.from != c
  }

  lemma BatchLeavesHold(s: Loop, items: seq<Item>, c: Customer, w: Wamid, at: int)
    requires HeldFor(s, c, w, at) && forall item :: item in items ==> item.from != c || item.wamid != w
    ensures HeldFor(PullReturns(s, items), c, w, at) && StartsNoneOf(s, PullReturns(s, items), c)
  {
    BatchIsTaken(s, items);
    EnqueueAllStartsNothing(s.(mode := Running(false)), items, c);
    assert !HeadReturns(s.(mode := Running(false)), items, c);
    hide EnqueueAll;
  }

  lemma AdvanceLeavesHold(s: Loop, d: Customer, c: Customer, w: Wamid, at: int)
    requires HeldFor(s, c, w, at)
    ensures HeldFor(LaneAdvances(s, d), c, w, at) && StartsNoneOf(s, LaneAdvances(s, d), c)
  {
    if AtHead(s, d, Settling) {
      DrainStartsNothing(Popped(s, d), c);
    }
  }

  lemma StartLeavesHold(s: Loop, d: Customer, now: int, c: Customer, w: Wamid, at: int)
    requires LanesWellFormed(s) && HeldFor(s, c, w, at) && (d == c ==> now - at <= s.limits.handleTimeoutMs)
    ensures HeldFor(TurnStarts(s, d, now), c, w, at) && StartsNoneOf(s, TurnStarts(s, d, now), c)
  {
    if AtHead(s, d, Waiting) {
      assert HeadOf(s, d) in s.lanes[d].queue;
    }
  }

  lemma EndLeavesHold(s: Loop, d: Customer, now: int, c: Customer, w: Wamid, at: int)
    requires LanesWellFormed(s) && HeldFor(s, c, w, at)
    ensures HeldFor(TurnSucceeds(s, d), c, w, at) && StartsNoneOf(s, TurnSucceeds(s, d), c)
    ensures HeldFor(TurnFails(s, d, now), c, w, at) && StartsNoneOf(s, TurnFails(s, d, now), c)
    ensures HeldFor(TurnTimesOut(s, d, now), c, w, at) && StartsNoneOf(s, TurnTimesOut(s, d, now), c)
  {
    if AtHead(s, d, Turning) {
      assert HeadOf(s, d) in s.lanes[d].queue && d != c;
      RememberTouchesOnlySeen(s, HeadOf(s, d).item.wamid);
      hide Remember;
    }
  }

  lemma LateLeavesHold(s: Loop, t: Ticket, c: Customer, w: Wamid, at: int)
    requires HeldFor(s, c, w, at)
    ensures (t in s.late ==> s.late[t].item.from != c || s.late[t].item.wamid != w) ==>
              HeldFor(LateSucceeds(s, t), c, w, at) && StartsNoneOf(s, LateSucceeds(s, t), c)
    ensures HeldFor(LateFails(s, t), c, w, at) && StartsNoneOf(s, LateFails(s, t), c)
    ensures HeldFor(Abandons(s, t), c, w, at) && StartsNoneOf(s, Abandons(s, t), c)
  {
    if t in s.late {
      RememberTouchesOnlySeen(s, s.late[t].item.wamid);
      hide Remember;
    }
  }

  /** One step under the hold: it stays, and whoever starts, it is not this customer. */
  lemma HoldIsKept(s: Loop, event: Event, c: Customer, w: Wamid, at: int)
    requires LanesWellFormed(s) && HeldFor(s, c, w, at) && LeavesHold(s, event, c, w, at)
    ensures HeldFor(Step(s, event), c, w, at) && StartsNoneOf(s, Step(s, event), c)
  {
    hide PullReturns, TurnStarts, TurnSucceeds, TurnFails, TurnTimesOut, LaneAdvances, LateSucceeds, LateFails,
      Abandons;
    match event
    case Stop => DropPendingForm(s.(mode := Stopped));
    case PullReturn(items) => BatchLeavesHold(s, items, c, w, at);
    case LaneAdvance(d) => AdvanceLeavesHold(s, d, c, w, at);
    case TurnStart(d, now) => StartLeavesHold(s, d, now, c, w, at);
    case TurnSuccess(d) => EndLeavesHold(s, d, 0, c, w, at);
    case TurnFailure(d, now) => EndLeavesHold(s, d, now, c, w, at);
    case TurnTimeout(d, now) => EndLeavesHold(s, d, now, c, w, at);
    case LateSuccess(t) => LateLeavesHold(s, t, c, w, at);
    case LateFailure(t) => LateLeavesHold(s, t, c, w, at);
    case Abandon(t) => LateLeavesHold(s, t, c, w, at);
    case _ =>
  }

  lemma StartsNoneOfExtends(a: Loop, b: Loop, d: Loop, c: Customer)
    requires StartsNoneOf(a, b, c) && StartsNoneOf(b, d, c)
    ensures StartsNoneOf(a, d, c)
  {
  }

  lemma LanesAreWellFormed(limits: Limits, events: seq<Event>)
    ensures LanesWellFormed(Run(Init(limits), events))
  {
    RunKeeps(limits, events);
  }

  lemma FailureBeginsHold(limits: Limits, before: seq<Event>, c: Customer, now: int, timedOut: bool)
    requires AtHead(Run(Init(limits), before), c, Turning)
    ensures var s := Run(Init(limits), before + [Failure(c, now, timedOut)]);
            HeldFor(s, c, HeadOf(Run(Init(limits), before), c).item.wamid, now)
  {
    var failed := before + [Failure(c, now, timedOut)];
    assert failed[..|before|] == before;
    LanesAreWellFormed(limits, before);
    FailureHolds(Run(Init(limits), before), c, now, timedOut);
  }

  predicate Undisturbed(s: Loop, after: seq<Event>, c: Customer, w: Wamid, at: int)
    decreases |after|
  {
    after == [] ||
    (var n := |after| - 1;
     Undisturbed(s, after[..n], c, w, at) && LeavesHold(Run(s, after[..n]), after[n], c, w, at))
  }

  lemma {:induction false} HoldLasts(limits: Limits, failed: seq<Event>, after: seq<Event>, c: Customer, w: Wamid,
      at: int)
    requires var s := Run(Init(limits), failed); HeldFor(s, c, w, at) && Undisturbed(s, after, c, w, at)
    ensures var s := Run(Init(limits), failed); HeldFor(Run(s, after), c, w, at) && StartsNoneOf(s, Run(s, after), c)
    decreases |after|
  {
    hide HeldFor, LeavesHold, StartsNoneOf, LanesWellFormed, Step, Init;
    var s := Run(Init(limits), failed);
    if after == [] {
      StartsNoneOfItself(s, c);
    } else {
      var n := |after| - 1;
      HoldLasts(limits, failed, after[..n], c, w, at);
      RunSplits(Init(limits), failed, after[..n]);
      LanesAreWellFormed(limits, failed + after[..n]);
      HoldIsKept(Run(s, after[..n]), after[n], c, w, at);
      StartsNoneOfExtends(s, Run(s, after[..n]), Run(s, after), c);
    }
  }

  lemma StartsNoneOfItself(s: Loop, c: Customer)
    ensures StartsNoneOf(s, s, c)
  {
  }

  /** After a failed turn no handler of that customer starts, whatever else happens, until the failed message is
      back, a late turn of it succeeds, or the hold's time is over. */
  lemma NothingStartsBehindAFailure(limits: Limits, before: seq<Event>, c: Customer, now: int, timedOut: bool,
      after: seq<Event>)
    requires var s := Run(Init(limits), before);
             && AtHead(s, c, Turning)
             && Undisturbed(Step(s, Failure(c, now, timedOut)), after, c, HeadOf(s, c).item.wamid, now)
    ensures var s := Step(Run(Init(limits), before), Failure(c, now, timedOut));
            var r := Run(s, after);
            s.starts <= r.starts && forall k :: |s.starts| <= k < |r.starts| ==> r.starts[k].item.from != c
  {
    var failed := before + [Failure(c, now, timedOut)];
    assert failed[..|before|] == before;
    FailureBeginsHold(limits, before, c, now, timedOut);
    HoldLasts(limits, failed, after, c, HeadOf(Run(Init(limits), before), c).item.wamid, now);
  }
}
