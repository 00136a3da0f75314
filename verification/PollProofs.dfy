/** What every run of the poll loop keeps. */
module PollProofs {
  import opened Options
  import opened PollSpec

  // ----- Lanes and room -----

  ghost predicate Room(s: Loop) {
    && |s.lanes| <= s.limits.maxInFlight
    && (s.pending != [] ==> |s.lanes| >= s.limits.maxInFlight)
    && (s.mode == Running(true) ==> s.pending == [])
  }

  ghost predicate LanesWellFormed(s: Loop) {
    && (forall c :: c in s.lanes ==> s.lanes[c].queue != [])
    && (forall c, e :: c in s.lanes && e in s.lanes[c].queue ==> e.item.from == c)
  }

  // ----- The line of one customer: what was accepted and not started, in lane and pending -----

  function UnstartedIn(lane: Lane): seq<Entry>
    requires lane.queue != []
  {
    if lane.phase.Waiting? then lane.queue else lane.queue[1..]
  }

  function InLane(s: Loop, c: Customer): seq<Entry> {
    if c in s.lanes && s.lanes[c].queue != [] then UnstartedIn(s.lanes[c]) else []
  }

  function PendingOf(entries: seq<Entry>, c: Customer): seq<Entry>
    decreases |entries|
  {
    if entries == [] then []
    else (if entries[0].item.from == c then [entries[0]] else []) + PendingOf(entries[1..], c)
  }

  function Line(s: Loop, c: Customer): seq<Entry> {
    InLane(s, c) + PendingOf(s.pending, c)
  }

  ghost predicate Increasing(q: seq<Entry>) {
    forall i, j :: 0 <= i < j < |q| ==> q[i].ticket < q[j].ticket
  }

  ghost predicate WasAccepted(s: Loop, e: Entry) {
    e.ticket < |s.accepted| && s.accepted[e.ticket] == e.item
  }

  ghost predicate Ordered(s: Loop, c: Customer) {
    && Increasing(Line(s, c))
    && (forall e :: e in Line(s, c) ==> WasAccepted(s, e) && e.item.from == c)
    && (forall d, e :: d in s.starts && d.item.from == c && e in Line(s, c) ==> d.ticket < e.ticket)
  }

  ghost predicate AllOrdered(s: Loop) {
    forall c :: Ordered(s, c)
  }

  ghost predicate StartsInOrder(s: Loop) {
    && (forall e :: e in s.starts ==> WasAccepted(s, e))
    && (forall i, j :: 0 <= i < j < |s.starts| && s.starts[i].item.from == s.starts[j].item.from ==>
         s.starts[i].ticket < s.starts[j].ticket)
  }

  lemma RoomMeansNothingPending(s: Loop)
    requires Inv(s) && |s.lanes| < s.limits.maxInFlight
    ensures s.pending == []
  {
    assert Room(s);
  }

  lemma {:induction false} PendingOfAppend(entries: seq<Entry>, e: Entry, c: Customer)
    ensures PendingOf(entries + [e], c) == PendingOf(entries, c) + (if e.item.from == c then [e] else [])
    decreases |entries|
  {
    var tail := if e.item.from == c then [e] else [];
    if entries == [] {
      assert entries + [e] == [e];
      PendingOfNext(e, [], c);
    } else {
      var first, rest := entries[0], entries[1..];
      var head := if first.item.from == c then [first] else [];
      assert entries + [e] == [first] + (rest + [e]) && entries == [first] + rest;
      PendingOfNext(first, rest + [e], c);
      PendingOfNext(first, rest, c);
      PendingOfAppend(rest, e, c);
      hide PendingOf;
      assert head + (PendingOf(rest, c) + tail) == (head + PendingOf(rest, c)) + tail;
    }
  }

  lemma PendingOfNext(first: Entry, rest: seq<Entry>, c: Customer)
    ensures PendingOf([first] + rest, c) == (if first.item.from == c then [first] else []) + PendingOf(rest, c)
  {
    assert ([first] + rest)[1..] == rest;
  }

  lemma {:induction false} PendingOfMembers(entries: seq<Entry>, c: Customer)
    ensures forall e :: e in PendingOf(entries, c) <==> e in entries && e.item.from == c
    decreases |entries|
  {
    if entries != [] {
      PendingOfMembers(entries[1..], c);
    }
  }

  /** Taking the first pending message into its lane moves it along its own line and no other. */
  lemma DrainStepKeepsLines(s: Loop, c: Customer)
    requires s.pending != [] && LanesWellFormed(s)
    ensures Line(StartOnLane(s.(pending := s.pending[1..]), s.pending[0]), c) == Line(s, c)
  {
    var e := s.pending[0];
    var s' := StartOnLane(s.(pending := s.pending[1..]), e);
    if e.item.from == c {
      assert InLane(s', c) == InLane(s, c) + [e];
      assert PendingOf(s.pending, c) == [e] + PendingOf(s.pending[1..], c);
    } else {
      assert InLane(s', c) == InLane(s, c);
    }
  }

  lemma {:induction false} DrainKeepsLines(s: Loop, c: Customer)
    requires LanesWellFormed(s)
    ensures Line(Drain(s), c) == Line(s, c)
    ensures LanesWellFormed(Drain(s))
    decreases |s.pending|
  {
    if s.pending != [] && |s.lanes| < s.limits.maxInFlight {
      var s' := StartOnLane(s.(pending := s.pending[1..]), s.pending[0]);
      DrainStepKeepsLines(s, c);
      assert LanesWellFormed(s');
      DrainKeepsLines(s', c);
    }
  }

  lemma {:induction false} DrainFillsRoom(s: Loop)
    requires |s.lanes| <= s.limits.maxInFlight
    ensures |Drain(s).lanes| <= s.limits.maxInFlight
    ensures Drain(s).pending != [] ==> |Drain(s).lanes| >= s.limits.maxInFlight
    ensures |s.pending| >= |Drain(s).pending|
    ensures Drain(s).(lanes := s.lanes, pending := s.pending) == s
    decreases |s.pending|
  {
    if s.pending != [] && |s.lanes| < s.limits.maxInFlight {
      DrainFillsRoom(StartOnLane(s.(pending := s.pending[1..]), s.pending[0]));
    }
  }

  // ----- Who holds a message in flight -----

  predicate Owns(s: Loop, e: Entry) {
    e.ticket in s.owners && s.owners[e.ticket] == e.item.wamid
  }

  /** Everything still to be answered: an unstarted entry, the running turn of a lane, or a turn past its
      timeout that nobody gave up. */
  predicate IsSlot(s: Loop, e: Entry) {
    || e in Line(s, e.item.from)
    || (AtHead(s, e.item.from, Turning) && HeadOf(s, e.item.from) == e)
    || (e.ticket in s.late && s.late[e.ticket] == LateTurn(e.item, false))
  }

  ghost predicate SlotsOwned(s: Loop) {
    forall e :: IsSlot(s, e) ==> Owns(s, e)
  }

  /** One holder per message, and a held message is not among those remembered, unless one of its turns
      was given up. */
  ghost predicate OwnersSingle(s: Loop) {
    && (forall t :: t in s.owners ==> t < |s.accepted| && s.accepted[t].wamid == s.owners[t])
    && (forall t :: t in s.owners && s.owners[t] !in s.abandoned ==>
         s.owners[t] in s.inFlight && s.owners[t] !in s.seen)
    && (forall t, u :: t in s.owners && u in s.owners && t != u && s.owners[t] == s.owners[u] ==>
         s.owners[t] in s.abandoned)
  }

  ghost predicate TurnsStarted(s: Loop) {
    && (forall t :: t in s.late ==>
         Entry(s.late[t].item, t) in s.starts &&
           (s.late[t].abandoned ==> s.late[t].item.wamid in s.abandoned && t !in s.owners))
    && (forall c :: AtHead(s, c, Turning) ==> HeadOf(s, c) in s.starts && HeadOf(s, c).ticket !in s.late)
  }

  // ----- What is remembered and acked -----

  ghost predicate SeenIsRecent(s: Loop) {
    && |s.seen| <= SEEN_LIMIT && |s.seen| <= |s.remembered|
    && (|s.seen| < SEEN_LIMIT ==> |s.seen| == |s.remembered|)
    && s.seen == s.remembered[|s.remembered| - |s.seen|..]
  }

  ghost predicate AckedAfterTurn(s: Loop) {
    forall item :: item in s.acked ==> item.wamid in s.remembered
  }

  ghost predicate Holding(s: Loop) {
    SlotsOwned(s) && OwnersSingle(s) && TurnsStarted(s)
  }

  ghost predicate Lined(s: Loop) {
    LanesWellFormed(s) && AllOrdered(s) && StartsInOrder(s)
  }

  ghost predicate Inv(s: Loop) {
    Room(s) && Lined(s) && Holding(s) && SeenIsRecent(s) && AckedAfterTurn(s)
  }

  // ----- Releasing one holder -----

  lemma RememberKeepsRecent(s: Loop, w: Wamid)
    requires SeenIsRecent(s) && AckedAfterTurn(s)
    ensures SeenIsRecent(Remember(s, w)) && AckedAfterTurn(Remember(s, w))
    ensures w in Remember(s, w).remembered
    ensures forall v :: v in Remember(s, w).seen ==> v in s.seen || v == w
  {
    if w in s.seen {
      SeenWasRemembered(s, w);
    }
  }

  lemma RememberedThenAcked(s: Loop, s': Loop, item: Item)
    requires SeenIsRecent(s) && AckedAfterTurn(s)
    requires s'.seen == Remember(s, item.wamid).seen && s'.remembered == Remember(s, item.wamid).remembered
    requires s'.acked == s.acked + [item]
    ensures SeenIsRecent(s') && AckedAfterTurn(s')
    ensures forall v :: v in s'.seen ==> v in s.seen || v == item.wamid
  {
    RememberKeepsRecent(s, item.wamid);
  }

  lemma RememberTouchesOnlySeen(s: Loop, w: Wamid)
    ensures Remember(s, w).(seen := s.seen, remembered := s.remembered) == s
  {
  }

  lemma SeenWasRemembered(s: Loop, w: Wamid)
    requires SeenIsRecent(s) && w in s.seen
    ensures w in s.remembered
  {
    var i :| 0 <= i < |s.seen| && s.seen[i] == w;
    assert s.remembered[|s.remembered| - |s.seen| + i] == w;
  }

  // ----- Order, step by step -----

  lemma OrderedSlice(s: Loop, s': Loop, c: Customer, i: nat, j: nat)
    requires Ordered(s, c) && i <= j <= |Line(s, c)|
    requires Line(s', c) == Line(s, c)[i..j] && s'.starts == s.starts && s'.accepted == s.accepted
    ensures Ordered(s', c)
  {
  }

  lemma SameLinesStayOrdered(s: Loop, s': Loop)
    requires AllOrdered(s) && StartsInOrder(s)
    requires s'.starts == s.starts && s'.accepted == s.accepted
    requires forall c :: Line(s', c) == Line(s, c)
    ensures AllOrdered(s') && StartsInOrder(s')
  {
    forall c
      ensures Ordered(s', c)
    {
      assert Ordered(s, c);
      OrderedSlice(s, s', c, 0, |Line(s, c)|);
    }
  }

  lemma HeadLeavesInOrder(s: Loop, s': Loop, c: Customer)
    requires AllOrdered(s) && StartsInOrder(s) && Line(s, c) != [] && s'.accepted == s.accepted
    requires forall d :: Line(s', d) == if d == c then Line(s, c)[1..] else Line(s, d)
    requires s'.starts == s.starts || s'.starts == s.starts + [Line(s, c)[0]]
    ensures AllOrdered(s') && StartsInOrder(s')
  {
    hide Line;
    var e := Line(s, c)[0];
    assert e in Line(s, c);
    assert Ordered(s, c);
    forall d
      ensures Ordered(s', d)
    {
      assert Ordered(s, d);
    }
    forall d | d in s'.starts
      ensures WasAccepted(s', d)
    {
    }
  }

  lemma TurnStartsLines(s: Loop, c: Customer, now: int)
    requires AtHead(s, c, Waiting)
    ensures Line(s, c) != [] && Line(s, c)[0] == HeadOf(s, c)
    ensures var s' := TurnStarts(s, c, now);
            forall d :: Line(s', d) == if d == c then Line(s, c)[1..] else Line(s, d)
  {
    var s' := TurnStarts(s, c, now);
    assert InLane(s', c) == InLane(s, c)[1..];
    forall d
      ensures Line(s', d) == if d == c then Line(s, c)[1..] else Line(s, d)
    {
      if d != c {
        assert InLane(s', d) == InLane(s, d);
      }
    }
  }

  /** The head of a line is started or skipped; either way the rest stays in order behind it. */
  lemma TurnStartsInOrder(s: Loop, c: Customer, now: int)
    requires AllOrdered(s) && StartsInOrder(s)
    ensures AllOrdered(TurnStarts(s, c, now)) && StartsInOrder(TurnStarts(s, c, now))
  {
    if AtHead(s, c, Waiting) {
      TurnStartsLines(s, c, now);
      HeadLeavesInOrder(s, TurnStarts(s, c, now), c);
    }
  }

  lemma AcceptedInOrder(s: Loop, item: Item, s': Loop)
    requires AllOrdered(s) && StartsInOrder(s)
    requires s'.starts == s.starts && s'.accepted == s.accepted + [item]
    requires forall c :: Line(s', c) == Line(s, c) + if c == item.from then [Entry(item, |s.accepted|)] else []
    ensures AllOrdered(s') && StartsInOrder(s')
  {
    forall c
      ensures Ordered(s', c)
    {
      assert Ordered(s, c);
    }
  }

  /** During one batch a customer with pending messages has no lane, so nothing is put in front of them. */
  ghost predicate NoLaneBehindPending(s: Loop) {
    && (forall e :: e in s.pending ==> e.item.from !in s.lanes)
    && (s.pending != [] ==> |s.lanes| >= s.limits.maxInFlight)
    && |s.lanes| <= s.limits.maxInFlight
  }

  lemma PendingOfNone(entries: seq<Entry>, c: Customer)
    requires forall e :: e in entries ==> e.item.from != c
    ensures PendingOf(entries, c) == []
  {
  }

  lemma StartOnLaneLines(s: Loop, e: Entry, c: Customer)
    requires LanesWellFormed(s) && PendingOf(s.pending, e.item.from) == []
    ensures LanesWellFormed(StartOnLane(s, e))
    ensures Line(StartOnLane(s, e), c) == Line(s, c) + if c == e.item.from then [e] else []
  {
    var s' := StartOnLane(s, e);
    if c == e.item.from {
      assert InLane(s', c) == InLane(s, c) + [e];
    } else {
      assert InLane(s', c) == InLane(s, c);
    }
  }

  ghost predicate JoinedLine(s: Loop, s': Loop, item: Item) {
    && s'.accepted == s.accepted + [item]
    && forall c :: Line(s', c) == Line(s, c) + if c == item.from then [Entry(item, |s.accepted|)] else []
  }

  lemma StartOnLaneKeepsRoom(s: Loop, e: Entry)
    requires NoLaneBehindPending(s) && (e.item.from in s.lanes || |s.lanes| < s.limits.maxInFlight)
    ensures NoLaneBehindPending(StartOnLane(s, e))
  {
    var s' := StartOnLane(s, e);
    assert s'.lanes.Keys == s.lanes.Keys + {e.item.from};
    assert |s'.lanes| == |s'.lanes.Keys| && |s.lanes| == |s.lanes.Keys|;
  }

  lemma EnqueueKeepsRoom(s: Loop, item: Item)
    requires LanesWellFormed(s) && NoLaneBehindPending(s)
    ensures NoLaneBehindPending(Enqueue(s, item)) && LanesWellFormed(Enqueue(s, item))
  {
    if item.wamid !in s.seen && item.wamid !in s.inFlight {
      var e := Entry(item, |s.accepted|);
      var s1 := Accepted(s, item);
      assert NoLaneBehindPending(s1) && LanesWellFormed(s1);
      if item.from in s.lanes || |s.lanes| < s.limits.maxInFlight {
        PendingOfNone(s.pending, item.from);
        hide NoLaneBehindPending, LanesWellFormed, Accepted;
        StartOnLaneKeepsRoom(s1, e);
        StartOnLaneLines(s1, e, item.from);
      }
    }
  }

  lemma PushPendingLines(s: Loop, e: Entry, c: Customer)
    ensures Line(s.(pending := s.pending + [e]), c) == Line(s, c) + if c == e.item.from then [e] else []
  {
    PendingOfAppend(s.pending, e, c);
    assert InLane(s.(pending := s.pending + [e]), c) == InLane(s, c);
  }

  lemma AcceptedLines(s: Loop, item: Item, c: Customer)
    ensures Line(Accepted(s, item), c) == Line(s, c)
  {
  }

  /** A message is taken at the end of its customer's line, or not at all. */
  lemma EnqueueLines(s: Loop, item: Item)
    requires LanesWellFormed(s) && NoLaneBehindPending(s)
    ensures var s' := Enqueue(s, item);
            JoinedLine(s, s', item) || (s'.accepted == s.accepted && forall c :: Line(s', c) == Line(s, c))
  {
    var s' := Enqueue(s, item);
    if item.wamid !in s.seen && item.wamid !in s.inFlight {
      var e := Entry(item, |s.accepted|);
      var s1 := Accepted(s, item);
      assert s1.pending == s.pending && s1.lanes == s.lanes && LanesWellFormed(s1);
      if item.from in s.lanes || |s.lanes| < s.limits.maxInFlight {
        PendingOfNone(s.pending, item.from);
      }
      hide Line, LanesWellFormed, NoLaneBehindPending, StartOnLane, Accepted;
      forall c
        ensures Line(s', c) == Line(s, c) + if c == item.from then [e] else []
      {
        AcceptedLines(s, item, c);
        if item.from !in s.lanes && |s.lanes| >= s.limits.maxInFlight {
          PushPendingLines(s1, e, c);
        } else {
          StartOnLaneLines(s1, e, c);
        }
      }
      assert s'.accepted == s.accepted + [item];
    }
  }

  // ----- Holders, step by step -----

  lemma SlotIsAccepted(s: Loop, e: Entry)
    requires Lined(s) && TurnsStarted(s) && IsSlot(s, e)
    ensures WasAccepted(s, e)
    ensures e in Line(s, e.item.from) || e in s.starts
  {
    assert Ordered(s, e.item.from);
  }

  /** Distinct slots hold distinct tickets. */
  lemma SlotsDiffer(s: Loop, d: Entry, e: Entry)
    requires Lined(s) && TurnsStarted(s) && IsSlot(s, d) && IsSlot(s, e)
    ensures d.ticket == e.ticket ==> d == e
  {
    SlotIsAccepted(s, d);
    SlotIsAccepted(s, e);
  }

  /** A slot that is answered or given up lets go of its message; no other slot notices. */
  lemma SlotReleased(s: Loop, s': Loop, e: Entry)
    requires Lined(s) && Holding(s) && IsSlot(s, e)
    requires s'.owners == Without(s.owners, e.ticket)
    requires forall d :: IsSlot(s', d) ==> IsSlot(s, d) && d != e
    ensures SlotsOwned(s')
  {
    forall d | IsSlot(s', d)
      ensures Owns(s', d)
    {
      SlotsDiffer(s, d, e);
    }
  }

  lemma OwnersReleased(s: Loop, s': Loop, t: Ticket, w: Wamid)
    requires OwnersSingle(s) && (if t in s.owners then s.owners[t] == w else w in s.abandoned)
    requires s'.owners == Without(s.owners, t) && s'.inFlight == s.inFlight - {w} && s'.accepted == s.accepted
    requires s.abandoned <= s'.abandoned && forall v :: v in s'.seen ==> v in s.seen || v == w
    ensures OwnersSingle(s')
  {
  }

  lemma HeadIsSlot(s: Loop, c: Customer)
    requires LanesWellFormed(s) && (AtHead(s, c, Waiting) || AtHead(s, c, Turning))
    ensures HeadOf(s, c).item.from == c && IsSlot(s, HeadOf(s, c))
  {
    var e := HeadOf(s, c);
    assert e in s.lanes[c].queue;
    if AtHead(s, c, Waiting) {
      assert Line(s, c)[0] == e;
    }
  }

  lemma TurnStartsSlots(s: Loop, c: Customer, now: int, d: Entry)
    requires Lined(s) && TurnsStarted(s) && AtHead(s, c, Waiting) && IsSlot(TurnStarts(s, c, now), d)
    ensures IsSlot(s, d) && (LaneHeld(s, c, now) ==> d != HeadOf(s, c))
  {
    HeadIsSlot(s, c);
    TurnStartsLines(s, c, now);
    assert Ordered(s, c);
    UnstartedIsNotLate(s, HeadOf(s, c));
    var line, line' := Line(s, d.item.from), Line(TurnStarts(s, c, now), d.item.from);
    if d in line' {
      assert d in line;
      if d.item.from == c { FirstIsNotInRest(line); }
    }
    hide Line;
  }

  lemma FirstIsNotInRest(q: seq<Entry>)
    requires Increasing(q) && q != []
    ensures q[0] !in q[1..]
  {
  }

  lemma UnstartedIsNotLate(s: Loop, e: Entry)
    requires Lined(s) && TurnsStarted(s) && e in Line(s, e.item.from)
    ensures e.ticket !in s.late
  {
    assert Ordered(s, e.item.from);
    assert WasAccepted(s, e);
    assert e.ticket in s.late ==> WasAccepted(s, Entry(s.late[e.ticket].item, e.ticket));
  }

  lemma TurnsKept(s: Loop, s': Loop)
    requires TurnsStarted(s) && s'.starts == s.starts && s'.late == s.late
    requires s.abandoned <= s'.abandoned && s'.owners.Keys <= s.owners.Keys
    requires forall c :: AtHead(s', c, Turning) ==> AtHead(s, c, Turning) && HeadOf(s', c) == HeadOf(s, c)
    ensures TurnsStarted(s')
  {
  }

  lemma HeldTurnHolding(s: Loop, c: Customer, now: int)
    requires Lined(s) && Holding(s) && AtHead(s, c, Waiting) && LaneHeld(s, c, now)
    ensures Holding(TurnStarts(s, c, now))
  {
    var s' := TurnStarts(s, c, now);
    var e := HeadOf(s, c);
    HeadIsSlot(s, c);
    forall d | IsSlot(s', d)
      ensures IsSlot(s, d) && d != e
    {
      TurnStartsSlots(s, c, now, d);
    }
    TurnsKept(s, s');
    hide IsSlot, Lined, TurnsStarted;
    assert Owns(s, e);
    SlotReleased(s, s', e);
    OwnersReleased(s, s', e.ticket, e.item.wamid);
  }

  lemma BegunTurnHolding(s: Loop, c: Customer, now: int)
    requires Lined(s) && Holding(s) && AtHead(s, c, Waiting) && !LaneHeld(s, c, now)
    ensures Holding(TurnStarts(s, c, now))
  {
    var s' := TurnStarts(s, c, now);
    var e := HeadOf(s, c);
    HeadIsSlot(s, c);
    forall d | IsSlot(s', d)
      ensures Owns(s', d)
    {
      TurnStartsSlots(s, c, now, d);
    }
    TurnStartsLines(s, c, now);
    UnstartedIsNotLate(s, e);
    hide IsSlot, Lined;
    assert forall d :: AtHead(s', d, Turning) && d != c ==> AtHead(s, d, Turning) && HeadOf(s', d) == HeadOf(s, d);
  }

  // ----- A turn ends -----

  predicate Ends(s: Loop, s': Loop, c: Customer) {
    && AtHead(s, c, Turning)
    && s'.lanes == s.lanes[c := s.lanes[c].(phase := Settling)]
    && s'.pending == s.pending && s'.accepted == s.accepted && s'.starts == s.starts && s'.limits == s.limits &&
       s'.mode == s.mode
  }

  lemma EndedLines(s: Loop, s': Loop)
    requires exists c :: Ends(s, s', c)
    ensures forall d :: Line(s', d) == Line(s, d)
  {
    forall d
      ensures Line(s', d) == Line(s, d)
    {
      assert InLane(s', d) == InLane(s, d);
    }
  }

  lemma EndedIsLined(s: Loop, s': Loop, c: Customer)
    requires Lined(s) && Ends(s, s', c)
    ensures Lined(s')
  {
    EndedLines(s, s');
    SameLinesStayOrdered(s, s');
  }

  lemma EndedSlots(s: Loop, s': Loop, c: Customer, d: Entry)
    requires Lined(s) && TurnsStarted(s) && Ends(s, s', c) && s'.late == s.late && IsSlot(s', d)
    ensures IsSlot(s, d) && d != HeadOf(s, c)
  {
    EndedLines(s, s');
    HeadIsSlot(s, c);
    if d in Line(s, d.item.from) {
      assert Ordered(s, d.item.from);
    }
  }

  /** A turn that came to its end, well or badly, lets go of its message. */
  lemma EndedHolding(s: Loop, s': Loop, c: Customer)
    requires Lined(s) && Holding(s) && Ends(s, s', c) && s'.late == s.late && s'.abandoned == s.abandoned
    requires var e := HeadOf(s, c);
             && s'.owners == Without(s.owners, e.ticket) && s'.inFlight == s.inFlight - {e.item.wamid}
             && forall v :: v in s'.seen ==> v in s.seen || v == e.item.wamid
    ensures Holding(s')
  {
    var e := HeadOf(s, c);
    HeadIsSlot(s, c);
    forall d | IsSlot(s', d)
      ensures IsSlot(s, d) && d != e
    {
      EndedSlots(s, s', c, d);
    }
    TurnsKept(s, s');
    hide IsSlot, Lined, TurnsStarted;
    assert Owns(s, e);
    SlotReleased(s, s', e);
    OwnersReleased(s, s', e.ticket, e.item.wamid);
  }

  /** Past its timeout the turn keeps its slot, now as a late one. */
  lemma TimedOutSlots(s: Loop, c: Customer, now: int, d: Entry)
    requires Lined(s) && TurnsStarted(s) && AtHead(s, c, Turning) && IsSlot(TurnTimesOut(s, c, now), d)
    ensures IsSlot(s, d)
  {
    var s' := TurnTimesOut(s, c, now);
    HeadIsSlot(s, c);
    assert Ends(s, s', c);
    EndedLines(s, s');
  }

  lemma TimedOutHolding(s: Loop, c: Customer, now: int)
    requires Lined(s) && Holding(s) && AtHead(s, c, Turning)
    ensures Holding(TurnTimesOut(s, c, now))
  {
    var s' := TurnTimesOut(s, c, now);
    var e := HeadOf(s, c);
    HeadIsSlot(s, c);
    forall d | IsSlot(s', d)
      ensures Owns(s', d)
    {
      TimedOutSlots(s, c, now, d);
    }
    forall d | AtHead(s', d, Turning)
      ensures AtHead(s, d, Turning) && HeadOf(s', d) == HeadOf(s, d) && HeadOf(s, d).ticket != e.ticket
    {
      HeadIsSlot(s, d);
      SlotsDiffer(s, HeadOf(s, d), e);
    }
  }

  // ----- Steps that start or end nothing -----

  ghost predicate Quiet(s: Loop, s': Loop) {
    && LanesWellFormed(s')
    && (forall c :: Line(s', c) == Line(s, c))
    && (forall c :: AtHead(s', c, Turning) ==> AtHead(s, c, Turning) && HeadOf(s', c) == HeadOf(s, c))
    && s'.late == s.late && s'.owners == s.owners && s'.inFlight == s.inFlight && s'.seen == s.seen
    && s'.abandoned == s.abandoned && s'.starts == s.starts && s'.accepted == s.accepted
  }

  lemma QuietKeeps(s: Loop, s': Loop)
    requires Lined(s) && Holding(s) && Quiet(s, s')
    ensures Lined(s') && Holding(s')
  {
    hide Line;
    SameLinesStayOrdered(s, s');
    assert forall d :: IsSlot(s', d) ==> IsSlot(s, d);
  }

  lemma QuietTransitive(a: Loop, b: Loop, c: Loop)
    requires Quiet(a, b) && Quiet(b, c)
    ensures Quiet(a, c)
  {
    hide Line;
  }

  lemma {:induction false} DrainIsQuiet(s: Loop)
    requires LanesWellFormed(s)
    ensures Quiet(s, Drain(s))
    decreases |s.pending|
  {
    if s.pending != [] && |s.lanes| < s.limits.maxInFlight {
      var s' := StartOnLane(s.(pending := s.pending[1..]), s.pending[0]);
      forall c
        ensures Line(s', c) == Line(s, c)
      {
        DrainStepKeepsLines(s, c);
      }
      assert Quiet(s, s') by { hide Line; }
      DrainIsQuiet(s');
      QuietTransitive(s, s', Drain(s'));
    }
  }

  function Popped(s: Loop, c: Customer): Loop
    requires AtHead(s, c, Settling)
  {
    s.(lanes := if |s.lanes[c].queue| == 1 then Without(s.lanes, c)
      else s.lanes[c := Lane(s.lanes[c].queue[1..], Waiting)])
  }

  lemma PoppedIsQuiet(s: Loop, c: Customer)
    requires LanesWellFormed(s) && AtHead(s, c, Settling)
    ensures Quiet(s, Popped(s, c))
  {
    var s' := Popped(s, c);
    forall d
      ensures Line(s', d) == Line(s, d)
    {
      assert InLane(s', d) == InLane(s, d);
    }
    forall d, e | d in s'.lanes && e in s'.lanes[d].queue
      ensures e.item.from == d
    {
      assert e in s.lanes[d].queue;
    }
  }

  lemma LaneAdvancesKeepsRoom(s: Loop, c: Customer)
    requires Room(s) && AtHead(s, c, Settling)
    ensures Room(LaneAdvances(s, c)) && LaneAdvances(s, c) == Drain(Popped(s, c))
    ensures LaneAdvances(s, c).(lanes := s.lanes, pending := s.pending) == s
  {
    var s1 := Popped(s, c);
    assert |s1.lanes| <= |s.lanes| by {
      assert s1.lanes.Keys <= s.lanes.Keys;
      CardinalityMonotone(s1.lanes.Keys, s.lanes.Keys);
    }
    DrainFillsRoom(s1);
  }

  lemma LaneAdvancesKeeps(s: Loop, c: Customer)
    requires Inv(s)
    ensures Inv(LaneAdvances(s, c))
  {
    if AtHead(s, c, Settling) {
      var s1 := Popped(s, c);
      PoppedIsQuiet(s, c);
      hide Quiet, Holding, Popped;
      DrainIsQuiet(s1) by { assert Quiet(s, s1); }
      QuietTransitive(s, s1, Drain(s1));
      LaneAdvancesKeepsRoom(s, c);
      QuietKeeps(s, Drain(s1));
      hide Lined, Room;
    }
  }

  lemma CardinalityMonotone(a: set<Customer>, b: set<Customer>)
    requires a <= b
    ensures |a| <= |b|
  {
    if a != {} {
      var x :| x in a;
      CardinalityMonotone(a - {x}, b - {x});
    }
  }

  // ----- Each event keeps the invariant -----

  lemma TurnStartsLined(s: Loop, c: Customer, now: int)
    requires Lined(s) && AtHead(s, c, Waiting)
    ensures Lined(TurnStarts(s, c, now))
  {
    hide AllOrdered, StartsInOrder;
    TurnStartsInOrder(s, c, now);
    assert LanesWellFormed(TurnStarts(s, c, now));
  }

  lemma TurnStartsRoom(s: Loop, c: Customer, now: int)
    requires Room(s) && AtHead(s, c, Waiting)
    ensures Room(TurnStarts(s, c, now))
  {
    assert TurnStarts(s, c, now).lanes.Keys == s.lanes.Keys;
  }

  lemma TurnStartsKeeps(s: Loop, c: Customer, now: int)
    requires Inv(s)
    ensures Inv(TurnStarts(s, c, now))
  {
    hide Holding, Lined, SeenIsRecent, Room;
    if AtHead(s, c, Waiting) {
      TurnStartsRoom(s, c, now);
      TurnStartsLined(s, c, now);
      SeenIsRecentStill(s, TurnStarts(s, c, now));
      if LaneHeld(s, c, now) { HeldTurnHolding(s, c, now); } else { BegunTurnHolding(s, c, now); }
    }
  }

  lemma TurnSucceedsKeeps(s: Loop, c: Customer)
    requires Inv(s)
    ensures Inv(TurnSucceeds(s, c))
  {
    hide Holding, Lined, SeenIsRecent, AckedAfterTurn;
    if AtHead(s, c, Turning) {
      var s' := TurnSucceeds(s, c);
      RememberTouchesOnlySeen(s, HeadOf(s, c).item.wamid);
      hide Remember;
      RememberedThenAcked(s, s', HeadOf(s, c).item);
      EndedIsLined(s, s', c);
      EndedHolding(s, s', c);
    }
  }

  lemma TurnFailsKeeps(s: Loop, c: Customer, now: int)
    requires Inv(s)
    ensures Inv(TurnFails(s, c, now))
  {
    hide Holding, Lined;
    if AtHead(s, c, Turning) {
      var s' := TurnFails(s, c, now);
      EndedIsLined(s, s', c);
      EndedHolding(s, s', c);
    }
  }

  lemma TurnTimesOutKeeps(s: Loop, c: Customer, now: int)
    requires Inv(s)
    ensures Inv(TurnTimesOut(s, c, now))
  {
    hide Holding, Lined;
    if AtHead(s, c, Turning) {
      var s' := TurnTimesOut(s, c, now);
      EndedIsLined(s, s', c);
      TimedOutHolding(s, c, now);
    }
  }

  /** A late turn comes to its end, or is given up. */
  lemma LateReleasedHolding(s: Loop, s': Loop, t: Ticket)
    requires Lined(s) && Holding(s) && t in s.late
    requires s'.lanes == s.lanes && s'.pending == s.pending && s'.starts == s.starts && s'.accepted == s.accepted
    requires var w := s.late[t].item.wamid;
             && s'.owners == Without(s.owners, t) && s'.inFlight == s.inFlight - {w}
             && (s'.late == Without(s.late, t) || s'.late == s.late[t := LateTurn(s.late[t].item, true)])
             && s'.abandoned == (if t in s'.late then s.abandoned + {w} else s.abandoned)
             && forall v :: v in s'.seen ==> v in s.seen || v == w
    ensures Lined(s') && Holding(s')
  {
    LateReleasedLines(s, s');
    var e := Entry(s.late[t].item, t);
    assert !s.late[t].abandoned ==> IsSlot(s, e) && Owns(s, e);
    LateReleasedSlots(s, s', t);
    LateReleasedTurns(s, s', t);
    hide Line, IsSlot, Lined, TurnsStarted;
    OwnersReleased(s, s', t, e.item.wamid);
  }

  lemma LateReleasedTurns(s: Loop, s': Loop, t: Ticket)
    requires TurnsStarted(s) && t in s.late && s'.lanes == s.lanes && s'.starts == s.starts
    requires s'.late == Without(s.late, t) || s'.late == s.late[t := LateTurn(s.late[t].item, true)]
    requires s'.abandoned == (if t in s'.late then s.abandoned + {s.late[t].item.wamid} else s.abandoned)
    requires s'.owners == Without(s.owners, t)
    ensures TurnsStarted(s')
  {
    assert forall u :: u in s'.late ==>
             u in s.late && s'.late[u].item == s.late[u].item && (u != t ==> s'.late[u] == s.late[u]);
    assert forall c :: AtHead(s', c, Turning) ==> AtHead(s, c, Turning) && HeadOf(s', c) == HeadOf(s, c);
  }

  lemma LateReleasedLines(s: Loop, s': Loop)
    requires Lined(s)
    requires s'.lanes == s.lanes && s'.pending == s.pending && s'.starts == s.starts && s'.accepted == s.accepted
    ensures Lined(s') && forall c :: Line(s', c) == Line(s, c)
  {
    assert forall c :: Line(s', c) == Line(s, c);
    SameLinesStayOrdered(s, s');
  }

  lemma LateSlotsWereSlots(s: Loop, s': Loop, t: Ticket, d: Entry)
    requires t in s.late && s'.lanes == s.lanes && s'.pending == s.pending
    requires s'.late == Without(s.late, t) || s'.late == s.late[t := LateTurn(s.late[t].item, true)]
    requires IsSlot(s', d)
    ensures IsSlot(s, d)
    ensures d.ticket == t ==>
              d in Line(s, d.item.from) || (AtHead(s, d.item.from, Turning) && HeadOf(s, d.item.from) == d)
  {
    assert Line(s', d.item.from) == Line(s, d.item.from);
    hide Line;
  }

  lemma LateReleasedSlots(s: Loop, s': Loop, t: Ticket)
    requires Lined(s) && Holding(s) && t in s.late
    requires s'.lanes == s.lanes && s'.pending == s.pending && s'.owners == Without(s.owners, t)
    requires s'.late == Without(s.late, t) || s'.late == s.late[t := LateTurn(s.late[t].item, true)]
    ensures SlotsOwned(s')
  {
    hide Lined, OwnersSingle, TurnsStarted, Line, IsSlot;
    forall d | IsSlot(s', d)
      ensures Owns(s', d)
    {
      LateSlotsWereSlots(s, s', t, d);
      if d.ticket == t {
        UnstartedOrTurningIsNotLate(s, d);
      }
    }
  }

  lemma UnstartedOrTurningIsNotLate(s: Loop, e: Entry)
    requires Lined(s) && TurnsStarted(s)
    requires e in Line(s, e.item.from) || (AtHead(s, e.item.from, Turning) && HeadOf(s, e.item.from) == e)
    ensures e.ticket !in s.late
  {
    if e in Line(s, e.item.from) { UnstartedIsNotLate(s, e); }
  }

  lemma LateSucceedsKeeps(s: Loop, t: Ticket)
    requires Inv(s)
    ensures Inv(LateSucceeds(s, t))
  {
    hide Holding, Lined, SeenIsRecent, AckedAfterTurn;
    if t in s.late {
      RememberTouchesOnlySeen(s, s.late[t].item.wamid);
      hide Remember;
      RememberedThenAcked(s, LateSucceeds(s, t), s.late[t].item);
      LateReleasedHolding(s, LateSucceeds(s, t), t);
    }
  }

  lemma LateFailsKeeps(s: Loop, t: Ticket)
    requires Inv(s)
    ensures Inv(LateFails(s, t))
  {
    hide Holding, Lined;
    if t in s.late {
      LateReleasedHolding(s, LateFails(s, t), t);
    }
  }

  lemma AbandonsKeeps(s: Loop, t: Ticket)
    requires Inv(s)
    ensures Inv(Abandons(s, t))
  {
    hide Holding, Lined;
    if t in s.late && !s.late[t].abandoned {
      LateReleasedHolding(s, Abandons(s, t), t);
    }
  }

  // ----- Pulls, batches and stops -----

  lemma JoinedSlots(s: Loop, item: Item, d: Entry)
    requires item.wamid !in s.seen && item.wamid !in s.inFlight
    requires JoinedLine(s, Enqueue(s, item), item) && IsSlot(Enqueue(s, item), d)
    ensures IsSlot(s, d) || d == Entry(item, |s.accepted|)
  {
    hide Line;
  }

  lemma JoinedHeads(s: Loop, item: Item, c: Customer)
    requires AtHead(Enqueue(s, item), c, Turning) && LanesWellFormed(s)
    ensures AtHead(s, c, Turning) && HeadOf(Enqueue(s, item), c) == HeadOf(s, c)
  {}

  /** A turn past its timeout was accepted before, so a new ticket is not its. */
  lemma LateTicketsAreOld(s: Loop, t: Ticket)
    requires StartsInOrder(s) && TurnsStarted(s) && t in s.late
    ensures t < |s.accepted|
  {
    assert WasAccepted(s, Entry(s.late[t].item, t));
  }

  lemma JoinedTurns(s: Loop, item: Item)
    requires LanesWellFormed(s) && StartsInOrder(s) && TurnsStarted(s)
    requires item.wamid !in s.seen && item.wamid !in s.inFlight
    ensures TurnsStarted(Enqueue(s, item))
  {
    var s' := Enqueue(s, item);
    forall c | AtHead(s', c, Turning)
      ensures AtHead(s, c, Turning) && HeadOf(s', c) == HeadOf(s, c)
    {
      JoinedHeads(s, item, c);
    }
    forall t | t in s.late
      ensures t != |s.accepted|
    {
      LateTicketsAreOld(s, t);
    }
    hide LanesWellFormed, StartsInOrder, AtHead;
    assert s'.late == s.late && s'.starts == s.starts && s'.abandoned == s.abandoned;
    assert s'.owners == s.owners[|s.accepted| := item.wamid];
    hide Enqueue;
  }

  lemma JoinedOwners(s: Loop, s': Loop, item: Item)
    requires OwnersSingle(s) && item.wamid !in s.seen && item.wamid !in s.inFlight
    requires s'.owners == s.owners[|s.accepted| := item.wamid] && s'.accepted == s.accepted + [item]
    requires s'.inFlight == s.inFlight + {item.wamid} && s'.seen == s.seen && s'.abandoned == s.abandoned
    ensures OwnersSingle(s')
  {
  }

  lemma JoinedSlotsOwned(s: Loop, item: Item)
    requires SlotsOwned(s) && OwnersSingle(s) && item.wamid !in s.seen && item.wamid !in s.inFlight
    requires JoinedLine(s, Enqueue(s, item), item)
    ensures SlotsOwned(Enqueue(s, item))
  {
    hide JoinedLine, IsSlot;
    var s' := Enqueue(s, item);
    assert s'.owners == s.owners[|s.accepted| := item.wamid];
    hide Enqueue;
    forall d | IsSlot(s', d)
      ensures Owns(s', d)
    {
      JoinedSlots(s, item, d);
      if d != Entry(item, |s.accepted|) {
        assert Owns(s, d);
      }
    }
  }

  lemma JoinedHolding(s: Loop, item: Item)
    requires Lined(s) && Holding(s) && item.wamid !in s.seen && item.wamid !in s.inFlight
    requires JoinedLine(s, Enqueue(s, item), item)
    ensures Holding(Enqueue(s, item))
  {
    hide SlotsOwned, OwnersSingle, TurnsStarted, JoinedLine, LanesWellFormed, AllOrdered, StartsInOrder;
    JoinedSlotsOwned(s, item);
    JoinedTurns(s, item);
    JoinedOwners(s, Enqueue(s, item), item);
  }

  ghost predicate InBatch(s: Loop) {
    && NoLaneBehindPending(s) && s.mode != Running(true)
    && Lined(s) && Holding(s) && SeenIsRecent(s) && AckedAfterTurn(s)
  }

  lemma EnqueueKeeps(s: Loop, item: Item)
    requires InBatch(s)
    ensures InBatch(Enqueue(s, item))
  {
    hide Holding, Lined, SeenIsRecent, NoLaneBehindPending, JoinedLine;
    EnqueueBatchRoom(s, item);
    if item.wamid in s.seen {
      SeenWasRemembered(s, item.wamid);
      AckAgainIsQuiet(s, item);
      SeenIsRecentStill(s, Enqueue(s, item));
    } else if item.wamid !in s.inFlight {
      EnqueueTouches(s, item);
      EnqueueJoins(s, item);
      JoinedHolding(s, item);
      hide Enqueue;
      SeenIsRecentStill(s, Enqueue(s, item));
    }
  }

  lemma EnqueueBatchRoom(s: Loop, item: Item)
    requires Lined(s) && NoLaneBehindPending(s)
    ensures NoLaneBehindPending(Enqueue(s, item))
  {
    EnqueueKeepsRoom(s, item);
  }

  lemma EnqueueJoins(s: Loop, item: Item)
    requires Lined(s) && NoLaneBehindPending(s) && item.wamid !in s.seen && item.wamid !in s.inFlight
    ensures JoinedLine(s, Enqueue(s, item), item) && Lined(Enqueue(s, item))
  {
    hide AllOrdered, StartsInOrder, NoLaneBehindPending, LanesWellFormed;
    EnqueueKeepsRoom(s, item);
    EnqueueLines(s, item);
    EnqueueTouches(s, item);
    AcceptedInOrder(s, item, Enqueue(s, item));
  }

  lemma SeenIsRecentStill(s: Loop, s': Loop)
    requires SeenIsRecent(s) && s'.seen == s.seen && s'.remembered == s.remembered
    ensures SeenIsRecent(s')
  {
  }

  lemma EnqueueTouches(s: Loop, item: Item)
    requires item.wamid !in s.seen && item.wamid !in s.inFlight
    ensures var s' := Enqueue(s, item);
            && s'.accepted == s.accepted + [item] && s'.starts == s.starts && s'.mode == s.mode
            && s'.seen == s.seen && s'.remembered == s.remembered && s'.acked == s.acked
  {
  }

  lemma AckAgainIsQuiet(s: Loop, item: Item)
    requires Lined(s) && Holding(s)
    ensures var s' := s.(acked := s.acked + [item]); Lined(s') && Holding(s')
  {
    var s' := s.(acked := s.acked + [item]);
    assert forall c :: Line(s', c) == Line(s, c);
    QuietKeeps(s, s');
  }

  lemma {:induction false} EnqueueAllKeeps(s: Loop, items: seq<Item>)
    requires InBatch(s)
    ensures InBatch(EnqueueAll(s, items))
    decreases |items|
  {
    if items != [] {
      EnqueueKeeps(s, items[0]);
      hide InBatch;
      EnqueueAllKeeps(Enqueue(s, items[0]), items[1..]);
    }
  }

  lemma {:induction false} DropPendingForm(s: Loop)
    ensures var s' := DropPending(s);
            && s'.pending == []
            && s'.inFlight == s.inFlight - (set e | e in s.pending :: e.item.wamid)
            && s'.owners == s.owners - (set e | e in s.pending :: e.ticket)
            && s'.(pending := s.pending, inFlight := s.inFlight, owners := s.owners) == s
    decreases |s.pending|
  {
    if s.pending != [] {
      var e := s.pending[0];
      var s1 := Released(s.(pending := s.pending[1..]), e.ticket, e.item.wamid);
      DropPendingForm(s1);
      assert forall d :: d in s.pending <==> d == e || d in s.pending[1..];
      assert (set d | d in s.pending :: d.ticket) == {e.ticket} + (set d | d in s1.pending :: d.ticket);
      assert (set d | d in s.pending :: d.item.wamid) == {e.item.wamid} + (set d | d in s1.pending :: d.item.wamid);
    }
  }

  lemma StoppedIsLined(s: Loop, s': Loop)
    requires Lined(s) && s'.pending == [] && s'.lanes == s.lanes && s'.starts == s.starts && s'.accepted == s.accepted
    ensures Lined(s')
  {
    forall c
      ensures Ordered(s', c)
    {
      assert Ordered(s, c);
      assert Line(s', c) == Line(s, c)[0..|InLane(s, c)|];
      OrderedSlice(s, s', c, 0, |InLane(s, c)|);
    }
  }

  /** A slot that survives the stop is not one of the pending entries. */
  lemma StoppedSlots(s: Loop, s': Loop, d: Entry, e: Entry)
    requires Lined(s) && TurnsStarted(s) && s'.pending == [] && s'.lanes == s.lanes && s'.late == s.late
    requires IsSlot(s', d) && e in s.pending
    ensures IsSlot(s, d) && IsSlot(s, e) && d.ticket != e.ticket
  {
    var c := e.item.from;
    PendingOfMembers(s.pending, c);
    assert e in Line(s, c) && Ordered(s, c);
    assert forall x :: Line(s', x) == InLane(s, x);
    UnstartedIsNotLate(s, e);
    SlotsDiffer(s, d, e);
    assert AtHead(s, c, Turning) ==> HeadOf(s, c) in s.starts;
    LaterIsElsewhere(InLane(s, c), PendingOf(s.pending, c), e);
  }

  lemma LaterIsElsewhere(a: seq<Entry>, b: seq<Entry>, e: Entry)
    requires Increasing(a + b) && e in b
    ensures e !in a
  {
    var j :| 0 <= j < |b| && b[j] == e;
    assert (a + b)[|a| + j] == e;
    forall i | 0 <= i < |a|
      ensures a[i] != e
    {
      assert (a + b)[i] == a[i];
    }
  }

  lemma StoppedHolding(s: Loop, s': Loop)
    requires Lined(s) && Holding(s) && s' == DropPending(s.(mode := Stopped))
    ensures Holding(s')
  {
    DropPendingForm(s.(mode := Stopped));
    forall d | IsSlot(s', d)
      ensures Owns(s', d)
    {
      forall e | e in s.pending
        ensures d.ticket != e.ticket
      {
        StoppedSlots(s, s', d, e);
      }
      StoppedSlotWasSlot(s, s', d);
    }
    StoppedOwners(s, s');
    assert forall c :: AtHead(s', c, Turning) ==> AtHead(s, c, Turning) && HeadOf(s', c) == HeadOf(s, c);
    hide IsSlot, Line;
    TurnsKept(s, s');
  }

  lemma StoppedSlotWasSlot(s: Loop, s': Loop, d: Entry)
    requires s'.pending == [] && s'.lanes == s.lanes && s'.late == s.late && IsSlot(s', d)
    ensures IsSlot(s, d)
  {
    assert Line(s', d.item.from) == InLane(s, d.item.from);
  }

  lemma StoppedOwners(s: Loop, s': Loop)
    requires Holding(s)
    requires s'.inFlight == s.inFlight - (set e | e in s.pending :: e.item.wamid)
    requires s'.owners == s.owners - (set e | e in s.pending :: e.ticket)
    requires s'.accepted == s.accepted && s'.seen == s.seen && s'.abandoned == s.abandoned
    ensures OwnersSingle(s')
  {
    forall t | t in s'.owners && s'.owners[t] !in s'.abandoned
      ensures s'.owners[t] in s'.inFlight
    {
      forall e | e in s.pending
        ensures e.item.wamid != s'.owners[t]
      {
        PendingOfMembers(s.pending, e.item.from);
        assert IsSlot(s, e) && Owns(s, e);
      }
    }
  }

  // ----- Whole runs -----

  lemma StopsKeeps(s: Loop)
    requires Inv(s)
    ensures Inv(Stops(s))
  {
    hide Holding, Lined, SeenIsRecent;
    var s' := Stops(s);
    DropPendingForm(s.(mode := Stopped));
    StoppedIsLined(s, s');
    StoppedHolding(s, s');
    SeenIsRecentStill(s, s');
    hide Stops, DropPending;
  }

  lemma ModeIsQuiet(s: Loop, mode: Mode)
    requires Lined(s) && Holding(s)
    ensures Lined(s.(mode := mode)) && Holding(s.(mode := mode))
  {
    assert forall c :: Line(s.(mode := mode), c) == Line(s, c);
    QuietKeeps(s, s.(mode := mode));
  }

  lemma PullReturnsKeeps(s: Loop, items: seq<Item>)
    requires Inv(s)
    ensures Inv(PullReturns(s, items))
  {
    hide Holding, Lined;
    if s.mode == Running(true) {
      ModeIsQuiet(s, Running(false));
      EnqueueAllKeeps(s.(mode := Running(false)), items);
      hide EnqueueAll;
    }
  }

  lemma PullStartsKeeps(s: Loop)
    requires Inv(s)
    ensures Inv(PullStarts(s))
  {
    hide Holding, Lined, SeenIsRecent;
    ModeIsQuiet(s, Running(true));
    SeenIsRecentStill(s, PullStarts(s));
  }

  lemma PullFailsKeeps(s: Loop, unauthorized: bool)
    requires Inv(s)
    ensures Inv(PullFails(s, unauthorized))
  {
    hide Holding, Lined, SeenIsRecent;
    ModeIsQuiet(s, Rejected);
    ModeIsQuiet(s, Running(false));
    SeenIsRecentStill(s, PullFails(s, unauthorized));
  }

  lemma StartsKeeps(s: Loop)
    requires Inv(s)
    ensures Inv(Starts(s))
  {
    hide Holding, Lined, SeenIsRecent;
    ModeIsQuiet(s, Running(false));
    SeenIsRecentStill(s, Starts(s));
  }

  /** Whatever happens next, the loop keeps its invariant. */
  lemma StepKeeps(s: Loop, event: Event)
    requires Inv(s)
    ensures Inv(Step(s, event))
  {
    hide Inv, Starts, Stops, PullStarts, PullReturns, PullFails, TurnStarts, TurnSucceeds, TurnFails, TurnTimesOut,
      LaneAdvances, LateSucceeds, LateFails, Abandons;
    match event
    case Start => StartsKeeps(s);
    case Stop => StopsKeeps(s);
    case PullStart => PullStartsKeeps(s);
    case PullReturn(items) => PullReturnsKeeps(s, items);
    case PullFail(unauthorized) => PullFailsKeeps(s, unauthorized);
    case TurnStart(c, now) => TurnStartsKeeps(s, c, now);
    case TurnSuccess(c) => TurnSucceedsKeeps(s, c);
    case TurnFailure(c, now) => TurnFailsKeeps(s, c, now);
    case TurnTimeout(c, now) => TurnTimesOutKeeps(s, c, now);
    case LaneAdvance(c) => LaneAdvancesKeeps(s, c);
    case LateSuccess(t) => LateSucceedsKeeps(s, t);
    case LateFailure(t) => LateFailsKeeps(s, t);
    case Abandon(t) => AbandonsKeeps(s, t);
  }

  lemma {:induction false} RunKeeps(limits: Limits, events: seq<Event>)
    ensures Inv(Run(Init(limits), events))
    decreases |events|
  {
    if events != [] {
      var before := events[..|events| - 1];
      RunKeeps(limits, before);
      StepKeeps(Run(Init(limits), before), events[|events| - 1]);
    }
  }

  /** However batches, turns, failures, timeouts, stops and restarts interleave, the handlers of one customer
      start in the order the loop accepted the messages. */
  lemma StartsFollowAcceptance(limits: Limits, events: seq<Event>, i: nat, j: nat)
    requires i < j < |Run(Init(limits), events).starts|
    ensures var s := Run(Init(limits), events);
            var d, e := s.starts[i], s.starts[j];
            && d.ticket < |s.accepted| && s.accepted[d.ticket] == d.item
            && e.ticket < |s.accepted| && s.accepted[e.ticket] == e.item
            && (d.item.from == e.item.from ==> d.ticket < e.ticket)
  {
    RunKeeps(limits, events);
    var s := Run(Init(limits), events);
    assert s.starts[i] in s.starts && s.starts[j] in s.starts;
    assert WasAccepted(s, s.starts[i]) && WasAccepted(s, s.starts[j]);
  }

  /** A handler is running for `w` on ticket `t`: as the turn of a lane, or past its timeout. */
  predicate Handling(s: Loop, t: Ticket, w: Wamid) {
    || (exists c | c in s.lanes :: AtHead(s, c, Turning) && HeadOf(s, c).ticket == t && HeadOf(s, c).item.wamid == w)
    || (t in s.late && s.late[t].item.wamid == w)
  }

  /** While no turn of a message was given up, no two handlers of it run, none runs for a message still
      among the last completed ones, and what runs is in flight, so no redelivery is accepted beside it. */
  lemma OneHandlerPerMessage(limits: Limits, events: seq<Event>, t: Ticket, w: Wamid)
    requires var s := Run(Init(limits), events); Handling(s, t, w) && w !in s.abandoned
    ensures var s := Run(Init(limits), events);
            && w in s.inFlight && w !in s.seen
            && (forall u :: Handling(s, u, w) ==> u == t)
            && (forall item: Item :: item.wamid == w ==> Enqueue(s, item) == s)
  {
    RunKeeps(limits, events);
    var s := Run(Init(limits), events);
    forall u | Handling(s, u, w)
      ensures u in s.owners && s.owners[u] == w
    {
      HandlingOwns(s, u, w);
    }
    HandlingOwns(s, t, w);
  }

  lemma HandlingOwns(s: Loop, t: Ticket, w: Wamid)
    requires Inv(s) && Handling(s, t, w) && w !in s.abandoned
    ensures t in s.owners && s.owners[t] == w
  {
    if t in s.late && s.late[t].item.wamid == w {
      assert IsSlot(s, Entry(s.late[t].item, t));
    } else {
      var c :| c in s.lanes && AtHead(s, c, Turning) && HeadOf(s, c).ticket == t && HeadOf(s, c).item.wamid == w;
      HeadIsSlot(s, c);
    }
  }

  /** A message whose turn completed is not accepted again until 500 others were remembered after it. */
  lemma RecentlyCompletedIsOnlyAcked(limits: Limits, events: seq<Event>, item: Item, i: nat)
    requires var s := Run(Init(limits), events);
             i < |s.remembered| && |s.remembered| - i <= SEEN_LIMIT && s.remembered[i] == item.wamid
    ensures var s := Run(Init(limits), events); Enqueue(s, item) == s.(acked := s.acked + [item])
  {
    RunKeeps(limits, events);
    var s := Run(Init(limits), events);
    assert s.seen[i - (|s.remembered| - |s.seen|)] == item.wamid;
  }

  /** An ack is only ever sent for a message a turn of which has completed. */
  lemma AcksFollowTurns(limits: Limits, events: seq<Event>)
    ensures forall item :: item in Run(Init(limits), events).acked ==>
              item.wamid in Run(Init(limits), events).remembered
  {
    RunKeeps(limits, events);
  }

  lemma {:induction false} EnqueueAllKeepsHistory(s: Loop, items: seq<Item>)
    ensures EnqueueAll(s, items).limits == s.limits && EnqueueAll(s, items).remembered == s.remembered
    decreases |items|
  {
    if items != [] {
      EnqueueAllKeepsHistory(Enqueue(s, items[0]), items[1..]);
    }
  }

  lemma {:induction false} DrainKeepsHistory(s: Loop)
    ensures Drain(s).limits == s.limits && Drain(s).remembered == s.remembered
    decreases |s.pending|
  {
    if s.pending != [] && |s.lanes| < s.limits.maxInFlight {
      DrainKeepsHistory(StartOnLane(s.(pending := s.pending[1..]), s.pending[0]));
    }
  }

  /** The limits never change and what was completed stays completed. */
  lemma StepKeepsHistory(s: Loop, event: Event)
    ensures Step(s, event).limits == s.limits && s.remembered <= Step(s, event).remembered
  {
    match event
    case Stop => DropPendingForm(s.(mode := Stopped));
    case PullReturn(items) => EnqueueAllKeepsHistory(s.(mode := Running(false)), items);
    case LaneAdvance(c) => if AtHead(s, c, Settling) { DrainKeepsHistory(Popped(s, c)); }
    case _ =>
  }

  lemma {:induction false} LimitsAreFixed(limits: Limits, events: seq<Event>)
    ensures Run(Init(limits), events).limits == limits
    decreases |events|
  {
    if events != [] {
      var before := events[..|events| - 1];
      LimitsAreFixed(limits, before);
      StepKeepsHistory(Run(Init(limits), before), events[|events| - 1]);
    }
  }

  /** Lanes stay within their limit, and messages wait outside them only while every lane is taken. */
  lemma LanesAreBounded(limits: Limits, events: seq<Event>)
    ensures var s := Run(Init(limits), events);
            && |s.lanes| <= limits.maxInFlight
            && (s.pending != [] ==> |s.lanes| == limits.maxInFlight && s.mode != Running(true))
  {
    RunKeeps(limits, events);
    LimitsAreFixed(limits, events);
  }
}
