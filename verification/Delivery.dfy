/** Store, network and poll loops together: what can have become of a message that entered the inbox. The
    dispatcher and the wire are taken at their worst: a leased item may arrive any number of times or never,
    in any order, and so may an ack; a container may restart and forget its loop between any two steps. */
module Delivery {
  import opened Options
  import opened PollSpec
  import PollProofs
  import opened Inbox

  datatype Transit = Transit(bot: Bot, item: Item)
  datatype Turned = Turned(bot: Bot, wamid: Wamid)

  /** Why a message needs no turn any more. */
  datatype Fate = TooOld(at: Time) | NotReadable | Applied | Disconnected

  /** `air` is everything ever leased to a plugin; `acking` and `turned` are what restarted loops had acked
      and completed; `inserted` and `fates` are the history of the table. */
  datatype System = System(
    table: Table,
    loops: map<Bot, Loop>,
    air: set<Transit>,
    acking: set<Transit>,
    turned: set<Turned>,
    inserted: Table,
    fates: map<Id, Fate>)

  datatype Event =
    | Webhook(id: Id, row: InboxRow)
    | Query(asking: set<Bot>, limit: nat, dbNow: Time, now: Time, locked: set<Id>)
    | DropUnreadable(ids: set<Id>, now: Time)
    | Apply(bot: Bot, ids: set<Id>, now: Time)
    | Deliver(bot: Bot, items: seq<Item>)
    | LoopStep(bot: Bot, step: PollSpec.Event)
    | Restart(bot: Bot, limits: Limits)
    | AckArrives(bot: Bot, acks: seq<Item>, now: Time)
    | SweepOld(now: Time)
    | RetireRows(now: Time)
    | PurgeBot(bot: Bot)

  const Empty := System(map[], map[], {}, {}, {}, map[], map[])

  // ----- The steps -----

  predicate Fresh(r: InboxRow) {
    Open(r) && r.leasedUntil.None? && r.payload.Some?
  }

  predicate IsMessage(r: InboxRow) {
    r.payload.Some? && r.payload.value.Message?
  }

  predicate IsApplied(r: InboxRow) {
    r.payload.Some? && (r.payload.value.OwnerEcho? || r.payload.value.PartnerRemoved?)
  }

  predicate IsUnreadable(r: InboxRow) {
    r.payload == Some(Unreadable)
  }

  function ItemOf(id: Id, r: InboxRow): Item
    requires IsMessage(r)
  {
    Item(id, r.wamid, r.payload.value.from)
  }

  function Leased(t: Table, ids: set<Id>): set<Transit> {
    set id | id in ids && id in t && IsMessage(t[id]) :: Transit(t[id].bot, ItemOf(id, t[id]))
  }

  predicate Completed(s: System, bot: Bot, wamid: Wamid) {
    Turned(bot, wamid) in s.turned || (bot in s.loops && wamid in s.loops[bot].remembered)
  }

  predicate Acked(s: System, bot: Bot, item: Item) {
    Transit(bot, item) in s.acking || (bot in s.loops && item in s.loops[bot].acked)
  }

  function WithFates(s: System, ids: set<Id>, fate: Fate): map<Id, Fate> {
    map id | id in s.fates.Keys + ids :: if id in s.fates then s.fates[id] else fate
  }

  function IdsOf(items: seq<Item>): set<Id> {
    set i | 0 <= i < |items| :: items[i].id
  }

  /** What may happen next: a step outside of this leaves the system as it is. */
  predicate Possible(s: System, e: Event) {
    match e
    case Webhook(id, row) => id !in s.inserted && Fresh(row)
    case DropUnreadable(ids, _) => forall id :: id in ids ==> id in s.inserted && IsUnreadable(s.inserted[id])
    case Apply(bot, ids, _) => forall id :: id in ids ==>
        id in s.inserted && s.inserted[id].bot == bot && IsApplied(s.inserted[id])
    case Deliver(bot, items) => bot in s.loops && forall item :: item in items ==> Transit(bot, item) in s.air
    case LoopStep(bot, step) => bot in s.loops && !step.PullReturn?
    case AckArrives(bot, acks, _) => forall item :: item in acks ==> Acked(s, bot, item)
    case _ => true
  }

  function Restarted(s: System, bot: Bot, limits: Limits): System {
    var acks := if bot in s.loops then set item | item in s.loops[bot].acked :: Transit(bot, item) else {};
    var done := if bot in s.loops then set w | w in s.loops[bot].remembered :: Turned(bot, w) else {};
    s.(loops := s.loops[bot := Init(limits)], acking := s.acking + acks, turned := s.turned + done)
  }

  function Step(s: System, e: Event): System {
    if !Possible(s, e) then s
    else
      match e
      case Webhook(id, row) =>
        if Known(s.table, row.wamid) then s
          else s.(table := Insert(s.table, id, row), inserted := s.inserted[id := row])
      case Query(asking, limit, dbNow, now, locked) =>
        var ids := PickedOf(s.table, asking, limit, dbNow, locked);
        s.(table := Lease(s.table, ids, now), air := s.air + Leased(s.table, ids))
      case DropUnreadable(ids, now) => s.(table := Drop(s.table, ids, now), fates := WithFates(s, ids, NotReadable))
      case Apply(bot, ids, now) => s.(table := Ack(s.table, bot, ids, now), fates := WithFates(s, ids, Applied))
      case Deliver(bot, items) => s.(loops := s.loops[bot := PollSpec.Step(s.loops[bot], PullReturn(items))])
      case LoopStep(bot, step) => s.(loops := s.loops[bot := PollSpec.Step(s.loops[bot], step)])
      case Restart(bot, limits) => Restarted(s, bot, limits)
      case AckArrives(bot, acks, now) => s.(table := Ack(s.table, bot, IdsOf(acks), now))
      case SweepOld(now) =>
        var ids := AgedOf(s.table, now);
        s.(table := Drop(s.table, ids, now), fates := WithFates(s, ids, TooOld(now)))
      case RetireRows(now) => s.(table := Retire(s.table, now))
      case PurgeBot(bot) =>
        var ids := set id | id in s.table && s.table[id].bot == bot;
        s.(table := Purge(s.table, bot), fates := WithFates(s, ids, Disconnected))
  }

  function Run(events: seq<Event>): System {
    if events == [] then Empty else Step(Run(events[..|events| - 1]), events[|events| - 1])
  }

  // ----- What every run keeps -----

  /** Whatever a loop holds or has acked came to it in a delivery. */
  ghost predicate Carries(s: Loop, delivered: set<Item>) {
    && (forall item :: item in s.acked ==> item in delivered)
    && (forall c, e :: c in s.lanes && e in s.lanes[c].queue ==> e.item in delivered)
    && (forall e :: e in s.pending ==> e.item in delivered)
    && (forall t :: t in s.late ==> s.late[t].item in delivered)
  }

  function DeliveredTo(air: set<Transit>, bot: Bot): set<Item> {
    set tr | tr in air && tr.bot == bot :: tr.item
  }

  ghost predicate LoopsSound(s: System) {
    && (forall bot :: bot in s.loops ==> PollProofs.Inv(s.loops[bot]))
    && (forall bot :: bot in s.loops ==> Carries(s.loops[bot], DeliveredTo(s.air, bot)))
  }

  predicate Genuine(s: System, tr: Transit) {
    && tr.item.id in s.inserted
    && IsMessage(s.inserted[tr.item.id])
    && s.inserted[tr.item.id].bot == tr.bot
    && tr.item == ItemOf(tr.item.id, s.inserted[tr.item.id])
  }

  ghost predicate AirGenuine(s: System) {
    && (forall tr :: tr in s.air ==> Genuine(s, tr))
    && (forall tr :: tr in s.acking ==> tr in s.air && Turned(tr.bot, tr.item.wamid) in s.turned)
  }

  predicate Matches(s: System, id: Id)
    requires id in s.table
  {
    && id in s.inserted
    && s.table[id].bot == s.inserted[id].bot
    && s.table[id].wamid == s.inserted[id].wamid
    && s.table[id].receivedAt == s.inserted[id].receivedAt
    && (Open(s.table[id]) ==> s.table[id].payload == s.inserted[id].payload)
  }

  predicate Explained(s: System, id: Id)
    requires id in s.table && id in s.inserted
  {
    && (s.table[id].ackedAt.Some? ==>
         if IsMessage(s.inserted[id]) then Completed(s, s.inserted[id].bot, s.inserted[id].wamid) else id in s.fates)
    && (s.table[id].droppedAt.Some? ==> id in s.fates)
  }

  predicate Accounted(s: System, id: Id)
    requires id in s.inserted
  {
    || (id in s.table && Open(s.table[id]))
    || (IsMessage(s.inserted[id]) && Completed(s, s.inserted[id].bot, s.inserted[id].wamid))
    || id in s.fates
  }

  predicate FateMeans(s: System, id: Id)
    requires id in s.inserted && id in s.fates
  {
    match s.fates[id]
    case TooOld(at) => s.inserted[id].receivedAt + INBOX_DROP_AFTER_MS < at
    case NotReadable => IsUnreadable(s.inserted[id])
    case Applied => IsApplied(s.inserted[id])
    case Disconnected => true
  }

  ghost predicate TableMatches(s: System) {
    forall id :: id in s.table ==> Matches(s, id) && Explained(s, id)
  }

  ghost predicate NothingLost(s: System) {
    && (forall id :: id in s.inserted ==> Accounted(s, id))
    && (forall id :: id in s.fates ==> id in s.inserted && FateMeans(s, id))
  }

  ghost predicate Inv(s: System) {
    LoopsSound(s) && AirGenuine(s) && TableMatches(s) && NothingLost(s)
  }

  // ----- Loops carry only what was delivered -----

  lemma EnqueueCarries(s: Loop, item: Item, delivered: set<Item>)
    requires Carries(s, delivered) && item in delivered
    ensures Carries(Enqueue(s, item), delivered)
  {}

  lemma {:induction false} EnqueueAllCarries(s: Loop, items: seq<Item>, delivered: set<Item>)
    requires Carries(s, delivered) && forall item :: item in items ==> item in delivered
    ensures Carries(EnqueueAll(s, items), delivered)
    decreases |items|
  {
    hide Carries, Enqueue;
    if items != [] {
      EnqueueCarries(s, items[0], delivered);
      EnqueueAllCarries(Enqueue(s, items[0]), items[1..], delivered);
    }
  }

  lemma {:induction false} DrainCarries(s: Loop, delivered: set<Item>)
    requires Carries(s, delivered)
    ensures Carries(Drain(s), delivered)
    decreases |s.pending|
  {
    if s.pending != [] && |s.lanes| < s.limits.maxInFlight {
      DrainCarries(StartOnLane(s.(pending := s.pending[1..]), s.pending[0]), delivered);
    }
  }

  lemma {:induction false} DropPendingCarries(s: Loop, delivered: set<Item>)
    requires Carries(s, delivered)
    ensures Carries(DropPending(s), delivered)
    decreases |s.pending|
  {
    if s.pending != [] {
      var e := s.pending[0];
      DropPendingCarries(Released(s.(pending := s.pending[1..]), e.ticket, e.item.wamid), delivered);
    }
  }

  lemma TurnsCarry(s: Loop, c: Customer, now: int, delivered: set<Item>)
    requires Carries(s, delivered)
    ensures Carries(TurnStarts(s, c, now), delivered) && Carries(TurnSucceeds(s, c), delivered)
  {}

  lemma FailuresCarry(s: Loop, c: Customer, now: int, delivered: set<Item>)
    requires Carries(s, delivered)
    ensures Carries(TurnFails(s, c, now), delivered) && Carries(TurnTimesOut(s, c, now), delivered)
  {}

  lemma LateCarries(s: Loop, t: Ticket, delivered: set<Item>)
    requires Carries(s, delivered)
    ensures Carries(LateSucceeds(s, t), delivered) && Carries(LateFails(s, t), delivered) &&
            Carries(Abandons(s, t), delivered)
  {}

  lemma AdvanceCarries(s: Loop, c: Customer, delivered: set<Item>)
    requires Carries(s, delivered)
    ensures Carries(LaneAdvances(s, c), delivered)
  {
    if AtHead(s, c, Settling) {
      DrainCarries(s.(lanes := if |s.lanes[c].queue| == 1 then Without(s.lanes, c)
        else s.lanes[c := Lane(s.lanes[c].queue[1..], Waiting)]), delivered);
    }
  }

  lemma ModeCarries(s: Loop, mode: Mode, delivered: set<Item>)
    requires Carries(s, delivered)
    ensures Carries(s.(mode := mode), delivered)
  {}

  lemma StepCarries(s: Loop, step: PollSpec.Event, delivered: set<Item>)
    requires Carries(s, delivered) && (step.PullReturn? ==> forall item :: item in step.items ==> item in delivered)
    ensures Carries(PollSpec.Step(s, step), delivered)
  {
    hide Carries, TurnStarts, TurnSucceeds, TurnFails, TurnTimesOut, LateSucceeds, LateFails, Abandons, LaneAdvances;
    ModeCarries(s, Running(false), delivered);
    ModeCarries(s, Running(true), delivered);
    ModeCarries(s, Rejected, delivered);
    ModeCarries(s, Stopped, delivered);
    match step
    case Stop => DropPendingCarries(s.(mode := Stopped), delivered);
    case PullReturn(items) => EnqueueAllCarries(s.(mode := Running(false)), items, delivered);
    case TurnStart(c, now) => TurnsCarry(s, c, now, delivered);
    case TurnSuccess(c) => TurnsCarry(s, c, 0, delivered);
    case TurnFailure(c, now) => FailuresCarry(s, c, now, delivered);
    case TurnTimeout(c, now) => FailuresCarry(s, c, now, delivered);
    case LaneAdvance(c) => AdvanceCarries(s, c, delivered);
    case LateSuccess(t) => LateCarries(s, t, delivered);
    case LateFailure(t) => LateCarries(s, t, delivered);
    case Abandon(t) => LateCarries(s, t, delivered);
    case _ =>
  }

  // ----- The system keeps its invariant -----

  /** The loops run on, and nothing that was on its way or completed is forgotten. */
  ghost predicate Grows(s: System, s': System) {
    && s.air <= s'.air
    && s.inserted == s'.inserted
    && (forall id :: id in s.fates ==> id in s'.fates && s'.fates[id] == s.fates[id])
    && (forall bot, w :: Completed(s, bot, w) ==> Completed(s', bot, w))
  }

  lemma SameLoopsStaySound(s: System, s': System)
    requires LoopsSound(s) && s.air <= s'.air && s'.loops == s.loops
    ensures LoopsSound(s')
  {
    hide PollProofs.Inv;
    forall bot | bot in s.loops
      ensures Carries(s'.loops[bot], DeliveredTo(s'.air, bot))
    {
      assert DeliveredTo(s.air, bot) <= DeliveredTo(s'.air, bot);
    }
  }

  lemma LoopSteps(loop: Loop, step: PollSpec.Event, delivered: set<Item>)
    requires PollProofs.Inv(loop) && Carries(loop, delivered)
    requires step.PullReturn? ==> forall item :: item in step.items ==> item in delivered
    ensures var loop' := PollSpec.Step(loop, step);
            && PollProofs.Inv(loop') && Carries(loop', delivered)
            && (forall w :: w in loop.remembered ==> w in loop'.remembered)
  {
    hide PollProofs.Inv, Carries, PollSpec.Step;
    PollProofs.StepKeeps(loop, step);
    PollProofs.StepKeepsHistory(loop, step);
    StepCarries(loop, step, delivered);
  }

  lemma LoopRunsOn(s: System, bot: Bot, loop: Loop)
    requires LoopsSound(s) && bot in s.loops && PollProofs.Inv(loop) && Carries(loop, DeliveredTo(s.air, bot))
    requires forall w :: w in s.loops[bot].remembered ==> w in loop.remembered
    ensures var s' := s.(loops := s.loops[bot := loop]); LoopsSound(s') && Grows(s, s')
  {
    hide PollProofs.Inv, Carries;
  }

  lemma LoopIsSound(s: System, bot: Bot)
    requires LoopsSound(s) && bot in s.loops
    ensures PollProofs.Inv(s.loops[bot]) && Carries(s.loops[bot], DeliveredTo(s.air, bot))
  {
    hide PollProofs.Inv, Carries;
  }

  lemma OnItsWayIsDelivered(s: System, bot: Bot, items: seq<Item>)
    requires forall item :: item in items ==> Transit(bot, item) in s.air
    ensures forall item :: item in items ==> item in DeliveredTo(s.air, bot)
  {
    forall item | item in items
      ensures item in DeliveredTo(s.air, bot)
    {
      assert Transit(bot, item) in s.air && Transit(bot, item).bot == bot;
    }
  }

  lemma AckedIsGenuine(s: System, bot: Bot, item: Item)
    requires LoopsSound(s) && AirGenuine(s) && Acked(s, bot, item)
    ensures Genuine(s, Transit(bot, item)) && Transit(bot, item) in s.air && Completed(s, bot, item.wamid)
  {
    if Transit(bot, item) !in s.acking {
      assert item in DeliveredTo(s.air, bot);
      assert Transit(bot, item) in s.air;
    }
  }

  lemma NewLoopIsSound(limits: Limits, delivered: set<Item>)
    ensures PollProofs.Inv(Init(limits)) && Carries(Init(limits), delivered)
  {
    PollProofs.RunKeeps(limits, []);
  }

  /** A restart forgets the loop, never what it completed or acked. */
  lemma RestartKeeps(s: System, bot: Bot, limits: Limits)
    requires LoopsSound(s) && AirGenuine(s)
    ensures var s' := Restarted(s, bot, limits);
            LoopsSound(s') && AirGenuine(s') && Grows(s, s')
  {
    hide PollProofs.Inv, Carries, Genuine;
    var s' := Restarted(s, bot, limits);
    NewLoopIsSound(limits, DeliveredTo(s.air, bot));
    forall tr | tr in s'.acking
      ensures tr in s'.air && Turned(tr.bot, tr.item.wamid) in s'.turned
    {
      if tr !in s.acking {
        AckedIsGenuine(s, bot, tr.item);
      }
    }
    GenuineStays(s, s');
  }

  lemma GenuineStays(s: System, s': System)
    requires forall id :: id in s.inserted ==> id in s'.inserted && s'.inserted[id] == s.inserted[id]
    ensures forall tr :: Genuine(s, tr) ==> Genuine(s', tr)
  {}

  lemma GrowthKeeps(s: System, s': System)
    requires TableMatches(s) && NothingLost(s) && Grows(s, s') && s'.table == s.table && s'.fates == s.fates
    ensures TableMatches(s') && NothingLost(s')
  {
    hide Completed;
    forall id | id in s'.table
      ensures Matches(s', id) && Explained(s', id)
    {
      assert Matches(s, id) && Explained(s, id);
    }
    forall id | id in s'.inserted
      ensures Accounted(s', id)
    {
      assert Accounted(s, id);
    }
    forall id | id in s'.fates
      ensures id in s'.inserted && FateMeans(s', id)
    {
      assert FateMeans(s, id);
    }
  }

  lemma WebhookKeeps(s: System, id: Id, row: InboxRow)
    requires TableMatches(s) && AirGenuine(s) && NothingLost(s) && id !in s.inserted && Fresh(row) &&
             !Known(s.table, row.wamid)
    ensures var s' := s.(table := Insert(s.table, id, row), inserted := s.inserted[id := row]);
            TableMatches(s') && AirGenuine(s') && NothingLost(s')
  {
    var s' := s.(table := Insert(s.table, id, row), inserted := s.inserted[id := row]);
    assert id !in s.table;
    forall other | other in s'.table
      ensures Matches(s', other) && Explained(s', other)
    {
      assert other != id ==> Matches(s, other) && Explained(s, other);
    }
    forall other | other in s'.inserted
      ensures Accounted(s', other)
    {
      assert other != id ==> Accounted(s, other);
    }
    forall other | other in s'.fates
      ensures other in s'.inserted && FateMeans(s', other)
    {
      assert FateMeans(s, other);
    }
    GenuineStays(s, s');
  }

  lemma QueryKeeps(s: System, ids: set<Id>, now: Time)
    requires TableMatches(s) && AirGenuine(s) && NothingLost(s)
    requires forall id :: id in ids ==> id in s.table && Open(s.table[id])
    ensures var s' := s.(table := Lease(s.table, ids, now), air := s.air + Leased(s.table, ids));
            TableMatches(s') && AirGenuine(s') && NothingLost(s')
  {
    var s' := s.(table := Lease(s.table, ids, now), air := s.air + Leased(s.table, ids));
    forall id | id in s'.table
      ensures Matches(s', id) && Explained(s', id)
    {
      assert Matches(s, id) && Explained(s, id);
    }
    forall id | id in s'.inserted
      ensures Accounted(s', id)
    {
      assert Accounted(s, id);
    }
    forall tr | tr in s'.air
      ensures Genuine(s', tr)
    {
      if tr !in s.air {
        assert Matches(s, tr.item.id);
      }
    }
    forall id | id in s'.fates
      ensures id in s'.inserted && FateMeans(s', id)
    {
      assert FateMeans(s, id);
    }
  }

  /** Rows given up with a reason: by age, as unreadable, or with their bot's inbox. */
  lemma FatesKeep(s: System, table: Table, ids: set<Id>, fate: Fate)
    requires TableMatches(s) && AirGenuine(s) && NothingLost(s)
    requires forall id :: id in ids ==> id in s.inserted && FateMeans(s.(fates := map[id := fate]), id)
    requires forall id :: id in table ==> id in s.table && (id in ids || table[id] == s.table[id])
    requires forall id :: id in table && id in ids ==>
               table[id].bot == s.table[id].bot && table[id].wamid == s.table[id].wamid &&
                 table[id].receivedAt == s.table[id].receivedAt
    requires forall id :: id in table && id in ids ==> !Open(table[id]) || table[id] == s.table[id]
    requires forall id :: id in table && id in ids && table[id].ackedAt.Some? && IsMessage(s.inserted[id]) ==>
               s.table[id].ackedAt.Some?
    requires forall id :: id in s.table && id !in table ==> id in ids
    ensures var s' := s.(table := table, fates := WithFates(s, ids, fate));
            TableMatches(s') && AirGenuine(s') && NothingLost(s')
  {
    var s' := s.(table := table, fates := WithFates(s, ids, fate));
    forall id | id in s'.table
      ensures Matches(s', id) && Explained(s', id)
    {
      assert Matches(s, id) && Explained(s, id);
    }
    forall id | id in s'.inserted
      ensures Accounted(s', id)
    {
      assert Accounted(s, id);
    }
    forall id | id in s'.fates
      ensures id in s'.inserted && FateMeans(s', id)
    {
      if id in s.fates {
        assert FateMeans(s, id);
      } else {
        assert FateMeans(s.(fates := map[id := fate]), id);
      }
    }
    GenuineStays(s, s');
  }

  lemma AcksAreCompleted(s: System, bot: Bot, acks: seq<Item>)
    requires LoopsSound(s) && AirGenuine(s)
    requires forall item :: item in acks ==> Acked(s, bot, item)
    ensures forall id :: id in IdsOf(acks) ==> CompletedRow(s, bot, id)
  {
    hide LoopsSound, AirGenuine, Acked, Completed;
    forall id | id in IdsOf(acks)
      ensures CompletedRow(s, bot, id)
    {
      var i :| 0 <= i < |acks| && acks[i].id == id;
      assert acks[i] in acks;
      AckedIsGenuine(s, bot, acks[i]);
    }
  }

  predicate CompletedRow(s: System, bot: Bot, id: Id) {
    id in s.inserted && s.inserted[id].bot == bot && IsMessage(s.inserted[id]) &&
      Completed(s, bot, s.inserted[id].wamid)
  }

  lemma AckKeepsTable(s: System, bot: Bot, ids: set<Id>, now: Time)
    requires TableMatches(s) && AirGenuine(s) && NothingLost(s)
    requires forall id :: id in ids ==> CompletedRow(s, bot, id)
    ensures var s' := s.(table := Ack(s.table, bot, ids, now));
            TableMatches(s') && AirGenuine(s') && NothingLost(s')
  {
    hide Completed;
    var s' := s.(table := Ack(s.table, bot, ids, now));
    assert forall b, w :: Completed(s', b, w) <==> Completed(s, b, w) by { SameLoopsComplete(s, s'); }
    forall id | id in s'.table
      ensures Matches(s', id) && Explained(s', id)
    {
      assert Matches(s, id) && Explained(s, id);
    }
    forall id | id in s'.inserted
      ensures Accounted(s', id)
    {
      assert Accounted(s, id);
    }
    forall id | id in s'.fates
      ensures id in s'.inserted && FateMeans(s', id)
    {
      assert FateMeans(s, id);
    }
    GenuineStays(s, s');
  }

  lemma SameLoopsComplete(s: System, s': System)
    requires s.loops == s'.loops && s.turned == s'.turned
    ensures forall b, w :: Completed(s', b, w) <==> Completed(s, b, w)
  {}

  /** Only rows already acked or dropped are retired. */
  lemma RetireKeeps(s: System, now: Time)
    requires TableMatches(s) && AirGenuine(s) && NothingLost(s)
    ensures var s' := s.(table := Retire(s.table, now));
            TableMatches(s') && AirGenuine(s') && NothingLost(s')
  {
    var s' := s.(table := Retire(s.table, now));
    forall id | id in s'.table
      ensures Matches(s', id) && Explained(s', id)
    {
      assert Matches(s, id) && Explained(s, id);
    }
    forall id | id in s'.inserted
      ensures Accounted(s', id)
    {
      assert Accounted(s, id);
      if id in s.table {
        assert Explained(s, id);
      }
    }
    forall id | id in s'.fates
      ensures id in s'.inserted && FateMeans(s', id)
    {
      assert FateMeans(s, id);
    }
    GenuineStays(s, s');
  }

  lemma StepKeeps(s: System, e: Event)
    requires Inv(s)
    ensures Inv(Step(s, e))
  {
    hide LoopsSound, AirGenuine, TableMatches, NothingLost, Acked, PollProofs.Inv, Carries, PollSpec.Step;
    var s' := Step(s, e);
    if !Possible(s, e) {
      return;
    }
    match e
    case Webhook(id, row) =>
      if !Known(s.table, row.wamid) {
        WebhookKeeps(s, id, row);
        SameLoopsStaySound(s, s');
      }
    case Query(asking, limit, dbNow, now, locked) =>
      QueryKeeps(s, PickedOf(s.table, asking, limit, dbNow, locked), now);
      SameLoopsStaySound(s, s');
    case DropUnreadable(ids, now) => DropUnreadableKeeps(s, ids, now);
    case Apply(bot, ids, now) => ApplyKeeps(s, bot, ids, now);
    case Deliver(bot, items) =>
      OnItsWayIsDelivered(s, bot, items);
      LoopIsSound(s, bot);
      LoopSteps(s.loops[bot], PullReturn(items), DeliveredTo(s.air, bot));
      LoopRunsOn(s, bot, PollSpec.Step(s.loops[bot], PullReturn(items)));
      GrowthKeeps(s, s');
      LoopGrowthKeepsAir(s, s');
    case LoopStep(bot, step) =>
      LoopIsSound(s, bot);
      LoopSteps(s.loops[bot], step, DeliveredTo(s.air, bot));
      LoopRunsOn(s, bot, PollSpec.Step(s.loops[bot], step));
      GrowthKeeps(s, s');
      LoopGrowthKeepsAir(s, s');
    case Restart(bot, limits) =>
      RestartKeeps(s, bot, limits);
      GrowthKeeps(s, s');
    case AckArrives(bot, acks, now) =>
      AcksAreCompleted(s, bot, acks);
      AckKeepsTable(s, bot, IdsOf(acks), now);
      SameLoopsStaySound(s, s');
    case SweepOld(now) => SweepKeeps(s, now);
    case RetireRows(now) =>
      RetireKeeps(s, now);
      SameLoopsStaySound(s, s');
    case PurgeBot(bot) => PurgeKeeps(s, bot);
  }

  lemma LoopGrowthKeepsAir(s: System, s': System)
    requires AirGenuine(s) && s.air == s'.air && s.acking == s'.acking && s.turned == s'.turned &&
             s.inserted == s'.inserted
    ensures AirGenuine(s')
  {
    GenuineStays(s, s');
  }

  lemma DropUnreadableKeeps(s: System, ids: set<Id>, now: Time)
    requires Inv(s) && forall id :: id in ids ==> id in s.inserted && IsUnreadable(s.inserted[id])
    ensures Inv(s.(table := Drop(s.table, ids, now), fates := WithFates(s, ids, NotReadable)))
  {
    hide LoopsSound;
    FatesKeep(s, Drop(s.table, ids, now), ids, NotReadable);
    SameLoopsStaySound(s, s.(table := Drop(s.table, ids, now), fates := WithFates(s, ids, NotReadable)));
  }

  lemma ApplyKeeps(s: System, bot: Bot, ids: set<Id>, now: Time)
    requires Inv(s) && forall id :: id in ids ==>
               id in s.inserted && s.inserted[id].bot == bot && IsApplied(s.inserted[id])
    ensures Inv(s.(table := Ack(s.table, bot, ids, now), fates := WithFates(s, ids, Applied)))
  {
    hide LoopsSound;
    FatesKeep(s, Ack(s.table, bot, ids, now), ids, Applied);
    SameLoopsStaySound(s, s.(table := Ack(s.table, bot, ids, now), fates := WithFates(s, ids, Applied)));
  }

  lemma SweepKeeps(s: System, now: Time)
    requires Inv(s)
    ensures Inv(Step(s, SweepOld(now)))
  {
    hide LoopsSound, AirGenuine, NothingLost;
    var ids := AgedOf(s.table, now);
    AgedAreTooOld(s, now);
    FatesKeep(s, Drop(s.table, ids, now), ids, TooOld(now));
    hide TableMatches;
    SameLoopsStaySound(s, Step(s, SweepOld(now)));
  }

  lemma AgedAreTooOld(s: System, now: Time)
    requires TableMatches(s)
    ensures forall id :: id in AgedOf(s.table, now) ==>
              id in s.inserted && FateMeans(s.(fates := map[id := TooOld(now)]), id)
  {
    forall id | id in AgedOf(s.table, now)
      ensures id in s.inserted && FateMeans(s.(fates := map[id := TooOld(now)]), id)
    {
      assert Matches(s, id);
    }
  }

  lemma PurgeKeeps(s: System, bot: Bot)
    requires Inv(s)
    ensures Inv(Step(s, PurgeBot(bot)))
  {
    hide LoopsSound;
    var ids := set id | id in s.table && s.table[id].bot == bot;
    forall id | id in ids
      ensures id in s.inserted && FateMeans(s.(fates := map[id := Disconnected]), id)
    {
      assert Matches(s, id);
    }
    FatesKeep(s, Purge(s.table, bot), ids, Disconnected);
    SameLoopsStaySound(s, Step(s, PurgeBot(bot)));
  }

  lemma {:induction false} RunKeeps(events: seq<Event>)
    ensures Inv(Run(events))
  {
    if events != [] {
      RunKeeps(events[..|events| - 1]);
      StepKeeps(Run(events[..|events| - 1]), events[|events| - 1]);
    }
  }

  /** No message is ever lost silently: at any moment of any run it is open in the table, its turn completed,
      or it was given up for a reason the history names. */
  lemma NoSilentLoss(events: seq<Event>, id: Id)
    requires id in Run(events).inserted
    ensures var s := Run(events);
            var row := s.inserted[id];
            || (id in s.table && Open(s.table[id]) && s.table[id].bot == row.bot && s.table[id].payload == row.payload)
            || (IsMessage(row) && Completed(s, row.bot, row.wamid))
            || (id in s.fates && FateMeans(s, id))
  {
    RunKeeps(events);
    var s := Run(events);
    assert Accounted(s, id);
    if id in s.table {
      assert Matches(s, id);
    }
  }

  /** An ack in the table means the turn is over, for every customer message. */
  lemma AckedMeansCompleted(events: seq<Event>, id: Id)
    requires id in Run(events).table && Run(events).table[id].ackedAt.Some?
    ensures var s := Run(events);
            id in s.inserted && (IsMessage(s.inserted[id]) ==> Completed(s, s.table[id].bot, s.table[id].wamid))
  {
    RunKeeps(events);
    assert Matches(Run(events), id) && Explained(Run(events), id);
  }

  /** The redelivery the loss argument rests on: a message still open is leased to its plugin again by the
      first query for its bot after its lease ended, unless a batch of older ones goes first. */
  lemma OpenIsHandedOutAgain(events: seq<Event>, id: Id, asking: set<Bot>, limit: nat, dbNow: Time, now: Time)
    requires var s := Run(events);
             id in s.table && Candidate(s.table, id, s.table[id].bot, dbNow, {}) && s.table[id].bot in asking
    requires id in Run(events).inserted && IsMessage(Run(events).inserted[id])
    requires |Ahead(Run(events).table, id, dbNow, {})| < limit
    ensures var s := Run(events);
            var s' := Step(s, Query(asking, limit, dbNow, now, {}));
            && Transit(s.table[id].bot, ItemOf(id, s.inserted[id])) in s'.air
            && s'.table[id].leasedUntil == Some(now + INBOX_LEASE_MS)
  {
    RunKeeps(events);
    var s := Run(events);
    assert Matches(s, id);
    assert Picked(s.table, id, asking, limit, dbNow, {});
  }

  /** A query takes the oldest free rows of the bots it asks for, and every message among them sets out. */
  lemma WhatAQueryTakesSetsOut(s: System, asking: set<Bot>, limit: nat, dbNow: Time, now: Time, locked: set<Id>)
    ensures var s' := Step(s, Query(asking, limit, dbNow, now, locked));
            && TakesOldest(s.table, s'.table, asking, limit, dbNow, locked)
            && s.air <= s'.air
            && (forall id :: Taken(s.table, s'.table, id) && IsMessage(s.table[id]) ==>
                  Transit(s.table[id].bot, ItemOf(id, s.table[id])) in s'.air)
  {
    var ids := PickedOf(s.table, asking, limit, dbNow, locked);
    NothingDropped(Lease(s.table, ids, now), now);
    PickedAreOldest(s.table, asking, limit, dbNow, now, locked, {});
    PickedAreTaken(s.table, asking, limit, dbNow, now, locked, {});
    assert {} * ids == {};
  }

  lemma NothingDropped(t: Table, now: Time)
    ensures Drop(t, {}, now) == t
  {
  }

  /** The way of a message when nothing fails. It comes to a loop that pulls and has room, its customer has no
      other under way, the turn starts and ends, and the ack closes its row and no other. */
  lemma UnhinderedMessageIsAcked(s: System, bot: Bot, item: Item, at: int, now: Time)
    requires bot in s.loops && Transit(bot, item) in s.air
    requires var loop := s.loops[bot];
             && loop.mode == Running(true) && |loop.lanes| < loop.limits.maxInFlight
             && item.wamid !in loop.seen && item.wamid !in loop.inFlight
             && item.from !in loop.lanes && item.from !in loop.failedHead
    ensures var s1 := Step(s, Deliver(bot, [item]));
            var s2 := Step(s1, LoopStep(bot, TurnStart(item.from, at)));
            var s3 := Step(s2, LoopStep(bot, TurnSuccess(item.from)));
            var s4 := Step(s3, AckArrives(bot, [item], now));
            && s1.loops[bot].accepted == s.loops[bot].accepted + [item]
            && s2.loops[bot].starts == s.loops[bot].starts + [Entry(item, |s.loops[bot].accepted|)]
            && s3.loops[bot].remembered == s.loops[bot].remembered + [item.wamid]
            && s3.loops[bot].acked == s.loops[bot].acked + [item]
            && s4.table.Keys == s.table.Keys && s4.loops == s3.loops
            && (forall id :: id in s.table ==>
                  if id == item.id && s.table[id].bot == bot && s.table[id].ackedAt.None?
                  then s4.table[id].ackedAt == Some(now) && s4.table[id].payload.None?
                  else s4.table[id] == s.table[id])
  {
    hide PollSpec.Step;
    UnhinderedTurn(s.loops[bot], item, at);
    assert IdsOf([item]) == {item.id} by {
      assert [item][0].id in IdsOf([item]);
    }
    assert item in (s.loops[bot].acked + [item]);
  }

  lemma UnhinderedTurn(loop: Loop, item: Item, at: int)
    requires loop.mode == Running(true) && |loop.lanes| < loop.limits.maxInFlight
    requires item.wamid !in loop.seen && item.wamid !in loop.inFlight
    requires item.from !in loop.lanes && item.from !in loop.failedHead
    ensures var l1 := PollSpec.Step(loop, PullReturn([item]));
            var l2 := PollSpec.Step(l1, TurnStart(item.from, at));
            var l3 := PollSpec.Step(l2, TurnSuccess(item.from));
            && l1.accepted == loop.accepted + [item]
            && l2.starts == loop.starts + [Entry(item, |loop.accepted|)]
            && l3.remembered == loop.remembered + [item.wamid]
            && l3.acked == loop.acked + [item]
  {
    var s0 := loop.(mode := Running(false));
    assert EnqueueAll(s0, [item]) == EnqueueAll(Enqueue(s0, item), []) by {
      assert [item][1..] == [];
    }
    var e := Entry(item, |loop.accepted|);
    var l1 := PollSpec.Step(loop, PullReturn([item]));
    assert l1 == Enqueue(s0, item);
    assert l1.lanes[item.from] == Lane([e], Waiting);
    assert item.from !in l1.failedHead;
    var l2 := PollSpec.Step(l1, TurnStart(item.from, at));
    assert l2.lanes[item.from] == Lane([e], Turning);
  }
}
