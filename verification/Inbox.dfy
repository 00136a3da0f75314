/** The durable inbox: one row a message, leased to whoever asks, acked when its turn is over, dropped only
    for its age or because nothing can read it. */
module Inbox {
  import opened Options
  import opened PollSpec

  type Id = nat
  type Bot = nat
  type Time = nat

  const INBOX_LEASE_MS: nat := 60_000
  const INBOX_DROP_AFTER_MS: nat := 7 * 24 * 60 * 60 * 1000
  const INBOX_RETAIN_ACKED_MS: nat := 8 * 24 * 60 * 60 * 1000

  /** `Unreadable` is every payload the store cannot turn into an item. */
  datatype Payload = Message(from: Customer) | OwnerEcho(to: Customer) | PartnerRemoved | Unreadable

  /** A row that is acked or dropped has no payload any more. */
  datatype InboxRow = InboxRow(bot: Bot, wamid: Wamid, timestamp: Time, receivedAt: Time, payload: Option<Payload>,
    leasedUntil: Option<Time>, attempts: nat, ackedAt: Option<Time>, droppedAt: Option<Time>)

  type Table = map<Id, InboxRow>

  predicate Open(r: InboxRow) {
    r.ackedAt.None? && r.droppedAt.None?
  }

  predicate Leasable(r: InboxRow, dbNow: Time) {
    Open(r) && (r.leasedUntil.Some? ==> r.leasedUntil.value < dbNow)
  }

  /** The order messages are handed out in. */
  predicate Before(t: Table, a: Id, b: Id)
    requires a in t && b in t
  {
    t[a].timestamp < t[b].timestamp || (t[a].timestamp == t[b].timestamp && a < b)
  }

  // ----- Leasing -----

  /** Rows another orchestrator's statement holds are skipped, not waited for. */
  predicate Candidate(t: Table, id: Id, bot: Bot, dbNow: Time, locked: set<Id>) {
    id in t && t[id].bot == bot && Leasable(t[id], dbNow) && id !in locked
  }

  function Ahead(t: Table, id: Id, dbNow: Time, locked: set<Id>): set<Id>
    requires id in t
  {
    set other | other in t && Candidate(t, other, t[id].bot, dbNow, locked) && Before(t, other, id)
  }

  predicate Picked(t: Table, id: Id, asking: set<Bot>, limit: nat, dbNow: Time, locked: set<Id>) {
    id in t && t[id].bot in asking && Candidate(t, id, t[id].bot, dbNow, locked) &&
      |Ahead(t, id, dbNow, locked)| < limit
  }

  function PickedOf(t: Table, asking: set<Bot>, limit: nat, dbNow: Time, locked: set<Id>): set<Id> {
    set id | id in t && Picked(t, id, asking, limit, dbNow, locked)
  }

  function Lease(t: Table, ids: set<Id>, now: Time): Table {
    map id | id in t ::
      if id in ids then t[id].(leasedUntil := Some(now + INBOX_LEASE_MS), attempts := t[id].attempts + 1) else t[id]
  }

  /** A message sent earlier, or at the same time and stored earlier, is never passed over for a later one of
      the same bot. */
  lemma OldestFirst(t: Table, a: Id, b: Id, asking: set<Bot>, limit: nat, dbNow: Time, locked: set<Id>)
    requires Picked(t, b, asking, limit, dbNow, locked)
    requires a in t && Candidate(t, a, t[b].bot, dbNow, locked)
    requires t[a].timestamp < t[b].timestamp || (t[a].timestamp == t[b].timestamp && a < b)
    ensures Picked(t, a, asking, limit, dbNow, locked)
  {
    var smaller, larger := Ahead(t, a, dbNow, locked), Ahead(t, b, dbNow, locked);
    assert smaller <= larger;
    CardinalityOfSubset(smaller, larger);
  }

  lemma CardinalityOfSubset(a: set<Id>, b: set<Id>)
    requires a <= b
    ensures |a| <= |b|
  {
    assert b == a + (b - a);
  }

  /** Of any rows one comes first, and one last. */
  lemma First(t: Table, ids: set<Id>) returns (first: Id)
    requires ids != {} && ids <= t.Keys
    ensures first in ids && forall other :: other in ids && other != first ==> Before(t, first, other)
    decreases |ids|
  {
    var some :| some in ids;
    var rest := ids - {some};
    assert ids == rest + {some};
    if rest == {} {
      first := some;
    } else {
      var next := First(t, rest);
      first := if Before(t, next, some) then next else some;
    }
  }

  lemma Last(t: Table, ids: set<Id>) returns (last: Id)
    requires ids != {} && ids <= t.Keys
    ensures last in ids && forall other :: other in ids && other != last ==> Before(t, other, last)
    decreases |ids|
  {
    var some :| some in ids;
    var rest := ids - {some};
    assert ids == rest + {some};
    if rest == {} {
      last := some;
    } else {
      var next := Last(t, rest);
      last := if Before(t, some, next) then next else some;
    }
  }

  function PickedOfBot(t: Table, bot: Bot, limit: nat, dbNow: Time, locked: set<Id>): set<Id> {
    set id | id in t && t[id].bot == bot && Picked(t, id, {bot}, limit, dbNow, locked)
  }

  /** One query takes no more than the limit for a bot. */
  lemma LimitHolds(t: Table, bot: Bot, limit: nat, dbNow: Time, locked: set<Id>)
    ensures |PickedOfBot(t, bot, limit, dbNow, locked)| <= limit
  {
    var ids := PickedOfBot(t, bot, limit, dbNow, locked);
    if ids != {} {
      var last := Last(t, ids);
      CardinalityOfSubset(ids - {last}, Ahead(t, last, dbNow, locked));
    }
  }

  /** A bot with a leasable row gets one from every query that asks for it, and gets the oldest. */
  lemma OldestIsPicked(t: Table, id: Id, asking: set<Bot>, limit: nat, dbNow: Time, locked: set<Id>)
    requires id in t && t[id].bot in asking && Candidate(t, id, t[id].bot, dbNow, locked) && limit > 0
    requires forall other :: other in t && other != id && Candidate(t, other, t[id].bot, dbNow, locked) ==>
               t[id].timestamp < t[other].timestamp || (t[id].timestamp == t[other].timestamp && id < other)
    ensures Picked(t, id, asking, limit, dbNow, locked)
  {
    assert Ahead(t, id, dbNow, locked) == {};
  }

  // ----- What a query takes, by the rows' own columns -----

  /** The attempt is counted on exactly the rows a query takes. */
  predicate Taken(t: Table, t': Table, id: Id) {
    id in t && id in t' && t'[id].attempts > t[id].attempts
  }

  /** Neither over, nor leased, nor held by another orchestrator's statement. */
  predicate Free(r: InboxRow, dbNow: Time) {
    && r.ackedAt.None? && r.droppedAt.None?
    && (r.leasedUntil.None? || r.leasedUntil.value < dbNow)
  }

  function TakenOf(t: Table, t': Table, bot: Bot): set<Id> {
    set id | id in t && t[id].bot == bot && Taken(t, t', id)
  }

  /** Of each waiting bot its free rows are taken, those sent first before the others and those stored first of
      the ones sent together, until there are no more or the limit is reached. No other row changes. */
  ghost predicate TakesOldest(t: Table, t': Table, asking: set<Bot>, limit: nat, dbNow: Time, locked: set<Id>) {
    && t'.Keys == t.Keys
    && (forall id :: id in t && !Taken(t, t', id) ==> t'[id] == t[id])
    && (forall id :: Taken(t, t', id) ==> t[id].bot in asking && id !in locked && Free(t[id], dbNow))
    && (forall a, b ::
          (a in t && Taken(t, t', b) && t[a].bot == t[b].bot && a !in locked && Free(t[a], dbNow)
           && (t[a].timestamp < t[b].timestamp || (t[a].timestamp == t[b].timestamp && a < b))) ==>
            Taken(t, t', a))
    && (forall bot :: |TakenOf(t, t', bot)| <= limit)
    && (forall id :: id in t && t[id].bot in asking && id !in locked && Free(t[id], dbNow) && !Taken(t, t', id) ==>
          |TakenOf(t, t', t[id].bot)| == limit)
  }

  /** A row left behind means that the limit was reached: the first one left has that many before it. */
  lemma LeftBehindMeansFull(t: Table, id: Id, asking: set<Bot>, limit: nat, dbNow: Time, locked: set<Id>)
    requires id in t && t[id].bot in asking && Candidate(t, id, t[id].bot, dbNow, locked)
    requires !Picked(t, id, asking, limit, dbNow, locked)
    ensures |PickedOfBot(t, t[id].bot, limit, dbNow, locked)| == limit
  {
    var bot := t[id].bot;
    var left := set other | other in t && Candidate(t, other, bot, dbNow, locked) &&
      !Picked(t, other, {bot}, limit, dbNow, locked);
    assert id in left;
    var first := First(t, left);
    forall other | other in Ahead(t, first, dbNow, locked)
      ensures other in PickedOfBot(t, bot, limit, dbNow, locked)
    {
      assert other in left ==> Before(t, first, other);
    }
    CardinalityOfSubset(Ahead(t, first, dbNow, locked), PickedOfBot(t, bot, limit, dbNow, locked));
    LimitHolds(t, bot, limit, dbNow, locked);
  }

  lemma PickedAreTaken(t: Table, asking: set<Bot>, limit: nat, dbNow: Time, now: Time, locked: set<Id>, gone: set<Id>)
    ensures var t' := Drop(Lease(t, PickedOf(t, asking, limit, dbNow, locked), now),
              gone * PickedOf(t, asking, limit, dbNow, locked), now);
            && t'.Keys == t.Keys
            && (forall id :: Taken(t, t', id) <==> id in PickedOf(t, asking, limit, dbNow, locked))
            && (forall id :: id in t && !Taken(t, t', id) ==> t'[id] == t[id])
            && (forall id :: Taken(t, t', id) && id !in gone ==>
                  t'[id] == t[id].(leasedUntil := Some(now + INBOX_LEASE_MS), attempts := t[id].attempts + 1))
            && (forall id :: Taken(t, t', id) && id in gone ==>
                  t'[id].droppedAt == Some(now) && t'[id].payload.None? && t'[id].leasedUntil.None?)
  {
  }

  lemma TakenAreOfTheBot(t: Table, t': Table, bot: Bot, asking: set<Bot>, limit: nat, dbNow: Time, locked: set<Id>)
    requires forall id :: Taken(t, t', id) <==> id in PickedOf(t, asking, limit, dbNow, locked)
    ensures TakenOf(t, t', bot) == if bot in asking then PickedOfBot(t, bot, limit, dbNow, locked) else {}
  {
  }

  lemma PickedAreOldest(t: Table, asking: set<Bot>, limit: nat, dbNow: Time, now: Time, locked: set<Id>, gone: set<Id>)
    ensures TakesOldest(t, Drop(Lease(t, PickedOf(t, asking, limit, dbNow, locked), now),
              gone * PickedOf(t, asking, limit, dbNow, locked), now), asking, limit, dbNow, locked)
  {
    var t' := Drop(Lease(t, PickedOf(t, asking, limit, dbNow, locked), now),
      gone * PickedOf(t, asking, limit, dbNow, locked), now);
    PickedAreTaken(t, asking, limit, dbNow, now, locked, gone);
    forall bot
      ensures |TakenOf(t, t', bot)| <= limit
    {
      TakenAreOfTheBot(t, t', bot, asking, limit, dbNow, locked);
      LimitHolds(t, bot, limit, dbNow, locked);
    }
    forall id | id in t && t[id].bot in asking && id !in locked && Free(t[id], dbNow) && !Taken(t, t', id)
      ensures |TakenOf(t, t', t[id].bot)| == limit
    {
      TakenAreOfTheBot(t, t', t[id].bot, asking, limit, dbNow, locked);
      LeftBehindMeansFull(t, id, asking, limit, dbNow, locked);
    }
    forall a, b | a in t && Taken(t, t', b) && t[a].bot == t[b].bot && a !in locked && Free(t[a], dbNow)
        && (t[a].timestamp < t[b].timestamp || (t[a].timestamp == t[b].timestamp && a < b))
      ensures Taken(t, t', a)
    {
      OldestFirst(t, a, b, asking, limit, dbNow, locked);
    }
  }

  /** Until its lease ends, a leased row is in no other batch. */
  lemma LeasedIsNotPicked(t: Table, ids: set<Id>, id: Id, now: Time, asking: set<Bot>, limit: nat, dbNow: Time,
      locked: set<Id>)
    requires id in ids && id in t && dbNow <= now + INBOX_LEASE_MS
    ensures !Picked(Lease(t, ids, now), id, asking, limit, dbNow, locked)
  {}

  // ----- The other writes -----

  function Acknowledged(r: InboxRow, now: Time): InboxRow {
    r.(ackedAt := Some(now), payload := None, leasedUntil := None)
  }

  function DroppedRow(r: InboxRow, now: Time): InboxRow {
    r.(droppedAt := Some(now), payload := None, leasedUntil := None)
  }

  /** A bot acks its own rows only. */
  predicate Ackable(t: Table, id: Id, bot: Bot, ids: set<Id>) {
    id in t && id in ids && t[id].bot == bot && t[id].ackedAt.None?
  }

  function Ack(t: Table, bot: Bot, ids: set<Id>, now: Time): Table {
    map id | id in t :: if Ackable(t, id, bot, ids) then Acknowledged(t[id], now) else t[id]
  }

  /** An ack changes exactly the bot's own rows among `ids` that had none. Repeated, however late, it finds
      nothing to change, and what it acked is neither leased nor given up for its age afterwards. */
  lemma AckIsOnce(t: Table, bot: Bot, ids: set<Id>, now: Time, later: Time)
    ensures var t' := Ack(t, bot, ids, now);
            && t'.Keys == t.Keys && Ack(t', bot, ids, later) == t'
            && (forall id :: id in t ==> (t'[id] != t[id] <==> id in ids && t[id].bot == bot && t[id].ackedAt.None?))
            && (forall id, asking, limit, dbNow, locked :: id in ids && id in t && t[id].bot == bot ==>
                  !Picked(t', id, asking, limit, dbNow, locked) && id !in AgedOf(t', later))
  {
    var t' := Ack(t, bot, ids, now);
    assert forall id :: id in t ==> !Ackable(t', id, bot, ids);
    assert Ack(t', bot, ids, later) == t';
    forall id, asking, limit, dbNow, locked | id in ids && id in t && t[id].bot == bot
      ensures !Picked(t', id, asking, limit, dbNow, locked) && id !in AgedOf(t', later)
    {
      assert t'[id].ackedAt.Some?;
      hide Ack, Ahead;
    }
  }

  function Drop(t: Table, ids: set<Id>, now: Time): Table {
    map id | id in t :: if id in ids then DroppedRow(t[id], now) else t[id]
  }

  predicate Aged(r: InboxRow, now: Time) {
    Open(r) && r.receivedAt + INBOX_DROP_AFTER_MS < now
  }

  function AgedOf(t: Table, now: Time): set<Id> {
    set id | id in t && Aged(t[id], now)
  }

  predicate Retired(r: InboxRow, now: Time) {
    || (r.ackedAt.Some? && r.ackedAt.value + INBOX_RETAIN_ACKED_MS < now)
    || (r.droppedAt.Some? && r.droppedAt.value + INBOX_RETAIN_ACKED_MS < now)
  }

  function Retire(t: Table, now: Time): Table {
    map id | id in t && !Retired(t[id], now) :: t[id]
  }

  function Purge(t: Table, bot: Bot): Table {
    map id | id in t && t[id].bot != bot :: t[id]
  }

  /** A wamid already in the table is a redelivery: it inserts nothing. */
  predicate Known(t: Table, wamid: Wamid) {
    exists id :: id in t && t[id].wamid == wamid
  }

  function Insert(t: Table, id: Id, r: InboxRow): Table {
    if id in t || Known(t, r.wamid) then t else t[id := r]
  }
}
