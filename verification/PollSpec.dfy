/** The plugin's poll loop as a value: each stretch of code between two awaits is one step. A lane is the
    promise chain of one customer; its head is the message `process` is at. The last five fields of a loop
    are its history: what was accepted, started, remembered and acked, and which turns were given up. */
module PollSpec {
  import opened Options

  type Wamid = nat
  type Customer = nat
  type Ticket = nat

  const SEEN_LIMIT: nat := 500

  datatype Item = Item(id: nat, wamid: Wamid, from: Customer)

  /** An accepted message with its place in the order of acceptance. */
  datatype Entry = Entry(item: Item, ticket: Ticket)

  datatype Phase = Waiting | Turning | Settling
  datatype Lane = Lane(queue: seq<Entry>, phase: Phase)
  datatype Head = Head(wamid: Wamid, at: int)
  datatype LateTurn = LateTurn(item: Item, abandoned: bool)
  /** `Rejected` is a run the relay's 401 ended: only a stop lets the loop start again. */
  datatype Mode = Stopped | Rejected | Running(pulling: bool)
  datatype Limits = Limits(maxInFlight: nat, handleTimeoutMs: int)

  datatype Loop = Loop(
    limits: Limits,
    mode: Mode,
    seen: seq<Wamid>,
    inFlight: set<Wamid>,
    lanes: map<Customer, Lane>,
    pending: seq<Entry>,
    failedHead: map<Customer, Head>,
    late: map<Ticket, LateTurn>,
    accepted: seq<Item>,
    owners: map<Ticket, Wamid>,
    starts: seq<Entry>,
    remembered: seq<Wamid>,
    acked: seq<Item>,
    abandoned: set<Wamid>)

  function Init(limits: Limits): Loop {
    Loop(limits, Stopped, [], {}, map[], [], map[], map[], [], map[], [], [], [], {})
  }

  // ----- The steps -----

  function Without<K, V>(m: map<K, V>, k: K): map<K, V> {
    m - {k}
  }

  function ClearFailedHead(heads: map<Customer, Head>, item: Item): map<Customer, Head> {
    if item.from in heads && heads[item.from].wamid == item.wamid then Without(heads, item.from) else heads
  }

  function StartOnLane(s: Loop, e: Entry): Loop {
    var from := e.item.from;
    s.(lanes := s.lanes[from := if from in s.lanes then s.lanes[from].(queue := s.lanes[from].queue + [e])
      else Lane([e], Waiting)])
  }

  function Accepted(s: Loop, item: Item): Loop {
    s.(inFlight := s.inFlight + {item.wamid},
       failedHead := ClearFailedHead(s.failedHead, item),
       accepted := s.accepted + [item],
       owners := s.owners[|s.accepted| := item.wamid])
  }

  function Enqueue(s: Loop, item: Item): Loop {
    if item.wamid in s.seen then s.(acked := s.acked + [item])
    else if item.wamid in s.inFlight then s
    else
      var e := Entry(item, |s.accepted|);
      var s1 := Accepted(s, item);
      if item.from !in s.lanes && |s.lanes| >= s.limits.maxInFlight then s1.(pending := s1.pending + [e])
      else StartOnLane(s1, e)
  }

  function EnqueueAll(s: Loop, items: seq<Item>): Loop
    decreases |items|
  {
    if items == [] then s else EnqueueAll(Enqueue(s, items[0]), items[1..])
  }

  function Drain(s: Loop): Loop
    decreases |s.pending|
  {
    if s.pending == [] || |s.lanes| >= s.limits.maxInFlight then s
    else Drain(StartOnLane(s.(pending := s.pending[1..]), s.pending[0]))
  }

  function Remember(s: Loop, w: Wamid): Loop {
    if w in s.seen then s
    else
      var added := s.seen + [w];
      s.(seen := if |added| > SEEN_LIMIT then added[1..] else added, remembered := s.remembered + [w])
  }

  function Released(s: Loop, t: Ticket, w: Wamid): Loop {
    s.(inFlight := s.inFlight - {w}, owners := Without(s.owners, t))
  }

  predicate AtHead(s: Loop, c: Customer, phase: Phase) {
    c in s.lanes && s.lanes[c].queue != [] && s.lanes[c].phase == phase
  }

  function HeadOf(s: Loop, c: Customer): Entry
    requires c in s.lanes && s.lanes[c].queue != []
  {
    s.lanes[c].queue[0]
  }

  function SetPhase(s: Loop, c: Customer, phase: Phase): Loop
    requires c in s.lanes
  {
    s.(lanes := s.lanes[c := s.lanes[c].(phase := phase)])
  }

  predicate LaneHeld(s: Loop, c: Customer, now: int) {
    c in s.failedHead && now - s.failedHead[c].at <= s.limits.handleTimeoutMs
  }

  /** A lane that is held skips its head; a hold that is over is forgotten and the head runs. */
  function TurnStarts(s: Loop, c: Customer, now: int): Loop {
    if !AtHead(s, c, Waiting) then s
    else
      var e := HeadOf(s, c);
      if LaneHeld(s, c, now) then SetPhase(Released(s, e.ticket, e.item.wamid), c, Settling)
      else SetPhase(s.(failedHead := Without(s.failedHead, c), starts := s.starts + [e]), c, Turning)
  }

  function TurnSucceeds(s: Loop, c: Customer): Loop {
    if !AtHead(s, c, Turning) then s
    else
      var e := HeadOf(s, c);
      SetPhase(Released(Remember(s, e.item.wamid), e.ticket, e.item.wamid).(acked := s.acked + [e.item]), c, Settling)
  }

  function FailHead(s: Loop, e: Entry, now: int): Loop {
    s.(failedHead := s.failedHead[e.item.from := Head(e.item.wamid, now)])
  }

  function TurnFails(s: Loop, c: Customer, now: int): Loop {
    if !AtHead(s, c, Turning) then s
    else
      var e := HeadOf(s, c);
      SetPhase(Released(FailHead(s, e, now), e.ticket, e.item.wamid), c, Settling)
  }

  /** Past its timeout a turn stays in flight and is watched; its lane moves on. */
  function TurnTimesOut(s: Loop, c: Customer, now: int): Loop {
    if !AtHead(s, c, Turning) then s
    else
      var e := HeadOf(s, c);
      SetPhase(FailHead(s, e, now).(late := s.late[e.ticket := LateTurn(e.item, false)]), c, Settling)
  }

  function LaneAdvances(s: Loop, c: Customer): Loop {
    if !AtHead(s, c, Settling) then s
    else
      Drain(s.(lanes := if |s.lanes[c].queue| == 1 then Without(s.lanes, c)
        else s.lanes[c := Lane(s.lanes[c].queue[1..], Waiting)]))
  }

  /** The turn timed out and has not ended since. */
  predicate IsLate(s: Loop, t: Ticket) {
    t in s.late
  }

  predicate MayAbandon(s: Loop, t: Ticket) {
    IsLate(s, t) && !s.late[t].abandoned
  }

  function LateSucceeds(s: Loop, t: Ticket): Loop {
    if !IsLate(s, t) then s
    else
      var item := s.late[t].item;
      Released(Remember(s, item.wamid), t, item.wamid)
        .(failedHead := ClearFailedHead(s.failedHead, item), acked := s.acked + [item], late := Without(s.late, t))
  }

  function LateFails(s: Loop, t: Ticket): Loop {
    if !IsLate(s, t) then s else Released(s, t, s.late[t].item.wamid).(late := Without(s.late, t))
  }

  function Abandons(s: Loop, t: Ticket): Loop {
    if !MayAbandon(s, t) then s
    else
      var item := s.late[t].item;
      Released(s, t, item.wamid)
        .(late := s.late[t := LateTurn(item, true)], abandoned := s.abandoned + {item.wamid})
  }

  function Starts(s: Loop): Loop {
    if s.mode.Stopped? then s.(mode := Running(false)) else s
  }

  function DropPending(s: Loop): Loop
    decreases |s.pending|
  {
    if s.pending == [] then s
    else
      var e := s.pending[0];
      DropPending(Released(s.(pending := s.pending[1..]), e.ticket, e.item.wamid))
  }

  function Stops(s: Loop): Loop {
    DropPending(s.(mode := Stopped))
  }

  /** A pull is sent only with room, and only by a run that is not stopped. */
  function PullStarts(s: Loop): Loop {
    if s.mode == Running(false) && |s.lanes| < s.limits.maxInFlight then s.(mode := Running(true)) else s
  }

  /** The batch counts only for the run of the loop that asked for it. */
  function PullReturns(s: Loop, items: seq<Item>): Loop {
    if s.mode != Running(true) then s else EnqueueAll(s.(mode := Running(false)), items)
  }

  function PullFails(s: Loop, unauthorized: bool): Loop {
    if s.mode != Running(true) then s
    else if unauthorized then s.(mode := Rejected)
    else s.(mode := Running(false))
  }

  datatype Event =
    | Start | Stop | PullStart | PullReturn(items: seq<Item>) | PullFail(unauthorized: bool)
    | TurnStart(c: Customer, now: int) | TurnSuccess(c: Customer) | TurnFailure(c: Customer, now: int)
    | TurnTimeout(c: Customer, now: int)
    | LaneAdvance(c: Customer)
    | LateSuccess(t: Ticket) | LateFailure(t: Ticket) | Abandon(t: Ticket)

  function Step(s: Loop, event: Event): Loop {
    match event
    case Start => Starts(s)
    case Stop => Stops(s)
    case PullStart => PullStarts(s)
    case PullReturn(items) => PullReturns(s, items)
    case PullFail(unauthorized) => PullFails(s, unauthorized)
    case TurnStart(c, now) => TurnStarts(s, c, now)
    case TurnSuccess(c) => TurnSucceeds(s, c)
    case TurnFailure(c, now) => TurnFails(s, c, now)
    case TurnTimeout(c, now) => TurnTimesOut(s, c, now)
    case LaneAdvance(c) => LaneAdvances(s, c)
    case LateSuccess(t) => LateSucceeds(s, t)
    case LateFailure(t) => LateFails(s, t)
    case Abandon(t) => Abandons(s, t)
  }

  function Run(s: Loop, events: seq<Event>): Loop
    decreases |events|
  {
    if events == [] then s else Step(Run(s, events[..|events| - 1]), events[|events| - 1])
  }
}
