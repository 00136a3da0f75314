/** Replies on their way to the customer: the queue of produced chunks, one flush and one turn as functions,
    and turns of different messages side by side as a machine of single steps. */
module ReplySpec {
  import opened Options
  import C = Chunking

  type Wamid = nat
  type Customer = nat

  const MAX_TRACKED: nat := 200

  datatype Send = Send(to: Customer, text: C.Text, quotes: Option<Wamid>)

  /** A relay error carries its status; anything else never reached the relay. */
  datatype Failure = RelayError(status: nat, credentialInvalid: bool) | Other
  datatype Outcome = Accepted | Failed(failure: Failure)

  /** The relay's answer to each attempt to send, in the order of the attempts. */
  type Relay = nat -> Outcome

  predicate IsRetryable(f: Failure) {
    match f
    case Other => true
    case RelayError(status, credentialInvalid) =>
      if status == 409 then credentialInvalid else status == 429 || status >= 500 || status == 0
  }

  /** `order` is the insertion order of `pending`. The rest is history; a message is lost from the count once
      a send of it was rejected for good or the queue let go of it. */
  datatype Replies = Replies(
    limit: nat,
    pending: map<Wamid, seq<Send>>,
    order: seq<Wamid>,
    attempts: nat,
    produced: map<Wamid, seq<Send>>,
    accepted: map<Wamid, seq<Send>>,
    asked: map<Wamid, nat>,
    rejected: set<Wamid>,
    evicted: set<Wamid>)

  function Initial(limit: nat): Replies {
    Replies(limit, map[], [], 0, map[], map[], map[], {}, {})
  }

  function Of<T>(m: map<Wamid, seq<T>>, w: Wamid): seq<T> {
    if w in m then m[w] else []
  }

  // ----- The queue -----

  function Without(order: seq<Wamid>, w: Wamid): seq<Wamid> {
    if order == [] then []
    else if order[0] == w then Without(order[1..], w)
    else [order[0]] + Without(order[1..], w)
  }

  /** The message that was added to least recently goes first. */
  function Evict(s: Replies): Replies
    decreases |s.order|
  {
    if |s.order| <= s.limit then s
    else Evict(s.(pending := s.pending - {s.order[0]}, order := s.order[1..], evicted := s.evicted + {s.order[0]}))
  }

  function Add(s: Replies, w: Wamid, sends: seq<Send>): Replies {
    Evict(s.(pending := s.pending[w := Of(s.pending, w) + sends], order := Without(s.order, w) + [w],
             produced := s.produced[w := Of(s.produced, w) + sends]))
  }

  function Forget(s: Replies, w: Wamid): Replies {
    s.(pending := s.pending - {w}, order := Without(s.order, w))
  }

  /** Sends from the front until one send fails; that one and all behind it stay queued. */
  function Flush(relay: Relay, s: Replies, w: Wamid): (Replies, Option<Failure>)
    decreases |Of(s.pending, w)|
  {
    if w !in s.pending then (s, None)
    else if s.pending[w] == [] then (Forget(s, w), None)
    else
      match relay(s.attempts)
      case Failed(failure) => (s.(attempts := s.attempts + 1), Some(failure))
      case Accepted => Flush(relay, Sent(s, w), w)
  }

  function Sent(s: Replies, w: Wamid): Replies
    requires w in s.pending && s.pending[w] != []
  {
    s.(attempts := s.attempts + 1, pending := s.pending[w := s.pending[w][1..]],
       accepted := s.accepted[w := Of(s.accepted, w) + [s.pending[w][0]]])
  }

  /** After a refusal for good the whole rest of the message is dropped; a retryable failure is passed on. */
  function FlushReplies(relay: Relay, s: Replies, w: Wamid): (Replies, Option<Failure>) {
    var (s', failed) := Flush(relay, s, w);
    if failed.Some? &&
      !IsRetryable(failed.value) then (Forget(s', w).(rejected := s'.rejected + {w}), None) else (s', failed)
  }

  // ----- A turn -----

  datatype Payload = Payload(text: Option<C.Text>, quotesCustomer: bool)
  datatype Conversation = Unanswered | HeldByHuman | AnsweredByBot
  datatype Forward = ForwardFailed(failure: Failure) | Notified | FallbackToBot | Throttled

  /** What the turn meets: the relay's word on who answers, on a forward, the model's payloads, and whether
      the dispatch itself throws in the end. */
  datatype Inbound = Inbound(wamid: Wamid, from: Customer, hasText: bool, conversation: Conversation, forward: Forward,
    payloads: seq<Payload>, dispatchThrows: bool)

  function SendsOf(item: Inbound, payload: Payload): seq<Send>
    requires payload.text.Some?
  {
    var chunks := C.Chunks(payload.text.value, C.TEXT_CHUNK_LIMIT);
    seq(|chunks|, i requires 0 <= i < |chunks| =>
      Send(item.from, chunks[i], if i == 0 && payload.quotesCustomer then Some(item.wamid) else None))
  }

  function Deliver(relay: Relay, s: Replies, item: Inbound, payload: Payload): Replies {
    if payload.text.None? || payload.text.value == [] then s
    else FlushReplies(relay, Add(s, item.wamid, SendsOf(item, payload)), item.wamid).0
  }

  function DeliverAll(relay: Relay, s: Replies, item: Inbound, payloads: seq<Payload>): Replies {
    if payloads == [] then s
    else Deliver(relay, DeliverAll(relay, s, item, payloads[..|payloads| - 1]), item, payloads[|payloads| - 1])
  }

  function Asked(s: Replies, w: Wamid): Replies {
    s.(asked := s.asked[w := (if w in s.asked then s.asked[w] else 0) + 1])
  }

  /** What a forward comes to: a turn that is done, one that goes on, or one that fails. */
  datatype Handover = OwnerHasIt | BotAnswers | Hold

  function ForwardToOwner(forward: Forward): Handover {
    match forward
    case ForwardFailed(failure) => if IsRetryable(failure) then Hold else OwnerHasIt
    case Notified => OwnerHasIt
    case FallbackToBot => BotAnswers
    case Throttled => Hold
  }

  /** The second part says whether the turn completed; one that did not leaves its row unacked. */
  function Turn(relay: Relay, s: Replies, item: Inbound): (Replies, bool) {
    var w := item.wamid;
    if !item.hasText then (s, true)
    else if w in s.pending then
      var (s', failed) := FlushReplies(relay, s, w);
      (s', failed.None?)
    else if item.conversation.Unanswered? then (s, false)
    else if item.conversation.HeldByHuman? && ForwardToOwner(item.forward).Hold? then (s, false)
    else if item.conversation.HeldByHuman? && ForwardToOwner(item.forward).OwnerHasIt? then (s, true)
    else
      var s' := DeliverAll(relay, Asked(s, w), item, item.payloads);
      (s', !item.dispatchThrows && w !in s'.pending)
  }

  // ----- Turns side by side -----

  /** Where a turn stands; a resend is of what an earlier turn left queued. */
  datatype Phase = Undecided | Resending(failed: bool) | Dispatching

  /** Turns of different messages run at once, and each send is awaited. `sending` has the list a flush works
      through, which is its own even when the queue lets go of the message; `completed` is history. */
  datatype Plugin = Plugin(s: Replies, turns: map<Wamid, Phase>, sending: map<Wamid, seq<Send>>, completed: seq<Wamid>)

  datatype Event =
    | Begin(w: Wamid) | Ask(w: Wamid) | Produce(w: Wamid, sends: seq<Send>)
    | Accept(w: Wamid) | Fail(w: Wamid, failure: Failure) | End(w: Wamid, ok: bool)

  function FlushBegins(m: Plugin, w: Wamid): Plugin {
    if w !in m.s.pending then m
    else if m.s.pending[w] == [] then m.(s := Forget(m.s, w))
    else m.(sending := m.sending[w := m.s.pending[w]])
  }

  function Begins(m: Plugin, w: Wamid): Plugin {
    if w in m.turns then m
    else if w in m.s.pending then FlushBegins(m.(turns := m.turns[w := Resending(false)]), w)
    else m.(turns := m.turns[w := Undecided])
  }

  /** The relay said that the bot answers. */
  function Asks(m: Plugin, w: Wamid): Plugin {
    if w in m.turns && m.turns[w].Undecided? then m.(s := Asked(m.s, w), turns := m.turns[w := Dispatching]) else m
  }

  predicate MayProduce(m: Plugin, w: Wamid) {
    w in m.turns && m.turns[w].Dispatching? && w !in m.sending
  }

  function Produces(m: Plugin, w: Wamid, sends: seq<Send>): Plugin {
    if MayProduce(m, w) then FlushBegins(m.(s := Add(m.s, w, sends)), w) else m
  }

  function Accepts(m: Plugin, w: Wamid): Plugin {
    if w !in m.sending || m.sending[w] == [] then m
    else
      var rest := m.sending[w][1..];
      var s := m.s.(attempts := m.s.attempts + 1,
                    pending := if w in m.s.pending then m.s.pending[w := rest] else m.s.pending,
                    accepted := m.s.accepted[w := Of(m.s.accepted, w) + [m.sending[w][0]]]);
      if rest == [] then m.(s := Forget(s, w), sending := m.sending - {w})
      else m.(s := s, sending := m.sending[w := rest])
  }

  function Fails(m: Plugin, w: Wamid, failure: Failure): Plugin {
    if w !in m.sending then m
    else
      var s := m.s.(attempts := m.s.attempts + 1);
      var m' := m.(sending := m.sending - {w});
      if !IsRetryable(failure) then m'.(s := Forget(s, w).(rejected := s.rejected + {w}))
      else m'.(s := s, turns := if w in m.turns &&
        m.turns[w].Resending? then m.turns[w := Resending(true)] else m.turns)
  }

  /** What the end of a turn says to the poll loop: `ok` that the owner has it, or that the dispatch did not throw. */
  predicate Completes(m: Plugin, w: Wamid, ok: bool) {
    && w in m.turns && w !in m.sending
    && match m.turns[w]
       case Undecided => ok
       case Resending(failed) => !failed
       case Dispatching => ok && w !in m.s.pending
  }

  function Ends(m: Plugin, w: Wamid, ok: bool): Plugin {
    if w in m.turns && w !in m.sending then
      m.(turns := m.turns - {w}, completed := if Completes(m, w, ok) then m.completed + [w] else m.completed)
    else m
  }

  function Step(m: Plugin, e: Event): Plugin {
    match e
    case Begin(w) => Begins(m, w)
    case Ask(w) => Asks(m, w)
    case Produce(w, sends) => Produces(m, w, sends)
    case Accept(w) => Accepts(m, w)
    case Fail(w, failure) => Fails(m, w, failure)
    case End(w, ok) => Ends(m, w, ok)
  }

  function Steps(m: Plugin, events: seq<Event>): Plugin
    decreases |events|
  {
    if events == [] then m else Steps(Step(m, events[0]), events[1..])
  }

  function Run(limit: nat, events: seq<Event>): Plugin {
    Steps(Plugin(Initial(limit), map[], map[], []), events)
  }

  // ----- The steps of one turn -----

  function FlushEvents(relay: Relay, s: Replies, w: Wamid): seq<Event>
    decreases |Of(s.pending, w)|
  {
    if w !in s.pending || s.pending[w] == [] then []
    else
      match relay(s.attempts)
      case Failed(failure) => [Fail(w, failure)]
      case Accepted => [Accept(w)] + FlushEvents(relay, Sent(s, w), w)
  }

  function DeliverEvents(relay: Relay, s: Replies, item: Inbound, payload: Payload): seq<Event> {
    if payload.text.None? || payload.text.value == [] then []
    else
      var sends := SendsOf(item, payload);
      [Produce(item.wamid, sends)] + FlushEvents(relay, Add(s, item.wamid, sends), item.wamid)
  }

  function DeliverAllEvents(relay: Relay, s: Replies, item: Inbound, payloads: seq<Payload>): seq<Event> {
    if payloads == [] then []
    else
      var before, last := payloads[..|payloads| - 1], payloads[|payloads| - 1];
      DeliverAllEvents(relay, s, item, before) + DeliverEvents(relay, DeliverAll(relay, s, item, before), item, last)
  }

  /** A message without text is acked without a turn. */
  function TurnEvents(relay: Relay, s: Replies, item: Inbound): seq<Event> {
    var w := item.wamid;
    if !item.hasText then []
    else if w in s.pending then [Begin(w)] + FlushEvents(relay, s, w) + [End(w, true)]
    else if item.conversation.Unanswered? then [Begin(w), End(w, false)]
    else if item.conversation.HeldByHuman? && !ForwardToOwner(item.forward).BotAnswers? then
      [Begin(w), End(w, ForwardToOwner(item.forward).OwnerHasIt?)]
    else
      [Begin(w), Ask(w)] + DeliverAllEvents(relay, Asked(s, w), item, item.payloads) + [End(w, !item.dispatchThrows)]
  }
}
