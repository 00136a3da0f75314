/** Escalation slots: how often one bot may page its owner. A slot is reserved before the message goes out,
    so concurrent ones see each other, and given back when the message did not. Connecting the bot's channel
    anew forgets both. */
module Escalations {
  import opened Options
  import opened SlidingBudget

  type BotId = nat
  type Customer = nat
  type TokenId = nat

  const ESCALATIONS_PER_BOT_PER_MINUTE: nat := 60
  const ESCALATION_WINDOW_MS: int := 60_000
  const ESCALATION_MIN_INTERVAL_MS: int := 2 * 60 * 1000
  const ESCALATION_KEYS_MAX: nat := 10_000

  datatype Kind = Request | Forward
  datatype Token = Token(id: TokenId, at: Time)
  /** `admitted` is history: every slot of the bot not given back, whether or not its window is over. */
  datatype Slots = Slots(tokens: seq<Token>, admitted: seq<Token>, next: TokenId)

  const NoSlots := Slots([], [], 0)

  function Times(tokens: seq<Token>): (times: seq<Time>)
    ensures |times| == |tokens| && forall i :: 0 <= i < |tokens| ==> times[i] == tokens[i].at
  {
    seq(|tokens|, i requires 0 <= i < |tokens| => tokens[i].at)
  }

  /** Tokens are pruned from the front, as long as the first is a window old. */
  function Pruned(tokens: seq<Token>, now: Time): seq<Token> {
    if tokens != [] && now - tokens[0].at >= ESCALATION_WINDOW_MS then Pruned(tokens[1..], now) else tokens
  }

  function Prunes(s: Slots, now: Time): Slots {
    s.(tokens := Pruned(s.tokens, now))
  }

  predicate HasRoom(s: Slots, now: Time) {
    |Pruned(s.tokens, now)| < ESCALATIONS_PER_BOT_PER_MINUTE
  }

  function Admits(s: Slots, now: Time): Slots {
    var token := Token(s.next, now);
    Slots(Pruned(s.tokens, now) + [token], s.admitted + [token], s.next + 1)
  }

  function Removed(tokens: seq<Token>, id: TokenId): seq<Token> {
    if tokens == [] then []
    else if tokens[0].id == id then tokens[1..]
    else [tokens[0]] + Removed(tokens[1..], id)
  }

  /** Gives a slot back; one whose window is over is in the list no more. */
  function Releases(s: Slots, id: TokenId): Slots {
    s.(tokens := Removed(s.tokens, id), admitted := Removed(s.admitted, id))
  }

  // ----- What every step keeps of one bot's slots -----

  ghost predicate Increasing(tokens: seq<Token>, next: TokenId) {
    && (forall i, j :: 0 <= i < j < |tokens| ==> tokens[i].id < tokens[j].id)
    && (forall i :: 0 <= i < |tokens| ==> tokens[i].id < next)
  }

  /** The list is the tail of what was admitted; what it no longer has is a window old. */
  ghost predicate Tail(s: Slots, now: Time) {
    && |s.tokens| <= |s.admitted| && s.tokens == s.admitted[|s.admitted| - |s.tokens|..]
    && (forall i :: 0 <= i < |s.admitted| - |s.tokens| ==> now - s.admitted[i].at >= ESCALATION_WINDOW_MS)
  }

  ghost predicate Capped(admitted: seq<Token>) {
    Ordered(Times(admitted)) && Spaced(Times(admitted), ESCALATIONS_PER_BOT_PER_MINUTE, ESCALATION_WINDOW_MS)
  }

  ghost predicate Inv(s: Slots, now: Time) {
    && Increasing(s.admitted, s.next) && Tail(s, now) && Capped(s.admitted)
    && (forall i :: 0 <= i < |s.admitted| ==> s.admitted[i].at <= now)
  }

  lemma {:induction false} PrunedIsTail(tokens: seq<Token>, now: Time)
    ensures var kept := |Pruned(tokens, now)|;
            && kept <= |tokens| && Pruned(tokens, now) == tokens[|tokens| - kept..]
            && (forall i :: 0 <= i < |tokens| - kept ==> now - tokens[i].at >= ESCALATION_WINDOW_MS)
    decreases |tokens|
  {
    if tokens != [] && now - tokens[0].at >= ESCALATION_WINDOW_MS {
      PrunedIsTail(tokens[1..], now);
      assert forall i :: 1 <= i < |tokens| ==> tokens[i] == tokens[1..][i - 1];
    }
  }

  lemma PrunesKeeps(s: Slots, before: Time, now: Time)
    requires Inv(s, before) && before <= now
    ensures Inv(Prunes(s, now), now)
  {
    PrunedIsTail(s.tokens, now);
    var gone, kept := |s.admitted| - |s.tokens|, Pruned(s.tokens, now);
    hide Capped, Increasing, Pruned;
    assert kept == s.admitted[|s.admitted| - |kept|..];
    forall i | 0 <= i < |s.admitted| - |kept|
      ensures now - s.admitted[i].at >= ESCALATION_WINDOW_MS
    {
      if i >= gone {
        assert s.tokens[i - gone] == s.admitted[i];
      }
    }
  }

  lemma AdmitsKeeps(s: Slots, before: Time, now: Time)
    requires Inv(s, before) && before <= now && HasRoom(s, now)
    ensures Inv(Admits(s, now), now)
  {
    PrunesKeeps(s, before, now);
    var p, s' := Prunes(s, now), Admits(s, now);
    AppendKeepsSpaced(Times(p.admitted), ESCALATIONS_PER_BOT_PER_MINUTE, ESCALATION_WINDOW_MS, |p.tokens|, now);
    assert Times(s'.admitted) == Times(p.admitted) + [now];
    hide Spaced, Ordered, Pruned;
    assert s'.tokens == s'.admitted[|s'.admitted| - |s'.tokens|..];
  }

  lemma {:induction false} RemovedOne(tokens: seq<Token>, id: TokenId) returns (k: nat)
    ensures k <= |tokens|
    ensures k == |tokens| ==> Removed(tokens, id) == tokens && forall i :: 0 <= i < |tokens| ==> tokens[i].id != id
    ensures k < |tokens| ==> tokens[k].id == id && Removed(tokens, id) == tokens[..k] + tokens[k + 1..]
    decreases |tokens|
  {
    if tokens == [] || tokens[0].id == id {
      k := 0;
    } else {
      k := RemovedOne(tokens[1..], id);
      assert forall i :: 1 <= i < |tokens| ==> tokens[i] == tokens[1..][i - 1];
      k := k + 1;
    }
  }

  lemma RemovalKeepsCap(admitted: seq<Token>, k: nat)
    requires Capped(admitted) && k < |admitted|
    ensures Capped(admitted[..k] + admitted[k + 1..])
  {
    var rest, times := admitted[..k] + admitted[k + 1..], Times(admitted);
    RemoveKeepsSpaced(times, ESCALATIONS_PER_BOT_PER_MINUTE, ESCALATION_WINDOW_MS, k);
    assert Times(rest) == times[..k] + times[k + 1..];
  }

  lemma RemovalKeepsOrder(admitted: seq<Token>, next: TokenId, k: nat)
    requires Increasing(admitted, next) && k < |admitted|
    ensures Increasing(admitted[..k] + admitted[k + 1..], next)
  {}

  lemma ReleasesKeeps(s: Slots, id: TokenId, now: Time)
    requires Inv(s, now)
    ensures Inv(Releases(s, id), now)
  {
    hide Capped, Increasing, Tail, Removed;
    var k := RemovedOne(s.admitted, id);
    ReleasedIsTail(s, id, now);
    if k < |s.admitted| {
      RemovalKeepsCap(s.admitted, k);
      RemovalKeepsOrder(s.admitted, s.next, k);
    }
  }

  /** A slot given back is the same one in the list and in the history. */
  lemma ReleasedIsTail(s: Slots, id: TokenId, now: Time)
    requires Increasing(s.admitted, s.next) && Tail(s, now)
    ensures Tail(Releases(s, id), now)
  {
    hide Removed;
    var gone := |s.admitted| - |s.tokens|;
    var k := RemovedOne(s.admitted, id);
    var j := RemovedOne(s.tokens, id);
    assert forall i :: 0 <= i < |s.tokens| ==> s.tokens[i] == s.admitted[gone + i];
    if j < |s.tokens| {
      assert k == gone + j;
      RemovedFromBoth(s.admitted, gone, j);
    } else if k < |s.admitted| {
      assert k < gone;
      RemovedBefore(s.admitted, gone, k);
    }
  }

  lemma RemovedFromBoth(all: seq<Token>, gone: nat, j: nat)
    requires gone + j < |all|
    ensures var rest, tail := all[..gone + j] + all[gone + j + 1..], all[gone..][..j] + all[gone..][j + 1..];
            rest[gone..] == tail && forall i :: 0 <= i < gone ==> rest[i] == all[i]
  {}

  lemma RemovedBefore(all: seq<Token>, gone: nat, k: nat)
    requires k < gone <= |all|
    ensures var rest := all[..k] + all[k + 1..];
            rest[gone - 1..] == all[gone..] && forall i :: 0 <= i < gone - 1 ==>
                rest[i] == all[if i < k then i else i + 1]
  {}

  lemma NothingAdmitted(now: Time)
    ensures Inv(NoSlots, now)
  {}

  // ----- The customers' own intervals -----

  datatype Chat = Chat(bot: BotId, customer: Customer)

  /** When each customer was last escalated, oldest stamp first; the oldest goes when the table is full. */
  type Stamps = seq<(Chat, Time)>

  function Without(stamps: Stamps, c: Chat): Stamps {
    if stamps == [] then []
    else if stamps[0].0 == c then Without(stamps[1..], c)
    else [stamps[0]] + Without(stamps[1..], c)
  }

  function LastAt(stamps: Stamps, c: Chat): Option<Time> {
    if stamps == [] then None
    else if stamps[0].0 == c then Some(stamps[0].1)
    else LastAt(stamps[1..], c)
  }

  function Stamped(stamps: Stamps, c: Chat, at: Time): Stamps {
    var others := Without(stamps, c);
    (if |others| >= ESCALATION_KEYS_MAX then others[1..] else others) + [(c, at)]
  }

  function WithoutBot(stamps: Stamps, bot: BotId): Stamps {
    if stamps == [] then []
    else if stamps[0].0.bot == bot then WithoutBot(stamps[1..], bot)
    else [stamps[0]] + WithoutBot(stamps[1..], bot)
  }

  predicate TooSoon(stamps: Stamps, c: Chat, kind: Kind, now: Time) {
    kind.Request? && LastAt(stamps, c).Some? && now - LastAt(stamps, c).value < ESCALATION_MIN_INTERVAL_MS
  }

  lemma {:induction false} WithoutForgets(stamps: Stamps, c: Chat)
    ensures LastAt(Without(stamps, c), c).None? && |Without(stamps, c)| <= |stamps|
    ensures forall other :: other != c ==> LastAt(Without(stamps, c), other) == LastAt(stamps, other)
    decreases |stamps|
  {
    if stamps != [] {
      WithoutForgets(stamps[1..], c);
    }
  }

  lemma {:induction false} LastOfAppend(stamps: Stamps, c: Chat, at: Time)
    requires LastAt(stamps, c).None?
    ensures LastAt(stamps + [(c, at)], c) == Some(at)
    decreases |stamps|
  {
    if stamps != [] {
      assert (stamps + [(c, at)])[1..] == stamps[1..] + [(c, at)];
      LastOfAppend(stamps[1..], c, at);
    }
  }

  /** A stamp is the customer's newest, and the table never grows past its limit. */
  lemma StampIsKept(stamps: Stamps, c: Chat, at: Time)
    requires |stamps| <= ESCALATION_KEYS_MAX
    ensures LastAt(Stamped(stamps, c, at), c) == Some(at) && |Stamped(stamps, c, at)| <= ESCALATION_KEYS_MAX
  {
    WithoutForgets(stamps, c);
    var others := Without(stamps, c);
    var kept := if |others| >= ESCALATION_KEYS_MAX then others[1..] else others;
    assert LastAt(kept, c).None?;
    LastOfAppend(kept, c, at);
  }

  // ----- Runs over all bots and customers -----

  /** What a caller may give back: its token, and the stamp it put on top of an older one. */
  datatype Slot = Slot(chat: Chat, id: TokenId, kind: Kind, last: Option<Time>)
  datatype Taken = Taken(slot: Slot, at: Time)

  /** `taken` and `released` are history: every slot ever handed out, and those given back since. `clock` is
      the time of the last event, though only a reservation reads it. */
  datatype Desk = Desk(bots: map<BotId, Slots>, stamps: Stamps, taken: seq<Taken>, released: set<Slot>, clock: Time)

  datatype Event =
    | Reserve(chat: Chat, kind: Kind, now: Time)
    | Release(slot: Slot, now: Time)
    | Forget(bot: BotId, now: Time)

  function Of(bots: map<BotId, Slots>, bot: BotId): Slots {
    if bot in bots then bots[bot] else NoSlots
  }

  predicate Admitted(d: Desk, chat: Chat, kind: Kind, now: Time) {
    HasRoom(Of(d.bots, chat.bot), now) && !TooSoon(d.stamps, chat, kind, now)
  }

  function Reserves(d: Desk, chat: Chat, kind: Kind, now: Time): Desk {
    var s := Of(d.bots, chat.bot);
    if Admitted(d, chat, kind, now) then
      Desk(d.bots[chat.bot := Admits(s, now)],
           if kind.Request? then Stamped(d.stamps, chat, now) else d.stamps,
           d.taken + [Taken(Slot(chat, s.next, kind, LastAt(d.stamps, chat)), now)],
           d.released, now)
    else d.(bots := d.bots[chat.bot := Prunes(s, now)], clock := now)
  }

  predicate HandedOut(d: Desk, slot: Slot) {
    exists i :: 0 <= i < |d.taken| && d.taken[i].slot == slot
  }

  function Restored(stamps: Stamps, slot: Slot): Stamps {
    if slot.kind.Forward? then stamps
    else if slot.last.None? then Without(stamps, slot.chat)
    else Stamped(stamps, slot.chat, slot.last.value)
  }

  function GivesBack(d: Desk, slot: Slot, now: Time): Desk {
    d.(clock := now,
       bots := d.bots[slot.chat.bot := Releases(Of(d.bots, slot.chat.bot), slot.id)],
       stamps := Restored(d.stamps, slot),
       released := d.released + {slot})
  }

  /** The bot's list goes, and the stamps of its customers. A slot taken before can still be given back: it is
      in no list any more, but its stamp is put back all the same. */
  function Forgets(d: Desk, bot: BotId, now: Time): Desk {
    d.(clock := now, bots := d.bots[bot := Of(d.bots, bot).(tokens := [])], stamps := WithoutBot(d.stamps, bot))
  }

  function Step(d: Desk, e: Event): Desk {
    match e
    case Reserve(chat, kind, now) => Reserves(d, chat, kind, now)
    case Release(slot, now) => if HandedOut(d, slot) then GivesBack(d, slot, now) else d.(clock := now)
    case Forget(bot, now) => Forgets(d, bot, now)
  }

  function Run(start: Time, events: seq<Event>): Desk {
    if events == [] then Desk(map[], [], [], {}, start)
    else Step(Run(start, events[..|events| - 1]), events[|events| - 1])
  }

  ghost predicate InClockOrder(start: Time, events: seq<Event>) {
    && (forall i :: 0 <= i < |events| ==> start <= events[i].now)
    && (forall i, j :: 0 <= i < j < |events| ==> events[i].now <= events[j].now)
  }

  /** The clock of a run is the time of its last event. */
  lemma ClockIsLast(start: Time, events: seq<Event>)
    ensures Run(start, events).clock == if events == [] then start else events[|events| - 1].now
  {
    hide Admitted, Admits, Prunes, Releases, Restored, WithoutBot;
  }

  lemma RunOneMore(start: Time, events: seq<Event>, k: nat)
    requires k < |events|
    ensures Run(start, events[..k + 1]) == Step(Run(start, events[..k]), events[k])
  {
    hide Step;
    assert events[..k + 1][..k] == events[..k];
  }

  lemma LaterKeeps(s: Slots, before: Time, now: Time)
    requires Inv(s, before) && before <= now
    ensures Inv(s, now)
  {
    hide Capped, Increasing;
  }

  // ----- When the cap holds -----

  predicate Fresh(t: Token, now: Time) {
    now - t.at < ESCALATION_WINDOW_MS
  }

  /** The event the cap can bear: the bot's list is forgotten while every slot that was admitted and not
      given back is a window old. */
  ghost predicate Bearable(d: Desk, e: Event, bot: BotId) {
    e.Forget? && e.bot == bot ==>
      forall i :: 0 <= i < |Of(d.bots, bot).admitted| ==> !Fresh(Of(d.bots, bot).admitted[i], e.now)
  }

  ghost predicate BearableThroughout(start: Time, events: seq<Event>, bot: BotId) {
    forall k :: 0 <= k < |events| ==> Bearable(Run(start, events[..k]), events[k], bot)
  }

  ghost predicate WithinCap(d: Desk, bot: BotId) {
    forall from :: CountIn(Times(Of(d.bots, bot).admitted), from, ESCALATION_WINDOW_MS) <=
      ESCALATIONS_PER_BOT_PER_MINUTE
  }

  ghost predicate Reservations(events: seq<Event>) {
    forall i :: 0 <= i < |events| ==> events[i].Reserve?
  }

  /** Whatever reservations come next, no window has more slots than the cap. */
  ghost predicate CapSafe(start: Time, events: seq<Event>, bot: BotId) {
    forall more :: Reservations(more) && InClockOrder(start, events + more) ==>
        WithinCap(Run(start, events + more), bot)
  }

  lemma ForgettingKeeps(s: Slots, now: Time)
    requires Inv(s, now) && forall i :: 0 <= i < |s.admitted| ==> !Fresh(s.admitted[i], now)
    ensures Inv(s.(tokens := []), now)
  {
    hide Capped, Increasing;
  }

  lemma StepKeepsCap(d: Desk, e: Event, bot: BotId)
    requires Inv(Of(d.bots, bot), d.clock) && d.clock <= e.now && Bearable(d, e, bot)
    ensures Inv(Of(Step(d, e).bots, bot), Step(d, e).clock)
  {
    hide Inv, Admits, Prunes, Releases, Stamped, Restored, WithoutBot, HasRoom, TooSoon;
    match e
    case Reserve(chat, kind, now) =>
      if bot != chat.bot {
        LaterKeeps(Of(d.bots, bot), d.clock, now);
      } else if Admitted(d, chat, kind, now) {
        AdmitsKeeps(Of(d.bots, bot), d.clock, now);
      } else {
        PrunesKeeps(Of(d.bots, bot), d.clock, now);
      }
    case Release(slot, now) =>
      LaterKeeps(Of(d.bots, bot), d.clock, now);
      if bot == slot.chat.bot {
        ReleasesKeeps(Of(d.bots, bot), slot.id, now);
      }
    case Forget(other, now) =>
      LaterKeeps(Of(d.bots, bot), d.clock, now);
      if bot == other {
        ForgettingKeeps(Of(d.bots, bot), now);
      }
  }

  lemma {:induction false} RunKeepsCap(start: Time, events: seq<Event>, bot: BotId)
    requires InClockOrder(start, events) && BearableThroughout(start, events, bot)
    ensures Inv(Of(Run(start, events).bots, bot), Run(start, events).clock)
  {
    hide Step, Inv, Bearable;
    if events == [] {
      NothingAdmitted(start);
    } else {
      var n, before := |events| - 1, events[..|events| - 1];
      assert forall k :: 0 <= k < n ==> before[..k] == events[..k] && before[k] == events[k];
      RunKeepsCap(start, before, bot);
      ClockIsLast(start, before);
      StepKeepsCap(Run(start, before), events[n], bot);
    }
  }

  lemma CappedIsWithinCap(start: Time, events: seq<Event>, bot: BotId)
    requires InClockOrder(start, events) && BearableThroughout(start, events, bot)
    ensures WithinCap(Run(start, events), bot)
  {
    RunKeepsCap(start, events, bot);
    var times := Times(Of(Run(start, events).bots, bot).admitted);
    forall from
      ensures CountIn(times, from, ESCALATION_WINDOW_MS) <= ESCALATIONS_PER_BOT_PER_MINUTE
    {
      SpacedMeansCapped(times, ESCALATIONS_PER_BOT_PER_MINUTE, ESCALATION_WINDOW_MS, from);
    }
  }

  lemma BearableIsSafe(start: Time, events: seq<Event>, bot: BotId)
    requires BearableThroughout(start, events, bot)
    ensures CapSafe(start, events, bot)
  {
    hide Run, Bearable;
    forall more | Reservations(more) && InClockOrder(start, events + more)
      ensures WithinCap(Run(start, events + more), bot)
    {
      var all := events + more;
      forall k | 0 <= k < |all|
        ensures Bearable(Run(start, all[..k]), all[k], bot)
      {
        if k < |events| {
          assert all[..k] == events[..k];
        } else {
          assert all[k].Reserve?;
          ReservingIsBearable(Run(start, all[..k]), all[k], bot);
        }
      }
      CappedIsWithinCap(start, all, bot);
    }
  }

  lemma ReservingIsBearable(d: Desk, e: Event, bot: BotId)
    requires e.Reserve?
    ensures Bearable(d, e, bot)
  {}

  /** Forwards of one bot, all at once: nothing but its cap can turn them down. */
  function Forwards(bot: BotId, now: Time, n: nat): (events: seq<Event>)
    ensures |events| == n && forall i :: 0 <= i < n ==> events[i] == Reserve(Chat(bot, 0), Forward, now)
  {
    if n == 0 then [] else Forwards(bot, now, n - 1) + [Reserve(Chat(bot, 0), Forward, now)]
  }

  function Copies(now: Time, n: nat): (times: seq<Time>)
    ensures |times| == n
  {
    if n == 0 then [] else Copies(now, n - 1) + [now]
  }

  lemma {:induction false} NothingPruned(tokens: seq<Token>, now: Time)
    requires tokens != [] ==> tokens[0].at == now
    ensures Pruned(tokens, now) == tokens
  {}

  lemma RunOn(start: Time, events: seq<Event>, e: Event)
    ensures Run(start, events + [e]) == Step(Run(start, events), e)
  {
    hide Step;
    assert (events + [e])[..|events|] == events;
  }

  lemma ForwardIsAdmitted(d: Desk, bot: BotId)
    requires var tokens := Of(d.bots, bot).tokens;
             |tokens| < ESCALATIONS_PER_BOT_PER_MINUTE && (tokens != [] ==> tokens[0].at == d.clock)
    ensures var s, d' := Of(d.bots, bot), Step(d, Reserve(Chat(bot, 0), Forward, d.clock));
            && d'.clock == d.clock
            && Of(d'.bots, bot).tokens == s.tokens + [Token(s.next, d.clock)]
            && Times(Of(d'.bots, bot).admitted) == Times(s.admitted) + [d.clock]
  {
    NothingPruned(Of(d.bots, bot).tokens, d.clock);
    hide Pruned;
  }

  /** An empty list takes a whole cap of them. */
  lemma {:induction false} ForwardsAreAdmitted(start: Time, events: seq<Event>, bot: BotId, now: Time, n: nat)
    requires n <= ESCALATIONS_PER_BOT_PER_MINUTE && Of(Run(start, events).bots, bot).tokens == []
    requires now == Run(start, events).clock
    ensures var d := Run(start, events + Forwards(bot, now, n));
            var s := Of(d.bots, bot);
            && d.clock == now && |s.tokens| == n && (n > 0 ==> s.tokens[0].at == now)
            && Times(s.admitted) == Times(Of(Run(start, events).bots, bot).admitted) + Copies(now, n)
  {
    hide Run, Step;
    if n == 0 {
      assert events + Forwards(bot, now, 0) == events;
    } else {
      ForwardsAreAdmitted(start, events, bot, now, n - 1);
      var before, next := events + Forwards(bot, now, n - 1), Reserve(Chat(bot, 0), Forward, now);
      ForwardIsAdmitted(Run(start, before), bot);
      RunOn(start, before, next);
      assert events + Forwards(bot, now, n) == before + [next];
    }
  }

  lemma {:induction false} CountOfCopies(times: seq<Time>, now: Time, n: nat, from: Time, window: int)
    requires from <= now < from + window
    ensures CountIn(times + Copies(now, n), from, window) == CountIn(times, from, window) + n
  {
    if n == 0 {
      assert times + Copies(now, 0) == times;
    } else {
      CountOfCopies(times, now, n - 1, from, window);
      var all := times + Copies(now, n);
      assert all[..|all| - 1] == times + Copies(now, n - 1);
    }
  }

  lemma {:induction false} CountsOne(times: seq<Time>, i: nat, from: Time, window: int)
    requires i < |times| && from <= times[i] < from + window
    ensures CountIn(times, from, window) > 0
  {
    if i < |times| - 1 {
      CountsOne(times[..|times| - 1], i, from, window);
    }
  }

  ghost predicate AdmittedInPast(d: Desk, bot: BotId) {
    forall i :: 0 <= i < |Of(d.bots, bot).admitted| ==> Of(d.bots, bot).admitted[i].at <= d.clock
  }

  lemma StepAdmitsInPast(d: Desk, e: Event, bot: BotId)
    requires AdmittedInPast(d, bot) && d.clock <= e.now
    ensures AdmittedInPast(Step(d, e), bot)
  {
    hide Pruned, Removed, HasRoom, TooSoon, Restored, Stamped, WithoutBot, LastAt;
    var before, after := Of(d.bots, bot).admitted, Of(Step(d, e).bots, bot).admitted;
    if e.Release? {
      var k := RemovedOne(before, e.slot.id);
      assert forall i :: 0 <= i < |after| && |after| < |before| ==> after[i] == before[if i < k then i else i + 1];
    } else {
      assert forall i :: 0 <= i < |before| ==> after[i] == before[i];
    }
  }

  lemma {:induction false} RunAdmitsInPast(start: Time, events: seq<Event>, bot: BotId)
    requires InClockOrder(start, events)
    ensures AdmittedInPast(Run(start, events), bot)
  {
    hide Step;
    if events != [] {
      var before, last := events[..|events| - 1], events[|events| - 1];
      RunAdmitsInPast(start, before, bot);
      ClockIsLast(start, before);
      StepAdmitsInPast(Run(start, before), last, bot);
    }
  }

  /** A forgotten slot that is still fresh leaves room for a whole cap beside it. */
  lemma ForgottenIsUnsafe(start: Time, events: seq<Event>, bot: BotId, now: Time)
    requires InClockOrder(start, events + [Forget(bot, now)]) && !Bearable(Run(start, events), Forget(bot, now), bot)
    ensures !CapSafe(start, events + [Forget(bot, now)], bot)
  {
    hide Run, Step, CountIn, Copies, Bearable;
    var all, d := events + [Forget(bot, now)], Run(start, events);
    ClockBeforeForgetting(start, events, bot, now);
    RunOn(start, events, Forget(bot, now));
    ForgettingEmpties(d, bot, now);
    var cap := ESCALATIONS_PER_BOT_PER_MINUTE;
    var more := Forwards(bot, now, cap);
    ForwardsAreAdmitted(start, all, bot, now, cap);
    RunAdmitsInPast(start, events, bot);
    FreshCounts(d, bot, now);
    var times, from := Times(Of(d.bots, bot).admitted), now - ESCALATION_WINDOW_MS + 1;
    CountOfCopies(times, now, cap, from, ESCALATION_WINDOW_MS);
    assert !WithinCap(Run(start, all + more), bot);
    ForwardsComeLast(start, all, bot, now, cap);
  }

  lemma ForwardsComeLast(start: Time, all: seq<Event>, bot: BotId, now: Time, n: nat)
    requires InClockOrder(start, all) && all != [] && all[|all| - 1].now == now
    ensures Reservations(Forwards(bot, now, n)) && InClockOrder(start, all + Forwards(bot, now, n))
  {
  }

  lemma ClockBeforeForgetting(start: Time, events: seq<Event>, bot: BotId, now: Time)
    requires InClockOrder(start, events + [Forget(bot, now)])
    ensures InClockOrder(start, events) && Run(start, events).clock <= now
  {
    var all := events + [Forget(bot, now)];
    assert forall i :: 0 <= i < |events| ==> all[i] == events[i];
    assert all[|events|].now == now;
    ClockIsLast(start, events);
  }

  lemma ForgettingEmpties(d: Desk, bot: BotId, now: Time)
    ensures var d' := Step(d, Forget(bot, now));
            && d'.clock == now && Of(d'.bots, bot).tokens == [] && Of(d'.bots, bot).admitted == Of(d.bots, bot).admitted
  {}

  lemma FreshCounts(d: Desk, bot: BotId, now: Time)
    requires !Bearable(d, Forget(bot, now), bot) && AdmittedInPast(d, bot) && d.clock <= now
    ensures CountIn(Times(Of(d.bots, bot).admitted), now - ESCALATION_WINDOW_MS + 1, ESCALATION_WINDOW_MS) > 0
  {
    var admitted := Of(d.bots, bot).admitted;
    var i :| 0 <= i < |admitted| && Fresh(admitted[i], now);
    CountsOne(Times(admitted), i, now - ESCALATION_WINDOW_MS + 1, ESCALATION_WINDOW_MS);
  }

  /** The cap over every run: whatever reservations follow any state of it, the slots of the bot admitted and
      not given back stay within the cap in every window, if and only if its list is never forgotten while
      one of them is fresh. */
  lemma EscalationsAreCapped(start: Time, events: seq<Event>, bot: BotId)
    requires InClockOrder(start, events)
    ensures BearableThroughout(start, events, bot) <==>
            (forall k :: 0 <= k <= |events| ==> CapSafe(start, events[..k], bot))
    ensures BearableThroughout(start, events, bot) ==> WithinCap(Run(start, events), bot)
  {
    hide Run, Bearable, CapSafe, WithinCap;
    if BearableThroughout(start, events, bot) {
      CappedIsWithinCap(start, events, bot);
      forall k | 0 <= k <= |events|
        ensures CapSafe(start, events[..k], bot)
      {
        BearablePrefix(start, events, bot, k);
        BearableIsSafe(start, events[..k], bot);
      }
    } else {
      var k :| 0 <= k < |events| && !Bearable(Run(start, events[..k]), events[k], bot);
      UnbearableIsUnsafe(start, events, bot, k);
    }
  }

  lemma BearablePrefix(start: Time, events: seq<Event>, bot: BotId, k: nat)
    requires BearableThroughout(start, events, bot) && k <= |events|
    ensures BearableThroughout(start, events[..k], bot)
  {
    hide Run, Bearable;
    assert forall j :: 0 <= j < k ==> events[..k][..j] == events[..j];
  }

  lemma UnbearableIsUnsafe(start: Time, events: seq<Event>, bot: BotId, k: nat)
    requires InClockOrder(start, events) && k < |events| && !Bearable(Run(start, events[..k]), events[k], bot)
    ensures !CapSafe(start, events[..k + 1], bot)
  {
    hide Run, CapSafe;
    OnlyForgettingIsUnbearable(Run(start, events[..k]), events[k], bot);
    hide Bearable;
    var now := events[k].now;
    assert events[..k + 1] == events[..k] + [Forget(bot, now)];
    ForgottenIsUnsafe(start, events[..k], bot, now);
  }

  lemma OnlyForgettingIsUnbearable(d: Desk, e: Event, bot: BotId)
    requires !Bearable(d, e, bot)
    ensures e.Forget? && e.bot == bot
  {}

  // ----- When the customers' intervals hold -----

  /** A request that was admitted and not given back: the owner was paged for it. */
  predicate OpenRequest(d: Desk, i: int) {
    0 <= i < |d.taken| && d.taken[i].slot.kind.Request? && d.taken[i].slot !in d.released
  }

  predicate Young(t: Taken, now: Time) {
    now - t.at < ESCALATION_MIN_INTERVAL_MS
  }

  /** The promise: one customer pages the owner at most once in an interval. */
  ghost predicate Apart(d: Desk) {
    forall i, j | 0 <= i < j && OpenRequest(d, i) && OpenRequest(d, j) ::
      d.taken[i].slot.chat == d.taken[j].slot.chat ==> d.taken[j].at - d.taken[i].at >= ESCALATION_MIN_INTERVAL_MS
  }

  /** Whenever a request comes next, the stamps turn it down if it comes too soon after an open one. */
  ghost predicate RefusesInTime(d: Desk) {
    forall i, now :: OpenRequest(d, i) && d.clock <= now && Young(d.taken[i], now) ==>
                       TooSoon(d.stamps, d.taken[i].slot.chat, Request, now)
  }

  predicate Covers(stamps: Stamps, t: Taken) {
    LastAt(stamps, t.slot.chat).Some? && t.at <= LastAt(stamps, t.slot.chat).value
  }

  ghost predicate Guarded(d: Desk) {
    forall i :: OpenRequest(d, i) && Young(d.taken[i], d.clock) ==> Covers(d.stamps, d.taken[i])
  }

  ghost predicate OnePerChat(stamps: Stamps) {
    forall i, j :: 0 <= i < j < |stamps| ==> stamps[i].0 != stamps[j].0
  }

  /** What the history says of every slot: it was taken in the past, under a number of its
      own bot's, and on a stamp at least an interval old. */
  ghost predicate Account(d: Desk) {
    && OnePerChat(d.stamps)
    && (forall i :: 0 <= i < |d.taken| ==> d.taken[i].at <= d.clock)
    && (forall i :: 0 <= i < |d.taken| && d.taken[i].slot.kind.Request? && d.taken[i].slot.last.Some? ==>
          d.taken[i].slot.last.value + ESCALATION_MIN_INTERVAL_MS <= d.taken[i].at)
    && (forall i :: 0 <= i < |d.taken| ==> d.taken[i].slot.id < Of(d.bots, d.taken[i].slot.chat.bot).next)
    && (forall slot :: slot in d.released ==> slot.id < Of(d.bots, slot.chat.bot).next)
  }

  /** Whose stamp makes way for a stamp of `c`. */
  function Evicted(stamps: Stamps, c: Chat): Option<Chat> {
    var others := Without(stamps, c);
    if |others| >= ESCALATION_KEYS_MAX then Some(others[0].0) else None
  }

  /** The event the interval can bear. A slot is given back while no other request of its customer is open
      and young; a stamp is evicted, or a bot's stamps forgotten, only without such a request. */
  ghost predicate Timely(d: Desk, e: Event) {
    match e
    case Reserve(chat, kind, now) =>
      Admitted(d, chat, kind, now) && kind.Request? ==>
        forall i :: OpenRequest(d, i) && Young(d.taken[i], now) ==>
            Evicted(d.stamps, chat) != Some(d.taken[i].slot.chat)
    case Release(slot, now) =>
      HandedOut(d, slot) && slot.kind.Request? ==>
        forall i :: OpenRequest(d, i) && Young(d.taken[i], now) && d.taken[i].slot != slot ==>
                      && d.taken[i].slot.chat != slot.chat
                      && (slot.last.Some? ==> Evicted(d.stamps, slot.chat) != Some(d.taken[i].slot.chat))
    case Forget(bot, now) =>
      forall i :: OpenRequest(d, i) && Young(d.taken[i], now) ==> d.taken[i].slot.chat.bot != bot
  }

  lemma {:induction false} WithoutKeepsOnePerChat(stamps: Stamps, c: Chat)
    requires OnePerChat(stamps)
    ensures OnePerChat(Without(stamps, c)) && forall x :: x in Without(stamps, c) ==> x in stamps && x.0 != c
    decreases |stamps|
  {
    if stamps != [] {
      assert forall i, j :: 0 <= i < j < |stamps[1..]| ==>
               stamps[1..][i] == stamps[i + 1] && stamps[1..][j] == stamps[j + 1];
      WithoutKeepsOnePerChat(stamps[1..], c);
      if stamps[0].0 != c {
        var rest := Without(stamps[1..], c);
        forall i | 0 <= i < |rest|
          ensures rest[i].0 != stamps[0].0
        {
          assert rest[i] in stamps[1..];
        }
      }
    }
  }

  lemma {:induction false} WithoutBotKeepsOnePerChat(stamps: Stamps, bot: BotId)
    requires OnePerChat(stamps)
    ensures OnePerChat(WithoutBot(stamps, bot)) && forall x :: x in WithoutBot(stamps, bot) ==> x in stamps
    decreases |stamps|
  {
    if stamps != [] {
      var rest := stamps[1..];
      assert forall i, j :: 0 <= i < j < |rest| ==> rest[i] == stamps[i + 1] && rest[j] == stamps[j + 1];
      WithoutBotKeepsOnePerChat(rest, bot);
      var kept := WithoutBot(rest, bot);
      forall i | 0 <= i < |kept|
        ensures kept[i].0 != stamps[0].0
      {
        assert kept[i] in rest;
      }
    }
  }

  /** Forgetting takes away the stamps of the bot's customers, and no other. */
  lemma {:induction false} WithoutBotForgets(stamps: Stamps, bot: BotId, c: Chat)
    ensures LastAt(WithoutBot(stamps, bot), c) == if c.bot == bot then None else LastAt(stamps, c)
    decreases |stamps|
  {
    if stamps != [] {
      WithoutBotForgets(stamps[1..], bot, c);
      assert ([stamps[0]] + WithoutBot(stamps[1..], bot))[1..] == WithoutBot(stamps[1..], bot);
    }
  }

  lemma {:induction false} AbsentHasNoStamp(stamps: Stamps, c: Chat)
    requires forall i :: 0 <= i < |stamps| ==> stamps[i].0 != c
    ensures LastAt(stamps, c).None?
    decreases |stamps|
  {
    if stamps != [] {
      AbsentHasNoStamp(stamps[1..], c);
    }
  }

  lemma {:induction false} AppendKeepsOthers(stamps: Stamps, c: Chat, at: Time, other: Chat)
    requires other != c
    ensures LastAt(stamps + [(c, at)], other) == LastAt(stamps, other)
    decreases |stamps|
  {
    if stamps == [] {
      assert (stamps + [(c, at)])[1..] == [];
    } else {
      assert (stamps + [(c, at)])[1..] == stamps[1..] + [(c, at)];
      AppendKeepsOthers(stamps[1..], c, at, other);
    }
  }

  /** A new stamp changes its own customer's, and takes away the evicted one's. */
  lemma StampedStamps(stamps: Stamps, c: Chat, at: Time)
    requires OnePerChat(stamps)
    ensures OnePerChat(Stamped(stamps, c, at)) && LastAt(Stamped(stamps, c, at), c) == Some(at)
    ensures forall other :: other != c ==>
              LastAt(Stamped(stamps, c, at), other) == if Evicted(stamps, c) == Some(other) then None
                else LastAt(stamps, other)
  {
    var others := Without(stamps, c);
    WithoutForgets(stamps, c);
    WithoutKeepsOnePerChat(stamps, c);
    var kept := if |others| >= ESCALATION_KEYS_MAX then others[1..] else others;
    assert forall i :: 0 <= i < |kept| ==> kept[i] in others;
    LastOfAppend(kept, c, at) by {
      AbsentHasNoStamp(kept, c);
    }
    forall other | other != c
      ensures LastAt(kept + [(c, at)], other) == if Evicted(stamps, c) == Some(other) then None
              else LastAt(stamps, other)
    {
      AppendKeepsOthers(kept, c, at, other);
      if Evicted(stamps, c) == Some(other) {
        AbsentHasNoStamp(kept, other);
      }
    }
  }

  /** The table refuses whatever would come too soon exactly while each young open request is covered by its
      customer's stamp. */
  lemma GuardedIsRefusing(d: Desk)
    ensures RefusesInTime(d) <==> Guarded(d)
  {
    if RefusesInTime(d) {
      forall i | OpenRequest(d, i) && Young(d.taken[i], d.clock)
        ensures Covers(d.stamps, d.taken[i])
      {
        var last := LastAt(d.stamps, d.taken[i].slot.chat);
        var over := last.GetOr(d.clock - ESCALATION_MIN_INTERVAL_MS) + ESCALATION_MIN_INTERVAL_MS;
        var now := if over > d.clock then over else d.clock;
        assert !TooSoon(d.stamps, d.taken[i].slot.chat, Request, now);
      }
    }
  }

  lemma ReserveKeepsApart(d: Desk, chat: Chat, kind: Kind, now: Time)
    requires Account(d) && Guarded(d) && Apart(d) && d.clock <= now
    ensures Apart(Reserves(d, chat, kind, now))
  {
    hide Stamped, Admits, Prunes, HasRoom, OnePerChat;
    GuardedIsRefusing(d);
    var d' := Reserves(d, chat, kind, now);
    forall i, j | 0 <= i < j && OpenRequest(d', i) && OpenRequest(d', j) &&
      d'.taken[i].slot.chat == d'.taken[j].slot.chat
      ensures d'.taken[j].at - d'.taken[i].at >= ESCALATION_MIN_INTERVAL_MS
    {
      assert OpenRequest(d, i);
      if j < |d.taken| {
        assert OpenRequest(d, j);
      }
    }
  }

  lemma ReleaseKeepsApart(d: Desk, slot: Slot, now: Time)
    requires Apart(d)
    ensures Apart(GivesBack(d, slot, now))
  {
    hide Restored, Releases;
    var d' := GivesBack(d, slot, now);
    forall i, j | 0 <= i < j && OpenRequest(d', i) && OpenRequest(d', j) &&
      d'.taken[i].slot.chat == d'.taken[j].slot.chat
      ensures d'.taken[j].at - d'.taken[i].at >= ESCALATION_MIN_INTERVAL_MS
    {
      assert OpenRequest(d, i) && OpenRequest(d, j);
    }
  }

  lemma StepKeepsAccount(d: Desk, e: Event)
    requires Account(d) && d.clock <= e.now
    ensures Account(Step(d, e))
  {
    hide Stamped, Without, WithoutBot, Pruned, Removed, OnePerChat, HasRoom;
    match e
    case Reserve(chat, kind, now) => StampedStamps(d.stamps, chat, now);
    case Release(slot, now) =>
      WithoutKeepsOnePerChat(d.stamps, slot.chat);
      if slot.last.Some? {
        StampedStamps(d.stamps, slot.chat, slot.last.value);
      }
    case Forget(bot, now) => WithoutBotKeepsOnePerChat(d.stamps, bot);
  }

  lemma ForgetKeepsApart(d: Desk, bot: BotId, now: Time)
    requires Apart(d)
    ensures Apart(Forgets(d, bot, now))
  {
    hide WithoutBot;
    var d' := Forgets(d, bot, now);
    assert forall i :: OpenRequest(d', i) <==> OpenRequest(d, i);
  }

  lemma ForgetGuards(d: Desk, bot: BotId, now: Time)
    requires Account(d) && Guarded(d) && d.clock <= now
    ensures Guarded(Forgets(d, bot, now)) <==> Timely(d, Forget(bot, now))
  {
    hide WithoutBot, LastAt, OnePerChat;
    var d' := Forgets(d, bot, now);
    forall c: Chat
      ensures LastAt(d'.stamps, c) == if c.bot == bot then None else LastAt(d.stamps, c)
    {
      WithoutBotForgets(d.stamps, bot, c);
    }
    assert forall i :: OpenRequest(d', i) <==> OpenRequest(d, i);
  }

  lemma ReserveGuards(d: Desk, chat: Chat, kind: Kind, now: Time)
    requires Account(d) && Guarded(d) && d.clock <= now
    ensures Guarded(Reserves(d, chat, kind, now)) <==> Timely(d, Reserve(chat, kind, now))
  {
    hide Stamped, Evicted, Admits, Prunes, HasRoom, OnePerChat, LastAt;
    StampedStamps(d.stamps, chat, now);
    var d' := Reserves(d, chat, kind, now);
    assert forall i :: OpenRequest(d, i) ==> OpenRequest(d', i);
    assert forall i :: OpenRequest(d', i) ==> OpenRequest(d, i) || i == |d.taken|;
    assert forall i :: OpenRequest(d, i) && Young(d.taken[i], now) ==> Young(d.taken[i], d.clock);
    if Guarded(d') {
      forall i | Admitted(d, chat, kind, now) && kind.Request? && OpenRequest(d, i) && Young(d.taken[i], now)
        ensures Evicted(d.stamps, chat) != Some(d.taken[i].slot.chat)
      {
        assert OpenRequest(d', i);
        EvictedIsAnother(d.stamps, chat);
      }
    }
  }

  lemma EvictedIsAnother(stamps: Stamps, c: Chat)
    requires OnePerChat(stamps)
    ensures Evicted(stamps, c) != Some(c)
  {
    WithoutKeepsOnePerChat(stamps, c);
    if |Without(stamps, c)| >= ESCALATION_KEYS_MAX {
      assert Without(stamps, c)[0] in Without(stamps, c);
    }
  }

  lemma ReleaseGuards(d: Desk, slot: Slot, now: Time)
    requires Account(d) && Guarded(d) && HandedOut(d, slot) && d.clock <= now
    ensures Guarded(GivesBack(d, slot, now)) <==> Timely(d, Release(slot, now))
  {
    hide Stamped, Without, Evicted, Releases, OnePerChat, LastAt;
    WithoutForgets(d.stamps, slot.chat);
    if slot.last.Some? {
      StampedStamps(d.stamps, slot.chat, slot.last.value);
    }
    var d' := GivesBack(d, slot, now);
    assert forall i :: OpenRequest(d', i) <==> OpenRequest(d, i) && d.taken[i].slot != slot;
  }

  lemma IdleGuards(d: Desk, now: Time)
    requires Account(d) && Apart(d) && Guarded(d) && d.clock <= now
    ensures Apart(d.(clock := now)) && Guarded(d.(clock := now))
  {
    var d' := d.(clock := now);
    assert forall i :: OpenRequest(d', i) <==> OpenRequest(d, i);
  }

  /** From a state that refuses in time, the next one does too if and only if the event is timely. */
  lemma StepGuards(d: Desk, e: Event)
    requires Account(d) && Apart(d) && RefusesInTime(d) && d.clock <= e.now
    ensures Account(Step(d, e)) && Apart(Step(d, e))
    ensures RefusesInTime(Step(d, e)) <==> Timely(d, e)
  {
    assert e.Release? && !HandedOut(d, e.slot) ==> Timely(d, e);
    hide Account, Apart, RefusesInTime, Guarded, Reserves, GivesBack, Forgets, Timely;
    GuardedIsRefusing(d);
    GuardedIsRefusing(Step(d, e));
    StepKeepsAccount(d, e);
    match e
    case Reserve(chat, kind, now) =>
      ReserveKeepsApart(d, chat, kind, now);
      ReserveGuards(d, chat, kind, now);
    case Release(slot, now) =>
      if HandedOut(d, slot) {
        ReleaseKeepsApart(d, slot, now);
        ReleaseGuards(d, slot, now);
      } else {
        IdleGuards(d, now);
      }
    case Forget(bot, now) =>
      ForgetKeepsApart(d, bot, now);
      ForgetGuards(d, bot, now);
  }

  /** What the stamps let through too soon breaks the interval, unless the bot's cap happens to be reached. */
  lemma LetThroughBreaksApart(d: Desk, i: int, now: Time)
    requires Account(d) && OpenRequest(d, i) && d.clock <= now && Young(d.taken[i], now)
    requires var chat := d.taken[i].slot.chat;
             !TooSoon(d.stamps, chat, Request, now) && HasRoom(Of(d.bots, chat.bot), now)
    ensures !Apart(Step(d, Reserve(d.taken[i].slot.chat, Request, now)))
  {
    hide Stamped, Admits, Pruned;
    var d' := Step(d, Reserve(d.taken[i].slot.chat, Request, now));
    assert OpenRequest(d', i) && OpenRequest(d', |d.taken|);
  }

  ghost predicate RefusesThroughout(start: Time, events: seq<Event>) {
    forall k :: 0 <= k <= |events| ==> RefusesInTime(Run(start, events[..k]))
  }

  ghost predicate TimelyThroughout(start: Time, events: seq<Event>) {
    forall k :: 0 <= k < |events| ==> Timely(Run(start, events[..k]), events[k])
  }

  lemma ThroughoutOneMore(start: Time, events: seq<Event>)
    requires events != []
    ensures var before := events[..|events| - 1];
            && (RefusesThroughout(start, events) <==>
               RefusesThroughout(start, before) && RefusesInTime(Run(start, events)))
            && (TimelyThroughout(start, events) <==>
                TimelyThroughout(start, before) && Timely(Run(start, before), events[|events| - 1]))
  {
    hide Run, RefusesInTime, Timely;
    var n, before := |events| - 1, events[..|events| - 1];
    assert events[..n + 1] == events;
    assert forall k :: 0 <= k <= n ==> before[..k] == events[..k];
    if RefusesThroughout(start, events) {
      assert RefusesInTime(Run(start, events[..n + 1]));
      assert forall k :: 0 <= k <= n ==> RefusesInTime(Run(start, before[..k])) by {
        assert forall k :: 0 <= k <= n ==> RefusesInTime(Run(start, events[..k]));
      }
    }
    if RefusesThroughout(start, before) && RefusesInTime(Run(start, events)) {
      forall k | 0 <= k <= n + 1
        ensures RefusesInTime(Run(start, events[..k]))
      {
        if k <= n {
          assert RefusesInTime(Run(start, before[..k]));
        }
      }
    }
    if TimelyThroughout(start, events) {
      assert Timely(Run(start, events[..n]), events[n]);
      forall k | 0 <= k < n
        ensures Timely(Run(start, before[..k]), before[k])
      {
        assert Timely(Run(start, events[..k]), events[k]);
      }
    }
    if TimelyThroughout(start, before) && Timely(Run(start, before), events[n]) {
      forall k | 0 <= k < n + 1
        ensures Timely(Run(start, events[..k]), events[k])
      {
        if k < n {
          assert Timely(Run(start, before[..k]), before[k]);
        }
      }
    }
  }

  /** The customers' intervals, over every run: in each of its states the table turns down whatever would come
      too soon if and only if each event was timely, and then the requests that reached the owner are an
      interval apart. */
  lemma {:induction false} IntervalHoldsExactly(start: Time, events: seq<Event>)
    requires InClockOrder(start, events)
    ensures RefusesThroughout(start, events) <==> TimelyThroughout(start, events)
    ensures TimelyThroughout(start, events) ==> Account(Run(start, events)) && Apart(Run(start, events))
  {
    hide RefusesInTime, Timely, Step, RefusesThroughout, TimelyThroughout;
    if events == [] {
      NothingTaken(start);
    } else {
      var before, last := events[..|events| - 1], events[|events| - 1];
      hide Account, Apart;
      IntervalHoldsExactly(start, before);
      ThroughoutOneMore(start, events);
      if RefusesThroughout(start, before) {
        RefusesAtTheEnd(start, before);
        ClockIsLast(start, before);
        StepGuards(Run(start, before), last);
      }
    }
  }

  lemma NothingTaken(start: Time)
    ensures RefusesThroughout(start, []) && TimelyThroughout(start, [])
    ensures Account(Run(start, [])) && Apart(Run(start, []))
  {
    GuardedIsRefusing(Run(start, []));
  }

  lemma RefusesAtTheEnd(start: Time, events: seq<Event>)
    requires RefusesThroughout(start, events)
    ensures RefusesInTime(Run(start, events))
  {
    hide RefusesInTime, Run;
    assert events[..|events|] == events;
  }

  const LATE_CHAT := Chat(1, 7)
  const FIRST_SLOT := Slot(LATE_CHAT, 0, Request, None)
  const SECOND_SLOT := Slot(LATE_CHAT, 1, Request, Some(0))
  const LATE_RELEASE: seq<Event> := [
    Reserve(LATE_CHAT, Request, 0),
    Reserve(LATE_CHAT, Request, ESCALATION_MIN_INTERVAL_MS),
    Release(FIRST_SLOT, ESCALATION_MIN_INTERVAL_MS),
    Reserve(LATE_CHAT, Request, ESCALATION_MIN_INTERVAL_MS + 1)]

  const AFTER_ONE := Desk(
    map[1 := Slots([Token(0, 0)], [Token(0, 0)], 1)],
    [(LATE_CHAT, 0)], [Taken(FIRST_SLOT, 0)], {}, 0)
  const AFTER_TWO := Desk(
    map[1 := Slots([Token(1, ESCALATION_MIN_INTERVAL_MS)], [Token(0, 0), Token(1, ESCALATION_MIN_INTERVAL_MS)], 2)],
    [(LATE_CHAT, ESCALATION_MIN_INTERVAL_MS)],
    [Taken(FIRST_SLOT, 0), Taken(SECOND_SLOT, ESCALATION_MIN_INTERVAL_MS)], {}, ESCALATION_MIN_INTERVAL_MS)

  lemma FirstIsAdmitted()
    ensures Run(0, LATE_RELEASE[..1]) == AFTER_ONE
  {
    RunOneMore(0, LATE_RELEASE, 0);
    var s := Admits(NoSlots, 0);
    assert s == Slots([Token(0, 0)], [Token(0, 0)], 1);
    assert Stamped([], LATE_CHAT, 0) == [(LATE_CHAT, 0)];
    assert Admitted(Run(0, []), LATE_CHAT, Request, 0);
    assert map[][1 := s] == map[1 := s];
  }

  lemma SecondIsAdmitted()
    ensures Run(0, LATE_RELEASE[..2]) == AFTER_TWO
  {
    FirstIsAdmitted();
    RunOneMore(0, LATE_RELEASE, 1);
    hide Run;
    var now := ESCALATION_MIN_INTERVAL_MS;
    assert AFTER_ONE.bots[1].tokens[1..] == [];
    assert Pruned(AFTER_ONE.bots[1].tokens, now) == [];
    assert Admits(AFTER_ONE.bots[1], now) == AFTER_TWO.bots[1];
    assert AFTER_ONE.stamps[1..] == [];
    assert Stamped(AFTER_ONE.stamps, LATE_CHAT, now) == AFTER_TWO.stamps;
  }

  lemma OnlyStampGoes(c: Chat, at: Time)
    ensures Without([(c, at)], c) == []
  {
    assert [(c, at)][1..] == [];
  }

  lemma OtherTokenStays(t: Token, id: TokenId)
    requires t.id != id
    ensures Removed([t], id) == [t]
  {
    assert [t][1..] == [];
  }

  lemma FirstIsReleasedLate()
    ensures var d := Run(0, LATE_RELEASE[..3]);
            && d.stamps == [] && d.taken == AFTER_TWO.taken && d.released == {FIRST_SLOT}
            && Of(d.bots, 1).tokens == AFTER_TWO.bots[1].tokens && Of(d.bots, 1).next == 2
  {
    hide Run, Without, Removed, Stamped, Reserves;
    SecondIsAdmitted();
    RunOneMore(0, LATE_RELEASE, 2);
    assert AFTER_TWO.taken[0].slot == FIRST_SLOT;
    assert HandedOut(AFTER_TWO, FIRST_SLOT);
    OnlyStampGoes(LATE_CHAT, ESCALATION_MIN_INTERVAL_MS);
    OtherTokenStays(Token(1, ESCALATION_MIN_INTERVAL_MS), 0);
  }

  lemma ThirdIsAdmitted()
    ensures Run(0, LATE_RELEASE).taken ==
            AFTER_TWO.taken + [Taken(Slot(LATE_CHAT, 2, Request, None), ESCALATION_MIN_INTERVAL_MS + 1)]
    ensures Run(0, LATE_RELEASE).released == {FIRST_SLOT}
  {
    FirstIsReleasedLate();
    RunOneMore(0, LATE_RELEASE, 3);
    hide Run, Stamped, Admits;
    assert LATE_RELEASE[..4] == LATE_RELEASE;
    var d, now := Run(0, LATE_RELEASE[..3]), ESCALATION_MIN_INTERVAL_MS + 1;
    assert |Pruned(Of(d.bots, 1).tokens, now)| <= 1;
    assert Admitted(d, LATE_CHAT, Request, now);
  }

  /** The run that breaks it. The first page takes so long to fail that a second request went out meanwhile;
      giving the first slot back takes the second one's stamp away, and a third goes out a millisecond later. */
  lemma LateReleaseLetsOneThrough()
    ensures InClockOrder(0, LATE_RELEASE)
    ensures var d := Run(0, LATE_RELEASE);
            && OpenRequest(d, 1) && OpenRequest(d, 2) && d.taken[1].slot.chat == d.taken[2].slot.chat
            && d.taken[2].at - d.taken[1].at == 1 && !Apart(d)
    ensures !Timely(Run(0, LATE_RELEASE[..2]), LATE_RELEASE[2])
  {
    SecondIsAdmitted();
    ThirdIsAdmitted();
    hide Run, Evicted;
    var d := Run(0, LATE_RELEASE);
    assert OpenRequest(d, 1) && OpenRequest(d, 2);
    assert AFTER_TWO.taken[0].slot == FIRST_SLOT;
    assert HandedOut(AFTER_TWO, FIRST_SLOT);
    assert OpenRequest(AFTER_TWO, 1) && AFTER_TWO.taken[1].slot == SECOND_SLOT;
    assert Young(AFTER_TWO.taken[1], AFTER_TWO.clock);
  }

  const RECONNECT: seq<Event> := [Reserve(LATE_CHAT, Request, 0), Forget(1, 0), Reserve(LATE_CHAT, Request, 1)]

  lemma NothingAfterForgetting()
    ensures var d := Run(0, RECONNECT[..2]);
            d.stamps == [] && Of(d.bots, 1) == Slots([], [Token(0, 0)], 1) && d.taken == AFTER_ONE.taken &&
              d.released == {}
    ensures Run(0, RECONNECT[..1]) == AFTER_ONE
  {
    FirstIsAdmitted();
    assert RECONNECT[..1] == LATE_RELEASE[..1];
    RunOneMore(0, RECONNECT, 1);
    hide Run;
    assert AFTER_ONE.stamps[1..] == [];
  }

  /** The owner's channel is connected anew between two requests of one customer: nothing was given back and
      nothing evicted, and two pages go out a millisecond apart. */
  lemma ForgettingLetsOneThrough()
    ensures InClockOrder(0, RECONNECT) && !Timely(Run(0, RECONNECT[..1]), RECONNECT[1])
    ensures var d := Run(0, RECONNECT);
            && OpenRequest(d, 0) && OpenRequest(d, 1) && d.taken[0].slot.chat == d.taken[1].slot.chat
            && d.taken[1].at - d.taken[0].at == 1 && !Apart(d)
  {
    NothingAfterForgetting();
    RunOneMore(0, RECONNECT, 2);
    hide Run, Evicted, Stamped;
    assert RECONNECT[..3] == RECONNECT;
    assert OpenRequest(AFTER_ONE, 0) && Young(AFTER_ONE.taken[0], AFTER_ONE.clock);
    var d := Run(0, RECONNECT);
    assert OpenRequest(d, 0) && OpenRequest(d, 1);
  }

  /** The same for the cap: one page, a reconnect, and sixty more all within the same millisecond. */
  lemma ForgettingLetsSixtyMoreThrough()
    ensures var events := LATE_RELEASE[..1] + [Forget(1, 0)] + Forwards(1, 0, ESCALATIONS_PER_BOT_PER_MINUTE);
            InClockOrder(0, events)
            && CountIn(Times(Of(Run(0, events).bots, 1).admitted), 0, ESCALATION_WINDOW_MS) ==
                 ESCALATIONS_PER_BOT_PER_MINUTE + 1
  {
    hide Run, Step;
    var first, cap := LATE_RELEASE[..1], ESCALATIONS_PER_BOT_PER_MINUTE;
    FirstIsAdmitted();
    RunOn(0, first, Forget(1, 0));
    ForgettingEmpties(AFTER_ONE, 1, 0);
    ForwardsAreAdmitted(0, first + [Forget(1, 0)], 1, 0, cap);
    OneIsCounted();
    CountOfCopies(Times([Token(0, 0)]), 0, cap, 0, ESCALATION_WINDOW_MS);
    hide CountIn, Copies;
  }

  lemma OneIsCounted()
    ensures CountIn(Times([Token(0, 0)]), 0, ESCALATION_WINDOW_MS) == 1
  {
    var times := Times([Token(0, 0)]);
    assert times[..0] == [] && CountIn([], 0, ESCALATION_WINDOW_MS) == 0;
  }

  // ----- Who is turned away -----

  ghost predicate InTime(tokens: seq<Token>, clock: Time) {
    && (forall i, j :: 0 <= i < j < |tokens| ==> tokens[i].at <= tokens[j].at)
    && (forall i :: 0 <= i < |tokens| ==> tokens[i].at <= clock)
  }

  lemma {:induction false} PrunedBeginsYoung(tokens: seq<Token>, now: Time)
    ensures Pruned(tokens, now) != [] ==> now - Pruned(tokens, now)[0].at < ESCALATION_WINDOW_MS
    decreases |tokens|
  {
    if tokens != [] && now - tokens[0].at >= ESCALATION_WINDOW_MS {
      PrunedBeginsYoung(tokens[1..], now);
    }
  }

  /** A list in the order of time has room exactly if fewer than sixty of it are younger than a minute. */
  lemma HasRoomExactly(s: Slots, now: Time)
    requires InTime(s.tokens, now)
    ensures HasRoom(s, now) <==> |s.tokens| < 60 || now - s.tokens[|s.tokens| - 60].at >= 60_000
  {
    var kept := Pruned(s.tokens, now);
    PrunedIsTail(s.tokens, now);
    PrunedBeginsYoung(s.tokens, now);
    if |kept| >= 60 {
      assert kept[0] == s.tokens[|s.tokens| - |kept|] && kept[|kept| - 60] == s.tokens[|s.tokens| - 60];
    }
  }

  lemma {:induction false} LastAtIsTheStamp(stamps: Stamps, c: Chat)
    requires OnePerChat(stamps)
    ensures forall at :: (c, at) in stamps <==> LastAt(stamps, c) == Some(at)
    decreases |stamps|
  {
    if stamps != [] {
      var rest := stamps[1..];
      assert forall i, j :: 0 <= i < j < |rest| ==> rest[i] == stamps[i + 1] && rest[j] == stamps[j + 1];
      LastAtIsTheStamp(rest, c);
      assert forall x :: x in stamps <==> x == stamps[0] || x in rest;
      assert forall x :: x in rest ==> x.0 != stamps[0].0;
    }
  }

  lemma RemovedIsInTime(tokens: seq<Token>, id: TokenId, clock: Time)
    requires InTime(tokens, clock)
    ensures InTime(Removed(tokens, id), clock)
  {
    var k := RemovedOne(tokens, id);
    var after := Removed(tokens, id);
    assert forall i :: 0 <= i < |after| && |after| < |tokens| ==> after[i] == tokens[if i < k then i else i + 1];
  }

  lemma PrunedIsInTime(tokens: seq<Token>, clock: Time, now: Time, token: Token)
    requires InTime(tokens, clock) && clock <= now == token.at
    ensures InTime(Pruned(tokens, now), now) && InTime(Pruned(tokens, now) + [token], now)
  {
    PrunedIsTail(tokens, now);
    hide Pruned;
  }

  lemma StepKeepsInTime(d: Desk, e: Event, bot: BotId)
    requires InTime(Of(d.bots, bot).tokens, d.clock) && d.clock <= e.now
    ensures InTime(Of(Step(d, e).bots, bot).tokens, Step(d, e).clock)
  {
    LaterIsInTime(Of(d.bots, bot).tokens, d.clock, e.now);
    hide HasRoom, TooSoon, Restored, Stamped, WithoutBot, LastAt, Pruned, Removed, HandedOut;
    match e
    case Reserve(chat, kind, now) =>
      PrunedIsInTime(Of(d.bots, bot).tokens, d.clock, now, Token(Of(d.bots, bot).next, now));
      hide InTime;
    case Release(slot, now) =>
      RemovedIsInTime(Of(d.bots, bot).tokens, slot.id, now);
      hide InTime;
    case Forget(forgotten, now) =>
  }

  lemma LaterIsInTime(tokens: seq<Token>, clock: Time, now: Time)
    requires InTime(tokens, clock) && clock <= now
    ensures InTime(tokens, now)
  {
  }

  lemma {:induction false} RunKeepsInTime(start: Time, events: seq<Event>, bot: BotId)
    requires InClockOrder(start, events)
    ensures InTime(Of(Run(start, events).bots, bot).tokens, Run(start, events).clock)
    ensures Account(Run(start, events))
  {
    hide Step, InTime, Account;
    if events == [] {
      NothingTaken(start);
      NobodyIsListed(start, bot);
    } else {
      var before, last := events[..|events| - 1], events[|events| - 1];
      RunKeepsInTime(start, before, bot);
      ClockIsLast(start, before);
      StepKeepsInTime(Run(start, before), last, bot);
      StepKeepsAccount(Run(start, before), last);
    }
  }

  lemma NobodyIsListed(start: Time, bot: BotId)
    ensures InTime(Of(Run(start, []).bots, bot).tokens, start)
  {
  }

  /** In every state of a run: whoever asks is given a slot exactly if fewer than sixty of the bot's list are
      younger than a minute and, for a request, no stamp of that customer is younger than two. */
  lemma AdmittedExactly(start: Time, events: seq<Event>, chat: Chat, kind: Kind, now: Time)
    requires InClockOrder(start, events) && Run(start, events).clock <= now
    ensures var d := Run(start, events);
            var tokens := Of(d.bots, chat.bot).tokens;
            Admitted(d, chat, kind, now) <==>
              && (|tokens| < 60 || now - tokens[|tokens| - 60].at >= 60_000)
              && (kind.Request? ==> forall at :: (chat, at) in d.stamps ==> now - at >= 120_000)
  {
    var d := Run(start, events);
    RunKeepsInTime(start, events, chat.bot);
    HasRoomExactly(Of(d.bots, chat.bot), now);
    LastAtIsTheStamp(d.stamps, chat);
    hide Run, HasRoom, LastAt;
  }

  class EscalationSlots {
    var escalationsPerBot: map<BotId, Slots>
    var stamps: Stamps
    ghost var taken: seq<Taken>
    ghost var released: set<Slot>
    ghost var clock: Time

    constructor (ghost start: Time)
      ensures State() == Run(start, [])
    {
      escalationsPerBot, stamps := map[], [];
      taken, released, clock := [], {}, start;
    }

    ghost function State(): Desk
      reads this
    {
      Desk(escalationsPerBot, stamps, taken, released, clock)
    }

    /** Reserves before anything is sent, so that concurrent pages are counted too. */
    method ReserveEscalation(chat: Chat, kind: Kind, now: Time) returns (slot: Option<Slot>)
      modifies this
      ensures State() == Step(old(State()), Reserve(chat, kind, now))
      ensures slot.Some? <==> old(Admitted(State(), chat, kind, now))
      ensures slot.Some? ==> taken == old(taken) + [Taken(slot.value, now)] && HandedOut(State(), slot.value)
      ensures slot.Some? ==> stamps == if kind.Request? then Stamped(old(stamps), chat, now) else old(stamps)
      ensures slot.None? ==> stamps == old(stamps) && taken == old(taken)
      ensures var tokens := Of(escalationsPerBot, chat.bot).tokens;
              if slot.Some? then tokens != [] && |tokens| <= 60 && tokens[|tokens| - 1] == Token(slot.value.id, now)
              else
                || (|tokens| >= 60 && now - tokens[0].at < 60_000)
                || (kind.Request? && LastAt(stamps, chat).Some? && now - LastAt(stamps, chat).value < 120_000)
      ensures slot.Some? ==>
                slot.value.chat == chat && slot.value.kind == kind && slot.value.last == LastAt(old(stamps), chat)
      ensures forall b :: b != chat.bot ==> Of(escalationsPerBot, b) == old(Of(escalationsPerBot, b))
    {
      hide Stamped, Without;
      var s := Of(escalationsPerBot, chat.bot);
      var tokens := s.tokens;
      while tokens != [] && now - tokens[0].at >= ESCALATION_WINDOW_MS
        invariant Pruned(tokens, now) == Pruned(s.tokens, now)
        decreases |tokens|
      {
        tokens := tokens[1..];
      }
      escalationsPerBot := escalationsPerBot[chat.bot := s.(tokens := tokens)];
      clock := now;
      if |tokens| >= ESCALATIONS_PER_BOT_PER_MINUTE {
        return None;
      }
      var last := LastAt(stamps, chat);
      if kind.Request? && last.Some? && now - last.value < ESCALATION_MIN_INTERVAL_MS {
        return None;
      }
      var token := Token(s.next, now);
      escalationsPerBot := escalationsPerBot[chat.bot := Slots(tokens + [token], s.admitted + [token], s.next + 1)];
      if kind.Request? {
        StampCustomer(chat, now);
      }
      var taking := Slot(chat, token.id, kind, last);
      taken := taken + [Taken(taking, now)];
      assert taken[|taken| - 1].slot == taking;
      return Some(taking);
    }

    /** The closure a reservation returns. */
    method ReleaseSlot(slot: Slot, ghost now: Time)
      requires HandedOut(State(), slot)
      modifies this
      ensures State() == Step(old(State()), Release(slot, now))
      ensures forall t :: t in Of(escalationsPerBot, slot.chat.bot).tokens ==>
                t in old(Of(escalationsPerBot, slot.chat.bot).tokens)
      ensures slot.kind.Forward? ==> stamps == old(stamps)
      ensures slot.kind.Request? && slot.last.None? ==> LastAt(stamps, slot.chat).None?
      ensures forall t :: t in old(Of(escalationsPerBot, slot.chat.bot).tokens) && t.id != slot.id ==>
                t in Of(escalationsPerBot, slot.chat.bot).tokens
      ensures slot.kind.Request? && slot.last.Some? ==> stamps[|stamps| - 1..] == [(slot.chat, slot.last.value)]
      ensures forall b :: b != slot.chat.bot ==> Of(escalationsPerBot, b) == old(Of(escalationsPerBot, b))
      ensures (exists t :: t in old(Of(escalationsPerBot, slot.chat.bot).tokens) && t.id == slot.id) ==>
                |Of(escalationsPerBot, slot.chat.bot).tokens| == |old(Of(escalationsPerBot, slot.chat.bot).tokens)| - 1
    {
      clock := now;
      var bot := slot.chat.bot;
      ghost var k := RemovedOne(Of(escalationsPerBot, bot).tokens, slot.id);
      WithoutForgets(stamps, slot.chat);
      escalationsPerBot := escalationsPerBot[bot := Releases(Of(escalationsPerBot, bot), slot.id)];
      released := released + {slot};
      if slot.kind.Forward? {
        return;
      }
      if slot.last.None? {
        stamps := Without(stamps, slot.chat);
      } else {
        StampCustomer(slot.chat, slot.last.value);
      }
    }

    /** The two deletions at the end of a connect, a disconnect or a destroy; what the slots hold beside the
        list is history and stays. */
    method ForgetHealth(bot: BotId, ghost now: Time)
      modifies `escalationsPerBot, `stamps, `clock
      ensures State() == Step(old(State()), Forget(bot, now))
      ensures Of(escalationsPerBot, bot).tokens == []
      ensures forall c :: LastAt(stamps, c) == if c.bot == bot then None else LastAt(old(stamps), c)
    {
      forall c
        ensures LastAt(WithoutBot(stamps, bot), c) == if c.bot == bot then None else LastAt(stamps, c)
      {
        WithoutBotForgets(stamps, bot, c);
      }
      clock := now;
      escalationsPerBot := escalationsPerBot[bot := Of(escalationsPerBot, bot).(tokens := [])];
      var kept: Stamps, i := [], 0;
      while i < |stamps|
        invariant 0 <= i <= |stamps| && stamps == old(stamps)
        invariant kept + WithoutBot(stamps[i..], bot) == WithoutBot(stamps, bot)
      {
        assert stamps[i..][1..] == stamps[i + 1..];
        if stamps[i].0.bot != bot {
          assert kept + ([stamps[i]] + WithoutBot(stamps[i + 1..], bot)) ==
                   kept + [stamps[i]] + WithoutBot(stamps[i + 1..], bot);
          kept := kept + [stamps[i]];
        }
        i := i + 1;
      }
      stamps := kept;
    }

    method StampCustomer(chat: Chat, at: Time)
      modifies this`stamps
      ensures stamps == Stamped(old(stamps), chat, at)
      ensures 0 < |stamps| && stamps[|stamps| - 1] == (chat, at)
    {
      stamps := Without(stamps, chat);
      if |stamps| >= ESCALATION_KEYS_MAX {
        stamps := stamps[1..];
      }
      stamps := stamps + [(chat, at)];
    }
  }
}
