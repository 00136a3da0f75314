/** Who answers a customer: the owner's own choices, the replies the owner wrote in the app (they arrive late,
    repeated and out of order), the idle sweep and the purge of a disconnect, merged into one conversation row. */
module Conversation {
  import opened Options

  /** Milliseconds since the epoch. */
  type Time = nat

  const OWNER_HOLD_MS: nat := 24 * 60 * 60 * 1000
  const CONVERSATION_RETENTION_MS: nat := 30 * 24 * 60 * 60 * 1000

  datatype Answerer = Bot | Human

  /** `Human` without an end is open-ended. */
  datatype Row = Row(mode: Answerer, heldUntil: Option<Time>, modeChangedAt: Option<Time>, updatedAt: Time)

  function Max(a: int, b: int): int {
    if a < b then b else a
  }

  predicate IsHeldByOwner(row: Row, now: Time) {
    row.mode.Human? && (row.heldUntil.Some? ==> row.heldUntil.value > now)
  }

  /** A customer without a row is the bot's. */
  predicate Held(row: Option<Row>, now: Time) {
    row.Some? && IsHeldByOwner(row.value, now)
  }

  // ----- The writes of one row -----

  predicate Overtaken(row: Option<Row>, at: Time) {
    row.Some? && row.value.modeChangedAt.Some? && row.value.modeChangedAt.value > at
  }

  predicate Changes(row: Option<Row>, at: Time, now: Time) {
    at + OWNER_HOLD_MS > now && !Overtaken(row, at)
  }

  /** A reply written at `at` and applied at `now`, the row read under its lock. */
  function HoldIn(row: Option<Row>, at: Time, now: Time): Option<Row> {
    var until := at + OWNER_HOLD_MS;
    if until <= now then row
    else if Overtaken(row, at) then row
    else if row.None? then Some(Row(Human, Some(until), Some(at), now))
    else
      var r := row.value;
      var heldUntil := if r.mode.Human? && r.heldUntil.None? then None else Some(Max(until, r.heldUntil.GetOr(0)));
      Some(Row(Human, heldUntil, if IsHeldByOwner(r, now) then r.modeChangedAt else Some(at), Max(r.updatedAt, now)))
  }

  /** The same reply when the read found no row and another writer created `row` before the upsert. */
  function HoldRaced(row: Row, at: Time, now: Time): Row {
    var until := at + OWNER_HOLD_MS;
    Row(Human, Some(Max(until, row.heldUntil.GetOr(0))), Some(row.modeChangedAt.GetOr(at)), Max(row.updatedAt, now))
  }

  /** What a reply whose read found no row writes to the row that is there by then. */
  function HoldUnread(row: Option<Row>, at: Time, now: Time): Option<Row> {
    if row.None? || at + OWNER_HOLD_MS <= now then HoldIn(row, at, now) else Some(HoldRaced(row.value, at, now))
  }

  function SetMode(row: Option<Row>, mode: Answerer, now: Time): Option<Row> {
    if row.None? then None else Some(Row(mode, None, Some(now), now))
  }

  function TouchOutbound(row: Option<Row>, now: Time): Option<Row> {
    if row.None? then Some(Row(Bot, None, None, now)) else Some(row.value.(updatedAt := now))
  }

  function TouchInbound(row: Option<Row>, receivedAt: Time): Option<Row> {
    if row.None? then Some(Row(Bot, None, None, receivedAt))
      else Some(row.value.(updatedAt := Max(row.value.updatedAt, receivedAt)))
  }

  predicate Idle(row: Row, now: Time) {
    row.updatedAt + CONVERSATION_RETENTION_MS < now
  }

  function SweepIdle(row: Option<Row>, now: Time): Option<Row> {
    if row.Some? && Idle(row.value, now) then None else row
  }

  // ----- Runs -----

  datatype Event =
    | Reply(at: Time, now: Time)
    | RacedReply(at: Time, now: Time)
    | Choose(mode: Answerer, now: Time)
    | Outbound(now: Time)
    | Inbound(receivedAt: Time, now: Time)
    | Sweep(now: Time)
    | Purge(now: Time)

  predicate IsReply(e: Event) {
    e.Reply? || e.RacedReply?
  }

  function Apply(row: Option<Row>, e: Event): Option<Row> {
    match e
    case Reply(at, now) => HoldIn(row, at, now)
    case RacedReply(at, now) => HoldUnread(row, at, now)
    case Choose(mode, now) => SetMode(row, mode, now)
    case Outbound(now) => TouchOutbound(row, now)
    case Inbound(receivedAt, now) => TouchInbound(row, receivedAt)
    case Sweep(now) => SweepIdle(row, now)
    case Purge(_) => None
  }

  function After(events: seq<Event>): Option<Row> {
    if events == [] then None else Apply(After(events[..|events| - 1]), events[|events| - 1])
  }

  function LastTime(events: seq<Event>): Time {
    if events == [] then 0 else events[|events| - 1].now
  }

  /** Applied in clock order; nothing is applied before it was written. */
  ghost predicate InClockOrder(events: seq<Event>) {
    && (forall i, j :: 0 <= i < j < |events| ==> events[i].now <= events[j].now)
    && (forall i :: 0 <= i < |events| && IsReply(events[i]) ==> events[i].at <= events[i].now)
    && (forall i :: 0 <= i < |events| && events[i].Inbound? ==> events[i].receivedAt <= events[i].now)
  }

  /** When every reply applied since the last purge was written, whatever became of it. */
  function Written(events: seq<Event>): set<Time> {
    if events == [] || events[|events| - 1].Purge? then {}
    else
      var last := events[|events| - 1];
      Written(events[..|events| - 1]) + if IsReply(last) then {last.at} else {}
  }

  datatype Choice = Choice(mode: Answerer, at: Time)

  /** The owner's last choice. A choice about a customer without a row is refused, and one whose row was
      swept or purged is gone with the row. */
  function LastChoice(events: seq<Event>): Option<Choice> {
    if events == [] then None
    else
      var before := events[..|events| - 1];
      NextChoice(After(before), LastChoice(before), events[|events| - 1])
  }

  function NextChoice(row: Option<Row>, choice: Option<Choice>, e: Event): Option<Choice> {
    if e.Choose? && row.Some? then Some(Choice(e.mode, e.now))
    else if e.Purge? || (e.Sweep? && SweepIdle(row, e.now).None?) then None
    else choice
  }

  predicate Since(choice: Option<Choice>, at: Time) {
    choice.Some? ==> choice.value.at < at
  }

  predicate ChoseHuman(choice: Option<Choice>) {
    choice.Some? && choice.value.mode.Human?
  }

  /** No reply was written in the very millisecond of the owner's last choice. */
  predicate NoTie(events: seq<Event>) {
    LastChoice(events).Some? ==> LastChoice(events).value.at !in Written(events)
  }

  // ----- What a row remembers of its run -----

  /** The newest reply that counts: applied since the last choice and not older than it. */
  function Newest(events: seq<Event>): Option<Time> {
    if events == [] then None
    else
      var before := events[..|events| - 1];
      NextNewest(After(before), LastChoice(before), Newest(before), events[|events| - 1])
  }

  function NextNewest(row: Option<Row>, choice: Option<Choice>, newest: Option<Time>, e: Event): Option<Time> {
    match e
    case Choose(_, _) => if row.Some? then None else newest
    case Sweep(now) => if SweepIdle(row, now).None? then None else newest
    case Reply(at, _) => if choice.Some? && at < choice.value.at then newest else Some(Max(newest.GetOr(0), at))
    case RacedReply(at, _) => if choice.Some? && at < choice.value.at then newest else Some(Max(newest.GetOr(0), at))
    case Purge(_) => None
    case Outbound(_) => newest
    case Inbound(_, _) => newest
  }

  /** A raced reply is merged to the right answer unless the owner chose in between. */
  predicate Merges(row: Option<Row>, choice: Option<Choice>, at: Time, now: Time) {
    row.Some? && at + OWNER_HOLD_MS > now ==> !(ChoseHuman(choice) || (row.value.mode.Bot? && Overtaken(row, at)))
  }

  ghost predicate RacesMerge(events: seq<Event>) {
    forall k :: 0 <= k < |events| && events[k].RacedReply? ==>
                  Merges(After(events[..k]), LastChoice(events[..k]), events[k].at, events[k].now)
  }

  ghost predicate Fair(events: seq<Event>) {
    InClockOrder(events) && RacesMerge(events)
  }

  predicate Expired(at: Time, now: Time) {
    at + OWNER_HOLD_MS <= now
  }

  /** `now` is the time of the last event. */
  ghost predicate Remembers(row: Option<Row>, choice: Option<Choice>, newest: Option<Time>, written: set<Time>,
      now: Time) {
    && (row.None? ==> choice.None? && (newest.Some? ==> Expired(newest.value, now)))
    && (row.None? ==> forall a :: a in written ==> Expired(a, now))
    && (row.Some? ==> RowRemembers(row.value, choice, newest, now))
    && (row.Some? ==> forall a :: a in written ==> Expired(a, now) || a <= row.value.updatedAt)
    && (newest.Some? ==> newest.value in written && (choice.Some? ==> choice.value.at <= newest.value))
    && (forall a :: a in written && Since(choice, a) ==> Expired(a, now) || (newest.Some? && a <= newest.value))
  }

  predicate RowRemembers(r: Row, choice: Option<Choice>, newest: Option<Time>, now: Time) {
    && r.updatedAt <= now
    && (r.mode.Bot? ==> r.heldUntil.None? && !ChoseHuman(choice))
    && (r.mode.Bot? && newest.Some? ==> Expired(newest.value, now))
    && (r.mode.Human? && r.heldUntil.None? <==> ChoseHuman(choice))
    && (r.heldUntil.Some? ==> newest.Some? && EndsWith(r.heldUntil.value, newest.value, now))
    && (choice.Some? ==>
         choice.value.at <= r.updatedAt && r.modeChangedAt.Some? && choice.value.at <= r.modeChangedAt.value)
    && (r.modeChangedAt.Some? ==> r.modeChangedAt.value <= r.updatedAt)
    && (r.modeChangedAt.Some? ==> ChangedBy(r.modeChangedAt.value, choice, newest))
  }

  predicate EndsWith(heldUntil: Time, newest: Time, now: Time) {
    if Expired(newest, now) then heldUntil <= now else heldUntil == newest + OWNER_HOLD_MS
  }

  predicate ChangedBy(at: Time, choice: Option<Choice>, newest: Option<Time>) {
    || (choice.Some? && at <= choice.value.at)
    || (newest.Some? && at <= newest.value)
  }

  lemma ReplyKeepsRow(r: Row, choice: Option<Choice>, newest: Option<Time>, before: Time, at: Time, now: Time)
    requires RowRemembers(r, choice, newest, before) && before <= now && at <= now
    requires newest.Some? && choice.Some? ==> choice.value.at <= newest.value
    ensures var newest' := NextNewest(Some(r), choice, newest, Reply(at, now));
            RowRemembers(HoldIn(Some(r), at, now).value, choice, newest', now)
  {}

  lemma ReplyKeepsWritten(row: Option<Row>, choice: Option<Choice>, newest: Option<Time>, written: set<Time>,
      before: Time, at: Time, now: Time)
    requires Remembers(row, choice, newest, written, before) && before <= now && at <= now
    ensures var newest' := NextNewest(row, choice, newest, Reply(at, now));
            && (newest'.Some? ==>
                 newest'.value in written + {at} && (choice.Some? ==> choice.value.at <= newest'.value))
            && (forall a :: a in written + {at} && Since(choice, a) ==>
                 Expired(a, now) || (newest'.Some? && a <= newest'.value))
  {}

  lemma ReplyKeeps(row: Option<Row>, choice: Option<Choice>, newest: Option<Time>, written: set<Time>, before: Time,
      at: Time, now: Time)
    requires Remembers(row, choice, newest, written, before) && before <= now && at <= now
    ensures Remembers(HoldIn(row, at, now), choice, NextNewest(row, choice, newest, Reply(at, now)), written +
            {at}, now)
  {
    ReplyKeepsWritten(row, choice, newest, written, before, at, now);
    if row.Some? {
      ReplyKeepsRow(row.value, choice, newest, before, at, now);
      hide RowRemembers;
      assert HoldIn(row, at, now).value.updatedAt >= row.value.updatedAt;
    }
  }

  lemma RacedKeepsRow(r: Row, choice: Option<Choice>, newest: Option<Time>, before: Time, at: Time, now: Time)
    requires RowRemembers(r, choice, newest, before) && before <= now && at <= now && Merges(Some(r), choice, at, now)
    requires newest.Some? && choice.Some? ==> choice.value.at <= newest.value
    ensures var e := RacedReply(at, now);
            RowRemembers(HoldUnread(Some(r), at, now).value, choice, NextNewest(Some(r), choice, newest, e), now)
  {
    if at + OWNER_HOLD_MS <= now {
      ReplyKeepsRow(r, choice, newest, before, at, now);
    }
  }

  lemma RacedKeeps(row: Option<Row>, choice: Option<Choice>, newest: Option<Time>, written: set<Time>, before: Time,
      at: Time, now: Time)
    requires Remembers(row, choice, newest, written, before) && before <= now && at <= now &&
             Merges(row, choice, at, now)
    ensures var e := RacedReply(at, now);
            Remembers(HoldUnread(row, at, now), choice, NextNewest(row, choice, newest, e), written + {at}, now)
  {
    ReplyKeepsWritten(row, choice, newest, written, before, at, now);
    if row.Some? {
      RacedKeepsRow(row.value, choice, newest, before, at, now);
      hide RowRemembers, Merges;
      assert HoldUnread(row, at, now).value.updatedAt >= row.value.updatedAt;
    } else {
      ReplyKeeps(row, choice, newest, written, before, at, now);
    }
  }

  lemma ChooseKeeps(row: Option<Row>, choice: Option<Choice>, newest: Option<Time>, written: set<Time>, before: Time,
      mode: Answerer, now: Time)
    requires Remembers(row, choice, newest, written, before) && before <= now
    ensures var e := Choose(mode, now);
            Remembers(SetMode(row, mode, now), NextChoice(row, choice, e), NextNewest(row, choice, newest, e),
                      written, now)
  {}

  lemma TouchKeeps(row: Option<Row>, choice: Option<Choice>, newest: Option<Time>, written: set<Time>, before: Time,
      receivedAt: Time, now: Time)
    requires Remembers(row, choice, newest, written, before) && before <= now && receivedAt <= now
    ensures Remembers(TouchInbound(row, receivedAt), choice, newest, written, now)
    ensures Remembers(TouchOutbound(row, now), choice, newest, written, now)
  {}

  lemma SweepKeeps(row: Option<Row>, choice: Option<Choice>, newest: Option<Time>, written: set<Time>, before: Time,
      now: Time)
    requires Remembers(row, choice, newest, written, before) && before <= now
    ensures var e := Sweep(now);
            Remembers(SweepIdle(row, now), NextChoice(row, choice, e), NextNewest(row, choice, newest, e), written, now)
  {}

  lemma EmptyRemembers(now: Time)
    ensures Remembers(None, None, None, {}, now)
  {}

  lemma PrefixInOrder(events: seq<Event>)
    requires Fair(events) && events != []
    ensures var before, last := events[..|events| - 1], events[|events| - 1];
            && Fair(before)
            && LastTime(before) <= last.now
            && (IsReply(last) ==> last.at <= last.now)
            && (last.RacedReply? ==> Merges(After(before), LastChoice(before), last.at, last.now))
            && (last.Inbound? ==> last.receivedAt <= last.now)
  {
    hide After, LastChoice;
    var before := events[..|events| - 1];
    assert forall k :: 0 <= k < |before| ==> before[..k] == events[..k];
  }

  lemma {:induction false} RunRemembers(events: seq<Event>)
    requires Fair(events)
    ensures Remembers(After(events), LastChoice(events), Newest(events), Written(events), LastTime(events))
  {
    hide Remembers, HoldIn, HoldUnread, SetMode, TouchInbound, SweepIdle, Fair, Merges;
    if events == [] {
      EmptyRemembers(0);
    } else {
      var before := events[..|events| - 1];
      PrefixInOrder(events);
      RunRemembers(before);
      assert Written(before) + {} == Written(before);
      var row, choice, newest := After(before), LastChoice(before), Newest(before);
      var written, t := Written(before), LastTime(before);
      match events[|events| - 1]
      case Reply(at, now) => ReplyKeeps(row, choice, newest, written, t, at, now);
      case RacedReply(at, now) => RacedKeeps(row, choice, newest, written, t, at, now);
      case Choose(mode, now) => ChooseKeeps(row, choice, newest, written, t, mode, now);
      case Outbound(now) => TouchKeeps(row, choice, newest, written, t, now, now);
      case Inbound(receivedAt, now) => TouchKeeps(row, choice, newest, written, t, receivedAt, now);
      case Sweep(now) => SweepKeeps(row, choice, newest, written, t, now);
      case Purge(now) => EmptyRemembers(now);
    }
  }

  // ----- Who answers -----

  lemma RowAnswers(r: Row, choice: Option<Choice>, newest: Option<Time>, now: Time, t: Time)
    requires RowRemembers(r, choice, newest, now) && now <= t
    ensures IsHeldByOwner(r, t) <==> ChoseHuman(choice) || (newest.Some? && !Expired(newest.value, t))
  {
    if r.heldUntil.Some? && Expired(newest.value, now) {
      assert r.heldUntil.value <= t && Expired(newest.value, t);
    }
    if ChoseHuman(choice) {
      assert r.mode.Human? && r.heldUntil.None?;
    }
  }

  /** Ties included: the newest counting reply holds the customer exactly as long as its hold lasts. */
  lemma NewestReplyHolds(events: seq<Event>, t: Time)
    requires Fair(events) && LastTime(events) <= t
    ensures Held(After(events), t) <==>
            ChoseHuman(LastChoice(events)) || (Newest(events).Some? && !Expired(Newest(events).value, t))
  {
    RunRemembers(events);
    if After(events).Some? {
      RowAnswers(After(events).value, LastChoice(events), Newest(events), LastTime(events), t);
    }
  }

  /** Who answers at any later time is a fact about when the replies since the last purge were written and what
      the owner last chose: when, how often and in which order the replies were applied leaves no trace. */
  lemma WhoAnswers(events: seq<Event>, t: Time)
    requires Fair(events) && NoTie(events) && LastTime(events) <= t
    ensures Held(After(events), t) <==>
            ChoseHuman(LastChoice(events)) ||
              (exists a :: a in Written(events) && Since(LastChoice(events), a) && !Expired(a, t))
  {
    hide After, LastChoice, Newest, Fair, RowRemembers, Held;
    RunRemembers(events);
    NewestReplyHolds(events, t);
    var newest := Newest(events);
    if newest.Some? && !Expired(newest.value, t) {
      assert newest.value in Written(events) && Since(LastChoice(events), newest.value);
    }
  }

  /** Two runs that agree on the replies and on the last choice agree on who answers from then on. */
  lemma RepliesConverge(left: seq<Event>, right: seq<Event>, t: Time)
    requires Fair(left) && Fair(right) && LastTime(left) <= t && LastTime(right) <= t
    requires Written(left) == Written(right) && LastChoice(left) == LastChoice(right) && NoTie(left)
    ensures Held(After(left), t) <==> Held(After(right), t)
  {
    WhoAnswers(left, t);
    WhoAnswers(right, t);
  }

  /** A hold ends exactly holdMs after the newest reply written after the last choice. */
  lemma HoldEndsAfterTheNewestReply(events: seq<Event>, newest: Time, t: Time)
    requires Fair(events) && NoTie(events) && LastTime(events) <= t
    requires !ChoseHuman(LastChoice(events))
    requires newest in Written(events) && Since(LastChoice(events), newest)
    requires forall a :: a in Written(events) && Since(LastChoice(events), a) ==> a <= newest
    ensures Held(After(events), t) <==> t < newest + OWNER_HOLD_MS
  {
    WhoAnswers(events, t);
  }

  /** A tie matters exactly when the owner last chose the bot, the newest reply that counts was written in
      that very millisecond, and its hold has not run out yet. */
  predicate TieHolds(events: seq<Event>, t: Time) {
    && LastChoice(events).Some? && LastChoice(events).value.mode.Bot?
    && Newest(events) == Some(LastChoice(events).value.at)
    && !Expired(Newest(events).value, t)
  }

  /** Ties or not: who answers is what choice and replies say, except just where a tie matters. */
  lemma WhoAnswersExactly(events: seq<Event>, t: Time)
    requires Fair(events) && LastTime(events) <= t
    ensures (Held(After(events), t) <==>
             (ChoseHuman(LastChoice(events)) ||
               (exists a :: a in Written(events) && Since(LastChoice(events), a) && !Expired(a, t))))
            <==> !TieHolds(events, t)
  {
    hide After, LastChoice, Newest, Written, Fair, RowRemembers, Held;
    RunRemembers(events);
    NewestReplyHolds(events, t);
    var newest := Newest(events);
    if newest.Some? && !Expired(newest.value, t) && Since(LastChoice(events), newest.value) {
      assert newest.value in Written(events);
    }
  }

  /** In the same millisecond: a reply applied before the choice is overruled by it, one applied after it holds,
      and only the second is a tie that matters. */
  lemma TiesDependOnOrder()
    ensures var early := [Inbound(5, 5), Reply(5, 5), Choose(Bot, 5)];
            var late := [Inbound(5, 5), Choose(Bot, 5), Reply(5, 5)];
            && InClockOrder(early) && InClockOrder(late)
            && Written(early) == Written(late) && LastChoice(early) == LastChoice(late)
            && !Held(After(early), 6) && Held(After(late), 6)
            && !TieHolds(early, 6) && TieHolds(late, 6)
  {
    var touched := [Inbound(5, 5)];
    var early, late := touched + [Reply(5, 5), Choose(Bot, 5)], touched + [Choose(Bot, 5), Reply(5, 5)];
    assert touched[..0] == [];
    var replied, chosen := touched + [Reply(5, 5)], touched + [Choose(Bot, 5)];
    assert replied[..1] == touched && chosen[..1] == touched;
    assert early[..2] == replied && late[..2] == chosen;
    assert early == [Inbound(5, 5), Reply(5, 5), Choose(Bot, 5)] &&
           late == [Inbound(5, 5), Choose(Bot, 5), Reply(5, 5)];
    assert After(touched) == Some(Row(Bot, None, None, 5));
    assert Written(touched) == {} && Written(replied) == {5} && Written(chosen) == {};
    assert Newest(touched) == None && Newest(chosen) == None;
  }

  /** The idle sweep changes who answers for exactly one kind of row: one the owner took over for good and
      nobody has written in since the retention began. */
  lemma SweepForgetsOnlyIdleHumanChoices(events: seq<Event>, now: Time, t: Time)
    requires Fair(events) && LastTime(events) <= now <= t
    ensures (Held(SweepIdle(After(events), now), t) <==> Held(After(events), t))
            <==> !(After(events).Some? && ChoseHuman(LastChoice(events)) && Idle(After(events).value, now))
  {
    RunRemembers(events);
    NewestReplyHolds(events, t);
  }

  /** A customer's message, the bot's own, or a choice by the owner. */
  function TouchedAt(row: Option<Row>, e: Event): Option<Time> {
    match e
    case Inbound(receivedAt, _) => Some(receivedAt)
    case Outbound(now) => Some(now)
    case Choose(_, now) => if row.Some? then Some(now) else None
    case _ => None
  }

  lemma ApplyKeepsTouched(row: Option<Row>, e: Event, at: Time)
    requires row.Some? ==> row.value.updatedAt <= e.now
    requires !e.Purge? && (e.Sweep? ==> e.now <= at + CONVERSATION_RETENTION_MS)
    requires TouchedAt(row, e) == Some(at) || (row.Some? && at <= row.value.updatedAt)
    ensures Apply(row, e).Some? && at <= Apply(row, e).value.updatedAt
  {
  }

  /** Whoever was in touch within the retention is not forgotten by a sweep: not until then, and not now. */
  lemma {:induction false} InTouchIsKept(events: seq<Event>, k: nat, at: Time, now: Time)
    requires Fair(events) && k < |events| && LastTime(events) <= now <= at + CONVERSATION_RETENTION_MS
    requires TouchedAt(After(events[..k]), events[k]) == Some(at)
    requires forall i :: k <= i < |events| ==> !events[i].Purge?
    ensures After(events).Some? && at <= After(events).value.updatedAt
    ensures SweepIdle(After(events), now) == After(events)
  {
    hide Fair, Apply, TouchedAt, SweepIdle, LastChoice;
    var n := |events| - 1;
    UpdatedBefore(events);
    if k < n {
      assert events[..n][..k] == events[..k];
      InTouchIsKept(events[..n], k, at, now);
    }
    ApplyKeepsTouched(After(events[..n]), events[n], at);
    NotSweptYet(After(events), at, now);
  }

  lemma NotSweptYet(row: Option<Row>, at: Time, now: Time)
    requires row.Some? && at <= row.value.updatedAt && now <= at + CONVERSATION_RETENTION_MS
    ensures SweepIdle(row, now) == row
  {
  }

  lemma UpdatedBefore(events: seq<Event>)
    requires Fair(events) && events != []
    ensures var before := events[..|events| - 1];
            && Fair(before) && LastTime(before) <= LastTime(events)
            && (After(before).Some? ==> After(before).value.updatedAt <= events[|events| - 1].now)
  {
    PrefixInOrder(events);
    RunRemembers(events[..|events| - 1]);
    hide Fair, After, LastChoice, Newest, Written;
  }

  /** A row created between the read and the write is merged to the same answer, except when the owner also
      chose in between: an open-ended choice gets an end, and a choice of the bot newer than the reply is overruled. */
  lemma RacedReplyMerges(r: Row, choice: Option<Choice>, newest: Option<Time>, at: Time, now: Time)
    requires RowRemembers(r, choice, newest, now) && (newest.Some? && choice.Some? ==> choice.value.at <= newest.value)
    requires at <= now < at + OWNER_HOLD_MS
    ensures (forall t: Time :: now <= t ==>
              (IsHeldByOwner(HoldRaced(r, at, now), t) <==> Held(HoldIn(Some(r), at, now), t)))
            <==> !(ChoseHuman(choice) || (r.mode.Bot? && Overtaken(Some(r), at)))
  {
    var raced, locked := HoldRaced(r, at, now), HoldIn(Some(r), at, now);
    var end := at + OWNER_HOLD_MS;
    if ChoseHuman(choice) {
      assert !IsHeldByOwner(raced, raced.heldUntil.value) && Held(locked, raced.heldUntil.value);
    } else if r.mode.Bot? && Overtaken(Some(r), at) {
      assert IsHeldByOwner(raced, now) && !Held(locked, now);
    } else if r.mode.Human? {
      assert raced.heldUntil.value == locked.value.heldUntil.value;
    }
  }

  /** A purge forgets whoever was held: the answer changes exactly for a customer the owner had taken over for
      good, or whose newest counting reply still holds. */
  lemma PurgeForgetsHolds(events: seq<Event>, now: Time, t: Time)
    requires Fair(events) && LastTime(events) <= now <= t
    ensures !Held(After(events + [Purge(now)]), t)
    ensures (Held(After(events + [Purge(now)]), t) <==> Held(After(events), t))
            <==> !(ChoseHuman(LastChoice(events)) || (Newest(events).Some? && !Expired(Newest(events).value, t)))
  {
    RunOn(events, Purge(now));
    NewestReplyHolds(events, t);
  }

  lemma RunOn(events: seq<Event>, e: Event)
    ensures var run := events + [e];
            && After(run) == Apply(After(events), e)
            && LastChoice(run) == NextChoice(After(events), LastChoice(events), e)
            && Newest(run) == NextNewest(After(events), LastChoice(events), Newest(events), e)
  {
    assert (events + [e])[..|events|] == events;
  }

  /** A customer writes, the owner takes them over for good, and nobody writes for a month and a day: the sweep
      hands them back to the bot. */
  lemma IdleHumanChoiceIsForgotten()
    ensures var events := [] + [Inbound(0, 0)] + [Choose(Human, 1)];
            var now := CONVERSATION_RETENTION_MS + 2;
            && Held(After(events), now) && ChoseHuman(LastChoice(events)) && After(events).Some? &&
               Idle(After(events).value, now)
            && !Held(After(events + [Sweep(now)]), now)
  {
    RunOn([], Inbound(0, 0));
    RunOn([] + [Inbound(0, 0)], Choose(Human, 1));
    RunOn([] + [Inbound(0, 0)] + [Choose(Human, 1)], Sweep(CONVERSATION_RETENTION_MS + 2));
  }

  /** Between the read that found no row and the upsert, the customer's first message comes in and the owner
      takes them over for good: the merge gives that choice an end it was not to have. */
  lemma RacedReplyEndsAnOpenChoice()
    ensures var created := After([] + [Inbound(6, 6)] + [Choose(Human, 7)]);
            var end := 5 + OWNER_HOLD_MS;
            && created.Some?
            && Held(HoldIn(created, 5, 8), end) && !IsHeldByOwner(HoldRaced(created.value, 5, 8), end)
  {
    RunOn([], Inbound(6, 6));
    RunOn([] + [Inbound(6, 6)], Choose(Human, 7));
  }
}
