/** The repository's two tables as it writes them: the inbox and the conversations. One method is one
    statement or one transaction. */
module WhatsappStore {
  import opened Options
  import C = Conversation
  import opened I = Inbox
  import opened PollSpec

  /** A reply the owner wrote in the app to customer `to` at `at`; `id` is its inbox row. */
  datatype Echo = Echo(id: Id, to: Customer, at: Time)

  datatype Chat = Chat(bot: Bot, customer: Customer)

  type Conversations = map<Chat, C.Row>

  function RowOf(conversations: Conversations, chat: Chat): Option<C.Row> {
    if chat in conversations then Some(conversations[chat]) else None
  }

  function WithRow(conversations: Conversations, chat: Chat, row: Option<C.Row>): Conversations {
    if row.Some? then conversations[chat := row.value] else conversations - {chat}
  }

  // ----- A batch of replies -----

  function OfCustomer(echoes: seq<Echo>, to: Customer): seq<Time> {
    if echoes == [] then []
    else
      var last := echoes[|echoes| - 1];
      OfCustomer(echoes[..|echoes| - 1], to) + if last.to == to then [last.at] else []
  }

  function HoldAll(row: Option<C.Row>, ats: seq<Time>, now: Time): Option<C.Row> {
    if ats == [] then row else C.HoldIn(HoldAll(row, ats[..|ats| - 1], now), ats[|ats| - 1], now)
  }

  /** Stable: replies to one customer keep their order. */
  function SortedInsert(sorted: seq<Echo>, e: Echo): seq<Echo> {
    if sorted == [] || sorted[|sorted| - 1].to <= e.to then sorted + [e]
    else SortedInsert(sorted[..|sorted| - 1], e) + [sorted[|sorted| - 1]]
  }

  function SortByCustomer(echoes: seq<Echo>): seq<Echo> {
    if echoes == [] then [] else SortedInsert(SortByCustomer(echoes[..|echoes| - 1]), echoes[|echoes| - 1])
  }

  lemma {:induction false} InsertKeepsCustomers(sorted: seq<Echo>, e: Echo, to: Customer)
    ensures OfCustomer(SortedInsert(sorted, e), to) == OfCustomer(sorted + [e], to)
  {
    assert (sorted + [e])[..|sorted|] == sorted;
    if sorted != [] && sorted[|sorted| - 1].to > e.to {
      var before, last := sorted[..|sorted| - 1], sorted[|sorted| - 1];
      InsertKeepsCustomers(before, e, to);
      assert (before + [e])[..|before|] == before;
      var inserted := SortedInsert(before, e);
      assert (inserted + [last])[..|inserted|] == inserted;
    }
  }

  /** The lock order the writers share does not reorder what any one customer was told. */
  lemma {:induction false} SortKeepsCustomers(echoes: seq<Echo>, to: Customer)
    ensures OfCustomer(SortByCustomer(echoes), to) == OfCustomer(echoes, to)
  {
    if echoes != [] {
      var before := echoes[..|echoes| - 1];
      SortKeepsCustomers(before, to);
      InsertKeepsCustomers(SortByCustomer(before), echoes[|echoes| - 1], to);
      var sorted := SortByCustomer(before);
      assert (sorted + [echoes[|echoes| - 1]])[..|sorted|] == sorted;
    }
  }

  ghost predicate Sorted(echoes: seq<Echo>) {
    forall i, j :: 0 <= i < j < |echoes| ==> echoes[i].to <= echoes[j].to
  }

  lemma {:induction false} InsertIsSorted(sorted: seq<Echo>, e: Echo)
    requires Sorted(sorted)
    ensures Sorted(SortedInsert(sorted, e))
    ensures forall x :: x in SortedInsert(sorted, e) <==> x in sorted || x == e
  {
    if sorted != [] && sorted[|sorted| - 1].to > e.to {
      var before, last := sorted[..|sorted| - 1], sorted[|sorted| - 1];
      InsertIsSorted(before, e);
      assert sorted == before + [last];
      assert forall x :: x in SortedInsert(before, e) ==> x.to <= last.to;
    }
  }

  /** Every batch takes its rows in the same order, so two batches never wait for each other in a circle. */
  lemma {:induction false} SortIsSorted(echoes: seq<Echo>)
    ensures Sorted(SortByCustomer(echoes)) && forall x :: x in SortByCustomer(echoes) <==> x in echoes
  {
    if echoes != [] {
      SortIsSorted(echoes[..|echoes| - 1]);
      InsertIsSorted(SortByCustomer(echoes[..|echoes| - 1]), echoes[|echoes| - 1]);
      assert echoes == echoes[..|echoes| - 1] + [echoes[|echoes| - 1]];
    }
  }

  /** A reply changes who answers exactly when the customer was the bot's and the reply still counts. */
  lemma HoldInChanges(row: Option<C.Row>, at: Time, now: Time)
    ensures C.Changes(row, at, now) ==> C.Held(C.HoldIn(row, at, now), now)
    ensures !C.Changes(row, at, now) ==> C.HoldIn(row, at, now) == row
  {}

  function HeldAfter(before: Conversations, bot: Bot, echoes: seq<Echo>, chat: Chat, now: Time): Option<C.Row> {
    if chat.bot == bot then HoldAll(RowOf(before, chat), OfCustomer(echoes, chat.customer), now)
      else RowOf(before, chat)
  }

  lemma HoldAllExtends(before: Conversations, bot: Bot, echoes: seq<Echo>, now: Time)
    requires echoes != []
    ensures var last := echoes[|echoes| - 1];
            forall chat :: HeldAfter(before, bot, echoes, chat, now) ==
              if chat == Chat(bot, last.to)
              then C.HoldIn(HeldAfter(before, bot, echoes[..|echoes| - 1], chat, now), last.at, now)
              else HeldAfter(before, bot, echoes[..|echoes| - 1], chat, now)
  {
    var last := echoes[|echoes| - 1];
    forall chat
      ensures HeldAfter(before, bot, echoes, chat, now) ==
              if chat == Chat(bot, last.to)
              then C.HoldIn(HeldAfter(before, bot, echoes[..|echoes| - 1], chat, now), last.at, now)
              else HeldAfter(before, bot, echoes[..|echoes| - 1], chat, now)
    {
      var ats := OfCustomer(echoes[..|echoes| - 1], chat.customer);
      assert (ats + [last.at])[..|ats|] == ats && ats + [] == ats;
    }
  }

  /** `held` names each customer the batch took from the bot, once. */
  ghost predicate Reported(held: seq<Customer>, before: Conversations, bot: Bot, echoes: seq<Echo>, now: Time) {
    && (forall c :: c in held <==> Turned(before, bot, echoes, c, now))
    && (forall i, j :: 0 <= i < j < |held| ==> held[i] != held[j])
  }

  predicate Turned(before: Conversations, bot: Bot, echoes: seq<Echo>, c: Customer, now: Time) {
    !C.Held(RowOf(before, Chat(bot, c)), now) && C.Held(HeldAfter(before, bot, echoes, Chat(bot, c), now), now)
  }

  lemma NothingReported(before: Conversations, bot: Bot, now: Time)
    ensures Reported([], before, bot, [], now)
    ensures forall chat :: RowOf(before, chat) == HeldAfter(before, bot, [], chat, now)
  {}

  /** A reply hands the customer over when the bot was answering them until then. */
  lemma ReportedExtends(held: seq<Customer>, before: Conversations, bot: Bot, echoes: seq<Echo>, now: Time)
    requires echoes != [] && Reported(held, before, bot, echoes[..|echoes| - 1], now)
    ensures var last := echoes[|echoes| - 1];
            var row := HeldAfter(before, bot, echoes[..|echoes| - 1], Chat(bot, last.to), now);
            var changed := !C.Held(row, now) && C.Held(C.HoldIn(row, last.at, now), now);
            Reported(if changed then held + [last.to] else held, before, bot, echoes, now)
  {
    var last := echoes[|echoes| - 1];
    var row := HeldAfter(before, bot, echoes[..|echoes| - 1], Chat(bot, last.to), now);
    HoldAllExtends(before, bot, echoes, now);
    HoldInChanges(row, last.at, now);
    HeldStays(RowOf(before, Chat(bot, last.to)), OfCustomer(echoes[..|echoes| - 1], last.to), now);
    hide C.HoldIn, C.Held, HeldAfter, C.Changes;
    var before', changed := echoes[..|echoes| - 1], !C.Held(row, now) && C.Held(C.HoldIn(row, last.at, now), now);
    var held' := if changed then held + [last.to] else held;
    assert changed ==> last.to !in held by {
      assert !Turned(before, bot, before', last.to, now) || !changed;
    }
    assert forall i, j :: 0 <= i < j < |held'| ==> held'[i] != held'[j];
    forall c
      ensures c in held' <==> Turned(before, bot, echoes, c, now)
    {
      if c != last.to {
        assert Turned(before, bot, echoes, c, now) == Turned(before, bot, before', c, now);
      } else {
        assert last.to in held <==> Turned(before, bot, before', c, now);
      }
    }
  }

  lemma {:induction false} HeldStays(row: Option<C.Row>, ats: seq<Time>, now: Time)
    ensures C.Held(row, now) ==> C.Held(HoldAll(row, ats, now), now)
  {
    if ats != [] {
      HeldStays(row, ats[..|ats| - 1], now);
      HoldInChanges(HoldAll(row, ats[..|ats| - 1], now), ats[|ats| - 1], now);
    }
  }

  // ----- What a batch of replies comes to -----

  /** The reply's hold still runs, and the owner has not decided anything since it was written. */
  predicate Counts(row: Option<C.Row>, at: Time, now: Time) {
    && now < at + C.OWNER_HOLD_MS
    && (row.None? || row.value.modeChangedAt.None? || row.value.modeChangedAt.value <= at)
  }

  /** The owner answers the customer at least until a reply of `at` runs out. */
  predicate Covers(row: Option<C.Row>, at: Time) {
    row.Some? && row.value.mode.Human? &&
      (row.value.heldUntil.None? || row.value.heldUntil.value >= at + C.OWNER_HOLD_MS)
  }

  lemma HoldInCovers(row: Option<C.Row>, earlier: Time, at: Time, now: Time)
    ensures Counts(row, at, now) ==> Covers(C.HoldIn(row, at, now), at)
    ensures Covers(row, earlier) ==> Covers(C.HoldIn(row, at, now), earlier)
    ensures Counts(row, earlier, now) ==>
              Counts(C.HoldIn(row, at, now), earlier, now) || Covers(C.HoldIn(row, at, now), earlier)
    ensures !Counts(row, at, now) ==> C.HoldIn(row, at, now) == row
  {
  }

  lemma {:induction false} HoldAllKeepsCounting(row: Option<C.Row>, ats: seq<Time>, at: Time, now: Time)
    requires Counts(row, at, now)
    ensures Counts(HoldAll(row, ats, now), at, now) || Covers(HoldAll(row, ats, now), at)
    ensures at in ats ==> Covers(HoldAll(row, ats, now), at)
  {
    hide C.HoldIn, Counts, Covers;
    if ats != [] {
      var before, last := ats[..|ats| - 1], ats[|ats| - 1];
      assert ats == before + [last];
      HoldAllKeepsCounting(row, before, at, now);
      HoldInCovers(HoldAll(row, before, now), at, last, now);
    }
  }

  lemma {:induction false} NothingCounts(row: Option<C.Row>, ats: seq<Time>, now: Time)
    requires forall at :: at in ats ==> !Counts(row, at, now)
    ensures HoldAll(row, ats, now) == row
  {
    if ats != [] {
      var before, last := ats[..|ats| - 1], ats[|ats| - 1];
      assert ats == before + [last];
      NothingCounts(row, before, now);
      HoldInCovers(row, last, last, now);
    }
  }

  lemma {:induction false} OfCustomerHas(echoes: seq<Echo>, to: Customer)
    ensures forall k :: 0 <= k < |echoes| && echoes[k].to == to ==> echoes[k].at in OfCustomer(echoes, to)
    ensures forall at :: at in OfCustomer(echoes, to) ==>
              exists k :: 0 <= k < |echoes| && echoes[k].to == to && echoes[k].at == at
  {
    if echoes != [] {
      var n := |echoes| - 1;
      OfCustomerHas(echoes[..n], to);
      forall at | at in OfCustomer(echoes[..n], to)
        ensures exists k :: 0 <= k < |echoes| && echoes[k].to == to && echoes[k].at == at
      {
        var k :| 0 <= k < n && echoes[..n][k].to == to && echoes[..n][k].at == at;
        assert echoes[k].to == to && echoes[k].at == at;
      }
    }
  }

  /** Of a batch each reply that counts holds its customer, in whatever order the others come; a customer none of
      whose replies counts is left alone. */
  ghost predicate EchoesHold(row: Option<C.Row>, row': Option<C.Row>, echoes: seq<Echo>, to: Customer, now: Time) {
    && (forall k :: 0 <= k < |echoes| && echoes[k].to == to && Counts(row, echoes[k].at, now) ==>
          Covers(row', echoes[k].at))
    && ((forall k :: 0 <= k < |echoes| && echoes[k].to == to ==> !Counts(row, echoes[k].at, now)) ==> row' == row)
  }

  lemma EveryReplyHolds(row: Option<C.Row>, echoes: seq<Echo>, to: Customer, now: Time)
    ensures EchoesHold(row, HoldAll(row, OfCustomer(echoes, to), now), echoes, to, now)
  {
    hide Counts, Covers, C.HoldIn;
    OfCustomerHas(echoes, to);
    forall k | 0 <= k < |echoes| && echoes[k].to == to && Counts(row, echoes[k].at, now)
      ensures Covers(HoldAll(row, OfCustomer(echoes, to), now), echoes[k].at)
    {
      HoldAllKeepsCounting(row, OfCustomer(echoes, to), echoes[k].at, now);
    }
    if forall k :: 0 <= k < |echoes| && echoes[k].to == to ==> !Counts(row, echoes[k].at, now) {
      NothingCounts(row, OfCustomer(echoes, to), now);
    }
  }

  predicate Readable(t: Table, id: Id) {
    id in t && t[id].payload.Some? && !t[id].payload.value.Unreadable?
  }

  function MalformedOf(t: Table, ids: set<Id>): set<Id> {
    set id | id in ids && !Readable(t, id)
  }

  class Store {
    var inbox: Table
    var conversations: Conversations

    constructor ()
      ensures inbox == map[] && conversations == map[]
    {
      inbox, conversations := map[], map[];
    }

    method HoldIn(chat: Chat, at: Time, now: Time) returns (changed: bool)
      modifies `conversations
      ensures conversations == WithRow(old(conversations), chat, C.HoldIn(RowOf(old(conversations), chat), at, now))
      ensures changed <==> !C.Held(RowOf(old(conversations), chat), now) && C.Held(RowOf(conversations, chat), now)
      ensures if Counts(RowOf(old(conversations), chat), at, now) then Covers(RowOf(conversations, chat), at)
              else conversations == old(conversations)
    {
      HoldInChanges(RowOf(conversations, chat), at, now);
      HoldInCovers(RowOf(conversations, chat), at, at, now);
      changed := false;
      var until := at + C.OWNER_HOLD_MS;
      if until <= now {
        assert conversations == WithRow(conversations, chat, RowOf(conversations, chat));
        return;
      }
      if chat !in conversations {
        conversations := conversations[chat := C.Row(C.Human, Some(until), Some(at), now)];
        changed := true;
        return;
      }
      var current := conversations[chat];
      if current.modeChangedAt.Some? && current.modeChangedAt.value > at {
        assert conversations == WithRow(conversations, chat, RowOf(conversations, chat));
        return;
      }
      var wasHeld := C.IsHeldByOwner(current, now);
      var heldUntil := if current.mode.Human? &&
        current.heldUntil.None? then None else Some(C.Max(until, current.heldUntil.GetOr(0)));
      var modeChangedAt := if wasHeld then current.modeChangedAt else Some(at);
      conversations := conversations[chat := C.Row(C.Human, heldUntil, modeChangedAt, C.Max(current.updatedAt, now))];
      changed := !wasHeld;
    }

    method HoldEach(bot: Bot, echoes: seq<Echo>, now: Time) returns (held: seq<Customer>)
      modifies `conversations
      ensures forall chat :: RowOf(conversations, chat) == HeldAfter(old(conversations), bot, echoes, chat, now)
      ensures Reported(held, old(conversations), bot, echoes, now)
    {
      hide C.HoldIn, C.Held, HeldAfter, Reported;
      held := [];
      NothingReported(conversations, bot, now);
      var i := 0;
      while i < |echoes|
        invariant 0 <= i <= |echoes|
        invariant forall chat :: RowOf(conversations, chat) ==
                    HeldAfter(old(conversations), bot, echoes[..i], chat, now)
        invariant Reported(held, old(conversations), bot, echoes[..i], now)
      {
        assert echoes[..i + 1][..i] == echoes[..i];
        HoldAllExtends(old(conversations), bot, echoes[..i + 1], now);
        ReportedExtends(held, old(conversations), bot, echoes[..i + 1], now);
        var changed := HoldIn(Chat(bot, echoes[i].to), echoes[i].at, now);
        if changed {
          held := held + [echoes[i].to];
        }
        i := i + 1;
      }
      assert echoes[..i] == echoes;
    }

    /** Holds and acks are one step: no state between has the one without the other. */
    method ApplyOwnerEchoes(bot: Bot, echoes: seq<Echo>, now: Time) returns (held: seq<Customer>)
      modifies this
      ensures forall chat :: RowOf(conversations, chat) ==
                (if chat.bot == bot
                 then HoldAll(RowOf(old(conversations), chat), OfCustomer(echoes, chat.customer), now)
                 else RowOf(old(conversations), chat))
      ensures inbox == Ack(old(inbox), bot, set e | e in echoes :: e.id, now)
      ensures forall c :: c in held <==>
                !C.Held(RowOf(old(conversations), Chat(bot, c)), now) && C.Held(RowOf(conversations, Chat(bot, c)), now)
      ensures forall i, j :: 0 <= i < j < |held| ==> held[i] != held[j]
      ensures forall c ::
                EchoesHold(RowOf(old(conversations), Chat(bot, c)), RowOf(conversations, Chat(bot, c)), echoes, c, now)
      ensures inbox.Keys == old(inbox).Keys
      ensures forall id :: id in inbox ==>
                inbox[id] == (
                  if (exists e :: e in echoes && e.id == id) && old(inbox)[id].bot == bot &&
                    old(inbox)[id].ackedAt.None?
                  then old(inbox)[id].(ackedAt := Some(now), payload := None, leasedUntil := None)
                  else old(inbox)[id])
    {
      hide C.HoldIn, C.Held, EchoesHold;
      var sorted := SortByCustomer(echoes);
      held := HoldEach(bot, sorted, now);
      forall chat
        ensures HeldAfter(old(conversations), bot, sorted, chat, now) ==
                  HeldAfter(old(conversations), bot, echoes, chat, now)
      {
        SortKeepsCustomers(echoes, chat.customer);
      }
      forall c
        ensures EchoesHold(RowOf(old(conversations), Chat(bot, c)), RowOf(conversations, Chat(bot, c)), echoes, c, now)
      {
        EveryReplyHolds(RowOf(old(conversations), Chat(bot, c)), echoes, c, now);
      }
      inbox := Ack(inbox, bot, set e | e in echoes :: e.id, now);
    }

    /** The choice is what WhoAnswers counts from: replies written no later do not matter any more. */
    method SetMode(chat: Chat, mode: C.Answerer, now: Time) returns (found: bool)
      modifies `conversations
      ensures conversations == WithRow(old(conversations), chat, C.SetMode(RowOf(old(conversations), chat), mode, now))
      ensures found <==> chat in old(conversations)
      ensures found ==> forall t: Time :: C.Held(RowOf(conversations, chat), t) <==> mode.Human?
      ensures found ==> conversations == old(conversations)[chat := C.Row(mode, None, Some(now), now)]
      ensures !found ==> conversations == old(conversations)
    {
      found := chat in conversations;
      if found {
        conversations := conversations[chat := C.Row(mode, None, Some(now), now)];
      } else {
        assert conversations == WithRow(conversations, chat, None);
      }
    }

    method TouchOutbound(chat: Chat, at: Time)
      modifies `conversations
      ensures conversations == WithRow(old(conversations), chat, C.TouchOutbound(RowOf(old(conversations), chat), at))
      ensures forall t: Time :: C.Held(RowOf(conversations, chat), t) <==> C.Held(RowOf(old(conversations), chat), t)
    {
      conversations := conversations[chat :=
        if chat in conversations then conversations[chat].(updatedAt := at) else C.Row(C.Bot, None, None, at)];
    }

    /** What the webhook writes for one message: nothing at all when its wamid is known. */
    method Enqueue(id: Id, row: InboxRow, from: Option<Customer>) returns (inserted: bool)
      requires id !in inbox
      modifies this
      ensures inserted <==> !Known(old(inbox), row.wamid)
      ensures inbox == Insert(old(inbox), id, row)
      ensures conversations ==
              if inserted && from.Some?
              then WithRow(old(conversations), Chat(row.bot, from.value),
                C.TouchInbound(RowOf(old(conversations), Chat(row.bot, from.value)), row.receivedAt))
              else old(conversations)
      ensures inbox == if inserted then old(inbox)[id := row] else old(inbox)
      ensures inserted <==> forall known :: known in old(inbox) ==> old(inbox)[known].wamid != row.wamid
    {
      inserted := !(exists known :: known in inbox && inbox[known].wamid == row.wamid);
      if !inserted {
        return;
      }
      inbox := inbox[id := row];
      if from.Some? {
        var chat := Chat(row.bot, from.value);
        conversations := conversations[chat :=
          if chat in conversations
          then conversations[chat].(updatedAt := C.Max(conversations[chat].updatedAt, row.receivedAt))
          else C.Row(C.Bot, None, None, row.receivedAt)];
      }
    }

    static method InDeliveryOrder(t: Table, ids: set<Id>) returns (sorted: seq<Id>)
      requires ids <= t.Keys
      ensures forall id :: id in sorted <==> id in ids
      ensures forall i :: 0 <= i < |sorted| ==> sorted[i] in t
      ensures forall i, j :: 0 <= i < j < |sorted| ==>
                t[sorted[i]].timestamp < t[sorted[j]].timestamp ||
                  (t[sorted[i]].timestamp == t[sorted[j]].timestamp && sorted[i] < sorted[j])
    {
      sorted := [];
      var rest := ids;
      while rest != {}
        invariant rest <= ids
        invariant forall i :: 0 <= i < |sorted| ==> sorted[i] in t
        invariant forall id :: id in sorted <==> id in ids - rest
        invariant forall i, j :: 0 <= i < j < |sorted| ==> Before(t, sorted[i], sorted[j])
        invariant forall i, id :: 0 <= i < |sorted| && id in rest ==> Before(t, sorted[i], id)
        decreases |rest|
      {
        ghost var first := First(t, rest);
        var next :| next in rest && forall other :: other in rest && other != next ==> Before(t, next, other);
        sorted := sorted + [next];
        rest := rest - {next};
      }
    }

    /** The rows PickedOf picks. Those no item can be made of are dropped at once, the others returned in order. */
    method LeasePending(asking: set<Bot>, limit: nat, dbNow: Time, now: Time, locked: set<Id>)
        returns (leased: seq<Id>, malformed: nat)
      modifies `inbox
      ensures var picked := PickedOf(old(inbox), asking, limit, dbNow, locked);
              var unreadable := MalformedOf(old(inbox), picked);
              && inbox == Drop(Lease(old(inbox), picked, now), unreadable, now)
              && malformed == |unreadable|
              && (forall id :: id in leased <==> id in picked - unreadable)
      ensures forall i :: 0 <= i < |leased| ==> leased[i] in inbox && leased[i] in old(inbox)
      ensures forall i, j :: 0 <= i < j < |leased| ==>
                old(inbox)[leased[i]].timestamp < old(inbox)[leased[j]].timestamp ||
                  (old(inbox)[leased[i]].timestamp == old(inbox)[leased[j]].timestamp && leased[i] < leased[j])
      ensures TakesOldest(old(inbox), inbox, asking, limit, dbNow, locked)
      ensures forall id :: id in leased ==>
                Taken(old(inbox), inbox, id) && inbox[id] == old(inbox)[id].(
                  leasedUntil := Some(now + INBOX_LEASE_MS), attempts := old(inbox)[id].attempts + 1)
      ensures forall id :: Taken(old(inbox), inbox, id) && id !in leased ==>
                && (old(inbox)[id].payload.None? || old(inbox)[id].payload.value.Unreadable?)
                && inbox[id].droppedAt == Some(now) && inbox[id].payload.None? && inbox[id].leasedUntil.None?
    {
      hide Lease, Drop, TakesOldest, Picked, Taken;
      var t, picked := inbox, PickedOf(inbox, asking, limit, dbNow, locked);
      var unreadable := MalformedOf(t, picked);
      malformed := |unreadable|;
      inbox := Drop(Lease(t, picked, now), unreadable, now);
      assert unreadable * picked == unreadable;
      PickedAreTaken(t, asking, limit, dbNow, now, locked, unreadable);
      PickedAreOldest(t, asking, limit, dbNow, now, locked, unreadable);
      leased := InDeliveryOrder(t, picked - unreadable);
    }

    /** An acked row stays, without its payload, so that a second delivery of its wamid is still known. */
    method Acknowledge(bot: Bot, ids: set<Id>, now: Time) returns (count: nat)
      modifies `inbox
      ensures inbox == Ack(old(inbox), bot, ids, now) && inbox.Keys == old(inbox).Keys
      ensures forall id :: id in inbox && id in ids && old(inbox)[id].bot == bot && old(inbox)[id].ackedAt.None? ==>
                inbox[id] == old(inbox)[id].(ackedAt := Some(now), payload := None, leasedUntil := None)
      ensures forall id :: id in inbox && !(id in ids && old(inbox)[id].bot == bot && old(inbox)[id].ackedAt.None?) ==>
                inbox[id] == old(inbox)[id]
      ensures count == |set id | id in inbox && inbox[id] != old(inbox)[id]|
    {
      var acking := set id | id in inbox && Ackable(inbox, id, bot, ids);
      AckIsOnce(inbox, bot, ids, now, now);
      inbox := Ack(inbox, bot, ids, now);
      count := |acking|;
      assert acking == set id | id in inbox && inbox[id] != old(inbox)[id];
    }

    /** Three deletions by age: AgedOf, Retired, and C.Idle for the conversations. */
    method Sweep(now: Time) returns (dropped: set<Id>)
      modifies this
      ensures dropped == AgedOf(old(inbox), now)
      ensures inbox == Retire(Drop(old(inbox), dropped, now), now)
      ensures forall chat :: RowOf(conversations, chat) == C.SweepIdle(RowOf(old(conversations), chat), now)
      ensures forall id :: id in dropped <==>
                (id in old(inbox) && old(inbox)[id].ackedAt.None? && old(inbox)[id].droppedAt.None? &&
                 old(inbox)[id].receivedAt + INBOX_DROP_AFTER_MS < now)
      ensures forall id :: id in inbox <==>
                (id in old(inbox) &&
                 (old(inbox)[id].ackedAt.Some? ==> now <= old(inbox)[id].ackedAt.value + INBOX_RETAIN_ACKED_MS) &&
                 (old(inbox)[id].droppedAt.Some? && id !in dropped ==>
                    now <= old(inbox)[id].droppedAt.value + INBOX_RETAIN_ACKED_MS))
      ensures forall id :: id in inbox ==>
                inbox[id] == (
                  if id in dropped then old(inbox)[id].(droppedAt := Some(now), payload := None, leasedUntil := None)
                  else old(inbox)[id])
      ensures forall chat :: chat in conversations <==>
                (chat in old(conversations) &&
                 now <= old(conversations)[chat].updatedAt + C.CONVERSATION_RETENTION_MS)
      ensures forall chat :: chat in conversations ==> conversations[chat] == old(conversations)[chat]
    {
      dropped := set id | id in inbox && Aged(inbox[id], now);
      inbox := Drop(inbox, dropped, now);
      inbox := Retire(inbox, now);
      conversations := map chat | chat in conversations && !C.Idle(conversations[chat], now) :: conversations[chat];
    }

    method PurgeInstance(bot: Bot)
      modifies this
      ensures inbox == Purge(old(inbox), bot)
      ensures forall chat :: RowOf(conversations, chat) == if chat.bot == bot then None
              else RowOf(old(conversations), chat)
      ensures forall id :: id in inbox <==> id in old(inbox) && old(inbox)[id].bot != bot
      ensures forall id :: id in inbox ==> inbox[id] == old(inbox)[id]
    {
      inbox := Purge(inbox, bot);
      conversations := map chat | chat in conversations && chat.bot != bot :: conversations[chat];
    }
  }
}
