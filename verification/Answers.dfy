/** What of a model's answer reaches the customer, said of the payloads themselves. */
module Answers {
  import opened Options
  import C = Chunking
  import opened ReplySpec
  import opened ReplyProofs

  // ----- A flush -----

  /** The first `k` attempts were accepted, and the one after them was refused or there was nothing left. */
  ghost predicate SentSoFar(relay: Relay, s: Replies, w: Wamid, k: nat, failed: Option<Failure>) {
    && k <= |Of(s.pending, w)|
    && (forall n :: s.attempts <= n < s.attempts + k ==> relay(n).Accepted?)
    && (if failed.Some? then k < |Of(s.pending, w)| && relay(s.attempts + k) == Failed(failed.value)
        else k == |Of(s.pending, w)|)
  }

  lemma SentOneMore(relay: Relay, s: Replies, w: Wamid, k: nat, failed: Option<Failure>)
    requires w in s.pending && s.pending[w] != [] && relay(s.attempts).Accepted?
    requires SentSoFar(relay, Sent(s, w), w, k, failed)
    ensures SentSoFar(relay, s, w, k + 1, failed)
  {
  }

  lemma SentNone(relay: Relay, s: Replies, w: Wamid)
    ensures Of(s.pending, w) == [] ==> SentSoFar(relay, s, w, 0, None)
    ensures Of(s.pending, w) != [] && relay(s.attempts).Failed? ==>
              SentSoFar(relay, s, w, 0, Some(relay(s.attempts).failure))
  {
  }

  /** What was accepted has moved over, the refused send and all behind it have stayed, and without a refusal
      the message is gone from the queue. */
  ghost predicate FlushedTo(relay: Relay, s: Replies, w: Wamid, k: nat, s': Replies, failed: Option<Failure>) {
    && SentSoFar(relay, s, w, k, failed)
    && Of(s'.accepted, w) == Of(s.accepted, w) + Of(s.pending, w)[..k]
    && s'.attempts == s.attempts + k + (if failed.Some? then 1 else 0)
    && (if failed.Some? then w in s'.pending && s'.pending[w] == Of(s.pending, w)[k..] else w !in s'.pending)
    && (forall x :: x != w ==> Of(s'.accepted, x) == Of(s.accepted, x) && Of(s'.pending, x) == Of(s.pending, x))
    && s'.produced == s.produced && s'.asked == s.asked && s'.rejected == s.rejected && s'.evicted == s.evicted &&
       s'.limit == s.limit
  }

  lemma FlushedOneMore(relay: Relay, s: Replies, w: Wamid, k: nat, s': Replies, failed: Option<Failure>)
    requires w in s.pending && s.pending[w] != [] && relay(s.attempts).Accepted?
    requires FlushedTo(relay, Sent(s, w), w, k, s', failed)
    ensures FlushedTo(relay, s, w, k + 1, s', failed)
  {
    SentOneMore(relay, s, w, k, failed);
    SlicesShift(s.pending[w], k);
    hide SentSoFar;
  }

  lemma FlushedNone(relay: Relay, s: Replies, w: Wamid)
    requires Of(s.pending, w) == [] || relay(s.attempts).Failed?
    ensures FlushedTo(relay, s, w, 0, Flush(relay, s, w).0, Flush(relay, s, w).1)
  {
    SentNone(relay, s, w);
    hide SentSoFar, Without;
  }

  /** A flush sends from the front, in order, up to the first refusal. */
  lemma {:induction false} FlushSendsInOrder(relay: Relay, s: Replies, w: Wamid) returns (k: nat)
    ensures FlushedTo(relay, s, w, k, Flush(relay, s, w).0, Flush(relay, s, w).1)
    decreases |Of(s.pending, w)|
  {
    hide FlushedTo;
    k := 0;
    if Of(s.pending, w) == [] || relay(s.attempts).Failed? {
      FlushedNone(relay, s, w);
    } else {
      var rest := FlushSendsInOrder(relay, Sent(s, w), w);
      k := rest + 1;
      FlushedOneMore(relay, s, w, rest, Flush(relay, s, w).0, Flush(relay, s, w).1);
    }
  }

  lemma SlicesShift(sends: seq<Send>, k: nat)
    requires k < |sends|
    ensures sends[..k + 1] == [sends[0]] + sends[1..][..k] && sends[k + 1..] == sends[1..][k..]
  {
  }

  /** Worth another attempt: it never reached the relay, or the relay or its channel is at fault for now. */
  predicate MayComeBack(f: Failure) {
    f.RelayError? ==> f.status == 0 || f.status == 429 || f.status >= 500 || (f.status == 409 && f.credentialInvalid)
  }

  /** A refusal for good ends the message: the rest of it is dropped, and counted as rejected. */
  ghost predicate RepliesFlushedTo(relay: Relay, s: Replies, w: Wamid, k: nat, s': Replies, failed: Option<Failure>) {
    && k <= |Of(s.pending, w)| && Of(s'.accepted, w) == Of(s.accepted, w) + Of(s.pending, w)[..k]
    && (forall n :: s.attempts <= n < s.attempts + k ==> relay(n).Accepted?)
    && (if k == |Of(s.pending, w)| then failed.None? && w !in s'.pending && s'.rejected == s.rejected
        else
          && relay(s.attempts + k).Failed?
          && var failure := relay(s.attempts + k).failure;
             if MayComeBack(failure)
             then failed == Some(failure) && w in s'.pending && s'.pending[w] == s.pending[w][k..] &&
               s'.rejected == s.rejected
             else failed.None? && w !in s'.pending && s'.rejected == s.rejected + {w})
    && s'.produced == s.produced && s'.asked == s.asked
  }

  lemma RepliesFlushInOrder(relay: Relay, s: Replies, w: Wamid) returns (k: nat)
    ensures var (s', failed) := FlushReplies(relay, s, w);
            && RepliesFlushedTo(relay, s, w, k, s', failed)
            && (failed.None? <==> w !in s'.pending) && (failed.Some? ==> MayComeBack(failed.value))
  {
    k := FlushSendsInOrder(relay, s, w);
    var (s', failed) := Flush(relay, s, w);
    assert failed.Some? ==> (IsRetryable(failed.value) <==> MayComeBack(failed.value));
    hide Flush, Without, IsRetryable;
  }

  // ----- What the model wrote -----

  /** One payload's sends: each chunk of its text once and in order, to the customer who wrote, the first one
      quoting the message if the payload does. An empty text is not sent. */
  ghost predicate IsAnswer(item: Inbound, payload: Payload, sends: seq<Send>) {
    if payload.text.None? || payload.text.value == [] then sends == []
    else
      var chunks := C.Chunks(payload.text.value, C.TEXT_CHUNK_LIMIT);
      && |sends| == |chunks|
      && forall k :: 0 <= k < |chunks| ==>
           && sends[k].to == item.from && sends[k].text == chunks[k]
           && sends[k].quotes == if k == 0 && payload.quotesCustomer then Some(item.wamid) else None
  }

  ghost function Joined(parts: seq<seq<Send>>): seq<Send> {
    if parts == [] then [] else Joined(parts[..|parts| - 1]) + parts[|parts| - 1]
  }

  /** All payloads' sends, in the order of the payloads. */
  ghost predicate AreAnswers(item: Inbound, payloads: seq<Payload>, parts: seq<seq<Send>>) {
    |parts| == |payloads| && forall i :: 0 <= i < |payloads| ==> IsAnswer(item, payloads[i], parts[i])
  }

  lemma AnswerOfShortText(item: Inbound, payload: Payload, sends: seq<Send>)
    requires IsAnswer(item, payload, sends) && payload.text.Some? && payload.text.value != []
    requires var text := payload.text.value;
             |text| <= C.TEXT_CHUNK_LIMIT && !C.IsSpace(text[|text| - 1])
    ensures sends == [Send(item.from, payload.text.value, if payload.quotesCustomer then Some(item.wamid) else None)]
  {
    C.ShortTextIsOneChunk(payload.text.value, C.TEXT_CHUNK_LIMIT);
  }

  lemma {:induction false} EvictKeepsProduced(s: Replies)
    ensures Evict(s).produced == s.produced && Evict(s).accepted == s.accepted && Evict(s).attempts == s.attempts
    ensures Evict(s).limit == s.limit && Evict(s).asked == s.asked
    decreases |s.order|
  {
    if |s.order| > s.limit {
      EvictKeepsProduced(s.(pending := s.pending - {s.order[0]}, order := s.order[1..], evicted := s.evicted +
        {s.order[0]}));
    }
  }

  lemma AddProduces(s: Replies, w: Wamid, sends: seq<Send>)
    ensures var s' := Add(s, w, sends);
            && Of(s'.produced, w) == Of(s.produced, w) + sends
            && (forall x :: x != w ==> Of(s'.produced, x) == Of(s.produced, x))
            && s'.accepted == s.accepted && s'.attempts == s.attempts && s'.limit == s.limit
  {
    EvictKeepsProduced(Appended(s, w, sends));
    hide Evict;
  }

  lemma FlushRepliesProducesNothing(relay: Relay, s: Replies, w: Wamid)
    ensures FlushReplies(relay, s, w).0.produced == s.produced && FlushReplies(relay, s, w).0.limit == s.limit
    ensures forall x :: x != w ==> Of(FlushReplies(relay, s, w).0.accepted, x) == Of(s.accepted, x)
  {
    var k := FlushSendsInOrder(relay, s, w);
  }

  lemma SendsAreAnswer(item: Inbound, payload: Payload)
    ensures if payload.text.None? || payload.text.value == [] then IsAnswer(item, payload, [])
            else IsAnswer(item, payload, SendsOf(item, payload))
  {
  }

  lemma DeliverProduces(relay: Relay, s: Replies, item: Inbound, payload: Payload) returns (part: seq<Send>)
    ensures IsAnswer(item, payload, part)
    ensures var s' := Deliver(relay, s, item, payload);
            && Of(s'.produced, item.wamid) == Of(s.produced, item.wamid) + part
            && (forall x :: x != item.wamid ==>
                  Of(s'.produced, x) == Of(s.produced, x) && Of(s'.accepted, x) == Of(s.accepted, x))
            && s'.limit == s.limit
  {
    hide Add, FlushReplies, SendsOf, IsAnswer;
    SendsAreAnswer(item, payload);
    if payload.text.None? || payload.text.value == [] {
      part := [];
    } else {
      part := SendsOf(item, payload);
      AddProduces(s, item.wamid, part);
      FlushRepliesProducesNothing(relay, Add(s, item.wamid, part), item.wamid);
    }
  }

  lemma {:induction false} DeliverAllProduces(relay: Relay, s: Replies, item: Inbound, payloads: seq<Payload>)
      returns (parts: seq<seq<Send>>)
    ensures AreAnswers(item, payloads, parts)
    ensures var s' := DeliverAll(relay, s, item, payloads);
            && Of(s'.produced, item.wamid) == Of(s.produced, item.wamid) + Joined(parts)
            && (forall x :: x != item.wamid ==>
                  Of(s'.produced, x) == Of(s.produced, x) && Of(s'.accepted, x) == Of(s.accepted, x))
            && s'.limit == s.limit
  {
    hide IsAnswer, Deliver;
    parts := [];
    if payloads != [] {
      var n := |payloads| - 1;
      var before := DeliverAllProduces(relay, s, item, payloads[..n]);
      var part := DeliverProduces(relay, DeliverAll(relay, s, item, payloads[..n]), item, payloads[n]);
      parts := before + [part];
      assert parts[..n] == before;
    }
  }

  /** The turn asks the model: nothing is left of an earlier answer, and it is not for the owner to answer. */
  predicate Asks(s: Replies, item: Inbound) {
    && item.hasText && item.wamid !in s.pending && !item.conversation.Unanswered?
    && (item.conversation.HeldByHuman? ==> item.forward.FallbackToBot?)
  }

  /** A message with chunks left over is not answered anew: they are sent from the first on, and the turn
      completes exactly if none of them may be sent again. */
  lemma LeftoversGoFirst(relay: Relay, s: Replies, item: Inbound) returns (k: nat, failed: Option<Failure>)
    requires item.hasText && item.wamid in s.pending
    ensures var (s', completed) := Turn(relay, s, item);
            RepliesFlushedTo(relay, s, item.wamid, k, s', failed) && (completed <==> failed.None?)
  {
    k := RepliesFlushInOrder(relay, s, item.wamid);
    failed := FlushReplies(relay, s, item.wamid).1;
  }

  /** What the model wrote is queued for the customer in full and in order, whatever the relay says. */
  lemma AnswerIsQueued(relay: Relay, s: Replies, item: Inbound) returns (parts: seq<seq<Send>>)
    requires Asks(s, item)
    ensures AreAnswers(item, item.payloads, parts)
    ensures var s' := Turn(relay, s, item).0;
            && Of(s'.produced, item.wamid) == Of(s.produced, item.wamid) + Joined(parts)
            && forall x :: x != item.wamid ==>
                 Of(s'.produced, x) == Of(s.produced, x) && Of(s'.accepted, x) == Of(s.accepted, x)
  {
    parts := DeliverAllProduces(relay, Asked(s, item.wamid), item, item.payloads);
  }

  // ----- What reaches the customer -----

  ghost predicate AcceptsAll(relay: Relay) {
    forall n :: relay(n).Accepted?
  }

  function FirstGone(s: Replies): Replies
    requires s.order != []
  {
    s.(pending := s.pending - {s.order[0]}, order := s.order[1..], evicted := s.evicted + {s.order[0]})
  }

  lemma RestOfOrder(order: seq<Wamid>)
    requires order != [] && forall i, j :: 0 <= i < j < |order| ==> order[i] != order[j]
    ensures var rest := order[1..];
            && (forall i, j :: 0 <= i < j < |rest| ==> rest[i] != rest[j])
            && (forall w :: w in rest <==> w in order && w != order[0])
  {
    assert order == [order[0]] + order[1..];
  }

  lemma FirstGoneIsTracked(s: Replies)
    requires Tracked(s) && s.order != []
    ensures Tracked(FirstGone(s))
    ensures var last := s.order[|s.order| - 1];
            && last in s.pending
            && (if |s.order| > 1 then last in FirstGone(s).pending && FirstGone(s).pending[last] == s.pending[last]
                else FirstGone(s).pending == map[])
  {
    RestOfOrder(s.order);
    var rest, last := s.order[1..], s.order[|s.order| - 1];
    assert last in s.order && (|s.order| > 1 ==> rest[|rest| - 1] == last);
    assert |s.order| == 1 ==> forall w :: w !in FirstGone(s).pending;
  }

  /** The message added last goes last: it stays as long as the queue has room for one. */
  lemma {:induction false} EvictKeepsLast(s: Replies)
    requires Tracked(s) && s.order != []
    ensures var last := s.order[|s.order| - 1];
            && last in s.pending
            && (if s.limit > 0 then last in Evict(s).pending && Evict(s).pending[last] == s.pending[last]
                else Evict(s).pending == map[])
    decreases |s.order|
  {
    FirstGoneIsTracked(s);
    hide Tracked;
    if |s.order| > s.limit && |s.order| > 1 {
      EvictKeepsLast(FirstGone(s));
    }
  }

  lemma AddedIsThere(s: Replies, w: Wamid, sends: seq<Send>)
    requires Inv(s)
    ensures Of(Add(s, w, sends).pending, w) == if s.limit > 0 then Of(s.pending, w) + sends else []
  {
    AppendedIsTracked(s, w, sends);
    EvictKeepsLast(Appended(s, w, sends));
    hide Evict, Tracked, Without;
  }

  lemma {:induction false} EvictKeepsOthers(s: Replies)
    ensures forall x :: x in Evict(s).pending ==> x in s.pending && Evict(s).pending[x] == s.pending[x]
    ensures |Evict(s).order| <= s.limit
    decreases |s.order|
  {
    if |s.order| > s.limit {
      EvictKeepsOthers(FirstGone(s));
    }
  }

  lemma AddKeepsOthers(s: Replies, w: Wamid, sends: seq<Send>)
    ensures var s' := Add(s, w, sends);
            && Of(s'.produced, w) == Of(s.produced, w) + sends
            && (forall x :: x in s'.pending ==>
                  s'.pending[x] == (if x == w then Of(s.pending, w) + sends else Of(s.pending, x)))
            && |s'.order| <= s.limit
            && (Inv(s) ==> (forall x :: x in s'.order <==> x in s'.pending) && (s.limit > 0 ==> w in s'.pending))
  {
    AddProduces(s, w, sends);
    EvictKeepsOthers(Appended(s, w, sends));
    if Inv(s) {
      AddKeeps(s, w, sends);
      AppendedIsTracked(s, w, sends);
      EvictKeepsLast(Appended(s, w, sends));
    }
    hide Evict, Without;
  }

  lemma FlushAcceptsAll(relay: Relay, s: Replies, w: Wamid)
    requires AcceptsAll(relay)
    ensures var (s', failed) := FlushReplies(relay, s, w);
            failed.None? && w !in s'.pending && Of(s'.accepted, w) == Of(s.accepted, w) + Of(s.pending, w)
  {
    var k := FlushSendsInOrder(relay, s, w);
    assert Of(s.pending, w)[..|Of(s.pending, w)|] == Of(s.pending, w);
    hide Flush;
  }

  lemma DeliverReaches(relay: Relay, s: Replies, item: Inbound, payload: Payload) returns (part: seq<Send>)
    requires AcceptsAll(relay) && Inv(s) && item.wamid !in s.pending
    ensures IsAnswer(item, payload, part)
    ensures var s' := Deliver(relay, s, item, payload);
            && Inv(s') && item.wamid !in s'.pending && s'.limit == s.limit
            && Of(s'.produced, item.wamid) == Of(s.produced, item.wamid) + part
            && Of(s'.accepted, item.wamid) == Of(s.accepted, item.wamid) + if s.limit > 0 then part else []
  {
    hide Add, FlushReplies, Inv, SendsOf, IsAnswer;
    SendsAreAnswer(item, payload);
    var w := item.wamid;
    if payload.text.None? || payload.text.value == [] {
      part := [];
    } else {
      part := SendsOf(item, payload);
      AddKeeps(s, w, part);
      AddProduces(s, w, part);
      AddedIsThere(s, w, part);
      FlushRepliesKeeps(relay, Add(s, w, part), w);
      FlushRepliesProducesNothing(relay, Add(s, w, part), w);
      FlushAcceptsAll(relay, Add(s, w, part), w);
      assert [] + part == part;
      assert Of(s.accepted, w) + [] == Of(s.accepted, w);
    }
  }

  lemma {:induction false} DeliverAllReaches(relay: Relay, s: Replies, item: Inbound, payloads: seq<Payload>)
      returns (parts: seq<seq<Send>>)
    requires AcceptsAll(relay) && Inv(s) && item.wamid !in s.pending
    ensures AreAnswers(item, payloads, parts)
    ensures var s' := DeliverAll(relay, s, item, payloads);
            && Inv(s') && item.wamid !in s'.pending && s'.limit == s.limit
            && Of(s'.produced, item.wamid) == Of(s.produced, item.wamid) + Joined(parts)
            && Of(s'.accepted, item.wamid) == Of(s.accepted, item.wamid) + if s.limit > 0 then Joined(parts) else []
  {
    hide IsAnswer, Deliver, Inv;
    parts := [];
    if payloads != [] {
      var n := |payloads| - 1;
      var before := DeliverAllReaches(relay, s, item, payloads[..n]);
      var part := DeliverReaches(relay, DeliverAll(relay, s, item, payloads[..n]), item, payloads[n]);
      parts := before + [part];
      assert parts[..n] == before;
    }
  }

  /** With a relay that accepts everything the customer is sent exactly what the model wrote, and the turn completes
      unless the dispatch throws. Only a queue without room for a single message sends nothing. */
  lemma AnswerReachesTheCustomer(relay: Relay, s: Replies, item: Inbound) returns (parts: seq<seq<Send>>)
    requires Asks(s, item) && AcceptsAll(relay) && Inv(s)
    ensures AreAnswers(item, item.payloads, parts)
    ensures var (s', completed) := Turn(relay, s, item);
            && Of(s'.produced, item.wamid) == Of(s.produced, item.wamid) + Joined(parts)
            && Of(s'.accepted, item.wamid) == Of(s.accepted, item.wamid) + (if s.limit > 0 then Joined(parts) else [])
            && item.wamid !in s'.pending && (completed <==> !item.dispatchThrows)
  {
    AskedKeeps(s, item.wamid);
    parts := DeliverAllReaches(relay, Asked(s, item.wamid), item, item.payloads);
  }
}
