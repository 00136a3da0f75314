/** The reply queue and the inbound turn as the plugin runs them, tied to ReplySpec. */
module Replies {
  import opened Options
  import Answers
  import C = Chunking
  import Proofs = ReplyProofs
  import Spec = ReplySpec

  class ReplyQueue {
    const limit: nat
    var pending: map<Spec.Wamid, seq<Spec.Send>>
    var order: seq<Spec.Wamid>
    var attempts: nat
    ghost var produced: map<Spec.Wamid, seq<Spec.Send>>
    ghost var accepted: map<Spec.Wamid, seq<Spec.Send>>
    ghost var asked: map<Spec.Wamid, nat>
    ghost var rejected: set<Spec.Wamid>
    ghost var evicted: set<Spec.Wamid>

    ghost function State(): Spec.Replies
      reads this
    {
      Spec.Replies(limit, pending, order, attempts, produced, accepted, asked, rejected, evicted)
    }

    constructor (limit: nat)
      ensures State() == Spec.Initial(limit)
    {
      this.limit := limit;
      pending, order, attempts := map[], [], 0;
      produced, accepted, asked, rejected, evicted := map[], map[], map[], {}, {};
    }

    method Add(w: Spec.Wamid, sends: seq<Spec.Send>)
      modifies `pending, `order, `produced, `evicted
      ensures State() == Spec.Add(old(State()), w, sends)
      ensures Spec.Of(produced, w) == Spec.Of(old(produced), w) + sends
      ensures forall x :: x in pending ==>
                pending[x] == (if x == w then Spec.Of(old(pending), w) + sends else Spec.Of(old(pending), x))
      ensures Proofs.Inv(old(State())) ==>
                |order| <= limit && (forall x :: x in order <==> x in pending) && (limit > 0 ==> w in pending)
    {
      ghost var s := State();
      Answers.AddKeepsOthers(s, w, sends);
      var list := (if w in pending then pending[w] else []) + sends;
      pending := pending[w := list];
      order := Spec.Without(order, w) + [w];
      produced := produced[w := Spec.Of(produced, w) + sends];
      while |order| > limit
        invariant Spec.Evict(State()) == Spec.Add(old(State()), w, sends)
        decreases |order|
      {
        pending := pending - {order[0]};
        evicted := evicted + {order[0]};
        order := order[1..];
      }
    }

    /** Sends from the front. What fails stays at the front, and nothing behind it is tried. */
    method Flush(relay: Spec.Relay, w: Spec.Wamid) returns (failed: Option<Spec.Failure>)
      modifies `pending, `order, `attempts, `accepted
      ensures (State(), failed) == Spec.Flush(relay, old(State()), w)
      ensures exists k: nat :: Answers.FlushedTo(relay, old(State()), w, k, State(), failed)
    {
      hide Answers.FlushedTo;
      ghost var k := Answers.FlushSendsInOrder(relay, State(), w);
      if w !in pending {
        return None;
      }
      while pending[w] != []
        invariant w in pending
        invariant Spec.Flush(relay, State(), w) == Spec.Flush(relay, old(State()), w)
        decreases |pending[w]|
      {
        var outcome := relay(attempts);
        attempts := attempts + 1;
        if outcome.Failed? {
          return Some(outcome.failure);
        }
        accepted := accepted[w := Spec.Of(accepted, w) + [pending[w][0]]];
        pending := pending[w := pending[w][1..]];
      }
      Forget(w);
      return None;
    }

    method Forget(w: Spec.Wamid)
      modifies `pending, `order
      ensures State() == Spec.Forget(old(State()), w)
      ensures pending == old(pending) - {w} && w !in order
    {
      Proofs.WithoutMembers(order, w);
      pending := pending - {w};
      order := Spec.Without(order, w);
    }

    /** The only place that counts a message as rejected. */
    method FlushReplies(relay: Spec.Relay, w: Spec.Wamid) returns (failed: Option<Spec.Failure>)
      modifies `pending, `order, `attempts, `accepted, `rejected
      ensures (State(), failed) == Spec.FlushReplies(relay, old(State()), w)
      ensures failed.None? <==> w !in pending
      ensures failed.Some? ==> Answers.MayComeBack(failed.value) && rejected == old(rejected)
      ensures exists k: nat :: Answers.RepliesFlushedTo(relay, old(State()), w, k, State(), failed)
    {
      ghost var k := Answers.RepliesFlushInOrder(relay, State(), w);
      failed := Flush(relay, w);
      if failed.Some? && !Spec.IsRetryable(failed.value) {
        Forget(w);
        rejected := rejected + {w};
        failed := None;
      }
    }

    /** A failure is not reported from here: HandleInbound finds the message still in the queue. */
    method Deliver(relay: Spec.Relay, item: Spec.Inbound, payload: Spec.Payload)
      modifies `pending, `order, `attempts, `accepted, `rejected, `produced, `evicted
      ensures State() == Spec.Deliver(relay, old(State()), item, payload)
      ensures exists part :: Answers.IsAnswer(item, payload, part) &&
                Spec.Of(produced, item.wamid) == Spec.Of(old(produced), item.wamid) + part
    {
      ghost var part := Answers.DeliverProduces(relay, State(), item, payload);
      if payload.text.None? || payload.text.value == [] {
        return;
      }
      var chunks := C.ChunkText(payload.text.value, C.TEXT_CHUNK_LIMIT);
      var sends := seq(|chunks|, i requires 0 <= i < |chunks| =>
        Spec.Send(item.from, chunks[i], if i == 0 && payload.quotesCustomer then Some(item.wamid) else None));
      assert sends == Spec.SendsOf(item, payload);
      Add(item.wamid, sends);
      var failed := FlushReplies(relay, item.wamid);
    }

    /** One turn: `completed` is what lets the poll loop ack the message. */
    method HandleInbound(relay: Spec.Relay, item: Spec.Inbound) returns (completed: bool)
      modifies this
      ensures (State(), completed) == Spec.Turn(relay, old(State()), item)
      ensures !item.hasText ==> completed && State() == old(State())
      ensures item.hasText && item.wamid in old(pending) ==>
                (completed <==> item.wamid !in pending) && produced == old(produced) && asked == old(asked)
      ensures item.hasText && item.wamid in old(pending) ==>
                exists k: nat, failed ::
                  Answers.RepliesFlushedTo(relay, old(State()), item.wamid, k, State(), failed)
      ensures item.hasText && item.wamid !in old(pending) && !Answers.Asks(old(State()), item) ==>
                && State() == old(State())
                && completed == (item.conversation.HeldByHuman? && (item.forward.Notified? ||
                     (item.forward.ForwardFailed? && !Answers.MayComeBack(item.forward.failure))))
      ensures Answers.Asks(old(State()), item) ==>
                && asked == old(asked)[item.wamid :=
                     (if item.wamid in old(asked) then old(asked)[item.wamid] else 0) + 1]
                && (completed <==> !item.dispatchThrows && item.wamid !in pending)
      ensures Answers.Asks(old(State()), item) ==>
                exists parts :: Answers.AreAnswers(item, item.payloads, parts) &&
                  Spec.Of(produced, item.wamid) == Spec.Of(old(produced), item.wamid) + Answers.Joined(parts)
      ensures Answers.Asks(old(State()), item) && Answers.AcceptsAll(relay) && Proofs.Inv(old(State())) && limit > 0 ==>
                && (completed <==> !item.dispatchThrows)
                && exists parts :: Answers.AreAnswers(item, item.payloads, parts) &&
                     Spec.Of(accepted, item.wamid) == Spec.Of(old(accepted), item.wamid) + Answers.Joined(parts)
    {
      hide Proofs.Inv, Answers.AreAnswers, Answers.AcceptsAll, Spec.DeliverAll, Answers.RepliesFlushedTo;
      if !item.hasText {
        return true;
      }
      // NotAskedWhileQueued: on this branch nothing is produced.
      if item.wamid in pending {
        var failed := FlushReplies(relay, item.wamid);
        return failed.None?;
      }
      if item.conversation.Unanswered? {
        return false;
      }
      if item.conversation.HeldByHuman? {
        var handover := Spec.ForwardToOwner(item.forward);
        if handover.Hold? {
          return false;
        }
        if handover.OwnerHasIt? {
          return true;
        }
      }
      completed := AskModel(relay, item);
    }

    /** The relay said that the bot answers, and nothing is left of an earlier answer. */
    method AskModel(relay: Spec.Relay, item: Spec.Inbound) returns (completed: bool)
      requires Answers.Asks(State(), item)
      modifies this
      ensures (State(), completed) == Spec.Turn(relay, old(State()), item)
      ensures asked == old(asked)[item.wamid := (if item.wamid in old(asked) then old(asked)[item.wamid] else 0) + 1]
      ensures completed <==> !item.dispatchThrows && item.wamid !in pending
      ensures exists parts :: Answers.AreAnswers(item, item.payloads, parts) &&
                Spec.Of(produced, item.wamid) == Spec.Of(old(produced), item.wamid) + Answers.Joined(parts)
      ensures Answers.AcceptsAll(relay) && Proofs.Inv(old(State())) && limit > 0 ==>
                && item.wamid !in pending
                && exists parts :: Answers.AreAnswers(item, item.payloads, parts) &&
                     Spec.Of(accepted, item.wamid) == Spec.Of(old(accepted), item.wamid) + Answers.Joined(parts)
    {
      hide Proofs.Inv, Answers.AreAnswers, Answers.AcceptsAll, Spec.DeliverAll, Answers.Joined;
      ghost var s := State();
      ghost var parts := Answers.AnswerIsQueued(relay, s, item);
      if Answers.AcceptsAll(relay) && Proofs.Inv(s) {
        ghost var sent := Answers.AnswerReachesTheCustomer(relay, s, item);
      }
      asked := Spec.Asked(State(), item.wamid).asked;
      Dispatch(relay, item);
      // CompletedMeansDelivered: a turn that dispatched completes only with an empty queue.
      completed := !item.dispatchThrows && item.wamid !in pending;
    }

    method Dispatch(relay: Spec.Relay, item: Spec.Inbound)
      modifies `pending, `order, `attempts, `accepted, `rejected, `produced, `evicted
      ensures State() == Spec.DeliverAll(relay, old(State()), item, item.payloads)
    {
      hide Spec.Deliver;
      var i := 0;
      while i < |item.payloads|
        invariant 0 <= i <= |item.payloads|
        invariant State() == Spec.DeliverAll(relay, old(State()), item, item.payloads[..i])
      {
        ghost var done := item.payloads[..i + 1];
        assert done[..|done| - 1] == item.payloads[..i] && done[|done| - 1] == item.payloads[i];
        Deliver(relay, item, item.payloads[i]);
        i := i + 1;
      }
      assert item.payloads[..i] == item.payloads;
    }
  }
}
