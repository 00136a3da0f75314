/** What every run of turns keeps. */
module ReplyProofs {
  import opened Options
  import opened ReplySpec

  /** The insertion order lists each tracked message once, and the queue stays within its limit. */
  ghost predicate Tracked(s: Replies) {
    && (forall w :: w in s.order <==> w in s.pending)
    && (forall i, j :: 0 <= i < j < |s.order| ==> s.order[i] != s.order[j])
  }

  predicate Conserved(s: Replies, w: Wamid) {
    Of(s.accepted, w) + Of(s.pending, w) == Of(s.produced, w)
  }

  predicate Counted(s: Replies, w: Wamid) {
    w !in s.rejected && w !in s.evicted
  }

  ghost predicate Inv(s: Replies) {
    Tracked(s) && (forall w :: Counted(s, w) ==> Conserved(s, w))
  }

  // ----- The queue -----

  lemma {:induction false} WithoutMembers(order: seq<Wamid>, w: Wamid)
    ensures forall x :: x in Without(order, w) <==> x in order && x != w
    ensures |Without(order, w)| <= |order|
    ensures w in order ==> |Without(order, w)| < |order|
    decreases |order|
  {
    if order != [] {
      WithoutMembers(order[1..], w);
      assert order == [order[0]] + order[1..];
    }
  }

  lemma {:induction false} WithoutIsDistinct(order: seq<Wamid>, w: Wamid)
    requires forall i, j :: 0 <= i < j < |order| ==> order[i] != order[j]
    ensures var rest := Without(order, w); forall i, j :: 0 <= i < j < |rest| ==> rest[i] != rest[j]
    decreases |order|
  {
    if order != [] {
      var tail := order[1..];
      WithoutIsDistinct(tail, w);
      WithoutMembers(tail, w);
      assert order[0] !in tail;
      assert order[0] !in Without(tail, w);
    }
  }

  lemma {:induction false} EvictKeeps(s: Replies)
    requires Inv(s)
    ensures Inv(Evict(s)) && |Evict(s).order| <= |s.order|
    ensures Evict(s).asked == s.asked && Evict(s).rejected == s.rejected && Evict(s).evicted >= s.evicted
    ensures |Evict(s).order| <= s.limit && Evict(s).limit == s.limit
    ensures forall w :: w in Evict(s).pending ==> w in s.pending && Evict(s).pending[w] == s.pending[w]
    ensures forall w :: w in s.pending && w !in Evict(s).pending ==> w in Evict(s).evicted
    decreases |s.order|
  {
    if |s.order| > s.limit {
      var first := s.order[0];
      var s' := s.(pending := s.pending - {first}, order := s.order[1..], evicted := s.evicted + {first});
      assert s.order == [first] + s.order[1..];
      forall w | Counted(s', w)
        ensures Conserved(s', w)
      {
        assert Conserved(s, w);
      }
      EvictKeeps(s');
    }
  }

  lemma SameQueueKeeps(s: Replies, s': Replies)
    requires Inv(s) && s' == s.(attempts := s'.attempts, asked := s'.asked)
    ensures Inv(s')
  {
    forall x | Counted(s', x)
      ensures Conserved(s', x)
    {
      assert Counted(s, x) && Conserved(s, x);
    }
  }

  function Appended(s: Replies, w: Wamid, sends: seq<Send>): Replies {
    s.(pending := s.pending[w := Of(s.pending, w) + sends], order := Without(s.order, w) + [w],
       produced := s.produced[w := Of(s.produced, w) + sends])
  }

  lemma AppendedIsTracked(s: Replies, w: Wamid, sends: seq<Send>)
    requires Tracked(s)
    ensures Tracked(Appended(s, w, sends))
  {
    WithoutMembers(s.order, w);
    WithoutIsDistinct(s.order, w);
  }

  lemma AppendKeeps(s: Replies, w: Wamid, sends: seq<Send>)
    requires Inv(s)
    ensures Inv(Appended(s, w, sends))
  {
    var s' := Appended(s, w, sends);
    AppendedIsTracked(s, w, sends);
    forall x | Counted(s', x)
      ensures Conserved(s', x)
    {
      assert Counted(s, x) && Conserved(s, x);
      assert Of(s.accepted, w) + (Of(s.pending, w) + sends) == Of(s.accepted, w) + Of(s.pending, w) + sends;
    }
  }

  lemma AddKeeps(s: Replies, w: Wamid, sends: seq<Send>)
    requires Inv(s)
    ensures Inv(Add(s, w, sends))
    ensures var s' := Add(s, w, sends);
            && s'.asked == s.asked && s'.rejected == s.rejected && s'.evicted >= s.evicted &&
               |s'.order| <= s'.limit == s.limit
            && (forall x :: x != w && x in s'.pending ==> x in s.pending && s'.pending[x] == s.pending[x])
            && (forall x :: x in s.pending && x !in s'.pending ==> x in s'.evicted)
  {
    AppendKeeps(s, w, sends);
    EvictKeeps(Appended(s, w, sends));
  }

  lemma ForgetKeeps(s: Replies, w: Wamid)
    requires Tracked(s) && (forall x :: x != w && Counted(s, x) ==> Conserved(s, x))
    requires Counted(s, w) ==> Of(s.pending, w) == [] && Conserved(s, w)
    ensures Inv(Forget(s, w))
  {
    WithoutMembers(s.order, w);
    WithoutIsDistinct(s.order, w);
    var s' := Forget(s, w);
    forall x | Counted(s', x)
      ensures Conserved(s', x)
    {
      assert Counted(s, x) && Conserved(s, x);
    }
  }

  lemma SentKeeps(s: Replies, w: Wamid)
    requires Inv(s) && w in s.pending && s.pending[w] != []
    ensures Inv(Sent(s, w))
  {
    var s' := Sent(s, w);
    forall x | Counted(s', x)
      ensures Conserved(s', x)
    {
      assert Counted(s, x) && Conserved(s, x);
      if x == w {
        assert s.pending[w] == [s.pending[w][0]] + s.pending[w][1..];
      }
    }
  }

  lemma {:induction false} FlushKeeps(relay: Relay, s: Replies, w: Wamid)
    requires Inv(s)
    ensures var (s', failed) := Flush(relay, s, w);
            && Inv(s')
            && (failed.None? <==> w !in s'.pending)
            && s'.produced == s.produced && s'.asked == s.asked && s'.rejected == s.rejected && s'.evicted == s.evicted
    decreases |Of(s.pending, w)|
  {
    if w in s.pending {
      if s.pending[w] == [] {
        assert Counted(s, w) ==> Conserved(s, w);
        ForgetKeeps(s, w);
      } else if relay(s.attempts).Accepted? {
        SentKeeps(s, w);
        FlushKeeps(relay, Sent(s, w), w);
      } else {
        var s' := s.(attempts := s.attempts + 1);
        SameQueueKeeps(s, s');
      }
    }
  }

  lemma FlushRepliesKeeps(relay: Relay, s: Replies, w: Wamid)
    requires Inv(s)
    ensures var (s', failed) := FlushReplies(relay, s, w);
            && Inv(s')
            && (failed.None? <==> w !in s'.pending)
            && (failed.Some? ==> IsRetryable(failed.value))
            && s'.asked == s.asked && s'.evicted == s.evicted
  {
    FlushKeeps(relay, s, w);
    var (s', failed) := Flush(relay, s, w);
    if failed.Some? && !IsRetryable(failed.value) {
      var marked := s'.(rejected := s'.rejected + {w});
      assert forall x :: x != w && Counted(marked, x) ==> Counted(s', x) && Conserved(s', x) && Conserved(marked, x);
      ForgetKeeps(marked, w);
    }
  }

  // ----- Turns -----

  lemma {:induction false} DeliverAllKeeps(relay: Relay, s: Replies, item: Inbound, payloads: seq<Payload>)
    requires Inv(s)
    ensures var s' := DeliverAll(relay, s, item, payloads);
            Inv(s') && s'.asked == s.asked
  {
    hide Inv, FlushReplies, Add;
    if payloads != [] {
      var before := DeliverAll(relay, s, item, payloads[..|payloads| - 1]);
      var payload := payloads[|payloads| - 1];
      DeliverAllKeeps(relay, s, item, payloads[..|payloads| - 1]);
      if payload.text.Some? && payload.text.value != [] {
        var sends := SendsOf(item, payload);
        AddKeeps(before, item.wamid, sends);
        FlushRepliesKeeps(relay, Add(before, item.wamid, sends), item.wamid);
      }
    }
  }

  lemma AskedKeeps(s: Replies, w: Wamid)
    requires Inv(s)
    ensures Inv(Asked(s, w))
  {
    SameQueueKeeps(s, Asked(s, w));
  }

  lemma TurnKeeps(relay: Relay, s: Replies, item: Inbound)
    requires Inv(s)
    ensures Inv(Turn(relay, s, item).0)
  {
    hide Inv;
    if item.wamid in s.pending {
      FlushRepliesKeeps(relay, s, item.wamid);
    } else {
      AskedKeeps(s, item.wamid);
      DeliverAllKeeps(relay, Asked(s, item.wamid), item, item.payloads);
    }
  }

  // ----- Turns side by side -----

  ghost predicate Kept(s: Replies) {
    Inv(s) && |s.order| <= s.limit
  }

  /** A flush works through the list the queue has, unless the queue has let go of the message since. */
  ghost predicate Flushing(m: Plugin, w: Wamid)
    requires w in m.sending
  {
    && w in m.turns && !m.turns[w].Undecided? && m.sending[w] != []
    && if w in m.s.pending then m.sending[w] == m.s.pending[w] else w in m.s.evicted
  }

  ghost predicate Settled(m: Plugin, w: Wamid)
    requires w in m.turns
  {
    m.turns[w].Undecided? || (m.turns[w] == Resending(false) && w !in m.sending) ==> w !in m.s.pending
  }

  ghost predicate InTurn(m: Plugin) {
    && (forall w :: w in m.sending ==> Flushing(m, w))
    && (forall w :: w in m.turns ==> Settled(m, w))
  }

  ghost predicate PluginInv(m: Plugin) {
    Kept(m.s) && InTurn(m)
  }

  lemma EmptyForgets(s: Replies, w: Wamid)
    requires Kept(s) && (w in s.pending ==> s.pending[w] == [])
    ensures Kept(Forget(s, w))
  {
    assert Counted(s, w) ==> Conserved(s, w);
    ForgetKeeps(s, w);
    WithoutMembers(s.order, w);
  }

  lemma FlushBeginsKeeps(m: Plugin, w: Wamid)
    requires Kept(m.s) && w in m.turns && !m.turns[w].Undecided? && w !in m.sending
    requires forall x :: x in m.sending ==> Flushing(m, x)
    requires forall x :: x in m.turns && x != w ==> Settled(m, x)
    ensures PluginInv(FlushBegins(m, w))
  {
    if w in m.s.pending && m.s.pending[w] == [] {
      EmptyForgets(m.s, w);
    }
    hide Kept, Without;
  }

  lemma BeginsKeeps(m: Plugin, w: Wamid)
    requires PluginInv(m)
    ensures PluginInv(Begins(m, w))
  {
    hide Kept, FlushBegins;
    if w !in m.turns && w in m.s.pending {
      var m' := m.(turns := m.turns[w := Resending(false)]);
      FlushBeginsKeeps(m', w);
    }
  }

  lemma AsksKeeps(m: Plugin, w: Wamid)
    requires PluginInv(m)
    ensures PluginInv(Asks(m, w))
  {
    AskedKeeps(m.s, w);
    hide Inv;
  }

  lemma ProducesKeeps(m: Plugin, w: Wamid, sends: seq<Send>)
    requires PluginInv(m)
    ensures PluginInv(Produces(m, w, sends))
  {
    AddKeeps(m.s, w, sends);
    hide Inv, Add, FlushBegins;
    if MayProduce(m, w) {
      FlushBeginsKeeps(m.(s := Add(m.s, w, sends)), w);
    }
  }

  function Counting(m: Plugin, w: Wamid): Replies
    requires w in m.sending && m.sending[w] != []
  {
    m.s.(attempts := m.s.attempts + 1,
         pending := if w in m.s.pending then m.s.pending[w := m.sending[w][1..]] else m.s.pending,
         accepted := m.s.accepted[w := Of(m.s.accepted, w) + [m.sending[w][0]]])
  }

  /** After an eviction an acceptance of the message still counts, but the message does not. */
  lemma AcceptedKeeps(m: Plugin, w: Wamid)
    requires Kept(m.s) && w in m.sending && Flushing(m, w)
    ensures Kept(Counting(m, w))
  {
    if w in m.s.pending {
      SentKeeps(m.s, w);
      assert Counting(m, w) == Sent(m.s, w);
    } else {
      var s' := Counting(m, w);
      forall x | Counted(s', x)
        ensures Conserved(s', x)
      {
        assert Counted(m.s, x) && Conserved(m.s, x);
      }
    }
  }

  lemma AcceptsKeepsQueue(m: Plugin, w: Wamid)
    requires PluginInv(m)
    ensures Kept(Accepts(m, w).s)
  {
    hide Kept;
    if w in m.sending {
      assert Flushing(m, w);
      AcceptedKeeps(m, w);
      if m.sending[w][1..] == [] {
        EmptyForgets(Counting(m, w), w);
      }
    }
  }

  lemma AcceptsKeeps(m: Plugin, w: Wamid)
    requires PluginInv(m)
    ensures PluginInv(Accepts(m, w))
  {
    AcceptsKeepsQueue(m, w);
    hide Kept, Without;
    if w in m.sending {
      assert Flushing(m, w);
    }
  }

  lemma RejectedForgets(s: Replies, w: Wamid)
    requires Kept(s)
    ensures Kept(Forget(s, w).(rejected := s.rejected + {w}))
  {
    var marked := s.(rejected := s.rejected + {w});
    forall x | x != w && Counted(marked, x)
      ensures Conserved(marked, x)
    {
      assert Counted(s, x) && Conserved(s, x);
    }
    ForgetKeeps(marked, w);
    WithoutMembers(s.order, w);
  }

  lemma FailsKeeps(m: Plugin, w: Wamid, failure: Failure)
    requires PluginInv(m)
    ensures PluginInv(Fails(m, w, failure))
  {
    var s := m.s.(attempts := m.s.attempts + 1);
    SameQueueKeeps(m.s, s);
    RejectedForgets(s, w);
    hide Inv, Without, IsRetryable;
    var m' := Fails(m, w, failure);
    assert Kept(m'.s);
    hide Kept;
    if w in m.sending {
      assert Flushing(m, w);
      FailsKeepsTurns(m, w, failure);
    }
  }

  lemma FailsKeepsTurns(m: Plugin, w: Wamid, failure: Failure)
    requires InTurn(m) && w in m.sending
    ensures InTurn(Fails(m, w, failure))
  {
    hide Without, IsRetryable;
    var m' := Fails(m, w, failure);
    assert Flushing(m, w);
    forall x | x in m'.sending
      ensures Flushing(m', x)
    {
      assert x != w && Flushing(m, x);
    }
    forall x | x in m'.turns
      ensures Settled(m', x)
    {
      assert Settled(m, x);
    }
  }

  lemma StepKeeps(m: Plugin, e: Event)
    requires PluginInv(m)
    ensures PluginInv(Step(m, e))
  {
    hide Kept;
    match e
    case Begin(w) =>
      hide PluginInv;
      BeginsKeeps(m, w);
    case Ask(w) =>
      hide PluginInv;
      AsksKeeps(m, w);
    case Produce(w, sends) =>
      hide PluginInv;
      ProducesKeeps(m, w, sends);
    case Accept(w) =>
      hide PluginInv;
      AcceptsKeeps(m, w);
    case Fail(w, failure) =>
      hide PluginInv;
      FailsKeeps(m, w, failure);
    case End(w, ok) =>
  }

  lemma {:induction false} StepsKeep(m: Plugin, events: seq<Event>)
    requires PluginInv(m)
    ensures PluginInv(Steps(m, events))
    decreases |events|
  {
    hide PluginInv, Step;
    if events != [] {
      StepKeeps(m, events[0]);
      StepsKeep(Step(m, events[0]), events[1..]);
    }
  }

  lemma RunKeeps(limit: nat, events: seq<Event>)
    ensures PluginInv(Run(limit, events))
  {
    StepsKeep(Plugin(Initial(limit), map[], map[], []), events);
  }

  /** However turns of different messages interleave, fail and come back: what the relay accepted followed by
      what is still queued is everything the model produced, in order, each chunk once. */
  lemma RepliesAreConserved(limit: nat, events: seq<Event>, w: Wamid)
    requires Counted(Run(limit, events).s, w)
    ensures var s := Run(limit, events).s;
            Of(s.accepted, w) + Of(s.pending, w) == Of(s.produced, w)
  {
    RunKeeps(limit, events);
    assert Conserved(Run(limit, events).s, w);
  }

  /** A turn of a message that is counted completes only when all that the model produced for it was accepted. */
  lemma CompletedMeansDelivered(limit: nat, events: seq<Event>, w: Wamid, ok: bool)
    requires Completes(Run(limit, events), w, ok)
    ensures var s := Run(limit, events).s;
            w !in s.pending && (Counted(s, w) ==> Of(s.accepted, w) == Of(s.produced, w))
  {
    RunKeeps(limit, events);
    var m := Run(limit, events);
    assert Settled(m, w);
    assert Counted(m.s, w) ==> Conserved(m.s, w);
  }

  /** The model is never asked while chunks of an earlier answer are queued or on their way. */
  lemma NotAskedWhileQueued(limit: nat, events: seq<Event>, e: Event)
    requires var m := Run(limit, events); Step(m, e).s.asked != m.s.asked
    ensures e.Ask? && e.w !in Run(limit, events).s.pending && e.w !in Run(limit, events).sending
  {
    RunKeeps(limit, events);
    AskedOnlyWhenAsked(Run(limit, events), e);
  }

  lemma AskedOnlyWhenAsked(m: Plugin, e: Event)
    requires PluginInv(m) && Step(m, e).s.asked != m.s.asked
    ensures e.Ask? && e.w !in m.s.pending && e.w !in m.sending
  {
    hide Kept;
    if e.Produce? {
      AddAsksNothing(m.s, e.w, e.sends);
      hide Add;
    } else if e.Ask? {
      assert Settled(m, e.w);
    }
  }

  lemma AddAsksNothing(s: Replies, w: Wamid, sends: seq<Send>)
    requires Kept(s)
    ensures Add(s, w, sends).asked == s.asked
  {
    AddKeeps(s, w, sends);
  }

  // ----- When nothing is lost -----

  predicate Fits(m: Plugin, e: Event) {
    e.Produce? && MayProduce(m, e.w) ==> e.w in m.s.pending || |m.s.order| < m.s.limit
  }

  lemma EvictsFirst(s: Replies)
    requires Inv(s) && |s.order| > s.limit
    ensures s.order[0] in Evict(s).evicted
  {
    var first := s.order[0];
    var s' := s.(pending := s.pending - {first}, order := s.order[1..], evicted := s.evicted + {first});
    assert s.order == [first] + s.order[1..];
    forall w | Counted(s', w)
      ensures Conserved(s', w)
    {
      assert Conserved(s, w);
    }
    EvictKeeps(s');
  }

  lemma AddEvictsExactly(s: Replies, w: Wamid, sends: seq<Send>)
    requires Inv(s) && s.evicted == {} && |s.order| <= s.limit
    ensures Add(s, w, sends).evicted == {} <==> w in s.pending || |s.order| < s.limit
  {
    WithoutMembers(s.order, w);
    AppendKeeps(s, w, sends);
    var s' := Appended(s, w, sends);
    if |s'.order| > s.limit {
      EvictsFirst(s');
    } else if w !in s.pending {
      WithoutOther(s.order, w);
    }
  }

  lemma {:induction false} WithoutOther(order: seq<Wamid>, w: Wamid)
    requires w !in order
    ensures Without(order, w) == order
    decreases |order|
  {
    if order != [] {
      assert order == [order[0]] + order[1..];
      WithoutOther(order[1..], w);
    }
  }

  lemma StepEvictsExactly(m: Plugin, e: Event)
    requires PluginInv(m) && m.s.evicted == {}
    ensures Step(m, e).s.evicted == {} <==> Fits(m, e)
  {
    if e.Produce? {
      AddEvictsExactly(m.s, e.w, e.sends);
    }
    hide Inv, Add;
  }

  lemma EvictedStays(m: Plugin, e: Event)
    requires PluginInv(m)
    ensures m.s.evicted <= Step(m, e).s.evicted
  {
    if e.Produce? {
      AddKeeps(m.s, e.w, e.sends);
    }
    hide Inv, Add;
  }

  ghost predicate FitsThroughout(m: Plugin, events: seq<Event>)
    decreases |events|
  {
    events != [] ==> Fits(m, events[0]) && FitsThroughout(Step(m, events[0]), events[1..])
  }

  lemma {:induction false} StepsEvictExactly(m: Plugin, events: seq<Event>)
    requires PluginInv(m)
    ensures m.s.evicted == {} ==> (Steps(m, events).s.evicted == {} <==> FitsThroughout(m, events))
    ensures m.s.evicted <= Steps(m, events).s.evicted
    decreases |events|
  {
    hide PluginInv, Step, Fits;
    if events != [] {
      var m' := Step(m, events[0]);
      StepKeeps(m, events[0]);
      EvictedStays(m, events[0]);
      if m.s.evicted == {} {
        StepEvictsExactly(m, events[0]);
      }
      StepsEvictExactly(m', events[1..]);
    }
  }

  /** Over any run nothing is let go if and only if, whenever the model produced something for a message that
      was not tracked, fewer than the limit were. */
  lemma NothingEvictedWithinTheLimit(limit: nat, events: seq<Event>)
    ensures Run(limit, events).s.evicted == {} <==> FitsThroughout(Plugin(Initial(limit), map[], map[], []), events)
  {
    StepsEvictExactly(Plugin(Initial(limit), map[], map[], []), events);
  }

  lemma {:induction false} EvictRejectsNothing(s: Replies)
    ensures Evict(s).rejected == s.rejected
    decreases |s.order|
  {
    if |s.order| > s.limit {
      EvictRejectsNothing(s.(pending := s.pending - {s.order[0]}, order := s.order[1..], evicted := s.evicted +
        {s.order[0]}));
    }
  }

  /** What counts as rejected is exactly what the relay refused for good while a send of it was under way. */
  lemma StepRejectsExactly(m: Plugin, e: Event)
    ensures Step(m, e).s.rejected ==
            m.s.rejected + if e.Fail? && e.w in m.sending && !IsRetryable(e.failure) then {e.w} else {}
  {
    if e.Produce? {
      EvictRejectsNothing(Appended(m.s, e.w, e.sends));
      assert Add(m.s, e.w, e.sends).rejected == m.s.rejected;
      hide Add, Evict;
    }
  }

  /** A relay that refuses nothing for good loses nothing. */
  lemma {:induction false} NothingRejected(m: Plugin, events: seq<Event>)
    requires forall i :: 0 <= i < |events| && events[i].Fail? ==> IsRetryable(events[i].failure)
    ensures Steps(m, events).s.rejected == m.s.rejected
    decreases |events|
  {
    hide Step;
    if events != [] {
      StepRejectsExactly(m, events[0]);
      assert forall i :: 0 <= i < |events[1..]| ==> events[1..][i] == events[i + 1];
      NothingRejected(Step(m, events[0]), events[1..]);
    }
  }

  // ----- A turn that nobody interrupts -----

  lemma {:induction false} StepsOfConcat(m: Plugin, a: seq<Event>, b: seq<Event>)
    ensures Steps(m, a + b) == Steps(Steps(m, a), b)
    decreases |a|
  {
    hide Step;
    if a == [] {
      assert a + b == b;
    } else {
      assert (a + b)[1..] == a[1..] + b;
      StepsOfConcat(Step(m, a[0]), a[1..], b);
    }
  }

  lemma StepsOfOne(m: Plugin, e: Event)
    ensures Steps(m, [e]) == Step(m, e)
  {
    assert [e][1..] == [];
    assert Steps(Step(m, e), []) == Step(m, e);
  }

  lemma StepsAfter(m: Plugin, e: Event, rest: seq<Event>)
    ensures Steps(m, [e] + rest) == Steps(Step(m, e), rest)
  {
    StepsOfConcat(m, [e], rest);
    StepsOfOne(m, e);
  }

  /** What a flush that ended leaves of the plugin. */
  function Flushed(m: Plugin, w: Wamid, after: (Replies, Option<Failure>)): Plugin
    requires w in m.turns
  {
    m.(s := after.0, turns := if after.1.Some? && m.turns[w].Resending? then m.turns[w := Resending(true)] else m.turns)
  }

  lemma {:induction false} FlushIsItsSteps(relay: Relay, m: Plugin, w: Wamid)
    requires w in m.turns && w !in m.sending
    ensures Steps(FlushBegins(m, w), FlushEvents(relay, m.s, w)) == Flushed(m, w, FlushReplies(relay, m.s, w))
    decreases |Of(m.s.pending, w)|
  {
    if w in m.s.pending && m.s.pending[w] != [] {
      var m1 := FlushBegins(m, w);
      assert m1.sending - {w} == m.sending;
      if relay(m.s.attempts).Accepted? {
        var next := m.(s := Sent(m.s, w));
        AcceptedOnce(m, w);
        StepsAfter(m1, Accept(w), FlushEvents(relay, next.s, w));
        hide Steps, Accepts;
        FlushIsItsSteps(relay, next, w);
      } else {
        StepsOfOne(m1, Fail(w, relay(m.s.attempts).failure));
      }
    }
  }

  lemma AcceptedOnce(m: Plugin, w: Wamid)
    requires w in m.turns && w !in m.sending && w in m.s.pending && m.s.pending[w] != []
    ensures Accepts(FlushBegins(m, w), w) == FlushBegins(m.(s := Sent(m.s, w)), w)
  {
    var m1 := FlushBegins(m, w);
    var rest := m.s.pending[w][1..];
    assert m1.sending - {w} == m.sending;
    assert m1.sending[w := rest] == m.sending[w := rest];
  }

  lemma DeliverIsItsSteps(relay: Relay, m: Plugin, item: Inbound, payload: Payload)
    requires MayProduce(m, item.wamid)
    ensures Steps(m, DeliverEvents(relay, m.s, item, payload)) == m.(s := Deliver(relay, m.s, item, payload))
  {
    if payload.text.Some? && payload.text.value != [] {
      var w, sends := item.wamid, SendsOf(item, payload);
      var m1 := m.(s := Add(m.s, w, sends));
      StepsAfter(m, Produce(w, sends), FlushEvents(relay, m1.s, w));
      hide Steps, Add, FlushEvents, FlushReplies;
      FlushIsItsSteps(relay, m1, w);
    }
  }

  lemma {:induction false} DeliverAllIsItsSteps(relay: Relay, m: Plugin, item: Inbound, payloads: seq<Payload>)
    requires MayProduce(m, item.wamid)
    ensures Steps(m, DeliverAllEvents(relay, m.s, item, payloads)) == m.(s := DeliverAll(relay, m.s, item, payloads))
  {
    if payloads != [] {
      var before, last := payloads[..|payloads| - 1], payloads[|payloads| - 1];
      hide Steps, Deliver, DeliverEvents;
      DeliverAllIsItsSteps(relay, m, item, before);
      var m1 := m.(s := DeliverAll(relay, m.s, item, before));
      DeliverIsItsSteps(relay, m1, item, last);
      StepsOfConcat(m, DeliverAllEvents(relay, m.s, item, before), DeliverEvents(relay, m1.s, item, last));
    }
  }

  /** One turn taken whole is the run of its steps with nobody in between, and completes when they say so. */
  lemma TurnIsItsSteps(relay: Relay, m: Plugin, item: Inbound)
    requires PluginInv(m) && item.wamid !in m.turns
    ensures var (s, completed) := Turn(relay, m.s, item);
            Steps(m, TurnEvents(relay, m.s, item)) ==
            m.(s := s, completed := if item.hasText && completed then m.completed + [item.wamid] else m.completed)
  {
    var w := item.wamid;
    assert w in m.sending ==> Flushing(m, w);
    if item.hasText {
      hide PluginInv, Turn;
      if w in m.s.pending {
        ResendIsItsSteps(relay, m, item);
      } else if item.conversation.Unanswered? ||
        (item.conversation.HeldByHuman? && !ForwardToOwner(item.forward).BotAnswers?) {
        UndecidedIsItsSteps(relay, m, item);
      } else {
        DispatchIsItsSteps(relay, m, item);
      }
    }
  }

  lemma ResendIsItsSteps(relay: Relay, m: Plugin, item: Inbound)
    requires PluginInv(m) && item.wamid !in m.turns && item.wamid !in m.sending && item.hasText &&
             item.wamid in m.s.pending
    ensures var (s, completed) := Turn(relay, m.s, item);
            Steps(m, TurnEvents(relay, m.s, item)) ==
            m.(s := s, completed := if completed then m.completed + [item.wamid] else m.completed)
  {
    var w := item.wamid;
    var m1 := m.(turns := m.turns[w := Resending(false)]);
    var m2 := Flushed(m1, w, FlushReplies(relay, m.s, w));
    assert m2.turns - {w} == m.turns;
    ResendSteps(relay, m, w);
    hide Steps, FlushEvents, FlushBegins, FlushReplies, PluginInv;
  }

  lemma ResendSteps(relay: Relay, m: Plugin, w: Wamid)
    requires w !in m.turns && w !in m.sending && w in m.s.pending
    ensures var m1 := m.(turns := m.turns[w := Resending(false)]);
            Steps(m, [Begin(w)] + FlushEvents(relay, m.s, w) + [End(w, true)]) ==
            Ends(Flushed(m1, w, FlushReplies(relay, m.s, w)), w, true)
  {
    hide Steps, FlushEvents, FlushBegins, FlushReplies, Ends;
    var m1 := m.(turns := m.turns[w := Resending(false)]);
    var flush, end := FlushEvents(relay, m.s, w), [End(w, true)];
    FlushIsItsSteps(relay, m1, w);
    StepsOfOne(Flushed(m1, w, FlushReplies(relay, m.s, w)), end[0]);
    StepsOfConcat(FlushBegins(m1, w), flush, end);
    StepsAfter(m, Begin(w), flush + end);
    assert [Begin(w)] + flush + end == [Begin(w)] + (flush + end);
  }

  lemma UndecidedIsItsSteps(relay: Relay, m: Plugin, item: Inbound)
    requires item.wamid !in m.turns && item.wamid !in m.sending && item.hasText && item.wamid !in m.s.pending
    requires item.conversation.Unanswered? ||
             (item.conversation.HeldByHuman? && !ForwardToOwner(item.forward).BotAnswers?)
    ensures var (s, completed) := Turn(relay, m.s, item);
            Steps(m, TurnEvents(relay, m.s, item)) ==
            m.(s := s, completed := if completed then m.completed + [item.wamid] else m.completed)
  {
    var w := item.wamid;
    var ok := !item.conversation.Unanswered? && ForwardToOwner(item.forward).OwnerHasIt?;
    assert TurnEvents(relay, m.s, item) == [Begin(w)] + [End(w, ok)];
    StepsAfter(m, Begin(w), [End(w, ok)]);
    StepsOfOne(Begins(m, w), End(w, ok));
    hide Steps;
    assert Begins(m, w).turns - {w} == m.turns;
  }

  lemma DispatchIsItsSteps(relay: Relay, m: Plugin, item: Inbound)
    requires item.wamid !in m.turns && item.wamid !in m.sending && item.hasText && item.wamid !in m.s.pending
    requires !item.conversation.Unanswered? &&
             (item.conversation.HeldByHuman? ==> ForwardToOwner(item.forward).BotAnswers?)
    ensures var (s, completed) := Turn(relay, m.s, item);
            Steps(m, TurnEvents(relay, m.s, item)) ==
            m.(s := s, completed := if completed then m.completed + [item.wamid] else m.completed)
  {
    var w, ok := item.wamid, !item.dispatchThrows;
    var m1, m2 := Begins(m, w), m.(s := Asked(m.s, w), turns := m.turns[w := Dispatching]);
    assert Asks(m1, w) == m2 by {
      assert m1.turns[w := Dispatching] == m.turns[w := Dispatching];
    }
    var all := DeliverAllEvents(relay, m2.s, item, item.payloads);
    var m3 := m2.(s := DeliverAll(relay, m2.s, item, item.payloads));
    assert Ends(m3, w, ok).turns == m.turns;
    hide Steps, DeliverAll, DeliverAllEvents, Begins;
    DispatchSteps(relay, m, item);
  }

  lemma DispatchSteps(relay: Relay, m: Plugin, item: Inbound)
    requires item.wamid !in m.sending &&
             Asks(Begins(m, item.wamid), item.wamid) ==
                 m.(s := Asked(m.s, item.wamid), turns := m.turns[item.wamid := Dispatching])
    ensures var w, m2 := item.wamid, m.(s := Asked(m.s, item.wamid), turns := m.turns[item.wamid := Dispatching]);
            Steps(m, [Begin(w), Ask(w)] + DeliverAllEvents(relay, m2.s, item, item.payloads) +
              [End(w, !item.dispatchThrows)]) ==
            Ends(m2.(s := DeliverAll(relay, m2.s, item, item.payloads)), w, !item.dispatchThrows)
  {
    hide Steps, DeliverAll, DeliverAllEvents, Begins, Asks, Ends;
    var w, end := item.wamid, [End(item.wamid, !item.dispatchThrows)];
    var m2 := m.(s := Asked(m.s, w), turns := m.turns[w := Dispatching]);
    var all := DeliverAllEvents(relay, m2.s, item, item.payloads);
    DeliverAllIsItsSteps(relay, m2, item, item.payloads);
    StepsOfOne(m2.(s := DeliverAll(relay, m2.s, item, item.payloads)), end[0]);
    StepsOfConcat(m2, all, end);
    StepsAfter(Begins(m, w), Ask(w), all + end);
    StepsAfter(m, Begin(w), [Ask(w)] + (all + end));
    assert [Begin(w), Ask(w)] + all + end == [Begin(w)] + ([Ask(w)] + (all + end));
  }
}
