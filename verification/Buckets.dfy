/** Token buckets, one a key: `rate` tokens a second, a burst of `rate`. Tokens are reals, so the arithmetic
    is exact; the clock is in milliseconds and never runs backwards. */
module Buckets {
  import opened Options

  type Key = nat
  type Time = int

  const TOKEN_BUCKET_PRUNE_AT: nat := 1000

  datatype Bucket = Bucket(tokens: real, at: Time)
  datatype Config = Config(rate: real, idleMs: int)

  type Table = map<Key, Bucket>

  function Min(a: real, b: real): real {
    if a < b then a else b
  }

  // ----- One take -----

  function Refilled(config: Config, b: Bucket, now: Time): real {
    Min(config.rate, b.tokens + (now - b.at) as real / 1000.0 * config.rate)
  }

  /** A key without a bucket has a full one. */
  function Held(config: Config, t: Table, key: Key, now: Time): real {
    Refilled(config, if key in t then t[key] else Bucket(config.rate, now), now)
  }

  function Granted(config: Config, t: Table, key: Key, now: Time): bool {
    Held(config, t, key, now) >= 1.0
  }

  function Taken(config: Config, t: Table, key: Key, now: Time): Table {
    var tokens := Held(config, t, key, now);
    t[key := Bucket(if tokens < 1.0 then tokens else tokens - 1.0, now)]
  }

  function Pruned(config: Config, t: Table, now: Time): Table {
    if |t| < TOKEN_BUCKET_PRUNE_AT then t
    else map key | key in t && !(now - t[key].at > config.idleMs) :: t[key]
  }

  /** Only a granted take prunes. */
  function Take(config: Config, t: Table, key: Key, now: Time): Table {
    if Granted(config, t, key, now) then Pruned(config, Taken(config, t, key, now), now) else Taken(config, t, key, now)
  }

  // ----- Runs -----

  datatype Call = Call(key: Key, now: Time)

  function After(config: Config, calls: seq<Call>): Table {
    if calls == [] then map[]
    else
      var last := calls[|calls| - 1];
      Take(config, After(config, calls[..|calls| - 1]), last.key, last.now)
  }

  /** The same calls on buckets nobody ever prunes. */
  function Unpruned(config: Config, calls: seq<Call>): Table {
    if calls == [] then map[]
    else
      var last := calls[|calls| - 1];
      Taken(config, Unpruned(config, calls[..|calls| - 1]), last.key, last.now)
  }

  ghost predicate InClockOrder(calls: seq<Call>) {
    forall i, j :: 0 <= i < j < |calls| ==> calls[i].now <= calls[j].now
  }

  /** How often the key was granted from call `from` on. */
  function Grants(config: Config, calls: seq<Call>, key: Key, from: nat): nat {
    if |calls| <= from then 0
    else
      var before, last := calls[..|calls| - 1], calls[|calls| - 1];
      Grants(config, before, key, from)
        + if last.key == key && Granted(config, After(config, before), key, last.now) then 1 else 0
  }

  // ----- Pruning is unobservable -----

  ghost predicate Sound(config: Config, t: Table, now: Time) {
    forall key :: key in t ==> 0.0 <= t[key].tokens <= config.rate && t[key].at <= now
  }

  /** A bucket that was dropped had been idle for longer than it takes to fill up. */
  ghost predicate SameButIdle(config: Config, pruned: Table, whole: Table, now: Time) {
    && (forall key :: key in pruned ==> key in whole && pruned[key] == whole[key])
    && (forall key :: key in whole && key !in pruned ==> now - whole[key].at > config.idleMs)
  }

  lemma IdleIsFull(config: Config, b: Bucket, now: Time)
    requires config.rate >= 0.0 && 0.0 <= b.tokens <= config.rate && now - b.at >= 1000
    ensures Refilled(config, b, now) == config.rate
  {
    var seconds := (now - b.at) as real / 1000.0;
    assert seconds >= 1.0;
    assert seconds * config.rate >= config.rate;
  }

  lemma RefillIsSound(config: Config, b: Bucket, now: Time)
    requires config.rate >= 0.0 && 0.0 <= b.tokens <= config.rate && b.at <= now
    ensures 0.0 <= Refilled(config, b, now) <= config.rate
  {
    var seconds := (now - b.at) as real / 1000.0;
    assert seconds * config.rate >= 0.0;
  }

  lemma HeldIsTheSame(config: Config, pruned: Table, whole: Table, key: Key, before: Time, now: Time)
    requires config.rate >= 0.0 && config.idleMs >= 999 && before <= now
    requires Sound(config, whole, before) && SameButIdle(config, pruned, whole, before)
    ensures Held(config, pruned, key, now) == Held(config, whole, key, now)
    ensures 0.0 <= Held(config, whole, key, now) <= config.rate
  {
    if key in whole {
      RefillIsSound(config, whole[key], now);
      if key !in pruned {
        IdleIsFull(config, whole[key], now);
        assert (now - now) as real / 1000.0 * config.rate == 0.0;
      }
    } else {
      assert (now - now) as real / 1000.0 * config.rate == 0.0;
    }
  }

  lemma TakeKeepsSame(config: Config, pruned: Table, whole: Table, key: Key, before: Time, now: Time)
    requires config.rate >= 0.0 && config.idleMs >= 999 && before <= now
    requires Sound(config, whole, before) && SameButIdle(config, pruned, whole, before)
    ensures Granted(config, pruned, key, now) == Granted(config, whole, key, now)
    ensures Sound(config, Taken(config, whole, key, now), now)
    ensures SameButIdle(config, Take(config, pruned, key, now), Taken(config, whole, key, now), now)
  {
    HeldIsTheSame(config, pruned, whole, key, before, now);
    hide Held;
  }

  lemma {:induction false} RunsStaySame(config: Config, calls: seq<Call>, start: Time)
    requires config.rate >= 0.0 && config.idleMs >= 999 && InClockOrder(calls)
    requires calls != [] ==> start == calls[|calls| - 1].now
    ensures Sound(config, Unpruned(config, calls), start) &&
            SameButIdle(config, After(config, calls), Unpruned(config, calls), start)
  {
    if calls != [] {
      var before, last := calls[..|calls| - 1], calls[|calls| - 1];
      var earlier := if before == [] then last.now else before[|before| - 1].now;
      RunsStaySame(config, before, earlier);
      TakeKeepsSame(config, After(config, before), Unpruned(config, before), last.key, earlier, last.now);
      hide Take, Taken, SameButIdle, Sound;
    }
  }

  /** Dropping idle keys changes no answer, at any time, of any key. */
  lemma PruningIsUnobservable(config: Config, calls: seq<Call>, key: Key, now: Time)
    requires config.rate >= 0.0 && config.idleMs >= 999 && InClockOrder(calls)
    requires calls != [] ==> calls[|calls| - 1].now <= now
    ensures Granted(config, After(config, calls), key, now) == Granted(config, Unpruned(config, calls), key, now)
  {
    var last := if calls == [] then now else calls[|calls| - 1].now;
    RunsStaySame(config, calls, last);
    TakeKeepsSame(config, After(config, calls), Unpruned(config, calls), key, last, now);
  }

  // ----- The rate holds over every interval -----

  /** What flows into a bucket that has room. */
  function Inflow(config: Config, since: Time, now: Time): real {
    (now - since) as real / 1000.0 * config.rate
  }

  lemma InflowAdds(config: Config, since: Time, mid: Time, now: Time)
    ensures Inflow(config, since, now) == Inflow(config, since, mid) + Inflow(config, mid, now)
    ensures Inflow(config, since, since) == 0.0
    ensures config.rate >= 0.0 && since <= now ==> Inflow(config, since, now) >= 0.0
  {
    assert (now - since) as real == (now - mid) as real + (mid - since) as real;
  }

  /** Right after a take the taker has one token less, if it was granted, and nobody else is touched. */
  lemma HeldAfterTake(config: Config, t: Table, key: Key, taker: Key, now: Time)
    requires 0.0 <= Held(config, t, taker, now) <= config.rate
    ensures Held(config, Taken(config, t, taker, now), key, now) ==
            Held(config, t, key, now) - if key == taker && Granted(config, t, key, now) then 1.0 else 0.0
  {
    assert (now - now) as real / 1000.0 * config.rate == 0.0;
  }

  lemma HeldLater(config: Config, t: Table, key: Key, before: Time, now: Time)
    requires config.rate >= 0.0 && before <= now && Sound(config, t, before)
    ensures Held(config, t, key, now) <= Held(config, t, key, before) + Inflow(config, before, now)
  {
    if key in t {
      InflowAdds(config, t[key].at, before, now);
      InflowAdds(config, before, before, now);
    } else {
      InflowAdds(config, before, before, now);
      InflowAdds(config, now, now, now);
    }
  }

  /** Grants since call `from` and tokens left never exceed a full bucket and what flowed in. */
  ghost predicate Covered(config: Config, calls: seq<Call>, key: Key, from: nat)
    requires from < |calls|
  {
    var last := calls[|calls| - 1].now;
    var left := Held(config, Unpruned(config, calls), key, last);
    left >= 0.0 && Grants(config, calls, key, from) as real + left <=
      config.rate + Inflow(config, calls[from].now, last)
  }

  /** One call more: what it is granted, it has less. */
  lemma OneCallMore(config: Config, calls: seq<Call>, key: Key, from: nat, earlier: Time)
    requires config.rate >= 0.0 && config.idleMs >= 999 && InClockOrder(calls) && from < |calls|
    requires var before := calls[..|calls| - 1];
             if before == [] then earlier == calls[|calls| - 1].now else earlier == before[|before| - 1].now
    ensures var before, last := calls[..|calls| - 1], calls[|calls| - 1];
            var held := Held(config, Unpruned(config, before), key, last.now);
            && Sound(config, Unpruned(config, before), earlier)
            && 0.0 <= Held(config, Unpruned(config, calls), key, last.now)
            && held <= config.rate
            && Grants(config, calls, key, from) as real + Held(config, Unpruned(config, calls), key, last.now)
                 == Grants(config, before, key, from) as real + held
  {
    hide Held;
    var before, last := calls[..|calls| - 1], calls[|calls| - 1];
    var t := Unpruned(config, before);
    RunsStaySame(config, before, earlier);
    TakeKeepsSame(config, After(config, before), t, last.key, earlier, last.now);
    HeldIsTheSame(config, After(config, before), t, key, earlier, last.now);
    HeldIsTheSame(config, After(config, before), t, last.key, earlier, last.now);
    HeldAfterTake(config, t, key, last.key, last.now);
    hide Take, Taken, Sound, SameButIdle;
  }

  lemma {:induction false} GrantsAreCovered(config: Config, calls: seq<Call>, key: Key, from: nat)
    requires config.rate >= 0.0 && config.idleMs >= 999 && InClockOrder(calls) && from < |calls|
    ensures Covered(config, calls, key, from)
  {
    hide Held, Inflow, Unpruned;
    var before, last := calls[..|calls| - 1], calls[|calls| - 1];
    var earlier := if before == [] then last.now else before[|before| - 1].now;
    OneCallMore(config, calls, key, from, earlier);
    InflowAdds(config, calls[from].now, earlier, last.now);
    if |before| > from {
      GrantsAreCovered(config, before, key, from);
      HeldLater(config, Unpruned(config, before), key, earlier, last.now);
    } else {
      assert Grants(config, before, key, from) == 0;
      InflowAdds(config, last.now, last.now, last.now);
    }
  }

  /** Over any stretch of T ms a key is granted at most rate + rate * T / 1000 takes. */
  lemma RateHoldsOverEveryInterval(config: Config, calls: seq<Call>, key: Key, from: nat)
    requires config.rate >= 0.0 && config.idleMs >= 999 && InClockOrder(calls) && from < |calls|
    ensures Grants(config, calls, key, from) as real <=
            config.rate + Inflow(config, calls[from].now, calls[|calls| - 1].now)
  {
    hide Held, Grants, Inflow, Unpruned;
    GrantsAreCovered(config, calls, key, from);
  }

  // ----- And nobody is refused within it -----

  lemma HeldLaterExactly(config: Config, t: Table, key: Key, before: Time, now: Time)
    requires config.rate >= 0.0 && before <= now && Sound(config, t, before)
    ensures Held(config, t, key, now) == Min(config.rate, Held(config, t, key, before) + Inflow(config, before, now))
  {
    InflowAdds(config, before, before, now);
    InflowAdds(config, now, now, now);
    if key in t {
      InflowAdds(config, t[key].at, before, now);
    }
  }

  /** A bucket that is not full has drained since the call it was last full at. */
  lemma {:induction false} FullSince(config: Config, calls: seq<Call>, key: Key, now: Time) returns (k: nat)
    requires config.rate >= 0.0 && config.idleMs >= 999 && InClockOrder(calls)
    requires calls != [] ==> calls[|calls| - 1].now <= now
    ensures k <= |calls|
    ensures var held := Held(config, Unpruned(config, calls), key, now);
            if k == |calls| then held == config.rate
            else
              calls[k].key == key &&
              held == config.rate + Inflow(config, calls[k].now, now) - Grants(config, calls, key, k) as real
  {
    if calls == [] {
      k := 0;
      InflowAdds(config, now, now, now);
    } else {
      var n, last := |calls| - 1, calls[|calls| - 1];
      var before := calls[..n];
      k := FullSince(config, before, key, last.now);
      var earlier := if before == [] then last.now else before[n - 1].now;
      OneCallMore(config, calls, key, k, earlier);
      RunsStaySame(config, calls, last.now);
      HeldLaterExactly(config, Unpruned(config, calls), key, last.now, now);
      InflowAdds(config, calls[k].now, last.now, now);
      InflowAdds(config, last.now, last.now, now);
      hide Held, Unpruned, Inflow, Sound, SameButIdle;
      if k == n {
        assert Grants(config, before, key, k) == 0;
      }
      if Held(config, Unpruned(config, calls), key, now) == config.rate {
        k := |calls|;
      }
    }
  }

  /** A take is granted exactly when one token fits at all and one grant more is within the rate over every
      stretch that begins with a take of that key. */
  lemma GrantedExactly(config: Config, calls: seq<Call>, key: Key, now: Time)
    requires config.rate >= 0.0 && config.idleMs >= 999 && InClockOrder(calls)
    requires calls != [] ==> calls[|calls| - 1].now <= now
    ensures Granted(config, After(config, calls), key, now) <==>
              (config.rate >= 1.0 && forall k :: 0 <= k < |calls| && calls[k].key == key ==>
                 Grants(config, calls, key, k) as real + 1.0 <= config.rate + Inflow(config, calls[k].now, now))
  {
    PruningIsUnobservable(config, calls, key, now);
    var last := if calls == [] then now else calls[|calls| - 1].now;
    var whole := Unpruned(config, calls);
    RunsStaySame(config, calls, last);
    HeldIsTheSame(config, After(config, calls), whole, key, last, now);
    var full := FullSince(config, calls, key, now);
    forall k | 0 <= k < |calls|
      ensures Grants(config, calls, key, k) as real + Held(config, whole, key, now) <=
                config.rate + Inflow(config, calls[k].now, now)
    {
      GrantsAreCovered(config, calls, key, k);
      HeldLater(config, whole, key, last, now);
      InflowAdds(config, calls[k].now, last, now);
    }
    hide Held, Unpruned, Inflow, After, Sound, SameButIdle;
  }

  // ----- An idle time too short -----

  lemma OneMore(config: Config, calls: seq<Call>, c: Call, key: Key)
    ensures After(config, calls + [c]) == Take(config, After(config, calls), c.key, c.now)
    ensures Grants(config, calls + [c], key, 0) ==
            Grants(config, calls, key, 0) + if c.key == key &&
              Granted(config, After(config, calls), key, c.now) then 1 else 0
  {
    assert (calls + [c])[..|calls|] == calls;
  }

  function Takes(now: Time, n: nat): seq<Call> {
    seq(n, i => Call(0, now))
  }

  function Others(n: nat): seq<Call> {
    seq(n, i requires 0 <= i < n => Call(i + 1, 0))
  }

  /** One key is drained, a thousand keys come, one more comes when the first are just idle, and the drained
      key is drained again. */
  function ShortIdleRun(rate: nat, idleMs: nat): seq<Call> {
    Takes(0, rate) + Others(TOKEN_BUCKET_PRUNE_AT - 1) + [Call(TOKEN_BUCKET_PRUNE_AT, idleMs + 1)] +
      Takes(idleMs + 1, rate)
  }

  function Drained(config: Config, t: Table, now: Time, n: nat): Table {
    if n == 0 then t else t[0 := Bucket(config.rate - n as real, now)]
  }

  lemma DrainsOne(config: Config, t: Table, now: Time, n: nat)
    requires (n + 1) as real <= config.rate && |t| <= 1 && 0 !in t
    ensures Granted(config, Drained(config, t, now, n), 0, now)
    ensures Take(config, Drained(config, t, now, n), 0, now) == Drained(config, t, now, n + 1)
  {
    HeldNow(config, Drained(config, t, now, n), now);
    assert Held(config, Drained(config, t, now, n), 0, now) == config.rate - n as real;
    assert |t[0 := Bucket(config.rate - (n + 1) as real, now)]| <= 2;
    hide Held;
  }

  lemma NothingDrained(config: Config, t: Table, now: Time)
    ensures Drained(config, t, now, 0) == t
  {}

  /** `n` takes of a full key, in a table too small to prune. */
  lemma {:induction false} Drains(config: Config, calls: seq<Call>, now: Time, n: nat)
    requires n as real <= config.rate && |After(config, calls)| <= 1 && 0 !in After(config, calls)
    ensures After(config, calls + Takes(now, n)) == Drained(config, After(config, calls), now, n)
    ensures Grants(config, calls + Takes(now, n), 0, 0) == Grants(config, calls, 0, 0) + n
  {
    hide After, Grants, Granted, Take, Drained;
    if n == 0 {
      assert calls + Takes(now, 0) == calls;
      NothingDrained(config, After(config, calls), now);
    } else {
      Drains(config, calls, now, n - 1);
      OneMore(config, calls + Takes(now, n - 1), Call(0, now), 0);
      assert calls + Takes(now, n) == calls + Takes(now, n - 1) + [Call(0, now)];
      DrainsOne(config, After(config, calls), now, n - 1);
    }
  }

  lemma HeldNow(config: Config, t: Table, now: Time)
    ensures 0 in t && t[0].at == now && t[0].tokens <= config.rate ==> Held(config, t, 0, now) == t[0].tokens
    ensures forall key :: key !in t ==> Held(config, t, key, now) == config.rate
  {
    assert (now - now) as real / 1000.0 * config.rate == 0.0;
  }

  ghost predicate Crowd(t: Table, n: nat) {
    (forall key :: key in t <==> 0 <= key <= n) && |t| == n + 1 && forall key :: key in t ==> t[key].at == 0
  }

  lemma OneMoreComes(config: Config, t: Table, n: nat)
    requires config.idleMs >= 0 && n > 0 && Crowd(t, n - 1)
    ensures Crowd(Take(config, t, n, 0), n)
  {
    NothingIdle(config, t, n);
    hide Take;
    assert Take(config, t, n, 0).Keys == t.Keys + {n};
  }

  /** The others come at the same moment, so nothing is idle yet. */
  lemma {:induction false} OthersCome(config: Config, calls: seq<Call>, n: nat)
    requires config.idleMs >= 0 && Crowd(After(config, calls), 0)
    ensures Crowd(After(config, calls + Others(n)), n)
    ensures Grants(config, calls + Others(n), 0, 0) == Grants(config, calls, 0, 0)
  {
    hide After, Grants, Granted, Take, Crowd;
    if n == 0 {
      assert calls + Others(0) == calls;
    } else {
      OthersCome(config, calls, n - 1);
      OneMore(config, calls + Others(n - 1), Call(n, 0), 0);
      assert calls + Others(n) == calls + Others(n - 1) + [Call(n, 0)];
      OneMoreComes(config, After(config, calls + Others(n - 1)), n);
    }
  }

  lemma NothingIdle(config: Config, t: Table, key: Key)
    requires config.idleMs >= 0 && key !in t && forall k :: k in t ==> t[k].at == 0
    ensures Take(config, t, key, 0).Keys == t.Keys + {key} && |Take(config, t, key, 0)| == |t| + 1
    ensures forall k :: k in Take(config, t, key, 0) ==> Take(config, t, key, 0)[k].at == 0
  {
    var t' := Taken(config, t, key, 0);
    assert t'.Keys == t.Keys + {key};
    assert |t'| == |t'.Keys| && |t| == |t.Keys|;
    assert Pruned(config, t', 0) == t';
  }

  lemma AllIdle(config: Config, t: Table, key: Key)
    requires config.rate >= 1.0 && config.idleMs >= 0 && key !in t && |t| >= TOKEN_BUCKET_PRUNE_AT
    requires forall k :: k in t ==> t[k].at == 0
    ensures Take(config, t, key, config.idleMs + 1) == map[key := Bucket(config.rate - 1.0, config.idleMs + 1)]
  {
    var now := config.idleMs + 1;
    HeldNow(config, t, now);
    var t' := Taken(config, t, key, now);
    assert t'.Keys == t.Keys + {key};
    assert |t'| == |t'.Keys| && |t| == |t.Keys|;
    assert Granted(config, t, key, now);
    assert Pruned(config, t', now).Keys == {key};
  }

  lemma ShortIdleInOrder(rate: nat, idleMs: nat)
    ensures InClockOrder(ShortIdleRun(rate, idleMs))
  {
    var calls, k := ShortIdleRun(rate, idleMs), rate + TOKEN_BUCKET_PRUNE_AT - 1;
    assert forall i :: 0 <= i < |calls| ==> calls[i].now == if i < k then 0 else idleMs + 1;
  }

  lemma DrainedTwice(config: Config, rate: nat, n: nat)
    requires rate >= 1 && config.rate == rate as real && config.idleMs >= 0 && n == TOKEN_BUCKET_PRUNE_AT - 1
    ensures var now := config.idleMs + 1;
            Grants(config, Takes(0, rate) + Others(n) + [Call(n + 1, now)] + Takes(now, rate), 0, 0) == 2 * rate
  {
    NothingYet(config);
    hide After, Grants, Granted, Take;
    var now := config.idleMs + 1;
    var last, crowded := Call(n + 1, now), Takes(0, rate) + Others(n);
    assert [] + Takes(0, rate) == Takes(0, rate);
    Drains(config, [], 0, rate);
    assert Crowd(After(config, Takes(0, rate)), 0);
    OthersCome(config, Takes(0, rate), n);
    OneMore(config, crowded, last, 0);
    AllIdle(config, After(config, crowded), n + 1);
    Drains(config, crowded + [last], now, rate);
  }

  /** With any shorter idle time the bound fails: a drained key is dropped, and comes back full. */
  lemma RateNeedsTheIdleTime(rate: nat, idleMs: nat)
    requires rate >= 1 && idleMs < 999
    ensures var config, calls := Config(rate as real, idleMs), ShortIdleRun(rate, idleMs);
            && InClockOrder(calls) && calls != []
            && Grants(config, calls, 0, 0) as real > config.rate + Inflow(config, calls[0].now, calls[|calls| - 1].now)
  {
    hide After, Grants, InClockOrder;
    var config, now := Config(rate as real, idleMs), idleMs + 1;
    DrainedTwice(config, rate, TOKEN_BUCKET_PRUNE_AT - 1);
    ShortIdleInOrder(rate, idleMs);
    var calls := ShortIdleRun(rate, idleMs);
    assert calls[0] == Call(0, 0) && calls[|calls| - 1] == Call(0, now);
    assert Grants(config, calls, 0, 0) == 2 * rate;
    ShortInflow(config, now);
    hide Inflow, ShortIdleRun;
    assert (2 * rate) as real == config.rate + config.rate;
  }

  lemma ShortInflow(config: Config, now: Time)
    requires config.rate > 0.0 && 0 <= now < 1000
    ensures Inflow(config, 0, now) < config.rate
  {
    var seconds := (now - 0) as real / 1000.0;
    assert seconds < 1.0;
    assert (1.0 - seconds) * config.rate == config.rate - seconds * config.rate;
    PositiveProduct(1.0 - seconds, config.rate);
  }

  lemma PositiveProduct(a: real, b: real)
    requires a > 0.0 && b > 0.0
    ensures a * b > 0.0
  {}

  lemma NothingYet(config: Config)
    ensures After(config, []) == map[] && Grants(config, [], 0, 0) == 0
  {}

  class TokenBuckets {
    const config: Config
    var buckets: Table

    constructor (config: Config)
      ensures this.config == config && buckets == map[]
    {
      this.config, buckets := config, map[];
    }

    method TakeToken(key: Key, now: Time) returns (granted: bool)
      modifies `buckets
      ensures granted == Granted(config, old(buckets), key, now)
      ensures buckets == Take(config, old(buckets), key, now)
    {
      var bucket := if key in buckets then buckets[key] else Bucket(config.rate, now);
      var tokens := Refilled(config, bucket, now);
      if tokens < 1.0 {
        buckets := buckets[key := Bucket(tokens, now)];
        return false;
      }
      buckets := buckets[key := Bucket(tokens - 1.0, now)];
      Prune(now);
      return true;
    }

    method Prune(now: Time)
      modifies `buckets
      ensures buckets == Pruned(config, old(buckets), now)
      ensures forall key :: key in buckets <==>
                (key in old(buckets) && (|old(buckets)| < 1000 || now - old(buckets)[key].at <= config.idleMs))
      ensures forall key :: key in buckets ==> buckets[key] == old(buckets)[key]
    {
      if |buckets| < TOKEN_BUCKET_PRUNE_AT {
        return;
      }
      var unseen := buckets.Keys;
      ghost var before := buckets;
      while unseen != {}
        invariant unseen <= before.Keys
        invariant forall key :: key in buckets <==>
                  key in before && (key in unseen || !(now - before[key].at > config.idleMs))
        invariant forall key :: key in buckets ==> buckets[key] == before[key]
        decreases |unseen|
      {
        var key :| key in unseen;
        unseen := unseen - {key};
        if now - buckets[key].at > config.idleMs {
          buckets := buckets - {key};
        }
      }
    }
  }
}
