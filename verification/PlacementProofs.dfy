/** What choosing and promising room keep. */
module PlacementProofs {
  import opened Options
  import opened PlacementSpec

  // ----- Reservations -----

  ghost predicate NonNegative(ledger: Ledger) {
    forall i :: 0 <= i < |ledger| ==> ledger[i].mb >= 0.0
  }

  /** What a reservation adds to a host right now. */
  function Share(r: Reservation, host: HostId, usage: Usage, now: Time): real {
    if Live(r, usage, now) && r.host == host then r.mb else 0.0
  }

  lemma PendingAppend(ledger: Ledger, r: Reservation, host: HostId, usage: Usage, now: Time)
    ensures PendingMb(ledger + [r], host, usage, now) ==
              PendingMb(ledger, host, usage, now) + Share(r, host, usage, now)
  {
    assert (ledger + [r])[..|ledger|] == ledger;
  }

  /** Pruning drops nothing that counted. */
  lemma {:induction false} PrunedCountsTheSame(ledger: Ledger, host: HostId, usage: Usage, now: Time)
    requires NonNegative(ledger)
    ensures PendingMb(Pruned(ledger, usage, now), host, usage, now) == PendingMb(ledger, host, usage, now)
    ensures NonNegative(Pruned(ledger, usage, now))
  {
    if ledger != [] {
      var before, last := ledger[..|ledger| - 1], ledger[|ledger| - 1];
      PrunedCountsTheSame(before, host, usage, now);
      PendingAppend(Pruned(before, usage, now), last, host, usage, now);
      assert Pruned(before, usage, now) + [] == Pruned(before, usage, now);
    }
  }

  /** As time passes reservations only run out. */
  lemma {:induction false} PendingShrinks(ledger: Ledger, host: HostId, usage: Usage, now: Time, later: Time)
    requires NonNegative(ledger) && now <= later
    ensures 0.0 <= PendingMb(ledger, host, usage, later) <= PendingMb(ledger, host, usage, now)
  {
    if ledger != [] {
      PendingShrinks(ledger[..|ledger| - 1], host, usage, now, later);
    }
  }

  /** A reservation adds itself to its own host and nothing to the others. */
  lemma {:induction false} ReserveAdds(ledger: Ledger, r: Reservation, host: HostId, usage: Usage, now: Time)
    requires NonNegative(ledger) && r.mb >= 0.0
    ensures NonNegative(Reserve(ledger, r))
    ensures PendingMb(Reserve(ledger, r), host, usage, now) <=
            PendingMb(ledger, host, usage, now) + Share(r, host, usage, now)
    ensures !Reserved(ledger, r.bot) ==>
              PendingMb(Reserve(ledger, r), host, usage, now) ==
                  PendingMb(ledger, host, usage, now) + Share(r, host, usage, now)
  {
    PendingAppend(ledger, r, host, usage, now);
    if ledger != [] {
      var before, last := ledger[..|ledger| - 1], ledger[|ledger| - 1];
      assert ledger == before + [last];
      PendingAppend(before, r, host, usage, now);
      if last.bot != r.bot && Reserved(ledger, r.bot) {
        ReserveAdds(before, r, host, usage, now);
        PendingAppend(Reserve(before, r), last, host, usage, now);
      } else {
        assert last.bot == r.bot ==> Reserved(ledger, r.bot) by {
          assert ledger[|ledger| - 1].bot == last.bot;
        }
      }
    }
  }

  lemma {:induction false} ReserveKeepsOne(ledger: Ledger, r: Reservation)
    ensures Reserved(Reserve(ledger, r), r.bot)
    ensures forall bot :: bot != r.bot ==> (Reserved(Reserve(ledger, r), bot) <==> Reserved(ledger, bot))
  {
    if ledger == [] {
      assert Reserve(ledger, r)[0] == r;
    } else {
      var before, last := ledger[..|ledger| - 1], ledger[|ledger| - 1];
      assert ledger == before + [last];
      ReserveKeepsOne(before, r);
      ReservedAppend(before, last);
      ReservedAppend(before, r);
      ReservedAppend(ledger, r);
      ReservedAppend(Reserve(before, r), last);
    }
  }

  lemma ReservedAppend(ledger: Ledger, r: Reservation)
    ensures forall bot :: Reserved(ledger + [r], bot) <==> Reserved(ledger, bot) || bot == r.bot
  {
    forall bot
      ensures Reserved(ledger + [r], bot) <==> Reserved(ledger, bot) || bot == r.bot
    {
      assert (ledger + [r])[|ledger|] == r;
      if Reserved(ledger, bot) {
        var i :| 0 <= i < |ledger| && ledger[i].bot == bot;
        assert (ledger + [r])[i].bot == bot;
      }
    }
  }

  /** A release takes exactly the bot's reservation away. */
  lemma {:induction false} ReleaseFrees(ledger: Ledger, bot: BotId)
    ensures !Reserved(Release(ledger, bot), bot)
    ensures forall other :: other != bot ==> (Reserved(Release(ledger, bot), other) <==> Reserved(ledger, other))
  {
    if ledger != [] {
      var before, last := ledger[..|ledger| - 1], ledger[|ledger| - 1];
      assert ledger == before + [last];
      ReleaseFrees(before, bot);
      ReservedAppend(before, last);
      ReservedAppend(Release(before, bot), last);
      assert Release(before, bot) + [] == Release(before, bot);
      hide Reserved;
    }
  }

  lemma {:induction false} ReleaseMakesRoom(ledger: Ledger, bot: BotId, host: HostId, usage: Usage, now: Time)
    requires NonNegative(ledger)
    ensures NonNegative(Release(ledger, bot)) &&
            PendingMb(Release(ledger, bot), host, usage, now) <= PendingMb(ledger, host, usage, now)
  {
    if ledger != [] {
      var before, last := ledger[..|ledger| - 1], ledger[|ledger| - 1];
      ReleaseMakesRoom(before, bot, host, usage, now);
      PendingAppend(Release(before, bot), last, host, usage, now);
      assert Release(before, bot) + [] == Release(before, bot);
    }
  }

  /** Pruning twice is pruning once, and both leave every sum as it was. */
  lemma {:induction false} PrunedTwice(ledger: Ledger, host: HostId, usage: Usage, now: Time)
    requires NonNegative(ledger)
    ensures Pruned(Pruned(ledger, usage, now), usage, now) == Pruned(ledger, usage, now)
    ensures PendingMb(Pruned(ledger, usage, now), host, usage, now) == PendingMb(ledger, host, usage, now)
  {
    PrunedCountsTheSame(ledger, host, usage, now);
    if ledger != [] {
      var before, last := ledger[..|ledger| - 1], ledger[|ledger| - 1];
      PrunedTwice(before, host, usage, now);
      var kept := Pruned(before, usage, now);
      assert (kept + [last])[..|kept|] == kept;
      assert kept + [] == kept;
    }
  }

  lemma SomeOpenAppend(hosts: seq<Host>, host: Host)
    ensures SomeOpen(hosts + [host]) <==> SomeOpen(hosts) || Open(host)
  {
    assert (hosts + [host])[|hosts|] == host;
    if SomeOpen(hosts) {
      var i :| 0 <= i < |hosts| && Open(hosts[i]);
      assert Open((hosts + [host])[i]);
    }
  }

  // ----- What a reservation holds, and how long -----

  /** A reservation takes its room from its own host for half an hour, or until a sweep has measured its bot;
      before and after that, and everywhere else, it takes none. */
  lemma ReservationHoldsRoom(ledger: Ledger, r: Reservation, host: HostId, usage: Usage, now: Time)
    ensures PendingMb(ledger + [r], host, usage, now) - PendingMb(ledger, host, usage, now) ==
              if r.host == host && now - r.at <= 30 * 60_000 && r.bot !in usage.measured then r.mb else 0.0
  {
    PendingAppend(ledger, r, host, usage, now);
  }

  lemma {:induction false} PrunedReservesNoMore(ledger: Ledger, usage: Usage, now: Time)
    ensures forall r :: r in Pruned(ledger, usage, now) <==>
              r in ledger && now - r.at <= 30 * 60_000 && r.bot !in usage.measured
  {
    if ledger != [] {
      PrunedReservesNoMore(ledger[..|ledger| - 1], usage, now);
      assert ledger == ledger[..|ledger| - 1] + [ledger[|ledger| - 1]];
    }
  }

  lemma KeptReservesNoMore(hosts: seq<Host>, ledger: Ledger, bot: BotId, usage: Usage, now: Time)
    requires !Reserved(ledger, bot)
    ensures !Reserved(AfterVerdicts(hosts, ledger, usage, now), bot)
  {
    PrunedReservesNoMore(ledger, usage, now);
    var kept := AfterVerdicts(hosts, ledger, usage, now);
    forall i | 0 <= i < |kept|
      ensures kept[i].bot != bot
    {
      assert kept[i] in ledger;
    }
  }

  lemma {:induction false} ReservedIsLast(ledger: Ledger, r: Reservation)
    requires !Reserved(ledger, r.bot)
    ensures Reserve(ledger, r) == ledger + [r]
  {
    if ledger != [] {
      assert ledger[|ledger| - 1].bot != r.bot;
    }
  }

  lemma {:induction false} ReserveHas(ledger: Ledger, r: Reservation)
    ensures r in Reserve(ledger, r)
  {
    if ledger != [] && Reserved(ledger, r.bot) && ledger[|ledger| - 1].bot != r.bot {
      ReserveHas(ledger[..|ledger| - 1], r);
    }
  }

  lemma {:induction false} ReleaseKeepsTheOthers(ledger: Ledger, bot: BotId)
    ensures forall r :: r in Release(ledger, bot) <==> r in ledger && r.bot != bot
  {
    if ledger != [] {
      ReleaseKeepsTheOthers(ledger[..|ledger| - 1], bot);
      assert ledger == ledger[..|ledger| - 1] + [ledger[|ledger| - 1]];
    }
  }

  /** Nobody is turned away while an open host has the room. */
  lemma TurnedAwayMeansFull(config: Config, hosts: seq<Host>, memoryMb: real, ledger: Ledger, usage: Usage, now: Time,
      i: nat)
    requires config.overcommit > 0.0 && i < |hosts|
    requires Best(Verdicts(config, hosts, memoryMb, ledger, usage, now)).None?
    requires hosts[i].active && hosts[i].reachable && hosts[i].capacityMb.Some?
    ensures 0.9 * (hosts[i].capacityMb.value - config.reserveMb) <
              UsedMb(usage, hosts[i].id) + PendingMb(ledger, hosts[i].id, usage, now) + memoryMb / config.overcommit
  {
    var verdicts := Verdicts(config, hosts, memoryMb, ledger, usage, now);
    BestIsBest(verdicts);
    assert !Fits(verdicts[i]);
    hide Best, PendingMb;
  }

  /** What an open host would have left after the bot, in whole megabytes. */
  ghost function Left(config: Config, host: Host, memoryMb: real, ledger: Ledger, usage: Usage, now: Time): int
    requires config.overcommit > 0.0 && host.capacityMb.Some?
  {
    (0.9 * (host.capacityMb.value - config.reserveMb) - UsedMb(usage, host.id) -
      PendingMb(ledger, host.id, usage, now) - memoryMb / config.overcommit).Floor
  }

  /** Of the open hosts the one with the most left is chosen, the first of equals. */
  ghost predicate LeavesMost(config: Config, hosts: seq<Host>, memoryMb: real, ledger: Ledger, usage: Usage, now: Time,
      i: int)
    requires config.overcommit > 0.0
  {
    && 0 <= i < |hosts| && hosts[i].active && hosts[i].reachable && hosts[i].capacityMb.Some?
    && (forall j :: (0 <= j < |hosts| && hosts[j].active && hosts[j].reachable && hosts[j].capacityMb.Some?) ==>
          && Left(config, hosts[j], memoryMb, ledger, usage, now) <=
               Left(config, hosts[i], memoryMb, ledger, usage, now)
          && (j < i ==>
                Left(config, hosts[j], memoryMb, ledger, usage, now) <
                  Left(config, hosts[i], memoryMb, ledger, usage, now)))
  }

  lemma BestLeavesMost(config: Config, hosts: seq<Host>, memoryMb: real, ledger: Ledger, usage: Usage, now: Time,
      i: int)
    requires config.overcommit > 0.0 && IsBest(Verdicts(config, hosts, memoryMb, ledger, usage, now), i)
    ensures LeavesMost(config, hosts, memoryMb, ledger, usage, now, i)
  {
    var verdicts := Verdicts(config, hosts, memoryMb, ledger, usage, now);
    hide PendingMb;
    forall j | 0 <= j < |hosts|
      ensures verdicts[j].headroomMb.Some? <==> hosts[j].active && hosts[j].reachable && hosts[j].capacityMb.Some?
      ensures verdicts[j].headroomMb.Some? ==>
                verdicts[j].headroomMb.value == Left(config, hosts[j], memoryMb, ledger, usage, now)
    {
      assert verdicts[j] == VerdictOn(config, hosts[j], memoryMb, ledger, usage, now);
    }
    hide Verdicts, Left;
  }

  /** What a choice promised is counted by whoever looks within half an hour and before a sweep measured the bot:
      on the host chosen there is that much less, and elsewhere nothing has changed. */
  lemma ChosenRoomIsHeld(config: Config, hosts: seq<Host>, memoryMb: real, bot: BotId, ledger: Ledger, usage: Usage,
      now: Time, host: HostId, usage': Usage, later: Time)
    requires config.overcommit > 0.0 && memoryMb >= 0.0 && NonNegative(ledger) && !Reserved(ledger, bot)
    requires Choose(config, hosts, memoryMb, bot, ledger, usage, now).0.Some?
    ensures var (chosen, ledger') := Choose(config, hosts, memoryMb, bot, ledger, usage, now);
            && Reservation(bot, chosen.value, memoryMb / config.overcommit, now) in ledger'
            && PendingMb(ledger', host, usage', later) ==
                 PendingMb(AfterVerdicts(hosts, ledger, usage, now), host, usage', later) +
                   if host == chosen.value && later - now <= 30 * 60_000 && bot !in usage'.measured
                   then memoryMb / config.overcommit else 0.0
  {
    var (chosen, ledger') := Choose(config, hosts, memoryMb, bot, ledger, usage, now);
    var kept, r := AfterVerdicts(hosts, ledger, usage, now),
      Reservation(bot, chosen.value, Counted(config, memoryMb), now);
    KeptReservesNoMore(hosts, ledger, bot, usage, now);
    ReservedIsLast(kept, r);
    ReservationHoldsRoom(kept, r, host, usage', later);
    hide Choose, AfterVerdicts, PendingMb;
  }

  /** Two choices in a row never promise the same room: what both asked for fits beside what the sweep measured. */
  lemma TwoChoicesShareTheRoom(config: Config, hosts: seq<Host>, first: real, second: real, a: BotId, b: BotId,
      usage: Usage, now: Time, later: Time) returns (i: int)
    requires config.overcommit > 0.0 && first >= 0.0 && second >= 0.0 && a != b
    requires now <= later <= now + 30 * 60_000 && a !in usage.measured && b !in usage.measured
    requires var (one, ledger) := Choose(config, hosts, first, a, [], usage, now);
             one.Some? && Choose(config, hosts, second, b, ledger, usage, later).0 == one
    ensures var host := Choose(config, hosts, first, a, [], usage, now).0.value;
            && 0 <= i < |hosts| && hosts[i].id == host && hosts[i].capacityMb.Some?
            && UsedMb(usage, host) + first / config.overcommit + second / config.overcommit <=
                 0.9 * (hosts[i].capacityMb.value - config.reserveMb)
  {
    var (one, ledger) := Choose(config, hosts, first, a, [], usage, now);
    ChosenRoomIsHeld(config, hosts, first, a, [], usage, now, one.value, usage, later);
    OnlyOneReserved(config, hosts, first, a, usage, now);
    AfterChoice(config, hosts, first, a, [], usage, now, later, one.value);
    PrunedCountsTheSame(ledger, one.value, usage, later);
    ChosenRoomIsHeld(config, hosts, second, b, ledger, usage, later, one.value, usage, later);
    i := ChooseStaysInBudget(config, hosts, second, b, ledger, usage, later);
    hide Choose, PendingMb, Pruned, Best, Verdicts;
  }

  lemma OnlyOneReserved(config: Config, hosts: seq<Host>, memoryMb: real, bot: BotId, usage: Usage, now: Time)
    requires config.overcommit > 0.0 && Choose(config, hosts, memoryMb, bot, [], usage, now).0.Some?
    ensures forall other :: other != bot ==>
              !Reserved(Choose(config, hosts, memoryMb, bot, [], usage, now).1, other)
    ensures PendingMb(AfterVerdicts(hosts, [], usage, now), 0, usage, now) == 0.0
    ensures AfterVerdicts(hosts, [], usage, now) == []
  {
  }

  // ----- The best verdict -----

  ghost predicate IsBest(verdicts: seq<Verdict>, i: int) {
    && 0 <= i < |verdicts| && Fits(verdicts[i])
    && (forall j :: 0 <= j < |verdicts| && Fits(verdicts[j]) ==>
         verdicts[j].headroomMb.value <= verdicts[i].headroomMb.value)
    && (forall j :: 0 <= j < i && Fits(verdicts[j]) ==> verdicts[j].headroomMb.value < verdicts[i].headroomMb.value)
  }

  /** The host chosen has the most headroom of those that fit, the first of equals; none only if none fits. */
  lemma {:induction false} BestIsBest(verdicts: seq<Verdict>)
    ensures Best(verdicts).Some? ==> exists i :: IsBest(verdicts, i) && verdicts[i] == Best(verdicts).value
    ensures Best(verdicts).None? <==> forall i :: 0 <= i < |verdicts| ==> !Fits(verdicts[i])
  {
    if verdicts != [] {
      var before, n := verdicts[..|verdicts| - 1], |verdicts| - 1;
      BestIsBest(before);
      assert forall i :: 0 <= i < n ==> before[i] == verdicts[i];
      if Best(before).Some? {
        var i :| IsBest(before, i) && before[i] == Best(before).value;
        if Best(verdicts) == Best(before) {
          assert IsBest(verdicts, i);
        } else {
          assert IsBest(verdicts, n);
        }
      } else if Fits(verdicts[n]) {
        assert IsBest(verdicts, n);
      }
    }
  }

  // ----- Choosing -----

  /** A choice promises a host no more than its budget: what the sweep measured there and every live
      reservation, the new one included, stay within nine tenths of the capacity left after the reserve. */
  lemma ChooseStaysInBudget(config: Config, hosts: seq<Host>, memoryMb: real, bot: BotId, ledger: Ledger, usage: Usage,
      now: Time)
    returns (i: int)
    requires config.overcommit > 0.0 && memoryMb >= 0.0 && NonNegative(ledger)
    requires Choose(config, hosts, memoryMb, bot, ledger, usage, now).0.Some?
    ensures var (host, ledger') := Choose(config, hosts, memoryMb, bot, ledger, usage, now);
            && 0 <= i < |hosts| && hosts[i].id == host.value && Open(hosts[i])
            && IsBest(Verdicts(config, hosts, memoryMb, ledger, usage, now), i)
            && UsedMb(usage, host.value) + PendingMb(ledger', host.value, usage, now) <= BudgetMb(config, hosts[i])
  {
    var verdicts := Verdicts(config, hosts, memoryMb, ledger, usage, now);
    BestIsBest(verdicts);
    i :| IsBest(verdicts, i) && verdicts[i] == Best(verdicts).value;
    AfterChoice(config, hosts, memoryMb, bot, ledger, usage, now, now, hosts[i].id);
    assert verdicts[i] == VerdictOn(config, hosts[i], memoryMb, ledger, usage, now);
    hide Best, Verdicts, IsBest, Pruned, Reserve, PendingMb;
  }

  lemma CountedIsNonNegative(config: Config, memoryMb: real)
    requires config.overcommit > 0.0 && memoryMb >= 0.0
    ensures Counted(config, memoryMb) >= 0.0
    ensures memoryMb > 0.0 ==> Counted(config, memoryMb) > 0.0
  {}

  /** What a choice adds to a host, seen then or later. */
  lemma AfterChoice(config: Config, hosts: seq<Host>, memoryMb: real, bot: BotId, ledger: Ledger, usage: Usage,
      now: Time, later: Time, host: HostId)
    requires config.overcommit > 0.0 && memoryMb >= 0.0 && NonNegative(ledger) && now <= later
    ensures var (chosen, ledger') := Choose(config, hosts, memoryMb, bot, ledger, usage, now);
            && NonNegative(ledger')
            && PendingMb(ledger', host, usage, later) <=
                 PendingMb(ledger, host, usage, now) + if chosen == Some(host) then Counted(config, memoryMb) else 0.0
  {
    hide Best, Verdicts;
    CountedIsNonNegative(config, memoryMb);
    var kept := AfterVerdicts(hosts, ledger, usage, now);
    PrunedCountsTheSame(ledger, host, usage, now);
    var chosen := Choose(config, hosts, memoryMb, bot, ledger, usage, now).0;
    if chosen.Some? {
      var r := Reservation(bot, chosen.value, Counted(config, memoryMb), now);
      ReserveAdds(kept, r, host, usage, now);
      PendingShrinks(Reserve(kept, r), host, usage, now, later);
    } else {
      PendingShrinks(kept, host, usage, now, later);
    }
  }

  // ----- The promise of capacity -----

  /** How many more bots of a size a host can take, one by one. */
  function Slots(config: Config, host: Host, countedMb: real, ledger: Ledger, usage: Usage, now: Time): nat
    requires countedMb > 0.0
  {
    if Open(host) then NatMax((FreeMb(config, host, ledger, usage, now) / countedMb).Floor) else 0
  }

  function AllSlots(config: Config, hosts: seq<Host>, countedMb: real, ledger: Ledger, usage: Usage, now: Time): nat
    requires countedMb > 0.0
  {
    if hosts == [] then 0
    else
      AllSlots(config, hosts[..|hosts| - 1], countedMb, ledger, usage, now) +
        Slots(config, hosts[|hosts| - 1], countedMb, ledger, usage, now)
  }

  lemma FloorOfFloor(x: real, c: real)
    requires c > 0.0
    ensures (x.Floor as real / c).Floor <= (x / c).Floor
  {
    assert x.Floor as real <= x;
    DivisionIsMonotone(x.Floor as real, x, c);
  }

  lemma DivisionIsMonotone(x: real, y: real, c: real)
    requires c > 0.0 && x <= y
    ensures x / c <= y / c
  {
    assert y / c - x / c == (y - x) / c;
  }

  /** One bot less is one slot less. */
  lemma OneSlotLess(x: real, y: real, c: real)
    requires c > 0.0 && y >= x - c
    ensures NatMax((y / c).Floor) >= NatMax((x / c).Floor) - 1
  {
    DivisionIsMonotone(x - c, y, c);
    assert (x - c) / c == x / c - c / c;
    assert c / c == 1.0;
  }

  lemma SlotsLeft(x: real, y: real, c: real)
    requires c > 0.0 && y >= x
    ensures NatMax((y / c).Floor) >= NatMax((x / c).Floor)
  {
    DivisionIsMonotone(x, y, c);
  }

  lemma {:induction false} CapacityIsWithinSlots(config: Config, hosts: seq<Host>, memoryMb: real, ledger: Ledger,
      usage: Usage, now: Time)
    requires config.overcommit > 0.0 && memoryMb > 0.0
    ensures Counted(config, memoryMb) > 0.0
    ensures Capacity(config, hosts, memoryMb, ledger, usage, now) <=
            AllSlots(config, hosts, Counted(config, memoryMb), ledger, usage, now)
  {
    CountedIsNonNegative(config, memoryMb);
    if hosts != [] {
      CapacityIsWithinSlots(config, hosts[..|hosts| - 1], memoryMb, ledger, usage, now);
      var host := hosts[|hosts| - 1];
      if Open(host) {
        var free := FreeMb(config, host, ledger, usage, now);
        assert Counted(config, 0.0) == 0.0;
        FloorOfFloor(free, Counted(config, memoryMb));
      }
    }
  }

  function Sum(ks: seq<nat>): nat {
    if ks == [] then 0 else Sum(ks[..|ks| - 1]) + ks[|ks| - 1]
  }

  lemma FitsSoOften(left: int, c: real, k: nat)
    requires c > 0.0 && k as real * c <= left as real
    ensures RoomFor(left, c) >= k
  {
    DivisionIsMonotone(k as real * c, left as real, c);
    assert (k as real * c) / c == k as real;
  }

  /** Capacity withholds nothing: whatever number of bots of that size the open hosts have whole megabytes for is
      within it. */
  lemma {:induction false} CapacityWithholdsNothing(config: Config, hosts: seq<Host>, memoryMb: real, ledger: Ledger,
      usage: Usage, now: Time, ks: seq<nat>)
    requires config.overcommit > 0.0 && memoryMb > 0.0 && |ks| == |hosts|
    requires forall i :: 0 <= i < |hosts| && ks[i] > 0 ==>
               && hosts[i].active && hosts[i].reachable && hosts[i].capacityMb.Some?
               && ks[i] as real * (memoryMb / config.overcommit) <=
                    Left(config, hosts[i], 0.0, ledger, usage, now) as real
    ensures Capacity(config, hosts, memoryMb, ledger, usage, now) >= Sum(ks)
  {
    hide PendingMb;
    CountedIsNonNegative(config, memoryMb);
    if hosts != [] {
      var n := |hosts| - 1;
      CapacityWithholdsNothing(config, hosts[..n], memoryMb, ledger, usage, now, ks[..n]);
      if ks[n] > 0 {
        FitsSoOften(Left(config, hosts[n], 0.0, ledger, usage, now), Counted(config, memoryMb), ks[n]);
      }
    }
  }

  ghost predicate DistinctHosts(hosts: seq<Host>) {
    forall i, j :: 0 <= i < j < |hosts| ==> hosts[i].id != hosts[j].id
  }

  predicate IdAmong(hosts: seq<Host>, id: HostId) {
    exists i :: 0 <= i < |hosts| && hosts[i].id == id
  }

  /** A choice costs the fleet one slot, on the host it chose. */
  lemma {:induction false} ChoiceCostsOneSlot(config: Config, hosts: seq<Host>, part: seq<Host>, memoryMb: real,
      bot: BotId, ledger: Ledger, usage: Usage, now: Time, later: Time)
    requires config.overcommit > 0.0 && memoryMb > 0.0 && NonNegative(ledger) && now <= later && DistinctHosts(part)
    ensures Counted(config, memoryMb) > 0.0
    ensures var (chosen, ledger') := Choose(config, hosts, memoryMb, bot, ledger, usage, now);
            var c := Counted(config, memoryMb);
            AllSlots(config, part, c, ledger', usage, later) >=
              AllSlots(config, part, c, ledger, usage, now) - if chosen.Some? &&
                IdAmong(part, chosen.value) then 1 else 0
  {
    CountedIsNonNegative(config, memoryMb);
    if part != [] {
      var before, host := part[..|part| - 1], part[|part| - 1];
      ChoiceCostsOneSlot(config, hosts, before, memoryMb, bot, ledger, usage, now, later);
      var (chosen, ledger') := Choose(config, hosts, memoryMb, bot, ledger, usage, now);
      assert chosen.Some? ==>
               (IdAmong(part, chosen.value) <==> IdAmong(before, chosen.value) || chosen.value == host.id) by {
        IdAmongAppend(before, host);
        assert part == before + [host];
      }
      assert chosen == Some(host.id) ==> !IdAmong(before, chosen.value);
      hide Choose, DistinctHosts, IdAmong;
      HostSlotAfterChoice(config, hosts, host, memoryMb, bot, ledger, usage, now, later);
    }
  }

  lemma IdAmongAppend(hosts: seq<Host>, host: Host)
    ensures forall id :: IdAmong(hosts + [host], id) <==> IdAmong(hosts, id) || id == host.id
  {
    forall id
      ensures IdAmong(hosts + [host], id) <==> IdAmong(hosts, id) || id == host.id
    {
      assert (hosts + [host])[|hosts|] == host;
      if IdAmong(hosts, id) {
        var i :| 0 <= i < |hosts| && hosts[i].id == id;
        assert (hosts + [host])[i].id == id;
      }
    }
  }

  lemma HostSlotAfterChoice(config: Config, hosts: seq<Host>, host: Host, memoryMb: real, bot: BotId, ledger: Ledger,
      usage: Usage, now: Time, later: Time)
    requires config.overcommit > 0.0 && memoryMb > 0.0 && NonNegative(ledger) && now <= later &&
             Counted(config, memoryMb) > 0.0
    ensures var (chosen, ledger') := Choose(config, hosts, memoryMb, bot, ledger, usage, now);
            var c := Counted(config, memoryMb);
            Slots(config, host, c, ledger', usage, later) >= Slots(config, host, c, ledger, usage, now) - if chosen ==
                Some(host.id) then 1 else 0
  {
    hide Choose, PendingMb, Counted;
    if Open(host) {
      var (chosen, ledger') := Choose(config, hosts, memoryMb, bot, ledger, usage, now);
      var c := Counted(config, memoryMb);
      AfterChoice(config, hosts, memoryMb, bot, ledger, usage, now, later, host.id);
      var x, y := FreeMb(config, host, ledger, usage, now), FreeMb(config, host, ledger', usage, later);
      if chosen == Some(host.id) {
        OneSlotLess(x, y, c);
      } else {
        SlotsLeft(x, y, c);
      }
    }
  }

  /** While a slot is left somewhere, the next choice succeeds. */
  lemma {:induction false} SlotMeansFit(config: Config, hosts: seq<Host>, memoryMb: real, ledger: Ledger, usage: Usage,
      now: Time) returns (i: int)
    requires config.overcommit > 0.0 && Counted(config, memoryMb) > 0.0
    requires AllSlots(config, hosts, Counted(config, memoryMb), ledger, usage, now) > 0
    ensures 0 <= i < |hosts| && Fits(VerdictOn(config, hosts[i], memoryMb, ledger, usage, now))
  {
    var host, c := hosts[|hosts| - 1], Counted(config, memoryMb);
    if Slots(config, host, c, ledger, usage, now) > 0 {
      i := |hosts| - 1;
      OneSlotFits(FreeMb(config, host, ledger, usage, now), c);
    } else {
      i := SlotMeansFit(config, hosts[..|hosts| - 1], memoryMb, ledger, usage, now);
    }
  }

  lemma OneSlotFits(x: real, c: real)
    requires c > 0.0 && (x / c).Floor >= 1
    ensures (x - c).Floor >= 0
  {
    assert x == (x / c) * c;
    assert (x / c - 1.0) * c >= 0.0;
  }

  datatype Call = Call(bot: BotId, now: Time)

  /** The ledger after a row of choices, and whether every one of them found a host. */
  function ChooseAll(config: Config, hosts: seq<Host>, memoryMb: real, ledger: Ledger, usage: Usage,
      calls: seq<Call>): (bool, Ledger)
    requires config.overcommit > 0.0
  {
    if calls == [] then (true, ledger)
    else
      var (placed, before) := ChooseAll(config, hosts, memoryMb, ledger, usage, calls[..|calls| - 1]);
      var last := calls[|calls| - 1];
      var (host, after) := Choose(config, hosts, memoryMb, last.bot, before, usage, last.now);
      (placed && host.Some?, after)
  }

  ghost predicate InOrder(calls: seq<Call>, from: Time) {
    && (forall i :: 0 <= i < |calls| ==> from <= calls[i].now)
    && (forall i, j :: 0 <= i < j < |calls| ==> calls[i].now <= calls[j].now)
  }

  lemma {:induction false} SlotsAfterCalls(config: Config, hosts: seq<Host>, memoryMb: real, ledger: Ledger,
      usage: Usage, now: Time, calls: seq<Call>, later: Time)
    requires config.overcommit > 0.0 && memoryMb > 0.0 && NonNegative(ledger) && DistinctHosts(hosts) &&
             InOrder(calls, now)
    requires now <= later && (calls != [] ==> calls[|calls| - 1].now <= later)
    requires |calls| <= Capacity(config, hosts, memoryMb, ledger, usage, now)
    ensures Counted(config, memoryMb) > 0.0
    ensures var (placed, after) := ChooseAll(config, hosts, memoryMb, ledger, usage, calls);
            && placed && NonNegative(after)
            && AllSlots(config, hosts, Counted(config, memoryMb), after, usage, later) + |calls| >=
               Capacity(config, hosts, memoryMb, ledger, usage, now)
  {
    hide Choose, Counted;
    CapacityIsWithinSlots(config, hosts, memoryMb, ledger, usage, now);
    if calls == [] {
      TimeFreesSlots(config, hosts, Counted(config, memoryMb), ledger, usage, now, later);
    } else {
      var before, last := calls[..|calls| - 1], calls[|calls| - 1];
      SlotsAfterCalls(config, hosts, memoryMb, ledger, usage, now, before, last.now);
      var mid := ChooseAll(config, hosts, memoryMb, ledger, usage, before).1;
      var i := SlotMeansFit(config, hosts, memoryMb, mid, usage, last.now);
      FitIsChosen(config, hosts, memoryMb, last.bot, mid, usage, last.now, i);
      ChoiceCostsOneSlot(config, hosts, hosts, memoryMb, last.bot, mid, usage, last.now, later);
      AfterChoice(config, hosts, memoryMb, last.bot, mid, usage, last.now, later, 0);
    }
  }

  lemma {:induction false} TimeFreesSlots(config: Config, hosts: seq<Host>, countedMb: real, ledger: Ledger,
      usage: Usage, now: Time, later: Time)
    requires countedMb > 0.0 && NonNegative(ledger) && now <= later
    ensures AllSlots(config, hosts, countedMb, ledger, usage, later) >=
            AllSlots(config, hosts, countedMb, ledger, usage, now)
  {
    if hosts != [] {
      var host := hosts[|hosts| - 1];
      TimeFreesSlots(config, hosts[..|hosts| - 1], countedMb, ledger, usage, now, later);
      PendingShrinks(ledger, host.id, usage, now, later);
      if Open(host) {
        SlotsLeft(FreeMb(config, host, ledger, usage, now), FreeMb(config, host, ledger, usage, later), countedMb);
      }
    }
  }

  lemma FitIsChosen(config: Config, hosts: seq<Host>, memoryMb: real, bot: BotId, ledger: Ledger, usage: Usage,
      now: Time, i: int)
    requires config.overcommit > 0.0 && 0 <= i < |hosts| &&
             Fits(VerdictOn(config, hosts[i], memoryMb, ledger, usage, now))
    ensures Choose(config, hosts, memoryMb, bot, ledger, usage, now).0.Some?
  {
    var verdicts := Verdicts(config, hosts, memoryMb, ledger, usage, now);
    BestIsBest(verdicts);
    assert Fits(verdicts[i]);
  }

  /** Capacity is a promise: while hosts and usage stay as they are, as many choices in a row as it reported
      all find a host, whatever the bots and however the clock runs on. */
  lemma {:induction false} CapacityIsKept(config: Config, hosts: seq<Host>, memoryMb: real, ledger: Ledger,
      usage: Usage, now: Time, calls: seq<Call>)
    requires config.overcommit > 0.0 && memoryMb > 0.0 && NonNegative(ledger) && DistinctHosts(hosts) &&
             InOrder(calls, now)
    requires |calls| <= Capacity(config, hosts, memoryMb, ledger, usage, now)
    ensures ChooseAll(config, hosts, memoryMb, ledger, usage, calls).0
  {
    SlotsAfterCalls(config, hosts, memoryMb, ledger, usage, now, calls, if calls == [] then now
      else calls[|calls| - 1].now);
  }
}
