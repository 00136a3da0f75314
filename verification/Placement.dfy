/** Placement as the orchestrator runs it. What the gates answered and what the last sweep measured come in
    as parameters: nothing awaits between reading them and the reservation. */
module Placement {
  import opened Options
  import Spec = PlacementSpec
  import Proofs = PlacementProofs

  class Placement {
    const config: Spec.Config
    var reservations: Spec.Ledger

    ghost predicate Valid()
      reads this
    {
      config.overcommit > 0.0 && Proofs.NonNegative(reservations)
    }

    constructor (config: Spec.Config)
      requires config.overcommit > 0.0
      ensures Valid() && this.config == config && reservations == []
    {
      this.config := config;
      reservations := [];
    }

    /** One stretch from the sums to the reservation: of two choices the later one counts the earlier. */
    method Choose(hosts: seq<Spec.Host>, memoryMb: real, bot: Spec.BotId, usage: Spec.Usage, now: Spec.Time)
        returns (chosen: Option<Spec.HostId>)
      requires Valid() && memoryMb >= 0.0
      modifies `reservations
      ensures Valid()
      ensures (chosen, reservations) == Spec.Choose(config, hosts, memoryMb, bot, old(reservations), usage, now)
      ensures chosen.Some? ==> exists i :: 0 <= i < |hosts| && hosts[i].id == chosen.value
                                              && Spec.Open(hosts[i]) &&
                                                 Spec.FreeMb(config, hosts[i], reservations, usage, now) >= 0.0
      ensures chosen.Some? ==>
                exists i :: 0 <= i < |hosts| && hosts[i].id == chosen.value &&
                  hosts[i].active && hosts[i].reachable && hosts[i].capacityMb.Some? &&
                  Spec.UsedMb(usage, chosen.value) + Spec.PendingMb(reservations, chosen.value, usage, now) <=
                    0.9 * (hosts[i].capacityMb.value - config.reserveMb)
      ensures chosen.Some? ==>
                Spec.Reservation(bot, chosen.value, memoryMb / config.overcommit, now) in reservations
      ensures chosen.None? ==>
                forall i :: (0 <= i < |hosts| && hosts[i].active && hosts[i].reachable && hosts[i].capacityMb.Some?) ==>
                  0.9 * (hosts[i].capacityMb.value - config.reserveMb) < Spec.UsedMb(usage, hosts[i].id) +
                    Spec.PendingMb(old(reservations), hosts[i].id, usage, now) + memoryMb / config.overcommit
      ensures chosen.Some? ==>
                exists i :: Proofs.LeavesMost(config, hosts, memoryMb, old(reservations), usage, now, i) &&
                  hosts[i].id == chosen.value
    {
      hide Spec.Best, Spec.PendingMb, Spec.Reserve, Spec.Pruned, Proofs.LeavesMost;
      Proofs.CountedIsNonNegative(config, memoryMb);
      Proofs.AfterChoice(config, hosts, memoryMb, bot, reservations, usage, now, now, 0);
      var verdicts := Judge(hosts, memoryMb, usage, now);
      var best := Spec.Best(verdicts);
      if best.None? {
        forall i | 0 <= i < |hosts| && hosts[i].active && hosts[i].reachable && hosts[i].capacityMb.Some?
          ensures 0.9 * (hosts[i].capacityMb.value - config.reserveMb) < Spec.UsedMb(usage, hosts[i].id) +
                    Spec.PendingMb(old(reservations), hosts[i].id, usage, now) + memoryMb / config.overcommit
        {
          Proofs.TurnedAwayMeansFull(config, hosts, memoryMb, old(reservations), usage, now, i);
        }
        return None;
      }
      Proofs.ReserveHas(reservations, Spec.Reservation(bot, best.value.host, Spec.Counted(config, memoryMb), now));
      ghost var i := Proofs.ChooseStaysInBudget(config, hosts, memoryMb, bot, old(reservations), usage, now);
      Proofs.BestLeavesMost(config, hosts, memoryMb, old(reservations), usage, now, i);
      reservations := Spec.Reserve(reservations,
        Spec.Reservation(bot, best.value.host, Spec.Counted(config, memoryMb), now));
      return Some(best.value.host);
    }

    method Judge(hosts: seq<Spec.Host>, memoryMb: real, usage: Spec.Usage, now: Spec.Time)
        returns (verdicts: seq<Spec.Verdict>)
      requires Valid()
      modifies `reservations
      ensures Valid()
      ensures verdicts == Spec.Verdicts(config, hosts, memoryMb, old(reservations), usage, now)
      ensures reservations == Spec.AfterVerdicts(hosts, old(reservations), usage, now)
    {
      hide Spec.PendingMb, Spec.Pruned;
      verdicts := [];
      ghost var asked := false;
      var i := 0;
      while i < |hosts|
        invariant 0 <= i == |verdicts| <= |hosts|
        invariant Valid()
        invariant asked <==> Spec.SomeOpen(hosts[..i])
        invariant reservations == if asked then Spec.Pruned(old(reservations), usage, now) else old(reservations)
        invariant forall j :: 0 <= j < i ==>
                    verdicts[j] == Spec.VerdictOn(config, hosts[j], memoryMb, old(reservations), usage, now)
      {
        var host := hosts[i];
        assert hosts[..i + 1] == hosts[..i] + [host];
        Proofs.SomeOpenAppend(hosts[..i], host);
        if Spec.Open(host) {
          Proofs.PrunedTwice(old(reservations), host.id, usage, now);
          var pending := Pending(host.id, usage, now);
          asked := true;
          var free := Spec.BudgetMb(config, host) - (Spec.UsedMb(usage, host.id) + pending);
          verdicts := verdicts + [Spec.Verdict(host.id, Some((free - Spec.Counted(config, memoryMb)).Floor))];
        } else {
          verdicts := verdicts + [Spec.Verdict(host.id, None)];
        }
        i := i + 1;
      }
      assert hosts[..i] == hosts;
    }

    /** Sums what is pending on a host and forgets, of all hosts, what is stale or measured by now. */
    method Pending(host: Spec.HostId, usage: Spec.Usage, now: Spec.Time) returns (total: real)
      requires Valid()
      modifies `reservations
      ensures Valid()
      ensures total == Spec.PendingMb(old(reservations), host, usage, now)
      ensures reservations == Spec.Pruned(old(reservations), usage, now)
      ensures forall r :: r in reservations <==>
                r in old(reservations) && now - r.at <= 30 * 60_000 && r.bot !in usage.measured
    {
      total := 0.0;
      var kept: Spec.Ledger := [];
      var i := 0;
      while i < |reservations|
        invariant 0 <= i <= |reservations|
        invariant total == Spec.PendingMb(reservations[..i], host, usage, now)
        invariant kept == Spec.Pruned(reservations[..i], usage, now)
      {
        ghost var seen := reservations[..i + 1];
        assert seen[..|seen| - 1] == reservations[..i] && seen[|seen| - 1] == reservations[i];
        var r := reservations[i];
        if Spec.Live(r, usage, now) {
          kept := kept + [r];
          if r.host == host {
            total := total + r.mb;
          }
        }
        i := i + 1;
      }
      assert reservations[..i] == reservations;
      Proofs.PrunedCountsTheSame(reservations, host, usage, now);
      Proofs.PrunedReservesNoMore(reservations, usage, now);
      reservations := kept;
    }

    method Capacity(hosts: seq<Spec.Host>, memoryMb: real, usage: Spec.Usage, now: Spec.Time) returns (room: nat)
      requires Valid() && memoryMb > 0.0
      modifies `reservations
      ensures Valid()
      ensures room == Spec.Capacity(config, hosts, memoryMb, old(reservations), usage, now)
    {
      hide Spec.PendingMb, Spec.Pruned;
      ghost var ledger := reservations;
      Proofs.CountedIsNonNegative(config, memoryMb);
      var free := Judge(hosts, 0.0, usage, now);
      room := 0;
      var i := 0;
      while i < |hosts|
        invariant 0 <= i <= |hosts|
        invariant room == Spec.Capacity(config, hosts[..i], memoryMb, ledger, usage, now)
      {
        ghost var seen := hosts[..i + 1];
        assert seen[..|seen| - 1] == hosts[..i] && seen[|seen| - 1] == hosts[i];
        if free[i].headroomMb.Some? {
          room := room + Spec.RoomFor(free[i].headroomMb.value, Spec.Counted(config, memoryMb));
        }
        i := i + 1;
      }
      assert hosts[..i] == hosts;
    }

    method Release(bot: Spec.BotId)
      requires Valid()
      modifies `reservations
      ensures Valid()
      ensures reservations == Spec.Release(old(reservations), bot) && !Spec.Reserved(reservations, bot)
      ensures forall r :: r in reservations <==> r in old(reservations) && r.bot != bot
    {
      Proofs.ReleaseFrees(reservations, bot);
      Proofs.ReleaseKeepsTheOthers(reservations, bot);
      Proofs.ReleaseMakesRoom(reservations, bot, 0, Spec.Usage(map[], {}), 0);
      reservations := Spec.Release(reservations, bot);
    }

    /** The check for a given host. Unlike Choose it lets a draining one pass. */
    method AssertFits(host: Spec.Host, memoryMb: real, usage: Spec.Usage, now: Spec.Time) returns (fits: bool)
      requires Valid() && memoryMb >= 0.0
      modifies `reservations
      ensures Valid()
      ensures fits <==> (host.capacityMb.Some? && host.reachable
                         && Spec.Counted(config, memoryMb) <= Spec.FreeMb(config, host, old(reservations), usage, now))
      ensures fits == (host.capacityMb.Some? && host.reachable &&
                Spec.UsedMb(usage, host.id) + Spec.PendingMb(old(reservations), host.id, usage, now) +
                  memoryMb / config.overcommit <= 0.9 * (host.capacityMb.value - config.reserveMb))
    {
      fits := false;
      if host.capacityMb.None? || !host.reachable {
        return;
      }
      var pending := Pending(host.id, usage, now);
      var free := Spec.BudgetMb(config, host) - (Spec.UsedMb(usage, host.id) + pending);
      fits := (free - Spec.Counted(config, memoryMb)).Floor >= 0;
    }
  }
}
