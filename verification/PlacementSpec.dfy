/** Which host takes a bot. Megabytes are reals, so the arithmetic is exact. */
module PlacementSpec {
  import opened Options

  type HostId = nat
  type BotId = nat
  type Time = int

  const USABLE_FRACTION: real := 0.9
  const RESERVATION_TTL_MS: int := 30 * 60_000

  datatype Host = Host(id: HostId, active: bool, reachable: bool, capacityMb: Option<real>)
  /** The last memory sweep: use per host, and the bots it saw running. */
  datatype Usage = Usage(usedMb: map<HostId, real>, measured: set<BotId>)
  datatype Config = Config(overcommit: real, reserveMb: real)
  datatype Reservation = Reservation(bot: BotId, host: HostId, mb: real, at: Time)
  datatype Verdict = Verdict(host: HostId, headroomMb: Option<int>)

  /** In the order they were first made; one a bot. */
  type Ledger = seq<Reservation>

  function Counted(config: Config, memoryMb: real): real
    requires config.overcommit > 0.0
  {
    memoryMb / config.overcommit
  }

  // ----- Reservations -----

  predicate Live(r: Reservation, usage: Usage, now: Time) {
    r.at >= now - RESERVATION_TTL_MS && r.bot !in usage.measured
  }

  function Pruned(ledger: Ledger, usage: Usage, now: Time): Ledger {
    if ledger == [] then []
    else Pruned(ledger[..|ledger| - 1], usage, now) + if Live(ledger[|ledger| - 1], usage, now)
      then [ledger[|ledger| - 1]] else []
  }

  function PendingMb(ledger: Ledger, host: HostId, usage: Usage, now: Time): real {
    if ledger == [] then 0.0
    else
      var last := ledger[|ledger| - 1];
      PendingMb(ledger[..|ledger| - 1], host, usage, now) + if Live(last, usage, now) &&
        last.host == host then last.mb else 0.0
  }

  /** A bot's second reservation takes the place of its first. */
  function Reserve(ledger: Ledger, r: Reservation): Ledger {
    if ledger == [] then [r]
    else if ledger[|ledger| - 1].bot == r.bot then ledger[..|ledger| - 1] + [r]
    else if Reserved(ledger, r.bot) then Reserve(ledger[..|ledger| - 1], r) + [ledger[|ledger| - 1]]
    else ledger + [r]
  }

  predicate Reserved(ledger: Ledger, bot: BotId) {
    exists i :: 0 <= i < |ledger| && ledger[i].bot == bot
  }

  function Release(ledger: Ledger, bot: BotId): Ledger {
    if ledger == [] then []
    else Release(ledger[..|ledger| - 1], bot) + if ledger[|ledger| - 1].bot == bot then [] else [ledger[|ledger| - 1]]
  }

  // ----- Verdicts -----

  predicate Open(host: Host) {
    host.active && host.capacityMb.Some? && host.reachable
  }

  function UsedMb(usage: Usage, host: HostId): real {
    if host in usage.usedMb then usage.usedMb[host] else 0.0
  }

  function BudgetMb(config: Config, host: Host): real
    requires host.capacityMb.Some?
  {
    USABLE_FRACTION * (host.capacityMb.value - config.reserveMb)
  }

  /** What a host has left before a bot is counted in. */
  function FreeMb(config: Config, host: Host, ledger: Ledger, usage: Usage, now: Time): real
    requires host.capacityMb.Some?
  {
    BudgetMb(config, host) - (UsedMb(usage, host.id) + PendingMb(ledger, host.id, usage, now))
  }

  function VerdictOn(config: Config, host: Host, memoryMb: real, ledger: Ledger, usage: Usage, now: Time): Verdict
    requires config.overcommit > 0.0
  {
    if Open(host) then
      Verdict(host.id, Some((FreeMb(config, host, ledger, usage, now) - Counted(config, memoryMb)).Floor))
    else Verdict(host.id, None)
  }

  function Verdicts(config: Config, hosts: seq<Host>, memoryMb: real, ledger: Ledger, usage: Usage,
      now: Time): (v: seq<Verdict>)
    requires config.overcommit > 0.0
    ensures |v| == |hosts|
  {
    seq(|hosts|, i requires 0 <= i < |hosts| => VerdictOn(config, hosts[i], memoryMb, ledger, usage, now))
  }

  predicate Fits(v: Verdict) {
    v.headroomMb.Some? && v.headroomMb.value >= 0
  }

  /** The most headroom; of equals the first, as a stable sort leaves them. */
  function Best(verdicts: seq<Verdict>): Option<Verdict> {
    if verdicts == [] then None
    else
      var before, last := Best(verdicts[..|verdicts| - 1]), verdicts[|verdicts| - 1];
      if Fits(last) && (before.None? || last.headroomMb.value > before.value.headroomMb.GetOr(0)) then Some(last)
        else before
  }

  // ----- Choosing -----

  predicate SomeOpen(hosts: seq<Host>) {
    exists i :: 0 <= i < |hosts| && Open(hosts[i])
  }

  /** Reading what is pending forgets what is stale or measured by now. */
  function AfterVerdicts(hosts: seq<Host>, ledger: Ledger, usage: Usage, now: Time): Ledger {
    if SomeOpen(hosts) then Pruned(ledger, usage, now) else ledger
  }

  function Choose(config: Config, hosts: seq<Host>, memoryMb: real, bot: BotId, ledger: Ledger, usage: Usage,
      now: Time): (Option<HostId>, Ledger)
    requires config.overcommit > 0.0
  {
    var best := Best(Verdicts(config, hosts, memoryMb, ledger, usage, now));
    var ledger' := AfterVerdicts(hosts, ledger, usage, now);
    if best.None? then (None, ledger')
    else (Some(best.value.host), Reserve(ledger', Reservation(bot, best.value.host, Counted(config, memoryMb), now)))
  }

  function NatMax(a: int): nat {
    if a < 0 then 0 else a
  }

  function RoomOn(config: Config, host: Host, memoryMb: real, ledger: Ledger, usage: Usage, now: Time): nat
    requires config.overcommit > 0.0 && memoryMb > 0.0
  {
    var free := VerdictOn(config, host, 0.0, ledger, usage, now);
    if free.headroomMb.None? then 0 else RoomFor(free.headroomMb.value, Counted(config, memoryMb))
  }

  function RoomFor(headroomMb: int, countedMb: real): nat
    requires countedMb > 0.0
  {
    NatMax((headroomMb as real / countedMb).Floor)
  }

  function Capacity(config: Config, hosts: seq<Host>, memoryMb: real, ledger: Ledger, usage: Usage, now: Time): nat
    requires config.overcommit > 0.0 && memoryMb > 0.0
  {
    if hosts == [] then 0
    else
      Capacity(config, hosts[..|hosts| - 1], memoryMb, ledger, usage, now) +
        RoomOn(config, hosts[|hosts| - 1], memoryMb, ledger, usage, now)
  }
}
