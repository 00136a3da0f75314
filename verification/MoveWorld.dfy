/** The durable world one bot lives in: its database row, the container and the state volume it may
    have on each host, and the archives in the moves bucket. Every external call the instance manager
    makes is one function from world to world; the methods that make the calls are in MoveManager.

    `latest`, `booted`, `served`, `doomed`, `clobbered` and `lost` are not stored anywhere by the program.
    They record what has happened, so that "the bot's state is still whole" can be said of a single world.
    `served` says that the row has been in service on the target while its archive was still recorded:
    from then on what the target holds is the bot. `lost` is set by the very effect that takes the bot's
    newest state from where the row says it is, and is never taken back. */
module MoveWorld {
  import opened Options

  type HostId = nat
  type Archive = nat

  datatype Status = Provisioning | Running | Degraded | Unhealthy | Stopped | Destroying | Destroyed | Error

  /** `Saved(v)` is the bot's own state after `v` runs; `Backup` is the state imported with a new bot. */
  datatype Content = Blank | Partial | Backup | Saved(version: nat)

  /** One container per host carries the bot's name, so a host maps to at most one. */
  datatype Container = Container(id: nat, running: bool, started: bool, current: bool)

  datatype Row = Row(
    hostId: HostId,
    status: Status,
    containerId: Option<nat>,
    movedFrom: Option<HostId>,
    moveObject: Option<Archive>,
    movedAt: Option<int>,
    imported: bool,
    stoppedBefore: bool,
    backupPending: bool)

  datatype World = World(
    row: Row,
    containers: map<HostId, Container>,
    volumes: map<HostId, Content>,
    archives: map<Archive, Content>,
    nextArchive: Archive,
    latest: nat,
    booted: bool,
    served: bool,
    doomed: bool,
    clobbered: bool,
    lost: bool)

  predicate IsUp(s: Status) {
    s.Running? || s.Degraded? || s.Unhealthy?
  }

  predicate IsMovable(s: Status) {
    IsUp(s) || s.Stopped?
  }

  predicate CanStartFrom(s: Status) {
    s.Provisioning? || s.Degraded? || s.Unhealthy? || s.Stopped?
  }

  predicate CanDestroyFrom(s: Status) {
    IsMovable(s)
  }

  /** The host whose volume is the bot: the old one while a move is recorded, unless the bot has been in
      service on the target since; else the row's own. */
  function Home(w: World): HostId {
    if w.row.moveObject.Some? && w.row.movedFrom.Some? && !w.served then w.row.movedFrom.value else w.row.hostId
  }

  function Places(r: Row): set<HostId> {
    {r.hostId} + (if r.movedFrom.Some? then {r.movedFrom.value} else {})
  }

  /** A bot whose state must never be lost: it has been in service, and nobody asked to destroy it. */
  predicate Protected(w: World) {
    w.booted && !w.doomed
  }

  predicate Kept(w: World) {
    Protected(w) && !w.lost
  }

  // ----- What every reachable world satisfies -----

  ghost predicate Intact(w: World) {
    Kept(w) ==> Home(w) in w.volumes && w.volumes[Home(w)] == Saved(w.latest)
  }

  ghost predicate RunsOnlyAtRow(w: World) {
    forall h :: h in w.containers && w.containers[h].running ==> h == w.row.hostId && w.containers[h].started
  }

  /** Nothing of the bot is left on a host the row no longer names, so the sweeper can reach all of it. */
  ghost predicate NothingStranded(w: World) {
    && w.containers.Keys <= w.volumes.Keys
    && w.volumes.Keys <= Places(w.row)
  }

  ghost predicate RowConsistent(w: World) {
    && w.row.movedFrom != Some(w.row.hostId)
    && (w.row.moveObject.Some? ==> w.row.movedFrom.Some? && w.row.moveObject.value < w.nextArchive)
    && w.row.movedFrom.Some? == w.row.movedAt.Some?
    && (w.row.status.Stopped? ==> w.row.stoppedBefore)
    && (w.row.status.Destroying? || w.row.status.Destroyed? ==> w.doomed)
    && (w.served ==> w.row.moveObject.Some? && w.row.imported && w.booted && !w.row.status.Provisioning?)
    && (Protected(w) && w.row.status.Provisioning? ==> w.row.moveObject.Some?)
    && (forall a :: a in w.archives ==> a < w.nextArchive)
  }

  /** Nothing takes the old host's copy while its archive is recorded, short of a destroy. */
  ghost predicate RetainedThere(w: World) {
    w.row.moveObject.Some? && w.row.movedFrom.Some? && !w.doomed ==> w.row.movedFrom.value in w.volumes
  }

  /** Until the bot is in service on the target, the archive holds the very state left on the old host. */
  ghost predicate ArchiveFaithful(w: World) {
    Kept(w) && w.row.moveObject.Some? && !w.served && w.row.moveObject.value in w.archives
    ==> w.archives[w.row.moveObject.value] == Saved(w.latest)
  }

  /** Once the import is marked, the target holds a state at least as new as the one it came from, or the
      backup that was applied on top of it; before, it holds no backup. */
  ghost predicate TargetReady(w: World) {
    Kept(w) && w.row.moveObject.Some? ==>
      && (w.row.imported && !w.row.status.Error? ==>
            w.row.hostId in w.volumes && (w.volumes[w.row.hostId].Backup? || HasNewest(w, w.row.hostId)))
      && (!w.row.imported ==> VolumeAt(w, w.row.hostId) != Some(Backup))
  }

  predicate HasNewest(w: World, h: HostId) {
    h in w.volumes && w.volumes[h].Saved? && w.volumes[h].version >= w.latest
  }

  function VolumeAt(w: World, h: HostId): Option<Content> {
    if h in w.volumes then Some(w.volumes[h]) else None
  }

  ghost predicate Inv(w: World) {
    && Intact(w)
    && RunsOnlyAtRow(w)
    && NothingStranded(w)
    && RowConsistent(w)
    && RetainedThere(w)
    && ArchiveFaithful(w)
    && TargetReady(w)
    && !w.clobbered
  }

  /** The bookkeeping of a move: a recorded archive goes with a row that is not in service and was not since
      the flip, and the target starts only after the import was marked. */
  ghost predicate Bookkept(w: World) {
    w.row.moveObject.Some? ==>
      && !w.served
      && (w.row.status.Provisioning? || w.row.status.Error? || w.row.status.Destroyed?)
      && (w.row.hostId in w.containers && w.containers[w.row.hostId].started ==> w.row.imported)
  }

  /** What the invariant means for a reader who knows nothing of its parts. */
  lemma InvariantMeans(w: World)
    requires Inv(w) && Protected(w) && !w.lost
    ensures VolumeAt(w, Home(w)) == Some(Saved(w.latest))
    ensures w.row.moveObject.None? || w.served ==> VolumeAt(w, w.row.hostId) == Some(Saved(w.latest))
    ensures w.row.moveObject.Some? && !w.served ==>
              w.row.movedFrom.Some? && VolumeAt(w, w.row.movedFrom.value) == Some(Saved(w.latest))
  {
  }

  /** Of every bot, in service or not, lost or not: one host at most runs it, the row's; and nothing of it lies
      on a host the row does not name. */
  lemma OneHostRuns(w: World)
    requires Inv(w)
    ensures forall h :: h in w.containers && w.containers[h].running ==> h == w.row.hostId
    ensures forall h :: h in w.volumes || h in w.containers ==> h == w.row.hostId || w.row.movedFrom == Some(h)
  {
    assert forall h :: h in w.containers ==> h in w.volumes;
  }

  // ----- The effects of single calls -----

  function WriteStatus(w: World, s: Status): World {
    w.(row := w.row.(status := s, stoppedBefore := w.row.stoppedBefore || s.Stopped?))
  }

  function SetContainerId(w: World, id: Option<nat>): World {
    w.(row := w.row.(containerId := id))
  }

  function Max(a: nat, b: nat): nat {
    if a < b then b else a
  }

  /** The bot is in service on the row's host: from here its volume there is the bot, unless it was never
      given the bot's state. */
  function Adopted(w: World): World {
    var h := w.row.hostId;
    if h !in w.volumes || (w.row.moveObject.Some? && !w.row.imported) then w
    else if w.booted then
      if w.volumes[h].Saved? then
        w.(latest := Max(w.latest, w.volumes[h].version), served := w.row.moveObject.Some?)
      else w
    else if h in w.containers && w.containers[h].started then
      w.(booted := true, volumes := w.volumes[h := Saved(0)], latest := 0, served := w.row.moveObject.Some?)
    else w
  }

  function WentLive(w: World): World {
    Adopted(WriteStatus(w, Running))
  }

  /** What customers see between operations: a row that says so and a container that runs are a bot in service. */
  function Settled(w: World): World {
    if IsUp(w.row.status) && w.row.hostId in w.containers && w.containers[w.row.hostId].running then Adopted(w) else w
  }

  /** The container writes its volume for as long as it runs; the sum of that is seen when it halts. */
  function Halted(w: World, h: HostId): World {
    if h !in w.containers || !w.containers[h].running then w
    else Written(w, h).(containers := w.containers[h := w.containers[h].(running := false)])
  }

  function Written(w: World, h: HostId): World {
    if h !in w.volumes || !w.volumes[h].Saved? then w
    else
      var v := w.volumes[h].version + 1;
      w.(volumes := w.volumes[h := Saved(v)], latest := if h == Home(w) then Max(w.latest, v) else w.latest)
  }

  function Started(w: World, h: HostId): World
    requires h in w.containers
  {
    w.(containers := w.containers[h := w.containers[h].(running := true, started := true)])
  }

  function ContainerRemoved(w: World, h: HostId): World {
    var w1 := Halted(w, h);
    w1.(containers := w1.containers - {h})
  }

  function VolumeRemoved(w: World, h: HostId): World {
    w.(volumes := w.volumes - {h}, lost := w.lost || (Protected(w) && h == Home(w) && h in w.volumes))
  }

  function VolumeEnsured(w: World, h: HostId): World {
    if h in w.volumes then w else w.(volumes := w.volumes[h := Blank])
  }

  function ContainerCreated(w: World, h: HostId, id: nat): World {
    w.(containers := w.containers[h := Container(id, false, false, true)])
  }

  /** A volume read while its container writes it is no copy at all. */
  function Uploaded(w: World, h: HostId): World
    requires h in w.volumes
  {
    var torn := h in w.containers && w.containers[h].running;
    w.(archives := w.archives[w.nextArchive := if torn then Partial else w.volumes[h]],
       nextArchive := w.nextArchive + 1)
  }

  function UploadTorn(w: World): World {
    w.(archives := w.archives[w.nextArchive := Partial], nextArchive := w.nextArchive + 1)
  }

  function ArchiveDeleted(w: World, a: Archive): World {
    w.(archives := w.archives - {a})
  }

  function ImportedInto(w: World, h: HostId, content: Content): World {
    w.(volumes := w.volumes[h := content],
       clobbered := w.clobbered || (h in w.containers && w.containers[h].started))
  }

  function ImportMarked(w: World): World {
    w.(row := w.row.(imported := true))
  }

  /** The agent's backup replaces whatever is on the volume. */
  function BackupRestored(w: World, h: HostId): World {
    w.(volumes := w.volumes[h := Backup])
  }

  function BackupMarked(w: World): World {
    w.(row := w.row.(backupPending := false))
  }

  predicate FlipGuard(w: World, from: HostId) {
    w.row.hostId == from && w.row.status.Stopped?
  }

  function Flipped(w: World, to: HostId, archive: Archive, keepStopped: bool, at: int): World {
    w.(row := w.row.(
         hostId := to,
         status := Provisioning,
         containerId := None,
         movedFrom := Some(w.row.hostId),
         moveObject := Some(archive),
         movedAt := Some(at),
         imported := false,
         stoppedBefore := w.row.stoppedBefore && keepStopped),
       served := false)
  }

  lemma FlipsOnlyTheRow(w: World, w': World, to: HostId, archive: Archive, keepStopped: bool, at: int)
    requires w.row == w'.row
    ensures Flipped(w, to, archive, keepStopped, at).row == Flipped(w', to, archive, keepStopped, at).row
  {
  }

  lemma FreshTargetCanImport(w: World, to: HostId, archive: Archive, keepStopped: bool, at: int)
    requires Inv(w) && to !in w.volumes && archive in w.archives
    ensures CanImport(Flipped(w, to, archive, keepStopped, at))
  {
  }

  lemma UploadAdds(w: World, h: HostId)
    requires Inv(w) && h in w.volumes
    ensures Uploaded(w, h).archives - {w.nextArchive} == w.archives
    ensures UploadTorn(w).archives - {w.nextArchive} == w.archives
  {
  }

  lemma FlipsTo(w: World, to: HostId, keepStopped: bool, at: int)
    ensures forall archive :: Flipped(w, to, archive, keepStopped, at).row == w.row.(hostId := to,
              status := Provisioning, containerId := None, movedFrom := Some(w.row.hostId), moveObject := Some(archive),
              movedAt := Some(at), imported := false, stoppedBefore := w.row.stoppedBefore && keepStopped)
  {
  }

  predicate MoveBackGuard(w: World, to: HostId) {
    w.row.status.Error? && w.row.movedFrom == Some(to) && w.row.moveObject.Some?
  }

  function MovedBack(w: World, to: HostId): World {
    w.(row := w.row.(
         hostId := to, containerId := None, movedFrom := None, moveObject := None, movedAt := None, imported := false),
       served := false)
  }

  /** The target is the bot from here, whatever it holds. */
  function MoveCompleted(w: World, s: Status): World {
    Adopted(w.(row := w.row.(status := s, moveObject := None, imported := false), served := false,
               lost := w.lost || (Protected(w) && !HasNewest(w, w.row.hostId))))
  }

  function MoveCleared(w: World): World {
    w.(row := w.row.(movedFrom := None, moveObject := None, movedAt := None, imported := false), served := false)
  }

  /** A new runtime image is rolled out: every container there is on an old one. */
  function ImageBumped(w: World): World {
    w.(containers := map h | h in w.containers :: w.containers[h].(current := false))
  }

  function Doomed(w: World): World {
    w.(doomed := true)
  }

  // ----- How an operation on one host may change a world -----

  predicate NotOlder(a: Content, b: Content) {
    if a.Saved? then b.Saved? && a.version <= b.version else a == b
  }

  /** What provisioning may do on `h`: nothing elsewhere, nothing to the row but its container id, and
      a saved volume stays saved and gets no older, and no backup appears. */
  ghost predicate Tended(w: World, w': World, h: HostId) {
    && w'.row.(containerId := w.row.containerId) == w.row
    && w'.archives == w.archives && w'.nextArchive == w.nextArchive
    && w'.booted == w.booted && w'.served == w.served && w'.doomed == w.doomed && w'.lost == w.lost
    && SameElsewhere(w, w', h)
    && (if h in w.volumes then h in w'.volumes &&
       NotOlder(w.volumes[h], w'.volumes[h]) else VolumeAt(w', h) != Some(Backup))
    && (h != Home(w) ==> w'.latest == w.latest)
  }

  predicate SameAt(w: World, w': World, g: HostId) {
    && (g in w.containers <==> g in w'.containers) && (g in w.containers ==> w'.containers[g] == w.containers[g])
    && (g in w.volumes <==> g in w'.volumes) && (g in w.volumes ==> w'.volumes[g] == w.volumes[g])
  }

  ghost predicate SameElsewhere(w: World, w': World, h: HostId) {
    forall g :: g != h ==> SameAt(w, w', g)
  }

  function ContainerAt(w: World, h: HostId): Option<Container> {
    if h in w.containers then Some(w.containers[h]) else None
  }

  /** What is kept for the rollback: the old host, since when, and the container and volume left on it. */
  datatype Rollback =
    NoRollback | Rollback(host: HostId, since: Option<int>, container: Option<Container>, volume: Option<Content>)

  function RollbackOf(w: World): Rollback {
    if w.row.movedFrom.None? then NoRollback
    else
      var h := w.row.movedFrom.value;
      Rollback(h, w.row.movedAt, ContainerAt(w, h), VolumeAt(w, h))
  }

  predicate RollbackUntouched(w: World, w': World) {
    RollbackOf(w) == RollbackOf(w')
  }

  /** The archives without the one the row records. */
  function Discarded(w: World): map<Archive, Content> {
    if w.row.moveObject.Some? then w.archives - {w.row.moveObject.value} else w.archives
  }

  /** The same move, as far as it has got: the row names the same hosts and archive in the same
      status, and the host kept for the rollback is as it was. */
  predicate SameMove(w: World, w': World) {
    && w'.row.hostId == w.row.hostId && w'.row.status == w.row.status
    && w'.row.moveObject == w.row.moveObject && w'.row.stoppedBefore == w.row.stoppedBefore
    && w'.booted == w.booted && w'.served == w.served && w'.doomed == w.doomed && w'.lost == w.lost
    && (w.row.moveObject.Some? && !w.served ==> w'.latest == w.latest)
    && w'.archives == w.archives && w'.nextArchive == w.nextArchive
    && RollbackUntouched(w, w')
  }

  lemma SameMoveReflexive(w: World)
    ensures SameMove(w, w)
  {
  }

  lemma ContainersAreOnVolumes(w: World)
    requires Inv(w)
    ensures forall h :: h in w.containers ==> h in w.volumes
  {
  }

  lemma SameElsewhereStill(w: World, w': World, w'': World, h: HostId)
    requires SameElsewhere(w, w', h) && w''.containers == w'.containers && w''.volumes == w'.volumes
    ensures SameElsewhere(w, w'', h)
  {
    forall g | g != h
      ensures SameAt(w, w'', g)
    {
      assert SameAt(w, w', g);
    }
  }

  lemma TendedReflexive(w: World, h: HostId)
    ensures Tended(w, w, h)
  {
  }

  lemma TendedTransitive(a: World, b: World, c: World, h: HostId)
    requires Tended(a, b, h) && Tended(b, c, h)
    ensures Tended(a, c, h)
  {
    forall g | g != h
      ensures SameAt(a, c, g)
    {
      assert SameAt(a, b, g) && SameAt(b, c, g);
    }
  }

  lemma VolumeTends(w: World, h: HostId, v: nat, latest: nat)
    requires h in w.volumes && w.volumes[h].Saved? && w.volumes[h].version <= v && (h != Home(w) ==> latest == w.latest)
    ensures Tended(w, w.(volumes := w.volumes[h := Saved(v)], latest := latest), h)
  {
    var w' := w.(volumes := w.volumes[h := Saved(v)], latest := latest);
    assert forall g :: g != h ==> SameAt(w, w', g);
    hide SameAt;
  }

  lemma WrittenTends(w: World, h: HostId)
    ensures Tended(w, Written(w, h), h) && Written(w, h).containers == w.containers
  {
    hide Tended;
    if h in w.volumes && w.volumes[h].Saved? {
      VolumeTends(w, h, w.volumes[h].version + 1, Written(w, h).latest);
    } else {
      TendedReflexive(w, h);
    }
  }

  lemma ContainersTend(w: World, h: HostId, containers: map<HostId, Container>)
    requires forall g :: g != h ==>
               (g in containers <==> g in w.containers) && (g in w.containers ==> containers[g] == w.containers[g])
    ensures Tended(w, w.(containers := containers), h)
  {
  }

  lemma HaltTends(w: World, h: HostId)
    ensures Tended(w, Halted(w, h), h)
  {
    hide Tended;
    if h in w.containers && w.containers[h].running {
      var w1 := Written(w, h);
      WrittenTends(w, h);
      hide Written;
      ContainersTend(w1, h, w.containers[h := w.containers[h].(running := false)]);
      TendedTransitive(w, w1, Halted(w, h), h);
    } else {
      TendedReflexive(w, h);
    }
  }

  lemma HaltAdvances(w: World, h: HostId)
    requires Inv(w)
    ensures var w' := Halted(w, h);
            && w'.row == w.row && w'.booted == w.booted && w'.served == w.served && w'.doomed == w.doomed &&
               w'.lost == w.lost
            && w'.containers.Keys == w.containers.Keys && w'.volumes.Keys == w.volumes.Keys
            && (h in w.containers ==> !w'.containers[h].running)
            && w.latest <= w'.latest
  {
  }

  lemma RemovalTends(w: World, h: HostId)
    ensures Tended(w, Halted(w, h), h) && Tended(w, ContainerRemoved(w, h), h)
  {
    hide Tended;
    HaltTends(w, h);
    var w1 := Halted(w, h);
    hide Halted;
    ContainersTend(w1, h, w1.containers - {h});
    TendedTransitive(w, w1, ContainerRemoved(w, h), h);
  }

  /** What taking the bot off `h` may change: nothing on other hosts, nothing of the row. */
  ghost predicate Erasing(w: World, w': World, h: HostId) {
    && w'.row == w.row && w'.booted == w.booted && w'.served == w.served && w'.doomed == w.doomed
    && (w'.lost <==> w.lost || (Protected(w) && h == Home(w) && h in w.volumes && h !in w'.volumes))
    && w'.archives == w.archives && w'.nextArchive == w.nextArchive
    && (h != Home(w) ==> w'.latest == w.latest)
    && SameElsewhere(w, w', h)
  }

  lemma RemovalErases(w: World, h: HostId)
    ensures Erasing(w, w, h) && Erasing(w, ContainerRemoved(w, h), h)
    ensures Erasing(w, VolumeRemoved(w, h), h) && Erasing(w, VolumeRemoved(ContainerRemoved(w, h), h), h)
  {
    RemovalTends(w, h);
    VolumeRemovalErases(w, h);
    VolumeRemovalErases(ContainerRemoved(w, h), h);
    forall g | g != h
      ensures SameAt(w, VolumeRemoved(ContainerRemoved(w, h), h), g)
    {
      assert SameAt(w, ContainerRemoved(w, h), g);
    }
  }

  lemma VolumeRemovalErases(w: World, h: HostId)
    ensures Erasing(w, VolumeRemoved(w, h), h)
  {
  }

  lemma ErasingLeavesRollback(w: World, w': World, h: HostId)
    requires Erasing(w, w', h) && w.row.movedFrom != Some(h)
    ensures RollbackUntouched(w, w')
  {
    if w.row.movedFrom.Some? {
      assert SameAt(w, w', w.row.movedFrom.value);
    }
  }

  lemma ErasingSpares(w: World, w': World, h: HostId, g: HostId)
    requires Erasing(w, w', h) && g != h
    ensures SameAt(w, w', g) && w'.row == w.row && w'.archives == w.archives
  {
  }

  /** A write of the row that leaves the move columns alone. */
  predicate OnlyRowWritten(w: World, w': World) {
    && w'.containers == w.containers && w'.volumes == w.volumes
    && w'.archives == w.archives && w'.nextArchive == w.nextArchive
    && w'.latest == w.latest && w'.booted == w.booted && w'.served == w.served && w'.doomed == w.doomed &&
       w'.lost == w.lost
    && w'.row.hostId == w.row.hostId && w'.row.backupPending == w.row.backupPending &&
       w'.row.movedFrom == w.row.movedFrom && w'.row.moveObject == w.row.moveObject
  }

  lemma TendingIsSameMove(w: World, w': World)
    requires RowConsistent(w) && Tended(w, w', w.row.hostId)
    ensures SameMove(w, w')
  {
    if w.row.movedFrom.Some? {
      assert SameAt(w, w', w.row.movedFrom.value);
    }
  }

  lemma TendingKeepsImport(w: World, w': World)
    requires Tended(w, w', w.row.hostId) && (NeverStarted(w) ==> NeverStarted(w'))
    ensures CanImport(w) ==> CanImport(w')
  {
  }

  lemma TendingMakesNoBackup(w: World, w': World, h: HostId)
    requires Tended(w, w', h)
    ensures w'.archives == w.archives
    ensures VolumeAt(w', h) == Some(Backup) <==> VolumeAt(w, h) == Some(Backup)
  {
  }

  /** Provisioning finished: the row is in service on its own host, or stopped there if the bot was
      moved while stopped, and no move is recorded any more. */
  predicate Landed(w: World, w': World) {
    var leaveStopped := w.row.moveObject.Some? && w.row.stoppedBefore;
    && w'.row.hostId == w.row.hostId
    && w'.row.moveObject.None?
    && w'.row.status == (if leaveStopped then Stopped else Running)
    && w'.row.hostId in w'.containers
    && (!leaveStopped ==> w'.containers[w'.row.hostId].running)
    && (Protected(w) ==> Protected(w'))
    && (Protected(w) && w.row.moveObject.Some? ==> w.latest <= w'.latest)
    && (!leaveStopped ==> w'.booted)
  }

  /** A backup lies, or will be put, on top of the state of a bot that has been in service: its import is
      pending, or an attempt before this one has applied it. */
  predicate BackupAhead(w: World) {
    Protected(w) && (w.row.backupPending || VolumeAt(w, w.row.hostId) == Some(Backup))
  }

  predicate OnCurrentImage(w: World) {
    w.row.hostId in w.containers && w.containers[w.row.hostId].current
  }

  predicate RunsHere(w: World) {
    w.row.hostId in w.containers && w.containers[w.row.hostId].running
  }

  /** The container that was there, untouched but running. */
  predicate Reused(w: World, w': World) {
    && w.row.hostId in w.containers && w.row.hostId in w'.containers
    && w'.containers[w.row.hostId] == w.containers[w.row.hostId].(running := true, started := true)
  }

  /** What a bot in service had in hand is on its volume. */
  predicate WroteOut(w: World, w': World) {
    w.booted && RunsHere(w) && w.row.hostId in w.volumes && w.volumes[w.row.hostId].Saved? ==>
      VolumeAt(w', w.row.hostId) == Some(Saved(w.volumes[w.row.hostId].version + 1))
  }

  lemma RestartReuses(w: World, w1: World, w2: World)
    requires w2.row.hostId == w1.row.hostId == w.row.hostId && OnCurrentImage(w)
    requires w1.containers == w.containers && w1.volumes == w.volumes
    requires w2 == Halted(w1, w1.row.hostId)
    ensures OnCurrentImage(w2)
    ensures Reused(w, Started(w2, w2.row.hostId)) && WroteOut(w, Started(w2, w2.row.hostId))
  {
  }

  lemma StartReuses(w: World, w1: World)
    requires w1.row.hostId == w.row.hostId && OnCurrentImage(w) && w1.containers == w.containers
    ensures OnCurrentImage(w1) && Reused(w, Started(w1, w1.row.hostId))
  {
  }

  /** The row's container id names the container that is there. */
  predicate IdFits(w: World) {
    w.row.hostId in w.containers && w.row.containerId == Some(w.containers[w.row.hostId].id)
  }

  predicate NeverStarted(w: World) {
    w.row.hostId in w.containers ==> !w.containers[w.row.hostId].started
  }

  /** A bot moved while it was stopped, and not booted since. */
  predicate LeftStopped(w: World) {
    w.row.moveObject.Some? && w.row.stoppedBefore && NeverStarted(w)
  }

  /** An import that is due finds its archive, and a container that never ran. */
  predicate CanImport(w: World) {
    w.row.moveObject.Some? && !w.row.imported ==> w.row.moveObject.value in w.archives && NeverStarted(w)
  }

  /** A copy on the target that is not the stale one of a finished move. */
  predicate ForeignCopy(w: World, target: HostId) {
    target in w.volumes && (w.row.movedFrom != Some(target) || w.row.moveObject.Some?)
  }

  /** Nothing that is there already keeps the move from its try block. */
  predicate Ready(w: World, target: HostId) {
    w.row.hostId in w.containers && (target != w.row.hostId ==> !ForeignCopy(w, target))
  }

  /** The bot's own host as it was, nothing exported, and the row at most marked stopped. */
  predicate SourceUntouched(w: World, w': World) {
    && SameAt(w, w', w.row.hostId) && w'.archives == w.archives && w'.nextArchive == w.nextArchive
    && w'.row.hostId == w.row.hostId && (w'.row.status == w.row.status || w'.row.status.Stopped?)
  }

  /** A bot that was up is up again on `h` and its row says so; one that was stopped still is. */
  predicate BackInPlace(w: World, h: HostId, was: Status) {
    && w.row.hostId == h && h in w.containers
    && (IsUp(was) ==> w.row.status.Running? && w.containers[h].running)
    && (was.Stopped? ==> w.row.status.Stopped?)
  }

  /** The guards of a move, in the terms of the row it is asked for. */
  predicate MoveRefused(w: World, target: HostId, dryRun: bool) {
    || w.row.status.Destroyed? || (target == w.row.hostId && !dryRun)
    || (if w.row.status.Error? && w.row.movedFrom == Some(target) then dryRun || w.row.moveObject.None?
        else
          || !IsMovable(w.row.status)
          || (w.row.movedFrom.Some? && w.row.movedFrom != Some(target) && !(dryRun && target == w.row.hostId)))
  }

  /** Nothing of the bot lies on the row's host. */
  predicate Emptied(w: World) {
    w.row.hostId !in w.containers && w.row.hostId !in w.volumes
  }

  lemma BackupPendingIsAhead(w: World)
    ensures Protected(w) && w.row.backupPending ==> BackupAhead(w)
  {
  }

  lemma UnimportedIsNoBackup(w: World)
    requires Inv(w)
    ensures Kept(w) && w.row.moveObject.Some? && !w.row.imported ==> VolumeAt(w, w.row.hostId) != Some(Backup)
  {
  }

  lemma ProvisioningIsNotServed(w: World)
    requires Inv(w) && w.row.status.Provisioning?
    ensures !w.served && (w.booted && !w.doomed ==> w.row.moveObject.Some?)
  {
  }

  lemma RowIsElsewhere(w: World)
    requires Inv(w)
    ensures w.row.movedFrom != Some(w.row.hostId)
  {
  }

  lemma DoomedMayErase(w: World, h: HostId)
    requires w.doomed
    ensures MayErase(w, h)
  {
  }

  lemma SoundRowIsConsistent(w: World)
    requires Inv(w)
    ensures RowConsistent(w)
  {
  }

  lemma ArchiveIsNewest(w: World)
    requires Inv(w) && w.row.moveObject.Some? && !w.row.imported
    ensures Kept(w) && w.row.moveObject.value in w.archives ==> w.archives[w.row.moveObject.value] == Saved(w.latest)
  {
  }

  lemma HomeIsNewest(w: World)
    requires Inv(w)
    ensures Kept(w) && w.row.moveObject.None? ==> VolumeAt(w, w.row.hostId) == Some(Saved(w.latest))
    ensures w.row.hostId in w.containers ==> w.row.hostId in w.volumes
    ensures w.nextArchive !in w.archives && w.archives - {w.nextArchive} == w.archives
  {
  }

  lemma ErasingIsThere(w: World, w': World, h: HostId)
    requires Erasing(w, w', h)
    ensures SameElsewhere(w, w', h) && Discarded(w') == Discarded(w) && w'.row == w.row && Protected(w') == Protected(w)
    ensures h != w.row.hostId && (Protected(w) ==> w.row.moveObject.None?) ==> w'.lost == w.lost
  {
  }

  lemma SameAtReflexive(w: World, g: HostId)
    ensures SameAt(w, w, g)
  {
  }

  lemma SameAtTransitive(a: World, b: World, c: World, g: HostId)
    requires SameAt(a, b, g) && SameAt(b, c, g)
    ensures SameAt(a, c, g)
  {
  }

  lemma StoppedWasStopped(w: World)
    requires Inv(w)
    ensures w.row.status.Stopped? ==> w.row.stoppedBefore
  {
  }

  lemma BookkeptIsNotServed(w: World)
    requires Inv(w) && Bookkept(w)
    ensures !w.served
  {
  }

  /** While a move is recorded and the target not in service, the old host's volume is the bot, and removing
      its container leaves it so. */
  lemma SourceKept(w: World)
    requires Inv(w) && w.row.moveObject.Some? && !w.served
    ensures Kept(w) ==> VolumeAt(w, w.row.movedFrom.value) == Some(Saved(w.latest))
    ensures var w' := ContainerRemoved(w, w.row.movedFrom.value);
            && w'.row == w.row && w'.latest == w.latest && w'.lost == w.lost && w'.served == w.served
            && w'.archives == w.archives && w'.nextArchive == w.nextArchive
            && ContainerAt(w', w.row.movedFrom.value).None?
            && w'.booted == w.booted && w'.doomed == w.doomed && VolumeAt(w', w.row.hostId) == VolumeAt(w, w.row.hostId)
            && (LeftStopped(w) ==> LeftStopped(w')) && (CanImport(w) ==> CanImport(w'))
            && BackupAhead(w') == BackupAhead(w) && Discarded(w') == Discarded(w)
            && Protected(w') == Protected(w) && Kept(w') == Kept(w)
  {
  }

  lemma LandedFrom(w: World, w': World, w'': World)
    requires w.row.status.Provisioning? && Inv(w) && SameMove(w, w')
    ensures Landed(w', w'') ==> Landed(w, w'')
    ensures RollbackUntouched(w', w'') ==> RollbackUntouched(w, w'')
    ensures Protected(w') == Protected(w) && Kept(w') == Kept(w)
    ensures w'.archives == w.archives ==> Discarded(w') == Discarded(w)
  {
  }

  lemma LandedKept(w: World, w': World)
    requires w.row.moveObject.Some? && w.row.movedFrom.Some?
    requires Landed(w, w') && RollbackUntouched(w, w') && Inv(w')
    ensures w'.row.movedFrom == w.row.movedFrom && w'.row.movedAt == w.row.movedAt
    ensures VolumeAt(w', w.row.movedFrom.value) == VolumeAt(w, w.row.movedFrom.value)
    ensures ContainerAt(w', w.row.movedFrom.value) == ContainerAt(w, w.row.movedFrom.value)
    ensures w'.row.moveObject.None? && w'.row.status == if w.row.stoppedBefore then Stopped else Running
    ensures Kept(w) && !w'.lost ==> Kept(w') && w.latest <= w'.latest
    ensures Kept(w') ==> VolumeAt(w', w'.row.hostId) == Some(Saved(w'.latest))
  {
  }

  // ----- Which calls keep the invariant, and when -----

  /** What a removal has to answer for besides the bot itself: no finished import goes while somebody may
      still boot it, and no copy kept for a rollback. */
  predicate MayErase(w: World, h: HostId) {
    && (Kept(w) && w.row.moveObject.Some? && w.row.imported && !w.served && h == w.row.hostId ==> w.row.status.Error?)
    && (w.row.moveObject.Some? && !w.doomed ==> w.row.movedFrom != Some(h))
  }

  predicate MayWrite(w: World, s: Status) {
    && (s.Destroying? || s.Destroyed? ==> w.doomed)
    && (s.Provisioning? ==> !w.served)
    && (s.Provisioning? && Protected(w) ==> w.row.moveObject.Some?)
    && (w.row.status.Error? && !s.Error? ==> w.row.moveObject.None? || w.doomed)
  }

  /** The row says `error` before anything goes, so nobody finishes the boot on what is left; and what goes
      is not the bot, unless the promotion had committed. */
  lemma FailedBootMayBeErased(w: World, promoted: bool)
    requires Inv(w) && (promoted <==> !w.row.status.Provisioning?) && (promoted ==> w.row.moveObject.None?)
    ensures w.row.movedFrom != Some(w.row.hostId)
    ensures MayErase(WriteStatus(w, Error), w.row.hostId)
    ensures !promoted && Protected(w) ==> Home(w) != w.row.hostId
    ensures promoted ==> Home(w) == w.row.hostId && (Kept(w) ==> w.row.hostId in w.volumes)
  {
  }

  lemma WriteStatusKeeps(w: World, s: Status)
    requires Inv(w) && MayWrite(w, s)
    ensures Inv(WriteStatus(w, s))
    ensures Bookkept(w) && (w.row.moveObject.Some? ==> s.Provisioning? || s.Error? || s.Destroyed?) ==>
              Bookkept(WriteStatus(w, s))
  {
  }

  lemma WentLiveKeeps(w: World)
    requires Inv(w) && MayWrite(w, Running)
    ensures Inv(WentLive(w))
    ensures Bookkept(w) && w.row.moveObject.None? ==> Bookkept(WentLive(w))
  {
    WriteStatusKeeps(w, Running);
  }

  lemma WentLiveIsLocal(w: World)
    requires Inv(w)
    ensures WentLive(w).row == WriteStatus(w, Running).row && WentLive(w).containers == w.containers
    ensures RollbackUntouched(w, WentLive(w))
    ensures w.row.moveObject.None? && w.row.hostId in w.containers && w.containers[w.row.hostId].started ==>
              WentLive(w).booted
    ensures WentLive(w).doomed == w.doomed && WentLive(w).lost == w.lost && (w.booted ==> WentLive(w).booted)
    ensures WentLive(w).archives == w.archives && (w.booted ==> WentLive(w).volumes == w.volumes)
  {
  }

  lemma StatusWritesOnlyTheRow(w: World, s: Status)
    ensures OnlyRowWritten(w, WriteStatus(w, s)) && OnlyRowWritten(w, w)
  {
  }

  lemma MovableIsNotMidMove(w: World)
    requires Bookkept(w) && IsMovable(w.row.status)
    ensures w.row.moveObject.None?
  {
  }

  /** What the erasure before a rollback takes: the bot exactly if it was in service there. */
  lemma ErasedForRollback(w: World, w': World, to: HostId)
    requires Inv(w) && MoveBackGuard(w, to) && Erasing(w, w', w.row.hostId)
    ensures VolumeAt(w', to) == VolumeAt(w, to) && w'.row == w.row && w'.served == w.served && w'.booted == w.booted &&
            w'.doomed == w.doomed
    ensures !w.served ==> w'.lost == w.lost && w'.latest == w.latest
    ensures w.row.hostId !in w'.volumes ==> (w'.lost <==> w.lost || (Protected(w) && w.served))
  {
    assert SameAt(w, w', to);
  }

  lemma RolledBack(w: World, to: HostId)
    requires MoveBackGuard(w, to) && Inv(MovedBack(w, to))
    ensures var w' := MovedBack(w, to);
            && VolumeAt(w', to) == VolumeAt(w, to) && w'.lost == w.lost && w'.latest == w.latest &&
               w'.containers == w.containers && w'.volumes == w.volumes
            && w'.booted == w.booted && w'.doomed == w.doomed
            && (Kept(w') ==> VolumeAt(w', to) == Some(Saved(w'.latest)))
  {
  }

  lemma MoveClearedIsLocal(w: World, w': World)
    requires w'.row == w.row
    ensures MoveCleared(w).row.movedFrom.None? && MoveCleared(w').row == MoveCleared(w).row
    ensures MoveCleared(w').containers == w'.containers && MoveCleared(w').volumes == w'.volumes &&
            MoveCleared(w').archives == w'.archives
  {
  }

  lemma IdFitsByRow(w: World, w': World)
    ensures w'.row == w.row && w'.containers == w.containers ==> IdFits(w') == IdFits(w)
  {
  }

  lemma SameAhead(w: World, w': World)
    requires SameMove(w, w') && w'.row.backupPending == w.row.backupPending
    requires VolumeAt(w', w'.row.hostId) == Some(Backup) <==> VolumeAt(w, w.row.hostId) == Some(Backup)
    ensures BackupAhead(w') == BackupAhead(w)
  {
  }

  lemma ReturnedRow(w: World, to: HostId)
    ensures MovedBack(w, to).row == w.row.(hostId := to, containerId := None, movedFrom := None, moveObject := None,
              movedAt := None, imported := false)
  {
  }

  lemma SameRowSameReturn(w: World, w1: World, to: HostId)
    requires w1.row == w.row
    ensures MovedBack(w1, to).row == MovedBack(w, to).row
  {
  }

  lemma MayEraseTarget(w: World, to: HostId)
    requires Inv(w) && MoveBackGuard(w, to)
    ensures MayErase(w, w.row.hostId)
  {
  }

  lemma StatusIsLocal(w: World, s: Status)
    ensures var w' := WriteStatus(w, s);
            && w'.row.status == s && w'.row.hostId == w.row.hostId && w'.row.moveObject == w.row.moveObject
            && w'.row.containerId == w.row.containerId && w'.containers == w.containers && IdFits(w') == IdFits(w)
            && w'.booted == w.booted && w'.served == w.served && w'.doomed == w.doomed && w'.lost == w.lost
            && w'.archives == w.archives && w'.volumes == w.volumes && RollbackUntouched(w, w')
  {
  }

  lemma BackupIsLocal(w: World)
    requires Inv(w)
    ensures SameMove(w, BackupRestored(w, w.row.hostId))
  {
  }

  lemma BackupMarkIsLocal(w: World)
    ensures SameMove(w, BackupMarked(w))
  {
  }

  lemma StartRuns(w: World, h: HostId)
    requires h in w.containers
    ensures var w' := Started(w, h);
            && w'.row == w.row && w'.volumes == w.volumes && w'.archives == w.archives && w'.latest == w.latest
            && w'.nextArchive == w.nextArchive && w'.booted == w.booted && w'.served == w.served
            && w'.doomed == w.doomed && w'.lost == w.lost
            && h in w'.containers && w'.containers[h].running && w'.containers[h].started
            && (w.containers[h].current ==> w'.containers[h].current)
  {
  }

  lemma StartedIsLocal(w: World)
    requires Inv(w) && w.row.hostId in w.containers
    ensures SameMove(w, Started(w, w.row.hostId))
  {
  }

  lemma SettledKeeps(w: World)
    requires Inv(w)
    ensures Inv(Settled(w)) && (Bookkept(w) ==> Bookkept(Settled(w)))
    ensures Settled(w).row == w.row && Settled(w).doomed == w.doomed && Settled(w).lost == w.lost &&
            (w.booted ==> Settled(w).booted)
    ensures w.row.moveObject.None? ==> Settled(w).served == w.served
  {
  }

  lemma RunningMidMoveIsNotBookkept(w: World)
    ensures w.row.moveObject.Some? && w.row.status.Running? ==> !Bookkept(w)
    ensures Bookkept(w) && w.row.moveObject.Some? ==> !IsUp(w.row.status) && !w.row.status.Stopped?
  {
  }

  lemma SetContainerIdKeeps(w: World, id: Option<nat>)
    requires Inv(w)
    ensures Inv(SetContainerId(w, id))
    ensures Bookkept(w) ==> Bookkept(SetContainerId(w, id))
  {
  }

  /** What a running container writes is written on the row's host, so no recorded archive goes stale. */
  lemma WrittenKeeps(w: World)
    requires Inv(w)
    ensures Inv(Written(w, w.row.hostId))
    ensures Bookkept(w) ==> Bookkept(Written(w, w.row.hostId))
  {
    var w' := Written(w, w.row.hostId);
    assert w' == w.(volumes := w'.volumes, latest := w'.latest) && w'.volumes.Keys == w.volumes.Keys;
  }

  lemma HaltedKeeps(w: World, h: HostId)
    requires Inv(w)
    ensures Inv(Halted(w, h))
    ensures Bookkept(w) ==> Bookkept(Halted(w, h))
  {
    if h in w.containers && w.containers[h].running {
      WrittenKeeps(w);
      var w1 := Written(w, h);
      assert w1.containers == w.containers && w1.row == w.row;
    }
  }

  lemma StartedKeeps(w: World)
    requires Inv(w) && w.row.hostId in w.containers
    ensures Inv(Started(w, w.row.hostId))
    ensures Bookkept(w) && (w.row.moveObject.Some? ==> w.row.imported) ==> Bookkept(Started(w, w.row.hostId))
  {
  }

  lemma ContainerRemovedKeeps(w: World, h: HostId)
    requires Inv(w)
    ensures Inv(ContainerRemoved(w, h))
    ensures Bookkept(w) ==> Bookkept(ContainerRemoved(w, h))
  {
    HaltedKeeps(w, h);
  }

  lemma VolumeRemovedKeeps(w: World, h: HostId)
    requires Inv(w) && h !in w.containers && MayErase(w, h)
    ensures Inv(VolumeRemoved(w, h))
    ensures Bookkept(w) ==> Bookkept(VolumeRemoved(w, h))
  {
  }

  lemma VolumeEnsuredKeeps(w: World)
    requires Inv(w)
    ensures Inv(VolumeEnsured(w, w.row.hostId))
    ensures Bookkept(w) ==> Bookkept(VolumeEnsured(w, w.row.hostId))
  {
  }

  lemma ContainerCreatedKeeps(w: World, id: nat)
    requires Inv(w) && w.row.hostId !in w.containers && w.row.hostId in w.volumes
    ensures Inv(ContainerCreated(w, w.row.hostId, id))
    ensures Bookkept(w) ==> Bookkept(ContainerCreated(w, w.row.hostId, id))
  {
  }

  lemma UploadKeeps(w: World, h: HostId)
    requires Inv(w) && h in w.volumes
    ensures Inv(Uploaded(w, h)) && Inv(UploadTorn(w))
    ensures Bookkept(w) ==> Bookkept(Uploaded(w, h)) && Bookkept(UploadTorn(w))
  {
  }

  lemma ArchiveDeletedKeeps(w: World, a: Archive)
    requires Inv(w)
    ensures Inv(ArchiveDeleted(w, a))
    ensures Bookkept(w) ==> Bookkept(ArchiveDeleted(w, a))
  {
  }

  /** A torn import is harmless while the container has never run and nothing marks the import as done. */
  lemma ImportKeeps(w: World, content: Content)
    requires Inv(w) && w.row.moveObject.Some? && !w.row.imported && (Kept(w) ==> content != Backup)
    requires w.row.hostId in w.volumes && w.row.hostId in w.containers && !w.containers[w.row.hostId].started
    ensures Inv(ImportedInto(w, w.row.hostId, content))
    ensures Bookkept(w) ==> Bookkept(ImportedInto(w, w.row.hostId, content))
  {
  }

  lemma ImportMarkedKeeps(w: World)
    requires Inv(w) && w.row.moveObject.Some?
    requires Kept(w) ==> w.row.hostId in w.volumes && w.volumes[w.row.hostId] == Saved(w.latest)
    ensures Inv(ImportMarked(w))
    ensures Bookkept(w) ==> Bookkept(ImportMarked(w))
  {
  }

  lemma BackupKeeps(w: World)
    requires Inv(w) && w.row.backupPending && w.row.hostId in w.volumes && w.row.status.Provisioning?
    requires w.row.moveObject.Some? ==> w.row.imported
    ensures Inv(BackupRestored(w, w.row.hostId)) && Inv(BackupMarked(w))
    ensures Bookkept(w) ==> Bookkept(BackupRestored(w, w.row.hostId)) && Bookkept(BackupMarked(w))
  {
  }

  /** The flip is safe exactly because the source is down, the target is empty, and the archive was
      taken from the source as it now stands. */
  lemma FlippedKeeps(w: World, to: HostId, archive: Archive, keepStopped: bool, at: int)
    requires Inv(w) && FlipGuard(w, w.row.hostId) && to != w.row.hostId
    requires Protected(w) ==> w.row.moveObject.None?
    requires w.row.movedFrom.None? || w.row.movedFrom == Some(to)
    requires w.row.hostId in w.containers ==> !w.containers[w.row.hostId].running
    requires to !in w.volumes
    requires archive < w.nextArchive && w.row.hostId in w.volumes
    requires Kept(w) && archive in w.archives ==> w.archives[archive] == Saved(w.latest)
    ensures Inv(Flipped(w, to, archive, keepStopped, at))
    ensures Bookkept(Flipped(w, to, archive, keepStopped, at))
  {
  }

  lemma MovedBackKeeps(w: World, to: HostId)
    requires Inv(w) && MoveBackGuard(w, to) && w.row.hostId !in w.volumes
    ensures Inv(MovedBack(w, to)) && Bookkept(MovedBack(w, to))
  {
  }

  lemma MoveCompletedKeeps(w: World, s: Status)
    requires Inv(w) && w.row.status.Provisioning? && w.row.moveObject.Some? && w.row.imported
    requires s.Running? || (s.Stopped? && w.row.stoppedBefore)
    ensures Inv(MoveCompleted(w, s)) && Bookkept(MoveCompleted(w, s))
  {
  }

  /** A promotion loses the bot exactly when the target holds a backup in place of its state. */
  lemma MoveCompletedLoses(w: World, s: Status)
    requires Inv(w) && w.row.status.Provisioning? && w.row.moveObject.Some? && w.row.imported
    ensures MoveCompleted(w, s).lost <==> w.lost || (Protected(w) && VolumeAt(w, w.row.hostId) == Some(Backup))
  {
  }

  /** Promotion takes the target's copy for the bot, and unless that is a backup it is the newest state, no older
      than the one left behind. */
  lemma MoveCompletedLands(w: World)
    requires Inv(w) && w.row.status.Provisioning? && w.row.moveObject.Some? && w.row.imported
    requires w.row.hostId in w.containers && (w.row.stoppedBefore || w.containers[w.row.hostId].running)
    ensures var w' := MoveCompleted(w, if w.row.stoppedBefore then Stopped else Running);
            && Landed(w, w') && RollbackUntouched(w, w') && w'.doomed == w.doomed
            && (Kept(w) && VolumeAt(w, w.row.hostId) != Some(Backup) ==>
                  && Kept(w') && w.latest <= w'.latest && VolumeAt(w', w'.row.hostId) == Some(Saved(w'.latest)))
  {
  }

  lemma WentLiveLands(w: World)
    requires Inv(w) && w.row.status.Provisioning? && w.row.moveObject.None?
    requires w.row.hostId in w.containers && w.containers[w.row.hostId].running
    ensures Landed(w, WentLive(w)) && RollbackUntouched(w, WentLive(w)) && WentLive(w).doomed == w.doomed
  {
  }

  lemma MoveClearedKeeps(w: World)
    requires Inv(w) && (w.row.movedFrom.Some? ==> w.row.movedFrom.value !in w.volumes)
    requires Protected(w) ==> w.row.moveObject.None?
    ensures Inv(MoveCleared(w)) && Bookkept(MoveCleared(w))
  {
  }

  lemma ImageBumpedKeeps(w: World)
    requires Inv(w)
    ensures Inv(ImageBumped(w))
    ensures Bookkept(w) ==> Bookkept(ImageBumped(w))
  {
    assert ImageBumped(w).containers.Keys == w.containers.Keys;
  }

  lemma DoomedKeeps(w: World)
    requires Inv(w)
    ensures Inv(Doomed(w))
    ensures Bookkept(w) ==> Bookkept(Doomed(w))
  {
  }

  // ----- Where the code falls short, and why its order matters -----

  /** The cleanup of a failed boot, run after the promotion had committed, takes the only copy. */
  lemma CleanupAfterPromotionLosesTheBot(w: World)
    requires Inv(w) && Kept(w) && w.row.moveObject.None?
    ensures var h := w.row.hostId;
            var w' := VolumeRemoved(ContainerRemoved(WriteStatus(w, Error), h), h);
            VolumeAt(w, h) == Some(Saved(w.latest)) && w'.lost && Home(w') == h && VolumeAt(w', h).None?
  {
    var w1 := WriteStatus(w, Error);
    RemovalErases(w1, w.row.hostId);
  }

  /** Were the target erased before the row says `error`, a crash in between would leave a marked import
      over nothing: the next resume would skip the import and promote an empty volume. */
  lemma ErasingBeforeTheErrorWriteIsUnsafe(w: World)
    requires Inv(w) && Kept(w) && w.row.status.Provisioning? && w.row.imported && w.row.hostId !in w.containers
    ensures var w' := VolumeRemoved(w, w.row.hostId);
            var booted := VolumeEnsured(w', w'.row.hostId);
            && w'.row.imported && w'.row.status.Provisioning? && !w'.lost
            && booted.volumes[w'.row.hostId] == Blank && !Inv(w') && MoveCompleted(booted, Running).lost
  {
    assert w.row.moveObject.Some?;
  }

  /** A rollback of a bot that was put in service in the middle of its move takes the newest state there is:
      what is left is the copy from before the move. */
  lemma RollbackLosesTheServedTarget(w: World, to: HostId)
    requires Inv(w) && Kept(w) && w.served && MoveBackGuard(w, to)
    ensures VolumeAt(w, w.row.hostId) == Some(Saved(w.latest))
    ensures var w' := MovedBack(VolumeRemoved(ContainerRemoved(w, w.row.hostId), w.row.hostId), to);
            w'.lost && w'.volumes.Keys <= {to} && VolumeAt(w', to) == VolumeAt(w, to)
  {
  }

  // ----- Two runs that lose a bot -----

  /** A new bot on host 0, with or without a backup to import. */
  function NewBot(backupPending: bool): World {
    World(Row(0, Provisioning, None, None, None, None, false, false, backupPending),
          map[], map[], map[], 0, 0, false, false, false, false, false)
  }

  function Boot(w: World, h: HostId, id: nat): World {
    Started(SetContainerId(ContainerCreated(VolumeEnsured(w, h), h, id), Some(id)), h)
  }

  /** What a first boot leaves: the bot in service on host 0. */
  function LiveBot(backupPending: bool): World {
    World(Row(0, Running, Some(7), None, None, None, false, false, backupPending),
          map[0 := Container(7, true, true, true)], map[0 := Saved(0)], map[], 0, 0, true, false, false, false, false)
  }

  /** What a move to host 1 leaves that died behind the import mark. */
  function ImportedBot(backupPending: bool): World {
    World(Row(1, Provisioning, Some(8), Some(0), Some(0), Some(5), true, false, backupPending),
          map[1 := Container(8, false, false, true)], map[0 := Saved(1), 1 := Saved(1)], map[0 := Saved(1)],
          1, 1, true, false, false, false, false)
  }

  lemma NewBotGoesLive(backupPending: bool)
    ensures WentLive(Boot(NewBot(backupPending), 0, 7)) == LiveBot(backupPending)
  {
    var booted := Boot(NewBot(backupPending), 0, 7);
    assert booted.containers == map[0 := Container(7, true, true, true)] && booted.volumes == map[0 := Blank];
  }

  /** A new bot is booted. Then it is stopped, exported and flipped; the old container goes, the new one is
      created and the archive imported. */
  lemma LiveBotIsMoved(backupPending: bool)
    ensures WentLive(Boot(NewBot(backupPending), 0, 7)) == LiveBot(backupPending)
    ensures var stopped := Halted(WriteStatus(LiveBot(backupPending), Stopped), 0);
            && 0 in stopped.volumes
            && var flipped := ContainerRemoved(Flipped(Uploaded(stopped, 0), 1, 0, false, 5), 0);
               var created := SetContainerId(ContainerCreated(VolumeEnsured(flipped, 1), 1, 8), Some(8));
               ImportMarked(ImportedInto(created, 1, Saved(1))) == ImportedBot(backupPending)
  {
    NewBotGoesLive(backupPending);
    var live := LiveBot(backupPending);
    var stopped := Halted(WriteStatus(live, Stopped), 0);
    assert stopped.volumes == map[0 := Saved(1)] && stopped.containers == map[0 := Container(7, false, true, true)];
    var exported := Uploaded(stopped, 0);
    assert exported.archives == map[0 := Saved(1)];
    var flipped := ContainerRemoved(Flipped(exported, 1, 0, false, 5), 0);
    assert flipped.containers == map[] && flipped.volumes == map[0 := Saved(1)];
    var created := SetContainerId(ContainerCreated(VolumeEnsured(flipped, 1), 1, 8), Some(8));
    assert created.containers == map[1 := Container(8, false, false, true)];
    var imported := ImportMarked(ImportedInto(created, 1, Saved(1)));
    assert imported.volumes == map[0 := Saved(1), 1 := Saved(1)] && imported.containers == created.containers;
  }

  lemma RunIsSound(backupPending: bool)
    ensures Inv(NewBot(backupPending)) && Inv(LiveBot(backupPending)) && Inv(ImportedBot(backupPending)) &&
            Bookkept(ImportedBot(backupPending))
  {
  }

  /** What a move leaves that could not record its start: the bot serves as before, and its row says stopped. */
  lemma UnrecordedMoveLeavesTheRowStopped(backupPending: bool)
    ensures var left := WriteStatus(LiveBot(backupPending), Stopped);
            && Inv(left) && SourceUntouched(LiveBot(backupPending), left)
            && RunsHere(left) && left.row.status.Stopped? && !BackInPlace(left, 0, Running)
  {
    RunIsSound(backupPending);
    WriteStatusKeeps(LiveBot(backupPending), Stopped);
  }

  /** The bot in service on host 1 while its archive is recorded. */
  function ServingBot(backupPending: bool): World {
    ImportedBot(backupPending).(row := ImportedBot(backupPending).row.(status := Running),
                                containers := map[1 := Container(8, true, true, true)], served := true)
  }

  /** After the crash the owner starts the bot: every step of it the start makes. */
  lemma OwnerStartsMidMove(backupPending: bool)
    ensures 1 in WriteStatus(ImportedBot(backupPending), Running).containers
    ensures WentLive(Started(WriteStatus(ImportedBot(backupPending), Running), 1)) == ServingBot(backupPending)
    ensures Inv(ServingBot(backupPending)) && !Bookkept(ServingBot(backupPending))
  {
  }

  /** A new image is rolled out; a start from `degraded` stops and removes the container and fails to create
      the next one; the reconciler, finding none, writes `error`. */
  function ServedThenGone(w: World): World {
    var degraded := WriteStatus(ImageBumped(w), Degraded);
    var removed := ContainerRemoved(Halted(WriteStatus(degraded, Running), 1), 1);
    WriteStatus(WriteStatus(removed, Degraded), Error)
  }

  lemma ServingBotLosesItsContainer()
    ensures ServedThenGone(ServingBot(false)) ==
            ServingBot(false).(row := ServingBot(false).row.(status := Error), containers := map[],
                               volumes := map[0 := Saved(1), 1 := Saved(2)], latest := 2)
  {
    var running := WriteStatus(WriteStatus(ImageBumped(ServingBot(false)), Degraded), Running);
    assert running.containers == map[1 := Container(8, true, true, false)];
    var halted := Halted(running, 1);
    assert halted.volumes == map[0 := Saved(1), 1 := Saved(2)] && halted.latest == 2;
    assert ContainerRemoved(halted, 1).containers == map[];
  }

  /** The rollback the operator is then sent to passes its guard, and takes the state the bot served on. */
  lemma StartMidMoveThenRollbackLosesTheBot()
    ensures var gone := ServedThenGone(ServingBot(false));
            var back := MovedBack(VolumeRemoved(gone, 1), 0);
            && Inv(gone) && Kept(gone) && MoveBackGuard(gone, 0) && ContainerAt(gone, 1).None?
            && VolumeAt(gone, 1) == Some(Saved(2)) && gone.latest == 2
            && back.lost && back.volumes == map[0 := Saved(1)]
  {
    ServingBotLosesItsContainer();
    hide ServedThenGone;
    var gone := ServedThenGone(ServingBot(false));
    RollbackLosesTheServedTarget(gone, 0);
  }

  /** A bot's first provisioning fails before its backup was applied, and its leftovers go. */
  function FirstBootFailed(w: World): World {
    VolumeRemoved(ContainerRemoved(WriteStatus(ContainerCreated(VolumeEnsured(w, 0), 0, 6), Error), 0), 0)
  }

  lemma RebuiltBotGoesLive()
    ensures WentLive(Boot(FirstBootFailed(NewBot(true)), 0, 7)) == LiveBot(true)
  {
    var created := WriteStatus(ContainerCreated(VolumeEnsured(NewBot(true), 0), 0, 6), Error);
    assert created.containers == map[0 := Container(6, false, false, true)] && created.volumes == map[0 := Blank];
    var failed := FirstBootFailed(NewBot(true));
    assert failed.containers == map[] && failed.volumes == map[];
    var booted := Boot(failed, 0, 7);
    assert booted.containers == map[0 := Container(7, true, true, true)] && booted.volumes == map[0 := Blank];
  }

  /** Rebuilt by hand, the bot comes into service with the import still pending; the provisioning of its next
      move then puts the backup over the state it has just moved, and promotes that. */
  lemma PendingBackupReplacesMovedState()
    ensures WentLive(Boot(FirstBootFailed(NewBot(true)), 0, 7)) == LiveBot(true)
    ensures var m := ImportedBot(true);
            var restored := BackupMarked(BackupRestored(m, 1));
            && Inv(LiveBot(true)) && Inv(m) && Kept(m) && BackupAhead(m) && VolumeAt(m, 1) == Some(Saved(1)) &&
               m.latest == 1
            && 1 in restored.containers
            && var promoted := MoveCompleted(Started(restored, 1), Running);
               promoted.lost && promoted.row.hostId == 1 && promoted.row.moveObject.None? &&
                 VolumeAt(promoted, 1) == Some(Backup)
  {
    RebuiltBotGoesLive();
    RunIsSound(true);
    hide Inv, FirstBootFailed, Boot;
  }
}
