/** The instance manager's operations that can end or endanger a bot: provisioning, start, stop,
    recreate, destroy, the host-to-host move with its rollback, and the retention sweep.

    Each runs under the bot's operation lock, so no two overlap. Every external call may succeed, fail
    without effect, fail with its effect done (a lost acknowledgement), or be the last thing the
    process does; in the last case the operation ends there and then, and whichever operation comes
    next starts from the world as it was left. `seen` collects every world that ever existed. */
module MoveManager {
  import opened Options
  import opened MoveWorld

  /** `Threw` is an exception the caller may catch; `Died` is the process going away. */
  datatype Outcome = Done | Threw | Died {
    predicate IsFailure() {
      !Done?
    }
    function PropagateFailure(): Outcome
      requires IsFailure()
    {
      this
    }
  }

  type Retries = n: nat | 1 <= n witness 1

  class Fleet {
    var now: World
    ghost var seen: set<World>
    ghost var faults: nat
    const storageConfigured: bool
    const maxProvisionRetries: Retries
    // A world in which no call fails: nothing reads it but the calls themselves.
    const calm: bool

    /** Every world so far satisfies the invariant, and what was ever lost is on record now. */
    ghost predicate Sound()
      reads `now, `seen
    {
      now in seen && forall w :: w in seen ==> Inv(w) && (w.lost ==> now.lost)
    }

    ghost predicate AllBookkept()
      reads `now, `seen
    {
      now in seen && forall w :: w in seen ==> Bookkept(w)
    }

    /** Every world up to now is sound, none seen before is forgotten, the newest state of a bot that has been
        in service never falls back, and a calm world stays calm. */
    twostate predicate Advanced()
      reads `now, `seen, `faults
    {
      && old(seen) <= seen && old(faults) <= faults && (calm ==> faults == old(faults))
      && Sound()
      && (old(now.booted) ==> now.booted && old(now.latest) <= now.latest)
    }

    /** The same, and the bookkeeping of moves holds if it held before. */
    twostate predicate Recorded()
      reads `now, `seen, `faults
    {
      && Advanced()
      && (old(AllBookkept()) ==> AllBookkept())
    }

    /** And nothing was lost. */
    twostate predicate Steady()
      reads `now, `seen, `faults
    {
      Recorded() && now.lost == old(now.lost)
    }

    /** Nothing stops by itself: behind an operation that did not finish is a call that failed. In a calm world
        there is none, so it finishes. */
    twostate predicate Blamed(o: Outcome)
      reads `faults
    {
      !o.Done? ==> old(faults) < faults
    }

    lemma NowSound()
      requires Sound()
      ensures Inv(now)
    {
    }

    /** A bot's row as it is inserted: nothing exists for it yet on its host. */
    constructor (hostId: HostId, backupPending: bool, storageConfigured: bool, maxProvisionRetries: Retries,
                 calm: bool)
      ensures Sound() && AllBookkept()
      ensures now.row.status.Provisioning? && now.row.hostId == hostId && !now.booted && !now.lost &&
              now.volumes == map[]
    {
      this.storageConfigured := storageConfigured;
      this.maxProvisionRetries := maxProvisionRetries;
      this.calm := calm;
      var row := Row(hostId, Provisioning, None, None, None, None, false, false, backupPending);
      var w := World(row, map[], map[], map[], 0, 0, false, false, false, false, false);
      now := w;
      seen, faults := {w}, 0;
    }

    // ----- External calls -----

    /** Any external call: it may fail, with or without its effect. */
    method Attempt(next: World) returns (o: Outcome)
      modifies this
      ensures seen == old(seen) + {now}
      ensures now == next || now == old(now)
      ensures o.Done? ==> now == next
      ensures calm ==> o.Done?
      ensures faults == old(faults) + if o.Done? then 0 else 1
    {
      var fate: int := *;
      if calm { fate := 4; }
      if fate == 0 {
        o := Threw;
      } else if fate == 1 {
        now, o := next, Threw;
      } else if fate == 2 {
        o := Died;
      } else if fate == 3 {
        now, o := next, Died;
      } else {
        now, o := next, Done;
      }
      seen, faults := seen + {now}, faults + if o.Done? then 0 else 1;
    }

    /** A call that changes nothing durable here: a read, a log line, a health wait, a config write. */
    method Ask() returns (o: Outcome)
      modifies `faults
      ensures calm ==> o.Done?
      ensures faults == old(faults) + if o.Done? then 0 else 1
    {
      var fate: int := *;
      if calm { fate := 2; }
      o := if fate == 0 then Threw else if fate == 1 then Died else Done;
      faults := faults + if o.Done? then 0 else 1;
    }

    /** A call that comes back with an answer as bad as a failure: a host out of reach, a stream that broke. */
    method Fail() returns (o: Outcome)
      requires !calm
      modifies `faults
      ensures o == Threw && faults == old(faults) + 1
    {
      o, faults := Threw, faults + 1;
    }

    method RuntimeRemove(h: HostId) returns (o: Outcome)
      requires Sound()
      modifies this
      ensures Steady()
      ensures now == old(now) || now == ContainerRemoved(old(now), h)
      ensures o.Done? ==> now == ContainerRemoved(old(now), h)
      ensures Blamed(o)
    {
      ContainerRemovedKeeps(now, h);
      hide Inv, Bookkept;
      o := Attempt(ContainerRemoved(now, h));
    }

    method RuntimeRemoveVolume(h: HostId) returns (o: Outcome)
      requires Sound() && MayErase(now, h)
      modifies this
      ensures Recorded()
      ensures now == old(now) || now == VolumeRemoved(old(now), h)
      ensures o.Done? ==> now == VolumeRemoved(old(now), h) && h !in now.containers
      ensures h !in old(now.containers) ==> Blamed(o)
    {
      if h in now.containers {
        return Threw;
      }
      VolumeRemovedKeeps(now, h);
      o := Attempt(VolumeRemoved(now, h));
    }

    /** Docker keeps a volume while a container refers to it. The bot is lost exactly if this is its home
        and the volume is gone afterwards. */
    method RemoveBotFromHost(h: HostId) returns (o: Outcome)
      requires Sound() && MayErase(now, h)
      modifies this
      ensures Recorded() && Erasing(old(now), now, h) && now.row == old(now.row)
      ensures o.Done? ==> h !in now.volumes && h !in now.containers
      ensures Blamed(o)
    {
      RemovalErases(now, h);
      assert MayErase(ContainerRemoved(now, h), h);
      hide Sound, AllBookkept, Inv, Bookkept, Erasing, MayErase, ContainerRemoved, VolumeRemoved;
      o := Ask();
      if o.IsFailure() { return; }
      if h in now.containers {
        :- RuntimeRemove(h);
      }
      o := RuntimeRemoveVolume(h);
    }

    method RuntimeStart(h: HostId) returns (o: Outcome)
      requires Sound() && h == now.row.hostId && h in now.containers
      modifies this
      ensures Advanced()
      ensures (old(now.row.moveObject).Some? ==> old(now.row.imported)) ==> Steady()
      ensures now == old(now) || now == Started(old(now), h)
      ensures o.Done? ==> now == Started(old(now), h)
      ensures Blamed(o)
    {
      StartedKeeps(now);
      hide Inv, Bookkept;
      o := Attempt(Started(now, h));
    }

    method RuntimeStop(h: HostId) returns (o: Outcome)
      requires Sound()
      modifies this
      ensures Steady()
      ensures now == old(now) || now == Halted(old(now), h)
      ensures o.Done? ==> now == Halted(old(now), h)
      ensures Blamed(o)
    {
      HaltedKeeps(now, h);
      hide Inv, Bookkept;
      o := Attempt(Halted(now, h));
    }

    // With an expected status the write is a compare-and-set.
    method UpdateStatus(s: Status, expected: Option<Status>) returns (o: Outcome, updated: bool)
      requires Sound() && MayWrite(now, s)
      modifies this
      ensures Advanced()
      ensures (old(now.row.moveObject).Some? ==> s.Provisioning? || s.Error? || s.Destroyed?) ==> Steady()
      ensures now == old(now) || now == WriteStatus(old(now), s)
      ensures RollbackUntouched(old(now), now)
      ensures o.Done? ==> updated == (expected.None? || expected.value == old(now.row.status))
      ensures o.Done? ==> now == if updated then WriteStatus(old(now), s) else old(now)
      ensures Blamed(o)
      ensures now.archives == old(now.archives) && now.volumes == old(now.volumes)
    {
      if expected.None? || expected.value == now.row.status {
        updated := true;
        WriteStatusKeeps(now, s);
        o := Attempt(WriteStatus(now, s));
      } else {
        updated := false;
        o := Ask();
      }
    }

    // The write that says the bot is in service where it stands.
    method MarkLive() returns (o: Outcome)
      requires Sound() && MayWrite(now, Running)
      modifies this
      ensures Advanced()
      ensures (old(now.row.moveObject).None? ==> Steady()) && now.lost == old(now.lost) && now.doomed == old(now.doomed)
      ensures now == old(now) || now == WentLive(old(now))
      ensures o.Done? ==> now == WentLive(old(now))
      ensures RollbackUntouched(old(now), now) && now.containers == old(now.containers)
      ensures now.row == old(now.row) || now.row == WriteStatus(old(now), Running).row
      ensures o.Done? ==> now.row.status.Running?
      ensures (o.Done? && old(now.row.moveObject.None? && now.row.hostId in now.containers)
               && old(now.containers[now.row.hostId].started)) ==>
                now.booted
      ensures Blamed(o)
      ensures now.archives == old(now.archives)
      ensures old(now.booted) ==> now.volumes == old(now.volumes)
    {
      WentLiveKeeps(now);
      WentLiveIsLocal(now);
      o := Attempt(WentLive(now));
    }

    method UpdateContainerId(id: nat) returns (o: Outcome)
      requires Sound()
      modifies this
      ensures Steady()
      ensures now == old(now) || now == SetContainerId(old(now), Some(id))
      ensures o.Done? ==> now == SetContainerId(old(now), Some(id))
      ensures Blamed(o)
    {
      SetContainerIdKeeps(now, Some(id));
      o := Attempt(SetContainerId(now, Some(id)));
    }

    // ----- The container under the bot's name -----

    method RemoveForRebuild() returns (o: Outcome)
      requires Sound()
      modifies this
      ensures Steady() && Tended(old(now), now, now.row.hostId) && now.row == old(now.row)
      ensures o.Done? ==> now.row.hostId !in now.containers
      ensures Blamed(o)
      ensures NeverStarted(old(now)) ==> NeverStarted(now)
    {
      hide Sound, AllBookkept, Inv, Bookkept;
      RemovalTends(now, now.row.hostId);
      o := RuntimeRemove(now.row.hostId);
    }

    method RuntimeEnsureVolume() returns (o: Outcome)
      requires Sound()
      modifies this
      ensures Steady() && Tended(old(now), now, now.row.hostId) && now.row == old(now.row)
      ensures now.containers == old(now.containers)
      ensures o.Done? ==> now.row.hostId in now.volumes
      ensures Blamed(o)
      ensures NeverStarted(old(now)) ==> NeverStarted(now)
    {
      VolumeEnsuredKeeps(now);
      hide Inv, Bookkept;
      o := Attempt(VolumeEnsured(now, now.row.hostId));
    }

    method RuntimeCreate() returns (o: Outcome)
      requires Sound() && now.row.hostId !in now.containers && now.row.hostId in now.volumes
      modifies this
      ensures Steady() && Tended(old(now), now, now.row.hostId) && now.row == old(now.row)
      ensures now.volumes == old(now.volumes)
      ensures o.Done? ==> now.row.hostId in now.containers && !now.containers[now.row.hostId].running
      ensures Blamed(o)
      ensures NeverStarted(old(now)) ==> NeverStarted(now)
      ensures o.Done? ==> OnCurrentImage(now)
    {
      var id: nat := *;
      ContainerCreatedKeeps(now, id);
      TendedReflexive(now, now.row.hostId);
      ContainersTend(now, now.row.hostId, ContainerCreated(now, now.row.hostId, id).containers);
      hide Inv, Bookkept, Tended;
      o := Attempt(ContainerCreated(now, now.row.hostId, id));
    }

    method CreateFresh() returns (o: Outcome)
      requires Sound() && now.row.hostId !in now.containers
      modifies this
      ensures Steady() && Tended(old(now), now, now.row.hostId) && now.row == old(now.row)
      ensures o.Done? ==> now.row.hostId in now.containers
      ensures Blamed(o)
      ensures NeverStarted(old(now)) ==> NeverStarted(now)
      ensures o.Done? ==> OnCurrentImage(now)
    {
      hide Sound, AllBookkept, Inv, Bookkept, Tended;
      o := RuntimeEnsureVolume();
      if o.Done? {
        ghost var w := now;
        o := RuntimeCreate();
        TendedTransitive(old(now), w, now, now.row.hostId);
      }
    }

    /** Only the container is ever replaced here, so every volume is as it was. */
    method FindOrCreateContainer() returns (o: Outcome)
      requires Sound()
      modifies this
      ensures Steady() && Tended(old(now), now, now.row.hostId) && now.row == old(now.row)
      ensures o.Done? ==> now.row.hostId in now.containers
      ensures Blamed(o)
      ensures NeverStarted(old(now)) ==> NeverStarted(now)
      ensures o.Done? ==> OnCurrentImage(now)
      ensures o.Done? && old(OnCurrentImage(now)) ==>
                now.containers == old(now.containers) && now.volumes == old(now.volumes)
    {
      hide Sound, AllBookkept, Inv, Bookkept, Tended;
      var h := now.row.hostId;
      TendedReflexive(now, h);
      :- Ask();
      if h in now.containers && now.containers[h].current {
        return Done;
      }
      :- Ask();
      if h in now.containers {
        :- RemoveForRebuild();
        :- Ask();
      }
      ghost var w := now;
      o := CreateFresh();
      TendedTransitive(old(now), w, now, h);
    }

    /** The container and the files written into it; none of these calls touches the row. */
    method EnsureContainerExists() returns (o: Outcome, containerId: nat)
      requires Sound()
      modifies this
      ensures Steady() && Tended(old(now), now, now.row.hostId) && now.row == old(now.row)
      ensures o.Done? ==> now.row.hostId in now.containers && containerId == now.containers[now.row.hostId].id
      ensures Blamed(o)
      ensures NeverStarted(old(now)) ==> NeverStarted(now)
      ensures o.Done? ==> OnCurrentImage(now)
      ensures o.Done? && old(OnCurrentImage(now)) ==>
                now.containers == old(now.containers) && now.volumes == old(now.volumes)
    {
      hide Sound, AllBookkept, Inv, Bookkept, Tended;
      containerId := 0;
      :- FindOrCreateContainer();
      containerId := now.containers[now.row.hostId].id;
      o := Ask();
    }

    // ----- Provisioning -----

    method ImportVolume(content: Content) returns (o: Outcome)
      requires Sound()
      requires now.row.hostId in now.containers && !now.containers[now.row.hostId].started
      requires now.row.moveObject.Some? && !now.row.imported && (Kept(now) ==> content != Backup)
      modifies this
      ensures Steady() && SameMove(old(now), now)
      ensures now == old(now) || now == ImportedInto(old(now), now.row.hostId, content)
      ensures o.Done? ==> now == ImportedInto(old(now), now.row.hostId, content)
      ensures Blamed(o)
    {
      ImportKeeps(now, content);
      hide Inv, Bookkept;
      o := Attempt(ImportedInto(now, now.row.hostId, content));
    }

    /** The import and the two writes that follow it, which keep the imported state's identity. */
    method RestoreMovedVolume() returns (o: Outcome)
      requires Sound()
      requires now.row.hostId in now.containers && !now.containers[now.row.hostId].started
      requires now.row.moveObject.Some? && !now.row.imported
      modifies this
      ensures Steady() && SameMove(old(now), now)
      ensures now.row == old(now.row) && now.latest == old(now.latest) && now.containers == old(now.containers)
      ensures o.Done? ==> now.row.moveObject.value in old(now.archives)
      ensures o.Done? ==>
                now.row.hostId in now.volumes &&
                  now.volumes[now.row.hostId] == old(now.archives)[now.row.moveObject.value]
      ensures old(now.row.moveObject.value in now.archives) ==> Blamed(o)
    {
      hide Sound, AllBookkept, Inv, Bookkept, RollbackOf;
      NowSound();
      ArchiveIsNewest(now);
      var archive := now.row.moveObject.value;
      o := Ask();
      if o.IsFailure() { return; }
      if archive !in now.archives {
        return Threw;
      }
      var torn: bool := *;
      if torn && !calm {
        :- ImportVolume(Partial);
        o := Fail();
        return;
      }
      :- ImportVolume(now.archives[archive]);
      :- Ask();
      o := Ask();
    }

    method MarkMoveImported() returns (o: Outcome)
      requires Sound() && now.row.moveObject.Some?
      requires Kept(now) ==> now.row.hostId in now.volumes && now.volumes[now.row.hostId] == Saved(now.latest)
      modifies this
      ensures Steady() && SameMove(old(now), now) && now.containers == old(now.containers) &&
              now.volumes == old(now.volumes)
      ensures now.row.backupPending == old(now.row.backupPending)
      ensures o.Done? ==> now == ImportMarked(old(now))
      ensures Blamed(o)
    {
      ImportMarkedKeeps(now);
      hide Inv, Bookkept;
      o := Attempt(ImportMarked(now));
    }

    /** A container that was started once is skipped: ImportKeeps holds only for one that never was. */
    method ImportMoved() returns (o: Outcome)
      requires Sound() && now.row.hostId in now.containers && now.row.moveObject.Some? && !now.row.imported
      modifies this
      ensures Steady() && SameMove(old(now), now) && now.containers == old(now.containers)
      ensures now.row.backupPending == old(now.row.backupPending)
      ensures o.Done? ==> now.row.imported && (Kept(now) ==> VolumeAt(now, now.row.hostId) == Some(Saved(now.latest)))
      ensures old(CanImport(now)) ==> Blamed(o)
    {
      o := Ask();
      if o.IsFailure() { return; }
      if now.containers[now.row.hostId].started {
        return Threw;
      }
      assert ArchiveFaithful(now);
      hide Sound, AllBookkept, Inv, Bookkept;
      :- RestoreMovedVolume();
      o := MarkMoveImported();
    }

    method RuntimeRestore() returns (o: Outcome)
      requires Sound() && now.row.backupPending && now.row.hostId in now.containers && now.row.status.Provisioning?
      requires now.row.moveObject.Some? ==> now.row.imported
      modifies this
      ensures Steady() && SameMove(old(now), now)
      ensures now.row == old(now.row) && now.containers == old(now.containers)
      ensures o.Done? ==> VolumeAt(now, now.row.hostId) == Some(Backup)
      ensures Blamed(o)
    {
      hide Inv, Bookkept, SameMove;
      ContainersAreOnVolumes(now);
      BackupKeeps(now);
      BackupIsLocal(now);
      SameMoveReflexive(now);
      o := Attempt(BackupRestored(now, now.row.hostId));
    }

    method MarkBackupRestored() returns (o: Outcome)
      requires Sound() && now.row.backupPending && now.row.hostId in now.containers && now.row.status.Provisioning?
      requires now.row.moveObject.Some? ==> now.row.imported
      modifies this
      ensures Steady() && SameMove(old(now), now)
      ensures now.row.imported == old(now.row.imported) && now.containers == old(now.containers) &&
              now.volumes == old(now.volumes)
      ensures o.Done? ==> !now.row.backupPending
      ensures Blamed(o)
    {
      hide Inv, Bookkept, SameMove;
      ContainersAreOnVolumes(now);
      BackupKeeps(now);
      BackupMarkIsLocal(now);
      SameMoveReflexive(now);
      o := Attempt(BackupMarked(now));
    }

    /** Whoever the bot is by then, afterwards its volume is the backup. */
    method RestoreAgentBackup() returns (o: Outcome)
      requires Sound() && now.row.backupPending && now.row.hostId in now.containers && now.row.status.Provisioning?
      requires now.row.moveObject.Some? ==> now.row.imported
      modifies this
      ensures Steady() && SameMove(old(now), now)
      ensures now.row.imported == old(now.row.imported) && now.containers == old(now.containers)
      ensures o.Done? ==> !now.row.backupPending && VolumeAt(now, now.row.hostId) == Some(Backup)
      ensures Blamed(o)
    {
      hide Sound, AllBookkept, Inv, Bookkept, RollbackOf;
      o := Ask();
      if o.IsFailure() { return; }
      :- RuntimeRestore();
      :- Ask();
      :- MarkBackupRestored();
      var deleted := Ask();
      o := if deleted.Died? then Died else Done;
    }

    method EnsureContainerStarted() returns (o: Outcome)
      requires Sound() && now.row.hostId in now.containers && (now.row.moveObject.Some? ==> now.row.imported)
      modifies this
      ensures Steady() && SameMove(old(now), now) && now.row == old(now.row) && now.volumes == old(now.volumes)
      ensures o.Done? ==> now.row.hostId in now.containers && now.containers[now.row.hostId].running
      ensures Blamed(o)
    {
      hide Sound, AllBookkept, Inv, Bookkept, RollbackOf, RollbackUntouched, Started;
      NowSound();
      StartedIsLocal(now);
      StartRuns(now, now.row.hostId);
      SameMoveReflexive(now);
      o := Ask();
      if o.IsFailure() || now.containers[now.row.hostId].running { return; }
      o := RuntimeStart(now.row.hostId);
    }

    /** One write or none: no world has a promoted row that still counts as mid-move. */
    method CompleteMove() returns (o: Outcome)
      requires Sound() && now.row.status.Provisioning? && now.row.moveObject.Some? && now.row.imported
      requires now.row.hostId in now.containers && (now.row.stoppedBefore || now.containers[now.row.hostId].running)
      modifies this
      ensures Recorded()
      ensures now == old(now) ||
              (Landed(old(now), now) && RollbackUntouched(old(now), now) && now.doomed == old(now.doomed))
      ensures now != old(now) ==>
                (now.lost <==> old(now.lost || (Protected(now) && VolumeAt(now, now.row.hostId) == Some(Backup))))
      ensures o.Done? ==> now.row.moveObject.None?
      ensures Blamed(o)
      ensures now.archives == old(now.archives)
      ensures now.containers == old(now.containers)
    {
      var landing := if now.row.stoppedBefore then Stopped else Running;
      MoveCompletedKeeps(now, landing);
      MoveCompletedLands(now);
      MoveCompletedLoses(now, landing);
      hide Inv, Bookkept;
      o := Attempt(MoveCompleted(now, landing));
    }

    method CompleteCreation() returns (o: Outcome)
      requires Sound() && now.row.status.Provisioning? && now.row.moveObject.None?
      requires now.row.hostId in now.containers && now.containers[now.row.hostId].running
      modifies this
      ensures Steady()
      ensures now == old(now) ||
              (Landed(old(now), now) && RollbackUntouched(old(now), now) && now.doomed == old(now.doomed))
      ensures o.Done? ==> Landed(old(now), now)
      ensures Blamed(o)
      ensures now.archives == old(now.archives)
      ensures now.containers == old(now.containers)
    {
      WentLiveLands(now);
      hide Sound, AllBookkept, Inv, Bookkept;
      o := MarkLive();
    }

    method DeleteArchive(a: Archive) returns (o: Outcome)
      requires Sound()
      modifies this
      ensures Steady()
      ensures now == old(now) || now == ArchiveDeleted(old(now), a)
      ensures RollbackUntouched(old(now), now)
      ensures now.row == old(now.row) && now.containers == old(now.containers) && now.volumes == old(now.volumes)
      ensures now.booted == old(now.booted) && now.doomed == old(now.doomed)
      ensures Blamed(o)
      ensures now.nextArchive == old(now.nextArchive)
      ensures now.archives == old(now.archives) - {a} || (now.archives == old(now.archives) && !o.Done?)
    {
      ArchiveDeletedKeeps(now, a);
      o := Attempt(ArchiveDeleted(now, a));
    }

    method RecordContainer(containerId: nat) returns (o: Outcome)
      requires Sound()
      modifies this
      ensures Steady() && SameMove(old(now), now) && now.containers == old(now.containers) &&
              now.volumes == old(now.volumes)
      ensures now.row.imported == old(now.row.imported) && now.row.backupPending == old(now.row.backupPending)
      ensures Blamed(o)
      ensures CanImport(old(now)) ==> CanImport(now)
      ensures o.Done? ==> now.row.containerId == Some(containerId)
    {
      hide Sound, AllBookkept, Inv, Bookkept;
      o := UpdateContainerId(containerId);
    }

    method PrepareContainer() returns (o: Outcome)
      requires Sound()
      modifies this
      ensures Steady() && SameMove(old(now), now)
      ensures now.row.imported == old(now.row.imported) && now.row.backupPending == old(now.row.backupPending)
      ensures VolumeAt(now, now.row.hostId) == Some(Backup) <==> old(VolumeAt(now, now.row.hostId)) == Some(Backup)
      ensures o.Done? ==> now.row.hostId in now.containers
      ensures Blamed(o)
      ensures CanImport(old(now)) ==> CanImport(now)
      ensures o.Done? ==> OnCurrentImage(now)
      ensures o.Done? ==> IdFits(now)
      ensures o.Done? && old(OnCurrentImage(now)) ==>
                now.containers == old(now.containers) && now.volumes == old(now.volumes)
      ensures NeverStarted(old(now)) ==> NeverStarted(now)
    {
      hide Sound, AllBookkept, Inv, Bookkept, Tended, RowConsistent, RollbackOf, CanImport, NeverStarted;
      ghost var w := now;
      NowSound();
      SoundRowIsConsistent(w);
      var containerId: nat;
      o, containerId := EnsureContainerExists();
      TendingIsSameMove(w, now);
      TendingKeepsImport(w, now);
      TendingMakesNoBackup(w, now, w.row.hostId);
      if o.Done? {
        o := RecordNew(containerId);
      }
    }

    method RecordNew(containerId: nat) returns (o: Outcome)
      requires Sound()
      modifies this
      ensures Steady() && Blamed(o) && SameMove(old(now), now)
      ensures now.containers == old(now.containers) && now.volumes == old(now.volumes) &&
              now.archives == old(now.archives)
      ensures now.row.imported == old(now.row.imported) && now.row.backupPending == old(now.row.backupPending)
      ensures CanImport(old(now)) ==> CanImport(now)
      ensures o.Done? ==> now.row.containerId == Some(containerId)
      ensures NeverStarted(old(now)) ==> NeverStarted(now)
    {
      hide Sound, AllBookkept, Inv, Bookkept, RollbackOf;
      o := Done;
      if now.row.containerId != Some(containerId) {
        :- RecordContainer(containerId);
        o := Ask();
      }
    }

    /** Both fillings come before the first boot. The volume ends up a backup exactly if one was pending or
        had been applied by an attempt before. */
    method FillVolume() returns (o: Outcome)
      requires Sound() && now.row.hostId in now.containers && now.row.status.Provisioning?
      modifies this
      ensures Steady() && SameMove(old(now), now) && now.containers == old(now.containers)
      ensures o.Done? ==> !now.row.backupPending && (now.row.moveObject.Some? ==> now.row.imported)
      ensures o.Done? && Kept(now) ==> (VolumeAt(now, now.row.hostId) == Some(Backup) <==> old(BackupAhead(now)))
      ensures old(CanImport(now)) ==> Blamed(o)
    {
      hide Sound, AllBookkept, Inv, Bookkept, RollbackOf;
      NowSound();
      UnimportedIsNoBackup(now);
      o := Done;
      if now.row.moveObject.Some? && !now.row.imported {
        :- ImportMoved();
      }
      if now.row.backupPending {
        :- RestoreAgentBackup();
        o := Ask();
      }
    }

    /** Up to the promotion; `keepStopped` on the row decides whether the container is started. */
    method PrepareBoot() returns (o: Outcome)
      requires Sound() && now.row.status.Provisioning?
      modifies this
      ensures Steady() && SameMove(old(now), now)
      ensures o.Done? ==> now.row.hostId in now.containers && !now.row.backupPending
      ensures o.Done? && now.row.moveObject.Some? ==> now.row.imported
      ensures o.Done? && (now.row.moveObject.None? || !now.row.stoppedBefore) ==> now.containers[now.row.hostId].running
      ensures o.Done? && Kept(now) ==> (VolumeAt(now, now.row.hostId) == Some(Backup) <==> old(BackupAhead(now)))
      ensures old(CanImport(now)) ==> Blamed(o)
      ensures LeftStopped(old(now)) ==> LeftStopped(now)
    {
      hide Sound, AllBookkept, Inv, Bookkept, RollbackOf, CanImport, BackupAhead, OnCurrentImage, IdFits;
      ghost var w := now;
      o := PrepareContainer();
      if o.IsFailure() { return; }
      SameAhead(w, now);
      :- FillVolume();
      o := BootUnlessStopped();
    }

    method BootUnlessStopped() returns (o: Outcome)
      requires Sound() && now.row.hostId in now.containers && (now.row.moveObject.Some? ==> now.row.imported)
      modifies this
      ensures Steady() && SameMove(old(now), now) && now.row == old(now.row) && now.volumes == old(now.volumes)
      ensures Blamed(o)
      ensures o.Done? ==> now.row.hostId in now.containers
      ensures o.Done? && (now.row.moveObject.None? || !now.row.stoppedBefore) ==> now.containers[now.row.hostId].running
      ensures now.row.moveObject.Some? && now.row.stoppedBefore ==> now == old(now)
    {
      hide Sound, AllBookkept, Inv, Bookkept, RollbackOf;
      SameMoveReflexive(now);
      o := Done;
      var leaveStopped := now.row.moveObject.Some? && now.row.stoppedBefore;
      if !leaveStopped {
        :- EnsureContainerStarted();
        :- Ask();
        o := Ask();
      }
    }

    /** From the promotion on. Its archive is deleted, best effort. */
    method Promote() returns (o: Outcome)
      requires Sound() && now.row.status.Provisioning? && now.row.hostId in now.containers
      requires now.row.moveObject.Some? ==> now.row.imported
      requires now.row.moveObject.None? || !now.row.stoppedBefore ==> now.containers[now.row.hostId].running
      modifies this
      ensures Recorded() && Blamed(o)
      ensures now.row.hostId == old(now.row.hostId) && now.doomed == old(now.doomed) && RollbackUntouched(old(now), now)
      ensures o.Done? ==> Landed(old(now), now)
      ensures now.row.status.Provisioning? ==> !o.Done? && now.booted == old(now.booted) && now.lost == old(now.lost)
      ensures !now.row.status.Provisioning? ==> now.row.moveObject.None?
      ensures !now.row.status.Provisioning? ==>
                (now.lost <==> old(now.lost || (now.row.moveObject.Some? && Protected(now) &&
                  VolumeAt(now, now.row.hostId) == Some(Backup))))
      ensures now.archives == old(now.archives) || now.archives == old(Discarded(now))
      ensures o.Done? && faults == old(faults) ==> now.archives == old(Discarded(now))
      ensures now.containers == old(now.containers)
    {
      hide Sound, AllBookkept, Inv, Bookkept, RollbackOf, ArchiveDeleted;
      var archive := now.row.moveObject;
      if archive.Some? {
        :- CompleteMove();
        // What is not deleted here goes with the bucket's own lifecycle.
        :- Ask();
        var deleted := DeleteArchive(archive.value);
        if deleted.Died? { return Died; }
      } else {
        :- CompleteCreation();
        :- Ask();
      }
      o := Ask();
    }

    /** The try block. A failure leaves the row provisioning, unless the promotion had committed by then; a
        committed promotion loses the bot exactly if a backup was put over its state. */
    method Provision() returns (o: Outcome)
      requires Sound() && now.row.status.Provisioning?
      modifies this
      ensures Recorded()
      ensures now.row.hostId == old(now.row.hostId) && now.doomed == old(now.doomed) && RollbackUntouched(old(now), now)
      ensures o.Done? ==> Landed(old(now), now)
      ensures now.row.status.Provisioning? ==> !o.Done? && now.booted == old(now.booted) && now.lost == old(now.lost)
      ensures !now.row.status.Provisioning? ==> now.row.moveObject.None?
      ensures !now.row.status.Provisioning? ==> (now.lost <==> old(now.lost || BackupAhead(now)))
      ensures old(CanImport(now)) ==> Blamed(o)
      ensures now.archives == old(now.archives) || now.archives == old(Discarded(now))
      ensures o.Done? && faults == old(faults) ==> now.archives == old(Discarded(now))
      ensures old(LeftStopped(now)) ==> NeverStarted(now)
    {
      hide Sound, AllBookkept, Inv, Bookkept, RollbackOf, RollbackUntouched, CanImport, Discarded, Landed;
      NowSound();
      ProvisioningIsNotServed(now);
      o := PrepareBoot();
      if o.IsFailure() { return; }
      ghost var w := now;
      o := Promote();
      LandedFrom(old(now), w, now);
    }

    /** Only the process going away stops what follows. The bot is lost exactly if this was its home. */
    method CleanupPartial() returns (died: bool)
      requires Sound() && now.row.movedFrom != Some(now.row.hostId) && MayErase(now, now.row.hostId)
      modifies this
      ensures Recorded()
      ensures now.row == old(now.row) && now.booted == old(now.booted) && now.served == old(now.served) &&
              now.doomed == old(now.doomed)
      ensures now.lost <==>
              old(now.lost) || (old(Protected(now) && Home(now) == now.row.hostId && now.row.hostId in now.volumes) &&
                now.row.hostId !in now.volumes)
      ensures RollbackUntouched(old(now), now)
      ensures faults == old(faults) ==> Emptied(now)
      ensures died ==> old(faults) < faults
      ensures now.archives == old(now.archives)
    {
      hide Sound, AllBookkept, Inv, Bookkept, SameElsewhere, MayErase;
      ghost var w := now;
      var o := RemoveBotFromHost(now.row.hostId);
      died := o.Died?;
      ErasingLeavesRollback(w, now, w.row.hostId);
    }

    /** The catch block: the row says `error` first, then what was built goes. */
    method GiveUpBoot(late: bool) returns (o: Outcome)
      requires Sound() && (late <==> !now.row.status.Provisioning?) && (late ==> now.row.moveObject.None?)
      modifies this
      ensures Recorded() && !o.Done? && RollbackUntouched(old(now), now)
      ensures now.row.hostId == old(now.row.hostId) && now.row.moveObject == old(now.row.moveObject) &&
              now.doomed == old(now.doomed)
      ensures faults == old(faults) ==> o.Threw? && now.row.status.Error? && Emptied(now)
      ensures !late ==> now.lost == old(now.lost)
      ensures late && Protected(now) ==> (now.lost <==> old(now.lost) || now.row.hostId !in now.volumes)
      ensures now.archives == old(now.archives)
    {
      hide Sound, AllBookkept, Inv, Bookkept, MayErase, RollbackOf, Emptied;
      NowSound();
      FailedBootMayBeErased(now, late);
      var written, _ := UpdateStatus(Error, None);
      if written.IsFailure() { return written; }
      var died := CleanupPartial();
      if died { return Died; }
      var logged := Ask();
      o := if logged.Died? then Died else Threw;
    }

    /** `late` tells that a call failed after the promotion had committed. The bot is lost exactly if such a
        failure's cleanup took its volume, or if a promotion committed with a backup put over its state. */
    method ResumeProvisioningLocked() returns (o: Outcome, late: bool)
      requires Sound()
      modifies this
      ensures Recorded()
      ensures late ==> !o.Done? && old(now.row.status).Provisioning? && now.row.moveObject.None?
      ensures o.Done? ==> if old(now.row.status).Running? then now == old(now) else Landed(old(now), now)
      ensures RollbackUntouched(old(now), now) && now.row.hostId == old(now.row.hostId) && now.doomed == old(now.doomed)
      ensures now.lost && !old(now.lost) ==> late || old(BackupAhead(now))
      ensures o.Done? && old(now.row.status).Provisioning? ==> (now.lost <==> old(now.lost || BackupAhead(now)))
      ensures late && Protected(now) ==>
                (now.lost <==> old(now.lost || BackupAhead(now)) || now.row.hostId !in now.volumes)
      ensures if old(now.row.status).Running? || (old(now.row.status).Provisioning? && old(CanImport(now)))
              then Blamed(o)
              else old(now.row.status).Provisioning? || (!o.Done? && now == old(now))
      ensures o.Threw? && old(now.row.status).Provisioning? && old(CanImport(now)) && faults <= old(faults) + 1 ==>
                now == old(now) || (now.row.status.Error? && Emptied(now))
      ensures now.archives == old(now.archives) || now.archives == old(Discarded(now))
      ensures o.Done? && faults == old(faults) && old(now.row.status).Provisioning? ==>
                now.archives == old(Discarded(now))
      ensures o.Done? && old(now.row.status.Provisioning? && LeftStopped(now)) ==> NeverStarted(now)
    {
      hide Sound, AllBookkept, Inv, Bookkept, MayErase, Landed, RollbackOf, BackupAhead, CanImport, Emptied;
      late := false;
      o := Ask();
      if o.IsFailure() { return; }
      if now.row.status.Running? {
        return;
      }
      if !now.row.status.Provisioning? {
        o := Threw;
        return;
      }
      o := Provision();
      if !o.Threw? { return; }
      late := !now.row.status.Provisioning?;
      o := GiveUpBoot(late);
    }

    // ----- The move -----

    method PrepareTarget(target: HostId) returns (o: Outcome)
      requires Sound() && target != now.row.hostId
      requires now.row.movedFrom.None? || now.row.movedFrom == Some(target)
      modifies this
      ensures Steady() && now.row == old(now.row) && now.latest == old(now.latest)
      ensures now.booted == old(now.booted) && now.served == old(now.served) && now.doomed == old(now.doomed)
      ensures o.Done? ==> target !in now.volumes
      ensures o.Done? && Protected(now) ==> now.row.moveObject.None?
      ensures if old(ForeignCopy(now, target)) then !o.Done? && now == old(now) else Blamed(o)
      ensures SameAt(old(now), now, now.row.hostId) && now.archives == old(now.archives) &&
              now.nextArchive == old(now.nextArchive)
    {
      assert now.row.moveObject.None? ==> MayErase(now, target) && Home(now) != target;
      assert !now.doomed && now.row.moveObject.Some? ==> now.row.movedFrom.value in now.volumes;
      hide Sound, AllBookkept, Inv, Bookkept, SameElsewhere, MayErase;
      o := Ask();
      if o.IsFailure() { return; }
      var reachable: bool := *;
      if !reachable && !calm {
        o := Fail();
        return;
      }
      :- Ask();
      :- Ask();
      if target !in now.volumes {
        return Done;
      }
      if now.row.movedFrom != Some(target) || now.row.moveObject.Some? {
        return Threw;
      }
      // What this erases is RetainedThere: a copy of a finished move, behind the present state.
      ghost var w := now;
      o := RemoveBotFromHost(target);
      ErasingSpares(w, now, target, w.row.hostId);
    }

    /** What a host-to-host move needs before its flip, and what a dry run rehearses. */
    ghost predicate Exported(archive: Archive)
      reads `now
    {
      && (now.row.hostId in now.containers ==> !now.containers[now.row.hostId].running)
      && archive in now.archives && archive < now.nextArchive && now.row.hostId in now.volumes
      && (Kept(now) && now.row.moveObject.None? ==>
           now.archives[archive] == Saved(now.latest))
    }

    method Upload() returns (o: Outcome, archive: Archive)
      requires Sound() && now.row.hostId in now.containers && !now.containers[now.row.hostId].running
      modifies this
      ensures Steady()
      ensures now.row == old(now.row) && now.containers == old(now.containers) && now.volumes == old(now.volumes)
      ensures now.latest == old(now.latest) && now.booted == old(now.booted) && now.served == old(now.served) &&
              now.doomed == old(now.doomed)
      ensures o.Done? ==> Exported(archive)
      ensures Blamed(o)
      ensures o.Done? ==> old(now.nextArchive) < now.nextArchive
      ensures archive == old(now.nextArchive) && now.archives - {archive} == old(now.archives)
    {
      hide Sound, AllBookkept, Inv, Bookkept;
      NowSound();
      HomeIsNewest(now);
      UploadAdds(now, now.row.hostId);
      archive := now.nextArchive;
      var torn: bool := *;
      if torn && !calm {
        o := WriteArchive(UploadTorn(now));
        if o.Done? {
          o := Fail();
        }
      } else {
        o := WriteArchive(Uploaded(now, now.row.hostId));
      }
    }

    method WriteArchive(next: World) returns (o: Outcome)
      requires Sound() && now.row.hostId in now.volumes
      requires next == UploadTorn(now) || next == Uploaded(now, now.row.hostId)
      modifies this
      ensures Steady() && Blamed(o)
      ensures now == old(now) || now == next
      ensures o.Done? ==> now == next
    {
      UploadKeeps(now, now.row.hostId);
      hide Inv, Bookkept;
      o := Attempt(next);
    }

    method StopSource() returns (o: Outcome)
      requires Sound() && now.row.hostId in now.containers
      modifies this
      ensures Steady() && now.row == old(now.row) && now.booted == old(now.booted) && now.served == old(now.served) &&
              now.doomed == old(now.doomed)
      ensures now.containers.Keys == old(now.containers.Keys) && now.volumes.Keys == old(now.volumes.Keys) &&
              old(now.latest) <= now.latest
      ensures o.Done? ==> !now.containers[now.row.hostId].running
      ensures Blamed(o)
      ensures now.nextArchive == old(now.nextArchive)
      ensures now.archives == old(now.archives)
    {
      HaltAdvances(now, now.row.hostId);
      hide Sound, AllBookkept, Inv, Bookkept, Halted;
      o := Done;
      if now.containers[now.row.hostId].running {
        o := RuntimeStop(now.row.hostId);
      }
    }

    /** The volume is read only once nothing writes it. */
    method ExportSource() returns (o: Outcome, archive: Archive)
      requires Sound() && now.row.hostId in now.containers
      modifies this
      ensures Steady() && now.row == old(now.row) && now.booted == old(now.booted) && now.served == old(now.served) &&
              now.doomed == old(now.doomed)
      ensures now.containers.Keys == old(now.containers.Keys) && now.volumes.Keys == old(now.volumes.Keys)
      ensures old(now.latest) <= now.latest
      ensures o.Done? ==> Exported(archive)
      ensures Blamed(o)
      ensures o.Done? ==> old(now.nextArchive) < now.nextArchive
      ensures archive == old(now.nextArchive) && now.archives - {archive} == old(now.archives)
    {
      hide Sound, AllBookkept, Inv, Bookkept, Exported;
      NowSound();
      HomeIsNewest(now);
      archive := now.nextArchive;
      :- Ask();
      :- StopSource();
      o, archive := Upload();
      if o.IsFailure() { return; }
      // An empty or oversized archive is refused.
      o := Ask();
    }

    method Flip(target: HostId, archive: Archive, keepStopped: bool, at: int) returns (o: Outcome)
      requires Sound() && now.row.status.Stopped? && target != now.row.hostId && target !in now.volumes
      requires now.row.movedFrom.None? || now.row.movedFrom == Some(target)
      requires (Protected(now) ==> now.row.moveObject.None?) && Exported(archive)
      modifies this
      ensures Steady()
      ensures now == old(now) || now == Flipped(old(now), target, archive, keepStopped, at)
      ensures o.Done? ==> now == Flipped(old(now), target, archive, keepStopped, at)
      ensures Blamed(o)
    {
      FlippedKeeps(now, target, archive, keepStopped, at);
      o := Attempt(Flipped(now, target, archive, keepStopped, at));
    }

    /** The loop ends by a flip, by a failure, or after its last attempt; a lost acknowledgement may have flipped. */
    method FlipToHost(target: HostId, archive: Archive, keepStopped: bool, at: int) returns (o: Outcome)
      requires Sound() && target != now.row.hostId && target !in now.volumes
      requires calm ==> now.row.status.Stopped?
      requires now.row.movedFrom.None? || now.row.movedFrom == Some(target)
      requires (Protected(now) ==> now.row.moveObject.None?) && Exported(archive)
      modifies this
      ensures Steady()
      ensures now == old(now) || now == Flipped(old(now), target, archive, keepStopped, at)
      ensures o.Done? ==> now == Flipped(old(now), target, archive, keepStopped, at)
      ensures Blamed(o)
    {
      hide Sound, AllBookkept, Inv, Bookkept;
      for attempt := 0 to maxProvisionRetries
        invariant now == old(now) && Steady() && (calm ==> attempt == 0)
      {
        :- Ask();
        var portTaken: bool := *;
        if !portTaken || calm {
          if now.row.status.Stopped? {
            o := Flip(target, archive, keepStopped, at);
          } else {
            o := Fail();
          }
          return;
        }
      }
      o := Fail();
    }

    /** Called while the row still names the source; only a bot that was in service is started. */
    method ResumeSource(was: Status) returns (o: Outcome)
      requires Sound() && now.row.hostId in now.containers && now.row.status.Stopped?
      modifies this
      ensures Advanced() && (old(now.row.moveObject).None? ==> Steady())
      ensures now.lost == old(now.lost) && now.doomed == old(now.doomed)
      ensures now.row.hostId == old(now.row.hostId) && now.row.moveObject == old(now.row.moveObject)
      ensures now.row.movedFrom == old(now.row.movedFrom)
      ensures o.Done? && IsUp(was) ==>
                now.row.status.Running? && now.row.hostId in now.containers && now.containers[now.row.hostId].running
      ensures o.Done? && !IsUp(was) ==> now == old(now)
      ensures Blamed(o)
      ensures now.nextArchive == old(now.nextArchive)
      ensures now.archives == old(now.archives)
    {
      hide Sound, AllBookkept, Inv, Bookkept, RollbackUntouched, Started, WriteStatus;
      o := Done;
      if !IsUp(was) {
        return;
      }
      StartRuns(now, now.row.hostId);
      :- RuntimeStart(now.row.hostId);
      StatusIsLocal(now, Running);
      StatusWritesOnlyTheRow(now, Running);
      var resumed: bool;
      o, resumed := UpdateStatus(Running, Some(Stopped));
    }

    method RuntimeMoveBack(to: HostId) returns (o: Outcome)
      requires Sound() && MoveBackGuard(now, to) && now.row.hostId !in now.volumes
      modifies this
      ensures Steady()
      ensures now == old(now) || now == MovedBack(old(now), to)
      ensures o.Done? ==> now == MovedBack(old(now), to)
      ensures Blamed(o)
    {
      MovedBackKeeps(now, to);
      o := Attempt(MovedBack(now, to));
    }

    /** Back to the host whose copy was retained, with the row still `error`. The only sign that the target has
        served is a started container with the import marked. A target that served and has no container left
        shows no such sign, is erased, and the bot with it. */
    method MoveBackLocked(to: HostId) returns (o: Outcome)
      requires Sound() && MoveBackGuard(now, to)
      modifies this
      ensures Recorded()
      ensures o.Done? ==> now.row == MovedBack(old(now), to).row
      ensures o.Done? ==> now.row == old(now.row).(hostId := to, containerId := None, movedFrom := None,
                moveObject := None, movedAt := None, imported := false)
      ensures o.Done? ==> old(now.row.hostId) !in now.containers && old(now.row.hostId) !in now.volumes
      ensures o.Done? ==> VolumeAt(now, to) == old(VolumeAt(now, to))
      ensures o.Done? && old(Kept(now) && !now.served) ==> Kept(now) && VolumeAt(now, to) == Some(Saved(now.latest))
      ensures old(now.row.imported && now.row.hostId in now.containers && now.containers[now.row.hostId].started) ==>
                o != Done && now == old(now)
      ensures now.lost && !old(now.lost) ==> old(now.served)
      ensures o.Done? ==> (now.lost <==> old(now.lost || (Protected(now) && now.served)))
      ensures old(!(now.row.imported && now.row.hostId in now.containers && now.containers[now.row.hostId].started)) ==>
                Blamed(o)
      ensures now.row == old(now.row) || now.row == MovedBack(old(now), to).row
    {
      ReturnedRow(now, to);
      hide Sound, AllBookkept, Inv, Bookkept, MayErase, Erasing, MovedBack;
      ghost var w := now;
      NowSound();
      MayEraseTarget(w, to);
      o := ClearTarget();
      ErasedForRollback(w, now, to);
      if o.IsFailure() { return; }
      ghost var w1 := now;
      :- Ask();
      SameRowSameReturn(w, w1, to);
      :- RuntimeMoveBack(to);
      NowSound();
      RolledBack(w1, to);
      o := Ask();
    }

    /** Empties the row's host before the row leaves it: Inv allows a container only where the row is. */
    method ClearTarget() returns (o: Outcome)
      requires Sound() && MayErase(now, now.row.hostId)
      modifies this
      ensures Recorded() && Erasing(old(now), now, old(now.row.hostId)) && now.row == old(now.row)
      ensures o.Done? ==> now.row.hostId !in now.volumes && now.row.hostId !in now.containers
      ensures old(now.row.imported && now.row.hostId in now.containers && now.containers[now.row.hostId].started) ==>
                o != Done && now == old(now)
      ensures old(!(now.row.imported && now.row.hostId in now.containers && now.containers[now.row.hostId].started)) ==>
                Blamed(o)
    {
      RemovalErases(now, now.row.hostId);
      hide Sound, AllBookkept, Inv, Bookkept, MayErase, Erasing;
      o := Ask();
      if o.IsFailure() { return; }
      var reachable: bool := *;
      if !reachable && !calm {
        o := Fail();
        return;
      }
      :- Ask();
      if now.row.hostId in now.containers && now.containers[now.row.hostId].started && now.row.imported {
        return Threw;
      }
      o := RemoveBotFromHost(now.row.hostId);
    }

    method FlipExported(target: HostId, archive: Archive, keepStopped: bool, at: int) returns (o: Outcome)
      requires Sound() && target != now.row.hostId && target !in now.volumes
      requires calm ==> now.row.status.Stopped?
      requires now.row.movedFrom.None? || now.row.movedFrom == Some(target)
      requires (Protected(now) ==> now.row.moveObject.None?) && Exported(archive)
      modifies this
      ensures Steady()
      ensures now.booted == old(now.booted) && now.doomed == old(now.doomed) && now.latest == old(now.latest)
      ensures now.volumes == old(now.volumes) && now.containers == old(now.containers)
      ensures now.row != old(now.row) ==> !now.served
      ensures now.row == old(now.row) ||
              (now.row == Flipped(old(now), target, archive, keepStopped, at).row &&
                now.row.moveObject == Some(archive))
      ensures o.Done? ==> now.row == Flipped(old(now), target, archive, keepStopped, at).row
      ensures Blamed(o)
      ensures now.nextArchive == old(now.nextArchive)
      ensures o.Done? ==> CanImport(now)
      ensures now.archives == old(now.archives)
    {
      hide Sound, AllBookkept, Inv, Bookkept, CanImport;
      NowSound();
      FreshTargetCanImport(now, target, archive, keepStopped, at);
      o := FlipToHost(target, archive, keepStopped, at);
    }

    /** The try block: stop, export and, unless it is a rehearsal, flip. */
    method ExportAndFlip(target: HostId, dryRun: bool, keepStopped: bool, at: int)
        returns (o: Outcome, archive: Archive)
      requires Sound() && now.row.status.Stopped? && now.row.hostId in now.containers
      requires !dryRun ==> target != now.row.hostId && target !in now.volumes
      requires !dryRun ==> now.row.movedFrom.None? || now.row.movedFrom == Some(target)
      requires !dryRun && Protected(now) ==> now.row.moveObject.None?
      modifies this
      ensures Steady()
      ensures now.booted == old(now.booted) && now.doomed == old(now.doomed) && old(now.latest) <= now.latest
      ensures now.row != old(now.row) ==> !now.served && target !in now.volumes
      ensures now.row == old(now.row) ||
              (!dryRun && now.row == Flipped(old(now), target, now.row.moveObject.GetOr(0), keepStopped, at).row)
      ensures now.row == old(now.row) ==> now.row.hostId in now.containers
      ensures o.Done? && !dryRun ==> now.row == Flipped(old(now), target, archive, keepStopped, at).row
      ensures o.Done? && dryRun ==> now.row == old(now.row)
      ensures Blamed(o)
      ensures o.Done? ==> old(now.nextArchive) < now.nextArchive
      ensures o.Done? && !dryRun ==> CanImport(now)
      ensures archive == old(now.nextArchive) && now.archives - {archive} == old(now.archives)
    {
      hide Sound, AllBookkept, Inv, Bookkept, Exported;
      o, archive := ExportSource();
      if o.IsFailure() { return; }
      o := Ask();
      if o.IsFailure() || dryRun { return; }
      FlipsOnlyTheRow(old(now), now, target, archive, keepStopped, at);
      hide Flipped;
      o := FlipExported(target, archive, keepStopped, at);
    }

    /** The row has left its host: the old container goes, and the target boots from the archive. */
    method FinishMove(source: HostId) returns (o: Outcome, late: bool)
      requires Sound() && now.row.status.Provisioning? && now.row.moveObject.Some? && now.row.movedFrom == Some(source)
      modifies this
      ensures Recorded()
      ensures late ==> !o.Done? && now.row.moveObject.None?
      ensures now.lost && !old(now.lost) ==> late || old(BackupAhead(now))
      ensures o.Done? ==> (now.lost <==> old(now.lost || BackupAhead(now)))
      ensures late && Protected(now) ==>
                (now.lost <==> old(now.lost || BackupAhead(now)) || now.row.hostId !in now.volumes)
      ensures now.row.hostId == old(now.row.hostId) && now.doomed == old(now.doomed)
      ensures o.Done? ==> now.row.movedFrom == Some(source) && now.row.moveObject.None?
      ensures o.Done? ==> now.row.movedAt == old(now.row.movedAt)
      ensures o.Done? ==> now.row.status == if old(now.row.stoppedBefore) then Stopped else Running
      ensures o.Done? && old(Kept(now) && !BackupAhead(now)) ==>
                && Kept(now) && old(now.latest) <= now.latest
                && VolumeAt(now, source) == Some(Saved(old(now.latest)))
                && VolumeAt(now, now.row.hostId) == Some(Saved(now.latest))
      ensures old(CanImport(now)) ==> Blamed(o)
      ensures now.archives == old(now.archives) || now.archives == old(Discarded(now))
      ensures o.Done? && faults == old(faults) ==> now.archives == old(Discarded(now))
      ensures o.Done? && faults == old(faults) ==> ContainerAt(now, source).None?
      ensures o.Done? && old(LeftStopped(now)) ==> NeverStarted(now)
    {
      hide Sound, AllBookkept, Inv, Bookkept, RollbackOf, RollbackUntouched, BackupAhead, CanImport,
        Discarded, Landed, Protected, VolumeAt, ContainerAt;
      late := false;
      o := RetireSource(source);
      if o.IsFailure() { return; }
      ghost var w := now;
      o, late := ResumeProvisioningLocked();
      if o.IsFailure() { return; }
      NowSound();
      LandedKept(w, now);
      o := Ask();
    }

    /** Best effort: the volume outlives its container, and the sweeper comes back for both. */
    method RetireSource(source: HostId) returns (o: Outcome)
      requires Sound() && now.row.status.Provisioning? && now.row.moveObject.Some? && now.row.movedFrom == Some(source)
      modifies this
      ensures Steady() && Blamed(o)
      ensures now.row == old(now.row) && now.latest == old(now.latest) && now.doomed == old(now.doomed)
      ensures BackupAhead(now) == old(BackupAhead(now)) && Discarded(now) == old(Discarded(now)) &&
              now.archives == old(now.archives) && Kept(now) == old(Kept(now)) && Protected(now) == old(Protected(now))
      ensures CanImport(old(now)) ==> CanImport(now)
      ensures Kept(now) ==> VolumeAt(now, source) == Some(Saved(now.latest))
      ensures faults == old(faults) ==> ContainerAt(now, source).None?
      ensures LeftStopped(old(now)) ==> LeftStopped(now)
    {
      hide Sound, AllBookkept, Inv, Bookkept, ContainerRemoved, BackupAhead, CanImport, Discarded, VolumeAt,
        ContainerAt, Protected, Kept, LeftStopped;
      NowSound();
      ProvisioningIsNotServed(now);
      SourceKept(now);
      o := Ask();
      if o.IsFailure() { return; }
      var removed := RuntimeRemove(source);
      o := if removed.Died? then Died else Done;
      NowSound();
      SourceKept(now);
    }

    method ResolveContainerId() returns (o: Outcome)
      requires Sound()
      modifies this
      ensures Steady() && SameAt(old(now), now, now.row.hostId) && OnlyRowWritten(old(now), now)
      ensures now.row.status == old(now.row.status) &&
              now.row.stoppedBefore == old(now.row.stoppedBefore)
      ensures o.Done? ==> now.row.hostId in now.containers
      ensures if old(now.row.hostId in now.containers) then Blamed(o) else !o.Done?
    {
      hide Sound, AllBookkept, Inv, Bookkept;
      o := Ask();
      if o.IsFailure() { return; }
      if now.row.hostId !in now.containers {
        return Threw;
      }
      if now.row.containerId != Some(now.containers[now.row.hostId].id) {
        o := UpdateContainerId(now.containers[now.row.hostId].id);
      }
    }

    /** A stopped row is not written again. */
    method MarkStopped() returns (o: Outcome)
      requires Sound() && IsMovable(now.row.status)
      modifies this
      ensures Steady() && OnlyRowWritten(old(now), now) && RollbackUntouched(old(now), now)
      ensures o.Done? ==> now.row.status.Stopped?
      ensures old(now.row.status).Stopped? ==> now == old(now)
      ensures Blamed(o)
      ensures SameAt(old(now), now, now.row.hostId)
      ensures now.row.status == old(now.row.status) || now.row.status.Stopped?
      ensures now == old(now) || now == WriteStatus(old(now), Stopped)
      ensures now.archives == old(now.archives)
    {
      hide Sound, Inv, Bookkept, OnlyRowWritten, RollbackOf, WriteStatus;
      o := Done;
      StatusWritesOnlyTheRow(now, Stopped);
      StatusIsLocal(now, Stopped);
      if !now.row.status.Stopped? {
        if Bookkept(now) { MovableIsNotMidMove(now); }
        var stopped: bool;
        o, stopped := UpdateStatus(Stopped, Some(now.row.status));
      }
    }

    /** Everything before the try block. */
    method ReadySource(target: HostId) returns (o: Outcome)
      requires Sound() && IsMovable(now.row.status)
      requires target != now.row.hostId ==> now.row.movedFrom.None? || now.row.movedFrom == Some(target)
      modifies this
      ensures Steady()
      ensures now.row.hostId == old(now.row.hostId) && now.row.movedFrom == old(now.row.movedFrom) &&
              now.row.moveObject == old(now.row.moveObject)
      ensures now.booted == old(now.booted) && now.served == old(now.served) && now.doomed == old(now.doomed)
      ensures now.row.backupPending == old(now.row.backupPending)
      ensures now.latest == old(now.latest)
      ensures o.Done? ==> now.row.status.Stopped? && now.row.hostId in now.containers
      ensures o.Done? && old(now.row.status).Stopped? ==> now.row.stoppedBefore
      ensures o.Done? && target != now.row.hostId ==> target !in now.volumes
      ensures o.Done? && target != now.row.hostId && Protected(now) ==> now.row.moveObject.None?
      ensures if old(Ready(now, target)) then Blamed(o) else !o.Done?
      ensures SourceUntouched(old(now), now)
    {
      hide Sound, AllBookkept, Inv, Bookkept, RollbackOf, SameAt;
      NowSound();
      StoppedWasStopped(now);
      SameAtReflexive(now, now.row.hostId);
      o := Done;
      if target != now.row.hostId {
        :- PrepareTarget(target);
      }
      ghost var w := now;
      o := RetireRow();
      SameAtTransitive(old(now), w, now, w.row.hostId);
    }

    /** The container to export from, and the row on `stopped`. */
    method RetireRow() returns (o: Outcome)
      requires Sound() && IsMovable(now.row.status)
      modifies this
      ensures Steady() && OnlyRowWritten(old(now), now) && SameAt(old(now), now, now.row.hostId)
      ensures now.row.status == old(now.row.status) || now.row.status.Stopped?
      ensures o.Done? ==> now.row.status.Stopped? && now.row.hostId in now.containers
      ensures o.Done? && old(now.row.status).Stopped? ==> now.row.stoppedBefore == old(now.row.stoppedBefore)
      ensures if old(now.row.hostId in now.containers) then Blamed(o) else !o.Done?
    {
      hide Sound, AllBookkept, Inv, Bookkept, RollbackOf, SameAt;
      SameAtReflexive(now, now.row.hostId);
      :- ResolveContainerId();
      ghost var w := now;
      o := MarkStopped();
      SameAtTransitive(old(now), w, now, w.row.hostId);
      if o.IsFailure() { return; }
      // The record that the move has begun: a failure here is outside the try block.
      o := Ask();
    }

    /** After a failure of the try block the row is read again. The source is started only if that read
        succeeds and still names it; any other answer leaves the source down. */
    method Undo(dryRun: bool, source: HostId, was: Status, archive: Archive) returns (o: Outcome)
      requires Sound() && (now.row.hostId == source ==> now.row.status.Stopped? && source in now.containers)
      requires dryRun ==> now.row.hostId == source
      modifies this
      ensures Advanced() && !o.Done? && now.lost == old(now.lost)
      ensures old(AllBookkept()) && (now.row.hostId == source ==> old(now.row.moveObject).None?) ==> AllBookkept()
      ensures now.row.hostId == old(now.row.hostId)
      ensures old(now.row.hostId) != source ==> now == old(now)
      ensures faults == old(faults) && now.row.hostId == source ==> BackInPlace(now, source, was)
      ensures faults == old(faults) && now.row.hostId == source ==> now.archives == old(now.archives) - {archive}
    {
      hide Sound, AllBookkept, Inv, Bookkept, RollbackOf, RollbackUntouched, ArchiveDeleted;
      if !dryRun {
        var read := Ask();
        if read.Died? { return Died; }
        if read.Threw? || now.row.hostId != source {
          return Threw;
        }
      }
      o := Ask();
      if o.IsFailure() { return; }
      var deleted := DeleteArchive(archive);
      if deleted.Died? { return Died; }
      var resumed := ResumeSource(was);
      o := if resumed.Died? then Died else Threw;
    }

    /** The try block and its catch. If nothing but the try block failed and the row kept its host, the bot is back
        there as it was. */
    method TryMove(target: HostId, dryRun: bool, was: Status, at: int) returns (o: Outcome, archive: Archive)
      requires Sound() && now.row.status.Stopped? && now.row.hostId in now.containers
      requires !dryRun ==> target != now.row.hostId && target !in now.volumes
      requires !dryRun ==> now.row.movedFrom.None? || now.row.movedFrom == Some(target)
      requires !dryRun && Protected(now) ==> now.row.moveObject.None?
      modifies this
      ensures Advanced() && now.lost == old(now.lost) && Blamed(o)
      ensures old(AllBookkept()) && old(now.row.moveObject).None? ==> AllBookkept()
      ensures !o.Done? ==> now.row.hostId == old(now.row.hostId) || (now.row.hostId == target && !dryRun)
      ensures o.Threw? && faults <= old(faults) + 1 && now.row.hostId == old(now.row.hostId) ==>
                BackInPlace(now, old(now.row.hostId), was) && now.archives == old(now.archives)
      ensures o.Done? ==>
                && now.booted == old(now.booted) && now.doomed == old(now.doomed)
                && old(now.nextArchive) < now.nextArchive
      ensures o.Done? && !dryRun ==>
                && !now.served && target !in now.volumes && CanImport(now)
                && now.row == Flipped(old(now), target, archive, was.Stopped?, at).row
      ensures o.Done? && dryRun ==> now.row == old(now.row) && now.row.hostId in now.containers
      ensures o.Done? ==> now.archives - {archive} == old(now.archives)
      ensures o.Done? && !dryRun ==>
                now.row == old(now.row).(hostId := target, status := Provisioning, containerId := None,
                  movedFrom := Some(old(now.row.hostId)), moveObject := Some(archive), movedAt := Some(at),
                  imported := false, stoppedBefore := old(now.row.stoppedBefore) && was.Stopped?)
    {
      hide Sound, AllBookkept, Inv, Bookkept, RollbackOf, Exported, Flipped;
      var source := now.row.hostId;
      FlipsTo(now, target, was.Stopped?, at);
      o, archive := ExportAndFlip(target, dryRun, was.Stopped?, at);
      if o.Threw? {
        o := Undo(dryRun, source, was, archive);
      }
    }

    /** What a finished move leaves: the bot in service on the target as it was on the source, and on the
        source the state it had at the flip, for the retention window. */
    ghost predicate Moved(w: World, w': World, target: HostId, at: int) {
      && w'.row.hostId == target && w'.row.movedAt == Some(at)
      && w'.row.movedFrom == Some(w.row.hostId) && w'.row.moveObject.None?
      && w'.row.status == (if w.row.status.Stopped? then Stopped else Running)
      && (Kept(w) && !w.row.backupPending ==>
            && Kept(w')
            && VolumeAt(w', target) == Some(Saved(w'.latest))
            && VolumeAt(w', w.row.hostId).Some?
            && VolumeAt(w', w.row.hostId).value.Saved?
            && w.latest <= VolumeAt(w', w.row.hostId).value.version <= w'.latest)
    }

    method EndRehearsal(archive: Archive, was: Status) returns (o: Outcome)
      requires Sound() && now.row.hostId in now.containers && now.row.status.Stopped?
      modifies this
      ensures Advanced() && (old(now.row.moveObject).None? ==> Steady())
      ensures now.lost == old(now.lost) && now.row.hostId == old(now.row.hostId) &&
              now.row.movedFrom == old(now.row.movedFrom)
      ensures o.Done? ==> now.row.status == if IsUp(was) then Running else Stopped
      ensures Blamed(o)
      ensures now.nextArchive == old(now.nextArchive)
      ensures o.Done? && IsUp(was) ==> now.row.hostId in now.containers && now.containers[now.row.hostId].running
      ensures o.Done? && faults == old(faults) ==> now.archives == old(now.archives) - {archive}
    {
      hide Sound, AllBookkept, Inv, Bookkept, RollbackOf;
      var deleted := DeleteArchive(archive);
      if deleted.Died? { return Died; }
      :- ResumeSource(was);
      o := Ask();
    }

    /** A move whose guards passed. */
    method MoveForward(target: HostId, dryRun: bool, at: int) returns (o: Outcome, late: bool)
      requires Sound() && IsMovable(now.row.status) && (target == now.row.hostId ==> dryRun)
      requires target != now.row.hostId ==> now.row.movedFrom.None? || now.row.movedFrom == Some(target)
      modifies this
      ensures Advanced()
      ensures old(AllBookkept()) && old(now.row.moveObject).None? ==> AllBookkept()
      ensures late ==> !o.Done? && now.row.moveObject.None?
      ensures now.lost && !old(now.lost) ==> !dryRun && (late || old(Protected(now) && now.row.backupPending))
      ensures o.Done? && !dryRun ==> (now.lost <==> old(now.lost || (Protected(now) && now.row.backupPending)))
      ensures late && Protected(now) ==>
                (now.lost <==>
                  old(now.lost || (Protected(now) && now.row.backupPending)) || now.row.hostId !in now.volumes)
      ensures o.Done? && dryRun ==>
                && now.row.hostId == old(now.row.hostId) && now.row.movedFrom == old(now.row.movedFrom)
                && now.row.status == if IsUp(old(now.row.status)) then Running else Stopped
      ensures o.Done? && !dryRun ==> Moved(old(now), now, target, at)
      ensures o.Done? && dryRun && IsUp(old(now.row.status)) ==>
                now.row.hostId in now.containers && now.containers[now.row.hostId].running
      ensures if old(Ready(now, target)) then Blamed(o) else !o.Done?
      ensures o.Threw? && faults <= old(faults) + 1 && now.row.hostId == old(now.row.hostId) &&
              (dryRun ==> now.nextArchive == old(now.nextArchive)) ==>
                || (BackInPlace(now, old(now.row.hostId), old(now.row.status)) && now.archives == old(now.archives))
                || SourceUntouched(old(now), now)
      ensures o.Done? && faults == old(faults) ==>
                now.archives == old(now.archives) && (!dryRun ==> ContainerAt(now, old(now.row.hostId)).None?)
      ensures calm && old(Ready(now, target)) ==> o.Done?
      ensures o.Done? && !dryRun && old(now.row.status).Stopped? ==> NeverStarted(now)
    {
      hide Sound, AllBookkept, Inv, Bookkept, RollbackOf, Exported;
      late := false;
      var source, was := now.row.hostId, now.row.status;
      :- ReadySource(target);
      var archive: Archive;
      o, archive := TryMove(target, dryRun, was, at);
      if o.IsFailure() { return; }
      if dryRun {
        o := EndRehearsal(archive, was);
        return;
      }
      o, late := FinishMove(source);
    }

    method MoveLocked(target: HostId, dryRun: bool, pairingInFlight: bool, at: int) returns (o: Outcome, late: bool)
      requires Sound()
      modifies this
      ensures Recorded()
      ensures late ==> !o.Done? && now.row.moveObject.None?
      ensures now.lost && !old(now.lost) ==> late || old(now.served || (Protected(now) && now.row.backupPending))
      ensures o.Done? && !dryRun && !old(now.row.status).Error? ==>
                (now.lost <==> old(now.lost || (Protected(now) && now.row.backupPending)))
      ensures o.Done? && old(now.row.status).Error? ==> (now.lost <==> old(now.lost || (Protected(now) && now.served)))
      ensures late && Protected(now) ==>
                (now.lost <==>
                  old(now.lost || (Protected(now) && now.row.backupPending)) || now.row.hostId !in now.volumes)
      ensures o.Done? && old(now.row.status).Error? ==> now.row == MovedBack(old(now), target).row
      ensures o.Done? && !old(now.row.status).Error? && dryRun ==>
                && now.row.hostId == old(now.row.hostId) && now.row.movedFrom == old(now.row.movedFrom)
                && now.row.status == if IsUp(old(now.row.status)) then Running else Stopped
      ensures o.Done? && !old(now.row.status).Error? && !dryRun ==> Moved(old(now), now, target, at)
      ensures !storageConfigured || pairingInFlight || old(MoveRefused(now, target, dryRun)) ==>
                o == Threw && now == old(now)
      ensures storageConfigured && !pairingInFlight && !old(MoveRefused(now, target, dryRun)) ==>
                if old(now.row.status).Error?
                then old(now.row.imported ==> NeverStarted(now)) ==> Blamed(o)
                else if old(Ready(now, target)) then Blamed(o) else !o.Done?
      ensures o.Threw? && !old(now.row.status).Error? && faults <= old(faults) + 1 &&
              now.row.hostId == old(now.row.hostId) && (dryRun ==> now.nextArchive == old(now.nextArchive)) ==>
                || (BackInPlace(now, old(now.row.hostId), old(now.row.status)) && now.archives == old(now.archives))
                || SourceUntouched(old(now), now)
      ensures o.Done? && !old(now.row.status).Error? && faults == old(faults) ==>
                now.archives == old(now.archives) && (!dryRun ==> ContainerAt(now, old(now.row.hostId)).None?)
      ensures o.Done? && !old(now.row.status).Error? && dryRun && IsUp(old(now.row.status)) ==> RunsHere(now)
      ensures o.Done? && !dryRun && old(now.row.status).Stopped? ==> NeverStarted(now)
    {
      assert Bookkept(now) && IsMovable(now.row.status) ==> now.row.moveObject.None?;
      hide Sound, AllBookkept, Inv, Bookkept, Moved;
      o, late := Threw, false;
      var source, was := now.row.hostId, now.row.status;
      if !storageConfigured || was.Destroyed? || (target == source && !dryRun) || pairingInFlight {
        return;
      }
      if was.Error? && now.row.movedFrom == Some(target) {
        // Without a recorded archive the copy on the old host is behind, and MoveBackLocked would lose the rest.
        if !dryRun && now.row.moveObject.Some? {
          o := MoveBackLocked(target);
        }
        return;
      }
      // The row has one `movedFrom`: a move elsewhere would leave the copy there with nobody to remove it.
      if !IsMovable(was) ||
        (now.row.movedFrom.Some? && now.row.movedFrom != Some(target) && !(dryRun && target == source)) {
        return;
      }
      o, late := MoveForward(target, dryRun, at);
    }

    // ----- Rebuild, start, stop -----

    /** Stop, migration, removal, new container, in this order; no volume is touched. */
    method RecreateContainer() returns (o: Outcome)
      requires Sound()
      modifies this
      ensures Steady() && SameMove(old(now), now)
      ensures now.row.imported == old(now.row.imported)
      ensures o.Done? ==> now.row.hostId in now.containers
      ensures Blamed(o)
      ensures o.Done? ==> OnCurrentImage(now)
      ensures o.Done? ==> IdFits(now)
    {
      hide Sound, AllBookkept, Inv, Bookkept, RollbackOf;
      o := Ask();
      if o.IsFailure() { return; }
      if now.row.hostId in now.containers {
        :- StopForRebuild();
        :- Ask();
        :- RemoveStopped();
      }
      o := PrepareContainer();
    }

    method StopForRebuild() returns (o: Outcome)
      requires Sound()
      modifies this
      ensures Steady() && SameMove(old(now), now) && now.row == old(now.row)
      ensures now.containers.Keys == old(now.containers.Keys)
      ensures Blamed(o)
      ensures OnCurrentImage(old(now)) ==> OnCurrentImage(now)
      ensures o.Done? ==> now == Halted(old(now), now.row.hostId)
    {
      assert RowConsistent(now);
      ghost var w := now;
      RemovalTends(now, now.row.hostId);
      hide Sound, AllBookkept, Inv, Bookkept, Tended, RowConsistent;
      o := RuntimeStop(now.row.hostId);
      TendedReflexive(w, w.row.hostId);
      TendingIsSameMove(w, now);
    }

    method RemoveStopped() returns (o: Outcome)
      requires Sound()
      modifies this
      ensures Steady() && SameMove(old(now), now) && now.row == old(now.row)
      ensures Blamed(o)
    {
      assert RowConsistent(now);
      ghost var w := now;
      hide Sound, AllBookkept, Inv, Bookkept, Tended, RowConsistent;
      o := RemoveForRebuild();
      TendingIsSameMove(w, now);
    }

    /** A container is kept exactly if it is there and on the present image. */
    method ContainerForBoot() returns (o: Outcome)
      requires Sound()
      modifies this
      ensures Steady() && SameMove(old(now), now) && now.row.imported == old(now.row.imported)
      ensures o.Done? ==> now.row.hostId in now.containers
      ensures Blamed(o)
      ensures o.Done? ==> OnCurrentImage(now)
      ensures o.Done? ==> IdFits(now)
      ensures o.Done? && old(OnCurrentImage(now)) ==>
                now.containers == old(now.containers) && now.volumes == old(now.volumes)
    {
      hide Sound, AllBookkept, Inv, Bookkept, RollbackOf;
      o := Ask();
      if o.IsFailure() { return; }
      if now.row.hostId in now.containers && now.containers[now.row.hostId].current {
        if now.row.containerId != Some(now.containers[now.row.hostId].id) {
          :- RecordContainer(now.containers[now.row.hostId].id);
        }
        o := Ask();
      } else {
        :- RecreateContainer();
        o := Ask();
      }
    }

    /** The bot is put in service where it stands. A row with a recorded archive is refused: in
        service it would look like a finished move to the purge, which then removes the newest state. */
    method RecreateLocked() returns (o: Outcome)
      requires Sound()
      modifies this
      ensures Steady()
      ensures old(now.row.moveObject).Some? ==> o == Threw && now == old(now)
      ensures now.row.hostId == old(now.row.hostId) && RollbackUntouched(old(now), now)
      ensures o.Done? ==>
                now.row.status.Running? && now.row.hostId in now.containers && now.containers[now.row.hostId].running
      ensures o.Done? ==> now.booted
      ensures o.Done? ==> OnCurrentImage(now)
      ensures old((IsUp(now.row.status) || now.row.status.Error?) && now.row.moveObject.None?) ==> Blamed(o)
      ensures !old(IsUp(now.row.status) || now.row.status.Error?) ==> o == Threw && now == old(now)
      ensures o.Threw? && now != old(now) && faults <= old(faults) + 1 ==>
                now.row.status == if now.row.hostId in now.containers then Stopped else Error
      ensures now.archives == old(now.archives)
    {
      hide Sound, AllBookkept, Inv, Bookkept, RollbackOf, WriteStatus, OnCurrentImage, IdFits;
      o := Threw;
      if !(IsUp(now.row.status) || now.row.status.Error?) || now.row.moveObject.Some? {
        return;
      }
      o := RecreateContainer();
      if o.Done? {
        o := BootRecreated();
      }
      if o.Threw? {
        // A failed lookup is treated like an empty one; the volume decides what can boot.
        var found := Ask();
        if found.Died? { return Died; }
        var bootable := found.Done? && now.row.hostId in now.containers;
        StatusIsLocal(now, if bootable then Stopped else Error);
        var written, _ := UpdateStatus(if bootable then Stopped else Error, None);
        o := if written.Died? then Died else Threw;
      }
    }

    method BootRecreated() returns (o: Outcome)
      requires Sound() && now.row.moveObject.None? && now.row.hostId in now.containers
      modifies this
      ensures Steady() && RollbackUntouched(old(now), now)
      ensures now.row.hostId == old(now.row.hostId) && now.row.moveObject.None?
      ensures o.Done? ==>
                now.row.status.Running? && now.row.hostId in now.containers && now.containers[now.row.hostId].running
      ensures o.Done? ==> now.booted
      ensures Blamed(o)
      ensures o.Done? && old(OnCurrentImage(now)) ==> OnCurrentImage(now)
      ensures now.archives == old(now.archives)
    {
      hide Sound, AllBookkept, Inv, Bookkept, RollbackOf, WentLive, Started, WriteStatus;
      NowSound();
      StartedIsLocal(now);
      StartRuns(now, now.row.hostId);
      o := RuntimeStart(now.row.hostId);
      if o.IsFailure() { return; }
      StatusIsLocal(now, Running);
      :- MarkLive();
      :- Ask();
      o := Ask();
    }

    /** A start loses nothing by itself. Of a row that waits for a move it breaks the bookkeeping, and if the
        import was marked, the bot is what the target holds from here: a later rollback would lose it. */
    method StartLocked() returns (o: Outcome)
      requires Sound()
      modifies this
      ensures Advanced() && now.lost == old(now.lost)
      ensures old(AllBookkept()) && old(now.row.moveObject).None? ==> AllBookkept()
      ensures o.Done? && old(now.row.moveObject).Some? ==> !Bookkept(now)
      ensures now.row.hostId == old(now.row.hostId) && RollbackUntouched(old(now), now)
      ensures o.Done? ==> CanStartFrom(old(now.row.status)) && now.row.status.Running?
      ensures o.Done? ==> now.row.hostId in now.containers && now.containers[now.row.hostId].running
      ensures o.Done? ==> OnCurrentImage(now)
      ensures if old(CanStartFrom(now.row.status) && now.row.containerId.Some?) then Blamed(o)
              else o == Threw && now == old(now)
      ensures o.Threw? && faults <= old(faults) + 1 ==>
                || now.row.status == old(now.row.status) || now == WriteStatus(old(now), Running)
                || (now.row.status.Running? && RunsHere(now))
      ensures now.archives == old(now.archives)
      ensures o.Done? && old(OnCurrentImage(now)) ==> Reused(old(now), now)
    {
      var was := now.row.status;
      o := Threw;
      if !CanStartFrom(was) || now.row.containerId.None? {
        return;
      }
      assert RowConsistent(now);
      hide Sound, AllBookkept, Inv, Bookkept, RollbackOf;
      o := StartFrom(was);
      RunningMidMoveIsNotBookkept(now);
    }

    method StartFrom(was: Status) returns (o: Outcome)
      requires Sound() && now.row.status == was && CanStartFrom(was)
      requires was.Provisioning? ==> !now.served && (Protected(now) ==> now.row.moveObject.Some?)
      modifies this
      ensures Advanced() && now.lost == old(now.lost)
      ensures old(AllBookkept()) && old(now.row.moveObject).None? ==> AllBookkept()
      ensures now.row.hostId == old(now.row.hostId) && now.row.moveObject == old(now.row.moveObject) &&
              RollbackUntouched(old(now), now)
      ensures o.Done? ==> now.row.status.Running?
      ensures o.Done? ==> now.row.hostId in now.containers && now.containers[now.row.hostId].running
      ensures o.Done? ==> OnCurrentImage(now)
      ensures Blamed(o)
      ensures o.Threw? && faults <= old(faults) + 1 ==>
                || now.row.status == was || now == WriteStatus(old(now), Running)
                || (now.row.status.Running? && RunsHere(now))
      ensures now.archives == old(now.archives)
      ensures o.Done? && old(OnCurrentImage(now)) ==> Reused(old(now), now)
    {
      hide Sound, AllBookkept, Inv, Bookkept, RollbackOf, WriteStatus;
      StatusIsLocal(now, Running);
      var updated: bool;
      o, updated := UpdateStatus(Running, Some(was));
      if o.IsFailure() { return; }
      o := BootOrRevert(was);
    }

    method BootOrRevert(was: Status) returns (o: Outcome)
      requires Sound() && now.row.status.Running? && CanStartFrom(was)
      requires was.Provisioning? ==> !now.served && (Protected(now) ==> now.row.moveObject.Some?)
      modifies this
      ensures Advanced() && now.lost == old(now.lost)
      ensures old(AllBookkept()) && old(now.row.moveObject).None? ==> AllBookkept()
      ensures now.row.hostId == old(now.row.hostId) && now.row.moveObject == old(now.row.moveObject) &&
              RollbackUntouched(old(now), now)
      ensures o.Done? ==> now.row.status.Running?
      ensures o.Done? ==> now.row.hostId in now.containers && now.containers[now.row.hostId].running
      ensures o.Done? ==> OnCurrentImage(now)
      ensures Blamed(o)
      ensures o.Threw? && faults <= old(faults) + 1 ==>
                now.row.status == was || (now.row.status.Running? && RunsHere(now))
      ensures now.archives == old(now.archives)
      ensures o.Done? && old(OnCurrentImage(now)) ==> Reused(old(now), now)
    {
      hide Sound, AllBookkept, Inv, Bookkept, RollbackOf;
      o := BootForStart();
      if o.Threw? {
        o := RevertStart(was);
      } else if o.Done? {
        o := ConfirmLive();
      }
    }

    method RevertStart(was: Status) returns (o: Outcome)
      requires Sound() && now.row.status.Running? && CanStartFrom(was)
      requires was.Provisioning? ==> !now.served && (Protected(now) ==> now.row.moveObject.Some?)
      modifies this
      ensures Advanced() && now.lost == old(now.lost) && !o.Done?
      ensures old(AllBookkept()) && old(now.row.moveObject).None? ==> AllBookkept()
      ensures now.row.hostId == old(now.row.hostId) && now.row.moveObject == old(now.row.moveObject) &&
              RollbackUntouched(old(now), now)
      ensures faults == old(faults) ==> o.Threw? && now.row.status == was
      ensures now.archives == old(now.archives)
    {
      hide Sound, AllBookkept, Inv, Bookkept, RollbackOf, WriteStatus;
      StatusIsLocal(now, was);
      var reverted, _ := UpdateStatus(was, Some(Running));
      o := if reverted.Died? then Died else Threw;
    }

    method BootForStart() returns (o: Outcome)
      requires Sound()
      modifies this
      ensures Advanced() && SameMove(old(now), now)
      ensures old(AllBookkept()) && old(now.row.moveObject).None? ==> AllBookkept()
      ensures o.Done? ==> now.row.hostId in now.containers && now.containers[now.row.hostId].running
      ensures Blamed(o)
      ensures o.Done? ==> OnCurrentImage(now)
      ensures o.Done? && old(OnCurrentImage(now)) ==> Reused(old(now), now)
    {
      hide Sound, AllBookkept, Inv, Bookkept, RollbackOf, Started, Reused;
      o := ContainerForBoot();
      if o.IsFailure() { return; }
      if old(OnCurrentImage(now)) { StartReuses(old(now), now); }
      o := BootPrepared();
    }

    /** A restart of a bot in service, by its owner or by the health monitor. A failure leaves the row in error,
        or for the monitor as it was; either way nothing is lost and the old host's copy is untouched. */
    method RestartLocked(bySystem: bool) returns (o: Outcome)
      requires Sound()
      modifies this
      ensures Steady() && RollbackUntouched(old(now), now)
      ensures now.row.hostId == old(now.row.hostId)
      ensures !IsUp(old(now.row.status)) ==> o == Threw && now == old(now)
      ensures now.row.status == old(now.row.status) || now.row.status.Running? || (!bySystem && now.row.status.Error?)
      ensures o.Done? ==> now.row.status.Running?
      ensures o.Done? ==> now.row.hostId in now.containers && now.containers[now.row.hostId].running
      ensures o.Done? ==> OnCurrentImage(now)
      ensures if old(IsUp(now.row.status) && now.row.containerId.Some? &&
                (bySystem ==> RunsHere(now) && OnCurrentImage(now)))
              then Blamed(o) else o == Threw && now == old(now)
      ensures o.Threw? && now != old(now) && faults <= old(faults) + 1 ==>
                || now.row.status == (if bySystem then old(now.row.status) else Error)
                || (IsUp(now.row.status) && RunsHere(now))
      ensures now.archives == old(now.archives)
      ensures o.Done? && old(OnCurrentImage(now)) ==> Reused(old(now), now) && WroteOut(old(now), now)
    {
      var was, h := now.row.status, now.row.hostId;
      o := Threw;
      if !IsUp(was) || now.row.containerId.None? {
        return;
      }
      if bySystem && !(h in now.containers && now.containers[h].running && now.containers[h].current) {
        return;
      }
      RunningMidMoveIsNotBookkept(now);
      hide Sound, AllBookkept, Inv, Bookkept, RollbackOf;
      o := RestartFrom(if bySystem then was else Error);
    }

    method RestartFrom(failure: Status) returns (o: Outcome)
      requires Sound() && IsUp(now.row.status) && (failure.Error? || failure == now.row.status)
      modifies this
      ensures Advanced() && now.lost == old(now.lost) && RollbackUntouched(old(now), now)
      ensures old(AllBookkept()) && old(now.row.moveObject).None? ==> AllBookkept()
      ensures now.row.hostId == old(now.row.hostId)
      ensures now.row.status == old(now.row.status) || now.row.status.Running? || now.row.status == failure
      ensures o.Done? ==> now.row.status.Running?
      ensures o.Done? ==> now.row.hostId in now.containers && now.containers[now.row.hostId].running
      ensures o.Done? ==> OnCurrentImage(now)
      ensures Blamed(o)
      ensures o.Threw? && faults <= old(faults) + 1 ==>
                now.row.status == failure || (IsUp(now.row.status) && RunsHere(now))
      ensures now.archives == old(now.archives)
      ensures o.Done? && old(OnCurrentImage(now)) ==> Reused(old(now), now) && WroteOut(old(now), now)
    {
      hide Sound, AllBookkept, Inv, Bookkept, RollbackOf;
      o := BootForRestart();
      if o.Threw? {
        var written, _ := UpdateStatus(failure, None);
        o := if written.Died? then Died else Threw;
      } else if o.Done? {
        o := ConfirmLive();
      }
    }

    method BootForRestart() returns (o: Outcome)
      requires Sound()
      modifies this
      ensures Advanced() && SameMove(old(now), now)
      ensures old(AllBookkept()) && old(now.row.moveObject).None? ==> AllBookkept()
      ensures o.Done? ==> now.row.hostId in now.containers && now.containers[now.row.hostId].running
      ensures Blamed(o)
      ensures o.Done? ==> OnCurrentImage(now)
      ensures o.Done? && old(OnCurrentImage(now)) ==> Reused(old(now), now) && WroteOut(old(now), now)
    {
      hide Sound, AllBookkept, Inv, Bookkept, RollbackOf, Started, Halted, Reused, WroteOut;
      var rebuilt := !(now.row.hostId in now.containers && now.containers[now.row.hostId].current);
      o := ContainerForBoot();
      if o.IsFailure() { return; }
      ghost var w := now;
      if !rebuilt {
        :- StopForRebuild();
        RestartReuses(old(now), w, now);
      }
      o := BootPrepared();
    }

    method BootPrepared() returns (o: Outcome)
      requires Sound() && now.row.hostId in now.containers
      modifies this
      ensures Advanced() && SameMove(old(now), now)
      ensures old(AllBookkept()) && old(now.row.moveObject).None? ==> AllBookkept()
      ensures Blamed(o)
      ensures o.Done? ==> now.row.hostId in now.containers && now.containers[now.row.hostId].running
      ensures o.Done? && old(OnCurrentImage(now)) ==> OnCurrentImage(now)
      ensures o.Done? ==> now == Started(old(now), old(now.row.hostId))
    {
      hide Sound, AllBookkept, Inv, Bookkept, RollbackOf, Started;
      NowSound();
      StartedIsLocal(now);
      StartRuns(now, now.row.hostId);
      o := RuntimeStart(now.row.hostId);
    }

    /** The write that says so whatever the reconciler made of the row meanwhile. */
    method ConfirmLive() returns (o: Outcome)
      requires Sound() && IsUp(now.row.status)
      modifies this
      ensures Advanced() && now.lost == old(now.lost)
      ensures old(AllBookkept()) && old(now.row.moveObject).None? ==> AllBookkept()
      ensures now.row.hostId == old(now.row.hostId) && now.row.moveObject == old(now.row.moveObject)
      ensures now.containers == old(now.containers) && RollbackUntouched(old(now), now)
      ensures now.row.status == old(now.row.status) || now.row.status.Running?
      ensures o.Done? ==> now.row.status.Running?
      ensures Blamed(o)
      ensures now.archives == old(now.archives)
      ensures old(now.booted) ==> now.volumes == old(now.volumes)
    {
      hide Sound, AllBookkept, Inv, Bookkept, RollbackOf, WentLive;
      o := MarkLive();
    }

    method StopLocked() returns (o: Outcome)
      requires Sound()
      modifies this
      ensures Steady() && RollbackUntouched(old(now), now)
      ensures o.Done? ==> IsUp(old(now.row.status)) && now.row.status.Stopped?
      ensures o.Done? ==> !(now.row.hostId in now.containers && now.containers[now.row.hostId].running)
      ensures old(IsUp(now.row.status) && IdFits(now)) ==> Blamed(o)
      ensures !old(IsUp(now.row.status) && now.row.containerId.Some?) ==> o == Threw && now == old(now)
      ensures o.Threw? && faults <= old(faults) + (if old(IdFits(now)) then 1 else 0) ==>
                now.row.status == old(now.row.status) || now == WriteStatus(old(now), Stopped)
      ensures now.archives == old(now.archives)
    {
      var was := now.row.status;
      o := Threw;
      if !IsUp(was) || now.row.containerId.None? {
        return;
      }
      RunningMidMoveIsNotBookkept(now);
      StatusIsLocal(now, Stopped);
      hide Sound, AllBookkept, Inv, Bookkept, RollbackOf, WriteStatus, IdFits;
      o := MarkStopped();
      if o.IsFailure() { return; }
      o := StopOrRevert(was);
    }

    method StopOrRevert(was: Status) returns (o: Outcome)
      requires Sound() && now.row.status.Stopped? && IsUp(was)
      modifies this
      ensures Advanced() && now.lost == old(now.lost) && RollbackUntouched(old(now), now)
      ensures old(AllBookkept()) && old(now.row.moveObject).None? ==> AllBookkept()
      ensures o.Done? ==> now.row.status.Stopped?
      ensures o.Done? ==> !(now.row.hostId in now.containers && now.containers[now.row.hostId].running)
      ensures old(IdFits(now)) ==> Blamed(o)
      ensures o.Threw? && faults <= old(faults) + (if old(IdFits(now)) then 1 else 0) ==> now.row.status == was
      ensures now.archives == old(now.archives)
    {
      hide Sound, AllBookkept, Inv, Bookkept, RollbackOf, WriteStatus, IdFits;
      o := StopById();
      if o.Threw? {
        StatusIsLocal(now, was);
        var reverted, _ := UpdateStatus(was, Some(Stopped));
        o := if reverted.Died? then Died else Threw;
      }
    }

    // By the row's id: a stale one names no container, and the stop fails.
    method StopById() returns (o: Outcome)
      requires Sound()
      modifies this
      ensures Steady() && SameMove(old(now), now) && now.row == old(now.row)
      ensures o.Done? ==> !(now.row.hostId in now.containers && now.containers[now.row.hostId].running)
      ensures if old(IdFits(now)) then Blamed(o) else o == Threw && now == old(now) && faults == old(faults)
    {
      var h := now.row.hostId;
      if h !in now.containers || now.row.containerId != Some(now.containers[h].id) {
        return Threw;
      }
      o := StopContainer();
    }

    method StopContainer() returns (o: Outcome)
      requires Sound()
      modifies this
      ensures Steady() && SameMove(old(now), now) && now.row == old(now.row)
      ensures o.Done? ==> !(now.row.hostId in now.containers && now.containers[now.row.hostId].running)
      ensures Blamed(o)
    {
      assert RowConsistent(now);
      ghost var w := now;
      RemovalTends(now, now.row.hostId);
      hide Sound, AllBookkept, Inv, Bookkept, Tended, RowConsistent;
      o := RuntimeStop(now.row.hostId);
      TendedReflexive(w, w.row.hostId);
      TendingIsSameMove(w, now);
    }

    // ----- Destroy and the retention sweep -----

    /** The owner's wish, on record from here on. */
    method RequestDestroy()
      requires Sound()
      modifies this
      ensures Steady() && now == Doomed(old(now)) && RollbackUntouched(old(now), now)
      ensures now.doomed && now.row == old(now.row) && now.containers == old(now.containers) && faults == old(faults)
      ensures now.archives == old(now.archives)
    {
      DoomedKeeps(now);
      now := Doomed(now);
      seen := seen + {now};
    }

    /** Addressed by the row's container id, not by name. Any container left holds its volume in place. */
    method RemoveById() returns (o: Outcome)
      requires Sound()
      modifies this
      ensures Steady() && Erasing(old(now), now, now.row.hostId)
      ensures old(now.row.hostId in now.containers ==> IdFits(now)) ==>
                Blamed(o) && (o.Done? ==> now.row.hostId !in now.containers)
      ensures now.archives == old(now.archives)
    {
      var h := now.row.hostId;
      RemovalErases(now, h);
      hide Sound, AllBookkept, Inv, Bookkept, Erasing;
      if h in now.containers && now.row.containerId == Some(now.containers[h].id) {
        o := RuntimeRemove(h);
      } else {
        o := Ask();
      }
    }

    method EraseHome() returns (o: Outcome)
      requires Sound() && now.doomed
      modifies this
      ensures Steady() && RollbackUntouched(old(now), now)
      ensures now.row == old(now.row) && now.doomed
      ensures o.Done? ==> now.row.hostId !in now.volumes && now.row.hostId !in now.containers
      ensures old(now.row.hostId in now.containers ==> IdFits(now)) ==> Blamed(o)
      ensures now.archives == old(now.archives)
    {
      NowSound();
      ghost var w := now;
      RowIsElsewhere(w);
      hide Sound, AllBookkept, Inv, Bookkept, SameElsewhere, MayErase, RollbackOf, IdFits;
      o := RemoveById();
      ErasingLeavesRollback(w, now, w.row.hostId);
      if o.IsFailure() { return; }
      o := EraseVolume();
    }

    method EraseVolume() returns (o: Outcome)
      requires Sound() && now.doomed
      modifies this
      ensures Steady() && RollbackUntouched(old(now), now)
      ensures now.row == old(now.row) && now.doomed && now.archives == old(now.archives)
      ensures o.Done? ==> now.row.hostId !in now.volumes && now.row.hostId !in now.containers
      ensures old(now.row.hostId !in now.containers) ==> Blamed(o)
    {
      NowSound();
      ghost var w := now;
      RowIsElsewhere(w);
      DoomedMayErase(w, w.row.hostId);
      RemovalErases(w, w.row.hostId);
      hide Sound, AllBookkept, Inv, Bookkept, SameElsewhere, MayErase, RollbackOf;
      o := RuntimeRemoveVolume(now.row.hostId);
      ErasingLeavesRollback(w, now, w.row.hostId);
    }

    // Finishes what a crash interrupted, too: a destroying row is taken up where it stands.
    method DestroyLocked() returns (o: Outcome)
      requires Sound()
      modifies this
      ensures Steady() && RollbackUntouched(old(now), now)
      ensures o.Done? ==>
                now.row.status.Destroyed? && now.row.hostId !in now.volumes && now.row.hostId !in now.containers
      ensures old(CanDestroyFrom(now.row.status) || now.row.status.Error? || now.row.status.Destroying?) &&
              old(now.row.hostId in now.containers ==> IdFits(now)) ==>
                Blamed(o)
      ensures !old(CanDestroyFrom(now.row.status) || now.row.status.Error? || now.row.status.Destroying?) ==>
                o == Threw && now == old(now)
      ensures o.Threw? && faults <= old(faults) + 1 ==>
                now.row.status == old(now.row.status) || now.row.status.Destroying? || now.row.status.Error?
      ensures now.archives == old(now.archives)
    {
      hide Sound, AllBookkept, Inv, Bookkept, RollbackOf, Doomed, WriteStatus, IdFits;
      var was := now.row.status;
      o := Threw;
      if !CanDestroyFrom(was) && !was.Error? && !was.Destroying? {
        return;
      }
      IdFitsByRow(now, Doomed(now));
      RequestDestroy();
      if CanDestroyFrom(was) {
        StatusIsLocal(now, Destroying);
        o := MarkDestroying();
        if o.IsFailure() { return; }
      }
      o := FinishDestroy();
    }

    method MarkDestroying() returns (o: Outcome)
      requires Sound() && now.doomed && CanDestroyFrom(now.row.status)
      modifies this
      ensures Steady() && RollbackUntouched(old(now), now) && now.doomed
      ensures Blamed(o)
      ensures now == old(now) || now == WriteStatus(old(now), Destroying)
      ensures o.Done? ==> now.row.status.Destroying?
      ensures now.archives == old(now.archives)
    {
      hide Sound, Inv, Bookkept, WriteStatus;
      RunningMidMoveIsNotBookkept(now);
      StatusIsLocal(now, Destroying);
      var updated: bool;
      o, updated := UpdateStatus(Destroying, Some(now.row.status));
    }

    method FinishDestroy() returns (o: Outcome)
      requires Sound() && now.doomed
      modifies this
      ensures Steady() && RollbackUntouched(old(now), now)
      ensures o.Done? ==>
                now.row.status.Destroyed? && now.row.hostId !in now.volumes && now.row.hostId !in now.containers
      ensures old(now.row.hostId in now.containers ==> IdFits(now)) ==> Blamed(o)
      ensures o.Threw? && faults <= old(faults) + 1 ==> now.row.status.Error? || now.row.status == old(now.row.status)
      ensures now.archives == old(now.archives)
    {
      hide Sound, AllBookkept, Inv, Bookkept, RollbackOf;
      // The steps before the removal, in one call: none of them changes this state.
      o := Ask();
      if o.IsFailure() { return; }
      o := EraseHome();
      if o.Done? {
        o := MarkDestroyed();
      }
      if o.Threw? {
        var written, _ := UpdateStatus(Error, None);
        o := if written.Died? then Died else Threw;
      }
    }

    method MarkDestroyed() returns (o: Outcome)
      requires Sound() && now.doomed
      modifies this
      ensures Steady() && RollbackUntouched(old(now), now)
      ensures now.containers == old(now.containers) && now.volumes == old(now.volumes) &&
              now.row.hostId == old(now.row.hostId)
      ensures now.doomed
      ensures o.Done? ==> now.row.status.Destroyed?
      ensures Blamed(o)
      ensures now.archives == old(now.archives)
    {
      hide Sound, AllBookkept, Inv, Bookkept;
      var updated: bool;
      o, updated := UpdateStatus(Destroyed, None);
    }

    method RuntimeClearMove() returns (o: Outcome)
      requires Sound() && (now.row.movedFrom.Some? ==> now.row.movedFrom.value !in now.volumes)
      requires Protected(now) ==> now.row.moveObject.None?
      modifies this
      ensures Steady()
      ensures now == old(now) || now == MoveCleared(old(now))
      ensures o.Done? ==> now == MoveCleared(old(now))
      ensures Blamed(o)
    {
      MoveClearedKeeps(now);
      o := Attempt(MoveCleared(now));
    }

    /** Only a copy nobody can need any more: past retention, on another host than the row's, and either of a
        destroyed bot or of a move that has been completed. */
    ghost predicate PurgeDue(w: World, cutoff: int) {
      && w.row.movedFrom.Some? && w.row.movedAt.Some? && w.row.movedAt.value < cutoff
      && w.row.movedFrom != Some(w.row.hostId)
      && (w.row.status.Destroyed? || (!w.row.status.Provisioning? && w.row.moveObject.None?))
    }

    method PurgeMovedSourceLocked(cutoff: int) returns (o: Outcome)
      requires Sound()
      modifies this
      ensures Steady()
      ensures !PurgeDue(old(now), cutoff) ==> now == old(now)
      ensures old(now.row.movedFrom).Some? ==> SameElsewhere(old(now), now, old(now.row.movedFrom).value)
      ensures now.row == old(now.row) || now.row == MoveCleared(old(now)).row
      ensures now.row != old(now.row) ==>
                old(now.row.movedFrom).Some? && VolumeAt(now, old(now.row.movedFrom).value).None?
      ensures !old(PurgeDue(now, cutoff)) ==> Blamed(o)
      ensures old(PurgeDue(now, cutoff)) && faults == old(faults) ==>
                && o.Done? && now.row.movedFrom.None?
                && VolumeAt(now, old(now.row.movedFrom).value).None?
                && ContainerAt(now, old(now.row.movedFrom).value).None?
                && now.archives == old(Discarded(now))
    {
      o := Ask();
      if o.IsFailure() { return; }
      var row := now.row;
      if row.movedFrom.None? || row.movedAt.None? || row.movedAt.value >= cutoff || row.movedFrom.value == row.hostId {
        return;
      }
      // An unfinished move still needs the copy for its rollback, unless the bot itself is gone.
      if !row.status.Destroyed? && (row.status.Provisioning? || row.moveObject.Some?) {
        return;
      }
      var reachable: bool := *;
      if !reachable && !calm {
        faults := faults + 1;
        return;
      }
      assert MayErase(now, row.movedFrom.value) && (Protected(now) ==> row.moveObject.None?);
      hide Sound, AllBookkept, Inv, Bookkept, MayErase, Protected;
      o := PurgeOldHost(row.movedFrom.value);
    }

    method PurgeOldHost(oldHost: HostId) returns (o: Outcome)
      requires Sound() && MayErase(now, oldHost) && now.row.movedFrom == Some(oldHost)
      requires oldHost != now.row.hostId && (Protected(now) ==> now.row.moveObject.None?)
      modifies this
      ensures Steady()
      ensures SameElsewhere(old(now), now, oldHost)
      ensures now.row == old(now.row) || (now.row == MoveCleared(old(now)).row && VolumeAt(now, oldHost).None?)
      ensures Blamed(o)
      ensures faults == old(faults) ==>
                && now.row.movedFrom.None? && VolumeAt(now, oldHost).None? && ContainerAt(now, oldHost).None?
                && now.archives == old(Discarded(now))
    {
      hide Sound, AllBookkept, Inv, Bookkept, MayErase, SameElsewhere, Erasing, MoveCleared, Discarded;
      o := RemoveBotFromHost(oldHost);
      ErasingIsThere(old(now), now, oldHost);
      if o.IsFailure() { return; }
      ghost var w := now;
      MoveClearedIsLocal(old(now), w);
      o := ForgetMove();
      SameElsewhereStill(old(now), w, now, oldHost);
    }

    /** The archive of a destroyed bot goes too, best effort. */
    method ForgetMove() returns (o: Outcome)
      requires Sound() && (now.row.movedFrom.Some? ==> now.row.movedFrom.value !in now.volumes)
      requires Protected(now) ==> now.row.moveObject.None?
      modifies this
      ensures Steady() && Blamed(o)
      ensures now.containers == old(now.containers) && now.volumes == old(now.volumes)
      ensures now.row == old(now.row) || now.row == MoveCleared(old(now)).row
      ensures faults == old(faults) ==> now.row == MoveCleared(old(now)).row && now.archives == old(Discarded(now))
    {
      hide Sound, AllBookkept, Inv, Bookkept, ArchiveDeleted, MoveCleared;
      o := Done;
      if now.row.moveObject.Some? {
        var deleted := DeleteArchive(now.row.moveObject.value);
        if deleted.Died? { return Died; }
      }
      MoveClearedIsLocal(old(now), now);
      o := RuntimeClearMove();
    }

    // ----- What happens outside the bot's lock, and whole runs -----

    // The monitor and the reconciler write only a status in service, check and write as one step.
    method ObserveHealth(s: Status) returns (o: Outcome)
      requires Sound()
      modifies this
      ensures Steady()
      ensures Blamed(o)
      ensures o.Done? ==> now == if old(IsUp(now.row.status)) && (IsUp(s) || s.Stopped? || s.Error?)
                                then WriteStatus(old(now), s) else old(now)
    {
      o := Done;
      if !IsUp(now.row.status) || !(IsUp(s) || s.Stopped? || s.Error?) {
        return;
      }
      RunningMidMoveIsNotBookkept(now);
      hide Sound, AllBookkept, Inv, Bookkept;
      var updated: bool;
      o, updated := UpdateStatus(s, None);
    }

    /** The reconciler's start of a container that a restart of its host left down. */
    method Readopt() returns (o: Outcome)
      requires Sound()
      modifies this
      ensures Steady()
      ensures Blamed(o) && now.row == old(now.row) && now.volumes == old(now.volumes)
      ensures o.Done? && IsUp(now.row.status) && now.row.hostId in now.containers ==> RunsHere(now)
    {
      o := Done;
      if !IsUp(now.row.status) || now.row.hostId !in now.containers || now.containers[now.row.hostId].running {
        return;
      }
      RunningMidMoveIsNotBookkept(now);
      hide Sound, AllBookkept, Inv, Bookkept;
      o := RuntimeStart(now.row.hostId);
    }

    method RollOutImage()
      requires Sound()
      modifies this
      ensures Steady()
      ensures now == old(now) || now == ImageBumped(old(now))
    {
      ImageBumpedKeeps(now);
      hide Inv, Bookkept;
      var o := Attempt(ImageBumped(now));
    }

    /** Time passes between two operations: a row that says so and a container that runs serve customers. */
    method Serve()
      requires Sound()
      modifies this
      ensures Steady() && now == Settled(old(now))
    {
      SettledKeeps(now);
      hide Sound, AllBookkept, Inv, Bookkept, Settled;
      now := Settled(now);
      seen := seen + {now};
    }

    /** Any number of operations, in any order, each with any faults. Every world that ever existed is sound:
        a bot that has been in service is whole in it, or the loss is on record. A loss has one of three
        causes: a call failed after a promotion had committed, a row that waits for a move was started, or
        a bot in service was provisioned with a backup import ahead of it. */
    method Operate(rounds: nat) returns (late: bool, startedMidMove: bool, backupAhead: bool)
      requires Sound() && AllBookkept()
      modifies this
      ensures Advanced()
      ensures !startedMidMove ==> AllBookkept()
      ensures !late && !startedMidMove && !backupAhead ==> now.lost == old(now.lost)
      ensures !late && !startedMidMove && !backupAhead && !old(now.lost) ==>
                forall w :: w in seen && Protected(w) ==> VolumeAt(w, Home(w)) == Some(Saved(w.latest))
    {
      late, startedMidMove, backupAhead := Rounds(rounds);
      forall w | w in seen && Protected(w) && !w.lost
        ensures VolumeAt(w, Home(w)) == Some(Saved(w.latest))
      {
        InvariantMeans(w);
      }
    }

    method Round() returns (late: bool, startedMidMove: bool)
      requires Sound()
      modifies this
      ensures Advanced()
      ensures !startedMidMove && old(AllBookkept()) ==> AllBookkept()
      ensures now.lost && !old(now.lost) ==> late || old(now.served || BackupAhead(now))
    {
      hide Sound, AllBookkept, Inv, Bookkept, BackupAhead;
      late, startedMidMove := false, false;
      BackupPendingIsAhead(now);
      var op: int, host: HostId, archive: Archive, flag: bool, pairing: bool, at: int, s: Status := *, *, *, *, *, *, *;
      var o;
      if op == 0 {
        o, late := ResumeProvisioningLocked();
      } else if op == 1 {
        o, late := MoveLocked(host, flag, pairing, at);
      } else if op == 2 {
        o := RecreateLocked();
      } else if op == 3 {
        startedMidMove := now.row.moveObject.Some?;
        o := StartLocked();
      } else if op == 4 {
        o := StopLocked();
      } else if op == 5 {
        o := DestroyLocked();
      } else if op == 6 {
        o := PurgeMovedSourceLocked(at);
      } else if op == 7 {
        o := ObserveHealth(s);
      } else if op == 8 {
        o := Readopt();
      } else if op == 9 {
        o := RuntimeStop(host);
      } else if op == 10 {
        o := DeleteArchive(archive);
      } else if op == 11 {
        o := RestartLocked(flag);
      } else {
        RollOutImage();
      }
    }

    method Rounds(rounds: nat) returns (late: bool, startedMidMove: bool, backupAhead: bool)
      requires Sound() && AllBookkept()
      modifies this
      ensures Advanced()
      ensures !startedMidMove ==> AllBookkept()
      ensures !late && !startedMidMove && !backupAhead ==> now.lost == old(now.lost)
    {
      hide Inv, Bookkept;
      late, startedMidMove, backupAhead := false, false, false;
      for round := 0 to rounds
        invariant Advanced()
        invariant !startedMidMove ==> AllBookkept()
        invariant !late && !startedMidMove && !backupAhead ==> now.lost == old(now.lost)
      {
        Serve();
        NowSound();
        if !startedMidMove { BookkeptIsNotServed(now); }
        backupAhead := backupAhead || BackupAhead(now);
        var failedLate, started := Round();
        late, startedMidMove := late || failedLate, startedMidMove || started;
      }
    }
  }
}
