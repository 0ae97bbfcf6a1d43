/** What every step of the protocol keeps. The invariant is stated in four parts, each
    preserved by one lemma; ProtocolTheorems reads the results off it. */
module ProtocolInvariant {
  import opened Prelude
  import opened Config
  import opened Resume
  import opened Protocol

  // --------------------------------------------------------------- token part

  predicate WellFormed(setup: Setup, t: TokenData) {
    && (t.Has(Analyze) ==> t.Has(Restore))
    && (t.Has(Restore) ==> t.Has(Dump))
    && (setup.config.mode.Online? && t.Has(Dump) ==> t.Has(PrepareSnapshot))
  }

  /** Which stages the token holds while the process waits for a given effect. */
  predicate StagesAt(setup: Setup, at: Pc, t: TokenData) {
    match at
    case AtVacuum => true
    case AtPublication => setup.config.mode.Online? && !t.Has(Dump)
    case AtSlot => setup.config.mode.Online? && !t.Has(Dump)
    case AtSplitPlan => setup.config.mode.Online? ==> t.Has(PrepareSnapshot)
    case AtDump => !t.Has(Dump) && (setup.config.mode.Online? ==> t.Has(PrepareSnapshot))
    case AtRestoreAll => t.Has(Dump) && !t.Has(Restore)
    case AtPreData => t.Has(Dump) && !t.Has(Restore)
    case AtData => t.Has(Dump) && !t.Has(Restore)
    case AtSplitCopy => t.Has(Dump) && !t.Has(Restore)
    case AtPostData => t.Has(Dump) && !t.Has(Restore)
    case AtRestored => t.Has(Dump) && !t.Has(Restore)
    case AtAnalyze => t.Has(Restore)
    case AtVerify => t.Has(Restore) && setup.config.mode.Offline?
    case AtComplete => t.Has(Restore)
    case _ => t.Has(Restore) && setup.config.mode.Online?
  }

  predicate TokenOk(setup: Setup, s: State, t: TokenData) {
    && WellFormed(setup, t)
    && t.completed <= s.history.finished
    && (t.pubAutoCreated ==> !setup.publicationBefore)
  }

  /** `a` was written earlier in the chain of saves that leads to `b`. */
  predicate Extends(a: TokenData, b: TokenData) {
    && a.completed <= b.completed
    && (a.pubAutoCreated ==> b.pubAutoCreated)
  }

  predicate TokenInv(setup: Setup, s: State) {
    && !setup.config.mode.VerifyOnly?
    && !s.disk.token.Torn?
    && (s.disk.token.Whole? ==> s.disk.token.token in s.history.saved && TokenOk(setup, s, s.disk.token.token))
    && (s.proc.Some? ==> ProcessTokenInv(setup, s, s.proc.value))
    && (s.history.runs == 0 ==> s.disk.token.Missing? && s.proc.None?)
  }

  predicate ProcessTokenInv(setup: Setup, s: State, p: Process) {
    && TokenOk(setup, s, p.token)
    && StagesAt(setup, p.at, p.token)
    && (s.disk.token.Whole? ==> Extends(s.disk.token.token, p.token))
    && (p.save.Renaming? ==> s.disk.tmp == Whole(p.token))
    && (p.save.NotSaving? && !s.history.saveFailed ==>
          || s.disk.token == Whole(p.token)
          || (s.disk.token.Missing? && p.token == NewToken(setup.config)))
  }

  // ----------------------------------------------------------- lifecycle part

  /** The steps only a run that left its loop by cutover takes. */
  predicate CutoverOnly(at: Pc) {
    at.AtTearDetach? || at.AtTearDrop? || at.AtSequences? || at.AtDropPublication? || at.AtCleanupWait? || at.AtDropSlot?
  }

  /** The steps an online run takes after it has attached the subscription. */
  predicate AfterAttach(at: Pc) {
    CutoverOnly(at) || at.AtApply? || at.AtTearDisable? || at.AtLoopReport? || at.AtComplete?
  }

  predicate LifecycleInv(setup: Setup, s: State) {
    && (setup.publicationBefore ==> s.source.publication)
    && (s.history.reopened ==> s.history.dropped)
    && (!s.history.saveFailed && (s.target.sub.Some? || s.history.dropped) ==> Restore in StagesOnDisk(s))
    && (s.history.forgotten ==> s.history.saveFailed && s.history.runs > if s.proc.Some? then 1 else 0)
    && (s.history.dropped ==> setup.config.online.dropSubscriptionOnCutover)
    && (setup.config.mode.Offline? ==> s.target.sub.None? && !s.history.dropped && !s.history.forgotten)
    && (s.proc.Some? ==> ProcessLifecycleInv(setup, s, s.proc.value))
  }

  predicate ProcessLifecycleInv(setup: Setup, s: State, p: Process) {
    && (p.at.AtTearDetach? || p.at.AtTearDrop? ==> setup.config.online.dropSubscriptionOnCutover)
    && (CutoverOnly(p.at) ==> p.exit.ByCutover?)
    && (p.at.AtDropPublication? ==> p.token.pubAutoCreated)
    && (p.resume <==> s.history.runs > 1)
    && s.history.runs > 0
    && SplitGuards(setup.config, p.resume)
    && (setup.config.mode.Online? && AfterAttach(p.at) ==> s.target.sub.Some? || s.history.dropped)
  }

  /** What validation guarantees about a run that may take the split copy. */
  predicate SplitGuards(c: MigrationConfig, resume: bool) {
    c.splitTablesLargerThan.Some? ==> !resume && c.splitSections && !c.scope.SchemaOnly?
  }

  // ------------------------------------------------------------ snapshot part

  /** The slot the migration uses, and where it started. */
  predicate SlotInv(setup: Setup, s: State) {
    && s.history.applied <= |s.source.wal|
    && (s.source.slot.Some? ==> s.source.slot.value.start <= |s.source.wal|)
    && (PrepareSnapshot in s.history.finished && s.source.slot.Some? ==>
          s.source.slot.value.start == s.history.slotStart)
    && (PrepareSnapshot in s.history.finished && s.source.slot.None? ==> s.target.sub.Some? || s.history.dropped)
    && (setup.config.mode.Offline? ==> s.history.slotStart == s.history.applied == 0)
  }

  /** While the archive may still be written or the split tables still be copied, the
      snapshot these reads were given is held by this very process. */
  predicate SnapshotAt(setup: Setup, s: State, p: Process) {
    && (p.held.Some? ==> p.held.value.lsn <= |s.source.wal|)
    && (setup.config.mode.Online? && p.held.Some? ==>
          p.held.value.lsn == s.history.slotStart && p.token.snapshotName == Some(p.held.value.id))
    && (p.split.Some? ==>
          && setup.config.splitTablesLargerThan.Some? && !p.resume
          && p.split.value.plan <= setup.tables
          && (setup.config.mode.Online? ==> p.token.snapshotName == Some(p.split.value.snapshotId)))
    && (AwaitingDump(setup, p) && p.token.snapshotName.Some? ==> p.held.Some?)
    && ((p.at.AtDump? || Restoring(p.at) || p.at.AtRestored?) && p.split.Some? ==> Live(p, p.split.value.snapshotId))
    && (p.at.AtSplitPlan? || p.at.AtVacuum? || p.at.AtPublication? || p.at.AtSlot? ==>
          p.split.None? && (p.token.Has(Dump) ==> p.resume))
    && (p.at.AtSplitCopy? ==> p.split.Some?)
    && (Restoring(p.at) || p.at.AtRestored? ==>
          && s.disk.archive.Some?
          && (p.split.None? ==> s.disk.archive.value.excluded == {})
          && (p.split.Some? ==> FromSplit(setup, s.disk.archive.value, p)))
  }

  predicate AwaitingDump(setup: Setup, p: Process) {
    setup.config.mode.Online? && !p.token.Has(Dump) && (p.at.AtSplitPlan? || p.at.AtDump?)
  }

  predicate FromSplit(setup: Setup, a: Archive, p: Process)
  {
    && p.split.Some? && p.held.Some?
    && a.excluded == p.split.value.plan
    && a.snapshot == Some(p.split.value.snapshotId)
    && a.lsn == p.held.value.lsn
  }

  predicate ArchiveInv(setup: Setup, s: State, a: Archive) {
    && a.lsn <= |s.source.wal| && a.lsn in s.history.dumps
    && (setup.config.splitTablesLargerThan.None? ==> a.excluded == {})
    && (setup.config.mode.Online? ==> PrepareSnapshot in s.history.finished)
  }

  predicate SnapshotInv(setup: Setup, s: State) {
    && SlotInv(setup, s)
    && (s.disk.archive.Some? ==> ArchiveInv(setup, s, s.disk.archive.value))
    && (Dump in Recorded(s) ==> s.disk.archive.Some?)
    && (s.proc.Some? ==> SnapshotAt(setup, s, s.proc.value))
  }

  // --------------------------------------------------------------- tables part

  /** The steps of a restore whose tables have been created. */
  predicate Populating(at: Pc) {
    at.AtData? || at.AtSplitCopy? || at.AtPostData? || at.AtRestored?
  }

  /** Without `--clean`, tables once restored are there for good, so that a run which has
      forgotten its restore can never restore again. */
  predicate TablesInv(setup: Setup, s: State) {
    && (s.history.forgotten || s.history.dropped || s.target.sub.Some? ==> Restore in s.history.finished)
    && (!setup.config.scope.DataOnly? ==>
          && (s.proc.Some? && Populating(s.proc.value.at) ==> setup.tables <= s.target.tables.Keys)
          && (!setup.config.dropTargetFirst && Restore in s.history.finished ==> setup.tables <= s.target.tables.Keys)
          && (!setup.config.dropTargetFirst && s.history.forgotten && setup.tables != {} ==>
                Restore !in Recorded(s) && (s.proc.Some? ==> !Populating(s.proc.value.at))))
  }

  // ------------------------------------------------------------- content part

  /** Replication: everything past the restore reaches the target through one
      subscription, from the slot's start on. */
  predicate ReplicationInv(setup: Setup, s: State) {
    && (s.target.sub.Some? || s.history.dropped ==> Restore in Recorded(s))
    && (s.disk.archive.Some? && setup.config.mode.Online? ==>
          && s.history.slotStart <= s.disk.archive.value.lsn
          && (s.disk.archive.value.snapshot.Some? ==> s.disk.archive.value.lsn == s.history.slotStart))
  }

  predicate OriginInv(s: State) {
    && s.history.slotStart <= s.history.applied
    && match s.target.sub
       case None =>
         && s.target.worker.None?
         && (!s.history.dropped ==>
               && s.history.applied == s.history.slotStart
               && (s.source.slot.Some? ==> s.source.slot.value.confirmed == s.source.slot.value.start))
       case Some(sub) =>
         && !s.history.dropped
         && s.history.applied == Max(sub.origin, s.history.slotStart)
         && (sub.origin == 0 || sub.origin >= s.history.slotStart)
         && (s.source.slot.Some? ==>
               s.source.slot.value.start <= s.source.slot.value.confirmed <= s.history.applied)
         && (s.target.worker.Some? ==> s.target.worker.value == s.history.applied)
  }

  /** How far the content of the target has come. */
  datatype Phase = Created | ArchiveIn | AllIn | Replaying

  function Expected(setup: Setup, s: State, a: Archive, phase: Phase, t: Table): seq<Change>
    requires a.lsn <= |s.source.wal| && s.history.slotStart <= s.history.applied <= |s.source.wal|
  {
    match phase
    case Created => []
    case ArchiveIn => if t in a.excluded then [] else Rows(setup, s.source.wal, a.lsn, t)
    case AllIn => Rows(setup, s.source.wal, a.lsn, t)
    case Replaying =>
      Rows(setup, s.source.wal, a.lsn, t) + Of(s.source.wal[s.history.slotStart..s.history.applied], t)
  }

  predicate Holds(setup: Setup, s: State, a: Archive, phase: Phase) {
    && a.lsn <= |s.source.wal| && s.history.slotStart <= s.history.applied <= |s.source.wal|
    && forall t :: t in setup.tables ==>
         t in s.target.tables && s.target.tables[t] == Expected(setup, s, a, phase, t)
  }

  predicate ContentAt(setup: Setup, s: State, at: Pc, a: Archive) {
    && (at.AtData? ==> Holds(setup, s, a, Created))
    && (at.AtSplitCopy? ==> Holds(setup, s, a, ArchiveIn))
    && (at.AtPostData? || at.AtRestored? ==> Holds(setup, s, a, AllIn))
  }

  predicate ContentInv(setup: Setup, s: State) {
    s.disk.archive.Some? && !setup.config.scope.DataOnly? ==>
      && (Restore in Recorded(s) ==> Holds(setup, s, s.disk.archive.value, Replaying))
      && (s.proc.Some? ==> ContentAt(setup, s, s.proc.value.at, s.disk.archive.value))
  }

  /** Control: what holds of every history, whatever saves failed. */
  predicate Control(setup: Setup, s: State) {
    TokenInv(setup, s) && LifecycleInv(setup, s) && SnapshotInv(setup, s) && TablesInv(setup, s)
  }

  /** Content: what holds until a restore is forgotten, or a dropped subscription created
      again. */
  predicate Content(setup: Setup, s: State) {
    && (!s.history.forgotten ==> ReplicationInv(setup, s))
    && (!s.history.forgotten && !s.history.reopened ==> OriginInv(s) && ContentInv(setup, s))
  }

  predicate Inv(setup: Setup, s: State) {
    Control(setup, s) && Content(setup, s)
  }

  // ----------------------------------------------------------------- two states

  predicate Enabled(s: State) {
    s.target.sub.Some? && s.target.sub.value.enabled
  }

  predicate LeftByCutover(s: State) {
    s.proc.Some? && s.proc.value.exit.ByCutover?
  }

  /** What no single step may do, whatever the event. */
  predicate Lawful(setup: Setup, s: State, s': State) {
    && (s.source.slot.Some? && s'.source.slot.None? ==> LeftByCutover(s) && !s.source.slot.value.active)
    && (s.target.sub.Some? && s'.target.sub.None? ==> LeftByCutover(s))
    && (s.source.publication && !s'.source.publication ==>
          LeftByCutover(s) && s.proc.value.token.pubAutoCreated && !setup.publicationBefore)
    && (Enabled(s') && !Enabled(s) ==>
          && s.disk.archive.Some? && {PrepareSnapshot, Dump, Restore} <= Recorded(s)
          && (!s.history.saveFailed ==> {PrepareSnapshot, Dump, Restore} <= StagesOnDisk(s)))
    && (LeftByCutover(s') && !LeftByCutover(s) ==> s.proc.Some? && s.proc.value.at.AtApply?)
    && StagesOnDisk(s) <= StagesOnDisk(s')
  }
}
