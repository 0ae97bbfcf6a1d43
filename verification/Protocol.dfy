/** The crash-resumable migration protocol as a state machine
    (`pg_dbmigrator/src/orchestrator.rs`, `native_apply.rs`, `snapshot.rs`).

    One step is one awaited effect of `run_offline` / `run_online`, or something the rest
    of the world does between two effects: a source write, progress of the apply worker,
    the death of the process. WAL positions are counts of changes, and a table's content
    is the sequence of changes that produced it, so that "each once and in order" is an
    equation between sequences. */
module Protocol {
  import opened Prelude
  import opened Config
  import opened Resume

  type Table = string

  datatype Change = Change(table: Table, row: string)

  type Wal = seq<Change>

  /** The changes of `w` that touch table `t`, in order. */
  function Of(w: Wal, t: Table): seq<Change> {
    if w == [] then []
    else
      var c := w[|w| - 1];
      Of(w[..|w| - 1], t) + if c.table == t then [c] else []
  }

  // --------------------------------------------------------------------- state

  /** An exported snapshot: its id, and the WAL position whose content it shows. */
  datatype Snapshot = Snapshot(id: nat, lsn: nat)

  datatype Slot = Slot(start: nat, confirmed: nat, active: bool)

  /** `exported` counts the snapshots exported so far, so that ids are never reused. */
  datatype Source = Source(wal: Wal, publication: bool, slot: Option<Slot>, exported: nat)

  /** `origin` is the position after the last change applied through this subscription,
      0 while it has applied nothing. */
  datatype Subscription = Subscription(enabled: bool, slotSet: bool, origin: nat)

  /** `worker` is the position the attached apply worker reads next. */
  datatype Target = Target(tables: map<Table, seq<Change>>, sub: Option<Subscription>, worker: Option<nat>)

  /** A finished archive: the position it shows, the snapshot id pg_dump was given, and
      the tables whose rows were left out of it. */
  datatype Archive = Archive(lsn: nat, snapshot: Option<nat>, excluded: set<Table>)

  datatype Disk = Disk(token: FileContent, tmp: FileContent, archive: Option<Archive>)

  datatype SplitContext = SplitContext(plan: set<Table>, snapshotId: nat)

  /** Where the process is: the effect it performs next. */
  datatype Pc =
    | AtVacuum | AtPublication | AtSlot | AtSplitPlan | AtDump
    | AtRestoreAll | AtPreData | AtData | AtSplitCopy | AtPostData | AtRestored
    | AtAnalyze | AtVerify
    | AtDropStream | AtDisable | AtWaitSlot | AtAttach | AtApply
    | AtTearDisable | AtTearDetach | AtTearDrop | AtLoopReport
    | AtSequences | AtDropPublication | AtCleanupWait | AtDropSlot
    | AtComplete

  /** A save of the token that has to get through before that effect: first the sibling
      file is written, then it is renamed into place. */
  datatype SaveStep = NotSaving | WritingTmp | Renaming

  datatype Process = Process(
    at: Pc,
    save: SaveStep,
    resume: bool,
    token: TokenData,
    held: Option<Snapshot>,
    split: Option<SplitContext>,
    exit: LoopExit)

  /** What happened so far; no step reads it. `applied` is the WAL position up to which
      changes reached the target through replication, `reopened` that a subscription was
      created again after an earlier one had been dropped, `saveFailed` that some save of
      the token failed and the run went on regardless, `forgotten` that a run which had
      attached the subscription ended while the token on disk did not record the
      restore. */
  datatype History = History(
    runs: nat,
    saved: set<TokenData>,
    finished: set<Stage>,
    dumps: set<nat>,
    slotStart: nat,
    applied: nat,
    dropped: bool,
    reopened: bool,
    saveFailed: bool,
    forgotten: bool)

  datatype State = State(source: Source, target: Target, disk: Disk, proc: Option<Process>, history: History)

  /** One configuration for a whole history, the tables that exist on the source, and
      whether the publication was there before the migration. */
  datatype Setup = Setup(config: MigrationConfig, tables: set<Table>, publicationBefore: bool)

  /** The configuration of the next run: the first is not a resumed one, all later are. */
  function RunConfig(setup: Setup, s: State): MigrationConfig {
    setup.config.(resume := s.history.runs > 0)
  }

  predicate Init(setup: Setup, s: State) {
    && !setup.config.mode.VerifyOnly?
    && s.proc.None?
    && s.disk == Disk(Missing, Missing, None)
    && s.target.sub.None? && s.target.worker.None?
    && s.source.publication == setup.publicationBefore
    && s.history == History(0, {}, {}, {}, 0, 0, false, false, false, false)
    && match s.source.slot
       case None => true
       case Some(slot) => slot.start == slot.confirmed <= |s.source.wal| && !slot.active
  }

  // ------------------------------------------------------------ control flow

  function VacuumPc(setup: Setup, t: TokenData): Pc {
    if setup.config.skipSourceVacuum || t.Has(SourceVacuum) then PreparePc(setup, t) else AtVacuum
  }

  function PreparePc(setup: Setup, t: TokenData): Pc {
    if setup.config.mode.Online? && !t.Has(Dump) then AtPublication else AtSplitPlan
  }

  function DumpPc(setup: Setup, t: TokenData): Pc {
    if t.Has(Dump) then RestorePc(setup, t) else AtDump
  }

  function RestorePc(setup: Setup, t: TokenData): Pc {
    if t.Has(Restore) then AnalyzePc(setup, t)
    else if setup.config.splitSections then AtPreData
    else AtRestoreAll
  }

  function AnalyzePc(setup: Setup, t: TokenData): Pc {
    if setup.config.skipAnalyze || t.Has(Analyze) then AfterAnalyzePc(setup) else AtAnalyze
  }

  function AfterAnalyzePc(setup: Setup): Pc {
    if setup.config.mode.Online? then AtDropStream else AtVerify
  }

  function CleanupPc(setup: Setup, t: TokenData): Pc {
    if t.pubAutoCreated then AtDropPublication else SlotCleanupPc(setup)
  }

  function SlotCleanupPc(setup: Setup): Pc {
    if setup.config.online.dropSlotOnCutover then AtCleanupWait else AtComplete
  }

  function AfterLoopPc(setup: Setup, p: Process): Pc {
    if !p.exit.ByCutover? then AtComplete
    else if setup.config.online.syncSequencesOnCutover then AtSequences
    else CleanupPc(setup, p.token)
  }

  /** The snapshot id handed to pg_dump. */
  function DumpSnapshot(setup: Setup, p: Process): Option<nat> {
    if setup.config.mode.Online? then p.token.snapshotName
    else if p.split.Some? then Some(p.split.value.snapshotId)
    else None
  }

  predicate Live(p: Process, id: nat) {
    p.held.Some? && p.held.value.id == id
  }

  predicate Restoring(at: Pc) {
    at.AtRestoreAll? || at.AtPreData? || at.AtData? || at.AtSplitCopy? || at.AtPostData?
  }

  // -------------------------------------------------- pg_dump and pg_restore

  /** The rows of table `t` that a dump of the given scope shows at position `lsn`. */
  function Rows(setup: Setup, wal: Wal, lsn: nat, t: Table): seq<Change>
    requires lsn <= |wal|
  {
    if setup.config.scope.SchemaOnly? then [] else Of(wal[..lsn], t)
  }

  /** Without `--clean` a CREATE TABLE for a table that exists is an error, and the exit
      status fails the run; a data-only archive creates nothing. */
  predicate PreDataSucceeds(setup: Setup, tables: map<Table, seq<Change>>) {
    || setup.config.scope.DataOnly?
    || setup.config.dropTargetFirst
    || forall t :: t in setup.tables ==> t !in tables
  }

  function PreData(setup: Setup, tables: map<Table, seq<Change>>): map<Table, seq<Change>> {
    if setup.config.scope.DataOnly? then tables
    else tables + map t | t in setup.tables :: []
  }

  predicate DataSucceeds(setup: Setup, tables: map<Table, seq<Change>>) {
    setup.config.scope.SchemaOnly? || setup.tables <= tables.Keys
  }

  function Data(setup: Setup, wal: Wal, a: Archive, tables: map<Table, seq<Change>>): map<Table, seq<Change>>
    requires DataSucceeds(setup, tables) && a.lsn <= |wal|
  {
    if setup.config.scope.SchemaOnly? then tables
    else tables + map t | t in setup.tables && t !in a.excluded :: tables[t] + Of(wal[..a.lsn], t)
  }

  /** The direct copy refuses a table that already holds rows unless the operator opted
      in, and otherwise truncates it first. What one table's concurrent streams deliver
      is proved in module SplitCopy. */
  predicate SplitCopySucceeds(setup: Setup, plan: set<Table>, tables: map<Table, seq<Change>>) {
    forall t :: t in plan ==> t in tables && (setup.config.dropTargetFirst || tables[t] == [])
  }

  function DirectCopy(wal: Wal, lsn: nat, plan: set<Table>, tables: map<Table, seq<Change>>): map<Table, seq<Change>>
    requires lsn <= |wal|
  {
    tables + map t | t in plan :: Of(wal[..lsn], t)
  }

  // -------------------------------------------------------------------- events

  /** What a process that dies inside an effect may leave behind. A restore that breaks off
      may have done anything to the content of tables; it drops none without `--clean`. */
  datatype Wreck = Wreck(archiveLost: bool, tables: map<Table, seq<Change>>, tmpTorn: bool)

  datatype Event =
    // the process
    | Start | Die(wreck: Wreck) | Finish
    | VacuumDone(ok: bool)
    | PublicationDone | SlotDone | PlanDone(plan: set<Table>) | DumpDone
    | RestoreAllDone | PreDataDone | DataDone | SplitCopyDone | PostDataDone | RestoreMarked
    | AnalyzeDone(ok: bool) | VerifyDone
    | StreamDropped | DisableDone(ok: bool) | SlotIdle | Attached
    | LoopEnded(exit: LoopExit)
    | TearDisabled(ok: bool) | TearDetached(ok: bool) | TearDropped(ok: bool)
    | LoopReported(lsn: nat)
    | SequencesDone | PublicationDropped(ok: bool) | CleanupWaited | SlotDropped(ok: bool)
    | TmpWritten | TokenRenamed | SaveFailed
    // the rest of the world
    | SourceWrite(change: Change)
    | WorkerAttach | WorkerApply | WorkerConfirm(lsn: nat) | WorkerStop | SlotReleased

  function At(s: State, p: Process, at: Pc): State {
    s.(proc := Some(p.(at := at)))
  }

  function Saving(s: State, p: Process, next: Pc): State {
    s.(proc := Some(p.(at := next, save := WritingTmp)))
  }

  /** Record a finished stage in memory and go on to save the token. */
  function Marking(s: State, p: Process, stage: Stage, next: Pc): State {
    s.(proc := Some(p.(token := p.token.Marked(stage), at := next, save := WritingTmp)),
       history := s.history.(finished := s.history.finished + {stage}))
  }

  /** The state after `s`, or None when the event cannot happen in `s`. */
  function Do(setup: Setup, s: State, e: Event): Option<State> {
    match e
    case Start => DoStart(setup, s)
    case SourceWrite(c) => DoSourceWrite(setup, s, c)
    case WorkerAttach => DoWorkerAttach(s)
    case WorkerApply => DoWorkerApply(s)
    case WorkerConfirm(n) => DoWorkerConfirm(s, n)
    case WorkerStop => DoWorkerStop(s)
    case SlotReleased => DoSlotReleased(s)
    case _ => if s.proc.Some? then DoEffect(setup, s, s.proc.value, e) else None
  }

  function DoEffect(setup: Setup, s: State, p: Process, e: Event): Option<State>
    requires s.proc == Some(p)
  {
    match e
    case Die(w) => Some(Died(setup, s, p, w))
    case TmpWritten => DoTmpWritten(s, p)
    case TokenRenamed => DoTokenRenamed(s, p)
    case SaveFailed => DoSaveFailed(s, p)
    case _ => if p.save.NotSaving? then DoStageEffect(setup, s, p, e) else None
  }

  /** `run_offline`, and `run_online` up to the end of the restore. */
  function DoStageEffect(setup: Setup, s: State, p: Process, e: Event): Option<State>
    requires s.proc == Some(p)
  {
    match e
    case Finish => DoFinish(s, p)
    case VacuumDone(ok) => DoVacuum(setup, s, p, ok)
    case PublicationDone => DoPublication(setup, s, p)
    case SlotDone => DoSlot(s, p)
    case PlanDone(plan) => DoPlan(setup, s, p, plan)
    case DumpDone => DoDump(setup, s, p)
    case RestoreAllDone => DoRestoreAll(setup, s, p)
    case PreDataDone => DoPreData(setup, s, p)
    case DataDone => DoData(setup, s, p)
    case SplitCopyDone => DoSplitCopy(setup, s, p)
    case PostDataDone => DoPostData(s, p)
    case RestoreMarked => DoRestoreMarked(setup, s, p)
    case AnalyzeDone(ok) => DoAnalyze(setup, s, p, ok)
    case VerifyDone => DoVerify(s, p)
    case _ => DoApplyEffect(setup, s, p, e)
  }

  /** The part of `run_online` after the restore, and the teardown and clean-up. */
  function DoApplyEffect(setup: Setup, s: State, p: Process, e: Event): Option<State>
    requires s.proc == Some(p)
  {
    match e
    case StreamDropped => DoStreamDropped(s, p)
    case DisableDone(ok) => DoDisable(s, p, ok)
    case SlotIdle => DoSlotIdle(s, p)
    case Attached => DoAttach(s, p)
    case LoopEnded(exit) => DoLoopEnded(s, p, exit)
    case TearDisabled(ok) => DoTearDisable(setup, s, p, ok)
    case TearDetached(ok) => DoTearDetach(s, p, ok)
    case TearDropped(ok) => DoTearDrop(s, p, ok)
    case LoopReported(lsn) => DoLoopReported(setup, s, p, lsn)
    case SequencesDone => DoSequences(setup, s, p)
    case PublicationDropped(ok) => DoDropPublication(setup, s, p, ok)
    case CleanupWaited => DoCleanupWait(s, p)
    case SlotDropped(ok) => DoDropSlot(s, p, ok)
    case _ => None
  }

  // ------------------------------------------------ the world between effects

  function DoSourceWrite(setup: Setup, s: State, c: Change): Option<State> {
    if c.table in setup.tables then Some(s.(source := s.source.(wal := s.source.wal + [c]))) else None
  }

  /** The streaming protocol starts at the later of the subscription's origin and the
      slot's confirmed position; a slot serves one connection at a time. */
  function DoWorkerAttach(s: State): Option<State> {
    if s.target.sub.None? || s.source.slot.None? || s.target.worker.Some? then None
    else
      var sub, slot := s.target.sub.value, s.source.slot.value;
      if sub.enabled && sub.slotSet && !slot.active then
        Some(s.(source := s.source.(slot := Some(slot.(active := true))),
                target := s.target.(worker := Some(Max(sub.origin, slot.confirmed)))))
      else None
  }

  /** Applying a change and advancing the origin are one transaction on the target. */
  function DoWorkerApply(s: State): Option<State> {
    if s.target.sub.None? || s.target.worker.None? then None
    else
      var next := s.target.worker.value;
      if next < |s.source.wal| && s.source.wal[next].table in s.target.tables then
        var c := s.source.wal[next];
        Some(s.(target := Target(s.target.tables[c.table := s.target.tables[c.table] + [c]],
                                 Some(s.target.sub.value.(origin := next + 1)),
                                 Some(next + 1)),
                history := s.history.(applied := next + 1)))
      else None
  }

  /** The worker confirms no further than what it has applied. */
  function DoWorkerConfirm(s: State, n: nat): Option<State> {
    if s.target.sub.None? || s.target.worker.None? || s.source.slot.None? then None
    else if s.source.slot.value.confirmed <= n <= s.target.sub.value.origin
    then Some(s.(source := s.source.(slot := Some(s.source.slot.value.(confirmed := n)))))
    else None
  }

  function DoWorkerStop(s: State): Option<State> {
    Some(s.(target := s.target.(worker := None)))
  }

  /** The source notices that the worker's connection is gone. */
  function DoSlotReleased(s: State): Option<State> {
    if s.target.worker.Some? || s.source.slot.None? then None
    else Some(s.(source := s.source.(slot := Some(s.source.slot.value.(active := false)))))
  }

  // ------------------------------------------------------- the process itself

  function DoStart(setup: Setup, s: State): Option<State> {
    if s.proc.Some? || !Valid(RunConfig(setup, s)) then None
    else
      var resume := s.history.runs > 0;
      var token := if resume && s.disk.token.Whole? then s.disk.token.token else NewToken(setup.config);
      if resume && (s.disk.token.Torn? || !Compatible(token, RunConfig(setup, s))) then None
      else
        Some(s.(proc := Some(Process(VacuumPc(setup, token), NotSaving, resume, token, None, None, StillRunning)),
                history := s.history.(runs := s.history.runs + 1)))
  }

  /** The stages a resumed run would find recorded. */
  function StagesOnDisk(s: State): set<Stage> {
    if s.disk.token.Whole? then s.disk.token.token.completed else {}
  }

  /** The process is gone. */
  function Ended(s: State): State {
    var forgets := (s.target.sub.Some? || s.history.dropped) && Restore !in StagesOnDisk(s);
    s.(proc := None, history := s.history.(forgotten := s.history.forgotten || forgets))
  }

  /** Every error, cancellation and crash outside the apply loop ends the process where
      it stands. */
  function Died(setup: Setup, s: State, p: Process, w: Wreck): State {
    var s1 := Ended(s);
    if p.at.AtDump? && p.save.NotSaving? && w.archiveLost then s1.(disk := s.disk.(archive := None))
    else if Restoring(p.at) && p.save.NotSaving? then
      s1.(target := s.target.(tables := if setup.config.dropTargetFirst then w.tables else s.target.tables + w.tables))
    else if p.save.WritingTmp? && w.tmpTorn then s1.(disk := s.disk.(tmp := Torn))
    else s1
  }

  function DoFinish(s: State, p: Process): Option<State> {
    if p.at.AtComplete? then Some(Ended(s)) else None
  }

  function DoTmpWritten(s: State, p: Process): Option<State> {
    if p.save.WritingTmp?
    then Some(s.(disk := s.disk.(tmp := Whole(p.token)), proc := Some(p.(save := Renaming))))
    else None
  }

  function DoTokenRenamed(s: State, p: Process): Option<State> {
    if p.save.Renaming?
    then Some(s.(disk := s.disk.(token := s.disk.tmp, tmp := Missing),
                 history := s.history.(saved := s.history.saved + {p.token}),
                 proc := Some(p.(save := NotSaving))))
    else None
  }

  /** A save that fails is logged and the run goes on. */
  function DoSaveFailed(s: State, p: Process): Option<State> {
    if p.save.NotSaving? then None
    else Some(s.(disk := s.disk.(tmp := if p.save.WritingTmp? then Torn else s.disk.tmp),
                 history := s.history.(saveFailed := true),
                 proc := Some(p.(save := NotSaving))))
  }

  // ------------------------------------------------------------ up to the dump

  function DoVacuum(setup: Setup, s: State, p: Process, ok: bool): Option<State> {
    if !p.at.AtVacuum? then None
    else if !ok then Some(At(s, p, PreparePc(setup, p.token)))
    else Some(Marking(s, p, SourceVacuum, PreparePc(setup, p.token)))
  }

  function DoPublication(setup: Setup, s: State, p: Process): Option<State> {
    if !p.at.AtPublication? then None
    else if s.source.publication then Some(At(s, p, AtSlot))
    else if setup.config.online.autoCreatePublication then
      Some(Saving(s.(source := s.source.(publication := true)), p.(token := p.token.(pubAutoCreated := true)), AtSlot))
    else None
  }

  /** A new slot exports a snapshot of the instant it starts at; a reused one exports
      nothing. */
  function DoSlot(s: State, p: Process): Option<State> {
    if !p.at.AtSlot? then None
    else
      var created := s.source.slot.None?;
      var now := |s.source.wal|;
      var slot := if created then Slot(now, now, false) else s.source.slot.value;
      var held := if created then Some(Snapshot(s.source.exported, now)) else None;
      var name := if created then Some(s.source.exported) else None;
      var s1 := s.(source := s.source.(slot := Some(slot), exported := s.source.exported + 1),
                   history := s.history.(slotStart := slot.start, applied := slot.start));
      var p1 := p.(held := held, token := p.token.(snapshotName := name));
      Some(Marking(s1, p1, PrepareSnapshot, AtSplitPlan))
  }

  /** The planner may pick any set of tables: it depends on their sizes at that moment. */
  function DoPlan(setup: Setup, s: State, p: Process, plan: set<Table>): Option<State> {
    if !p.at.AtSplitPlan? || !(plan <= setup.tables) then None
    else if setup.config.splitTablesLargerThan.None? && plan != {} then None
    else if plan == {} then Some(At(s, p, DumpPc(setup, p.token)))
    else if setup.config.mode.Online? then
      if p.token.snapshotName.None? then None
      else Some(At(s, p.(split := Some(SplitContext(plan, p.token.snapshotName.value))), DumpPc(setup, p.token)))
    else
      var snap := Snapshot(s.source.exported, |s.source.wal|);
      Some(At(s.(source := s.source.(exported := s.source.exported + 1)),
              p.(held := Some(snap), split := Some(SplitContext(plan, snap.id))), DumpPc(setup, p.token)))
  }

  /** pg_dump refuses a snapshot id whose exporting transaction is over. */
  function DoDump(setup: Setup, s: State, p: Process): Option<State> {
    var request := DumpSnapshot(setup, p);
    if !p.at.AtDump? || (request.Some? && !Live(p, request.value)) then None
    else
      var lsn := if request.Some? then p.held.value.lsn else |s.source.wal|;
      var a := Archive(lsn, request, if p.split.Some? then p.split.value.plan else {});
      var s1 := s.(disk := s.disk.(archive := Some(a)),
                   history := s.history.(dumps := s.history.dumps + {lsn}));
      Some(Marking(s1, p, Dump, RestorePc(setup, p.token.Marked(Dump))))
  }

  // ------------------------------------------------------------------- restore

  predicate ArchiveReadable(s: State) {
    s.disk.archive.Some? && s.disk.archive.value.lsn <= |s.source.wal|
  }

  function DoRestoreAll(setup: Setup, s: State, p: Process): Option<State> {
    if !p.at.AtRestoreAll? || !ArchiveReadable(s) || !PreDataSucceeds(setup, s.target.tables) then None
    else
      var created := PreData(setup, s.target.tables);
      if !DataSucceeds(setup, created) then None
      else
        Some(At(s.(target := s.target.(tables := Data(setup, s.source.wal, s.disk.archive.value, created))),
                p, if p.split.Some? then AtSplitCopy else AtRestored))
  }

  function DoPreData(setup: Setup, s: State, p: Process): Option<State> {
    if !p.at.AtPreData? || !ArchiveReadable(s) || !PreDataSucceeds(setup, s.target.tables) then None
    else Some(At(s.(target := s.target.(tables := PreData(setup, s.target.tables))), p, AtData))
  }

  function DoData(setup: Setup, s: State, p: Process): Option<State> {
    if !p.at.AtData? || !ArchiveReadable(s) || !DataSucceeds(setup, s.target.tables) then None
    else
      Some(At(s.(target := s.target.(tables := Data(setup, s.source.wal, s.disk.archive.value, s.target.tables))),
              p, if p.split.Some? then AtSplitCopy else AtPostData))
  }

  function DoSplitCopy(setup: Setup, s: State, p: Process): Option<State> {
    if !p.at.AtSplitCopy? || p.split.None? || !Live(p, p.split.value.snapshotId) then None
    else if p.held.value.lsn > |s.source.wal| || !SplitCopySucceeds(setup, p.split.value.plan, s.target.tables) then None
    else
      Some(At(s.(target := s.target.(tables :=
                  DirectCopy(s.source.wal, p.held.value.lsn, p.split.value.plan, s.target.tables))),
              p, if setup.config.splitSections then AtPostData else AtRestored))
  }

  function DoPostData(s: State, p: Process): Option<State> {
    if p.at.AtPostData? then Some(At(s, p, AtRestored)) else None
  }

  function DoRestoreMarked(setup: Setup, s: State, p: Process): Option<State> {
    if p.at.AtRestored? then Some(Marking(s, p, Restore, AnalyzePc(setup, p.token.Marked(Restore)))) else None
  }

  function DoAnalyze(setup: Setup, s: State, p: Process, ok: bool): Option<State> {
    if !p.at.AtAnalyze? then None
    else if ok then Some(Marking(s, p, Analyze, AfterAnalyzePc(setup)))
    else Some(At(s, p, AfterAnalyzePc(setup)))
  }

  function DoVerify(s: State, p: Process): Option<State> {
    if p.at.AtVerify? then Some(At(s, p, AtComplete)) else None
  }

  // ------------------------------------------------------ apply and clean up

  function DoStreamDropped(s: State, p: Process): Option<State> {
    if p.at.AtDropStream?
    then Some(At(s, p.(held := None), if p.resume then AtDisable else AtWaitSlot))
    else None
  }

  function Disabled(s: State): State {
    if s.target.sub.None? then s
    else s.(target := s.target.(sub := Some(s.target.sub.value.(enabled := false))))
  }

  function DoDisable(s: State, p: Process, ok: bool): Option<State> {
    if p.at.AtDisable? then Some(At(if ok then Disabled(s) else s, p, AtWaitSlot)) else None
  }

  function DoSlotIdle(s: State, p: Process): Option<State> {
    if !p.at.AtWaitSlot? || (s.source.slot.Some? && s.source.slot.value.active) then None
    else Some(At(s, p, AtAttach))
  }

  /** An existing subscription is re-enabled in place and keeps its origin. */
  function DoAttach(s: State, p: Process): Option<State> {
    if !p.at.AtAttach? then None
    else match s.target.sub
      case Some(sub) =>
        Some(At(s.(target := s.target.(sub := Some(sub.(enabled := true, slotSet := true)))), p, AtApply))
      case None =>
        Some(At(s.(target := s.target.(sub := Some(Subscription(true, true, 0))),
                   history := s.history.(reopened := s.history.reopened || s.history.dropped)), p, AtApply))
  }

  function DoLoopEnded(s: State, p: Process, exit: LoopExit): Option<State> {
    if !p.at.AtApply? || exit.StillRunning? then None
    else Some(At(s, p.(exit := exit), AtTearDisable))
  }

  function DoTearDisable(setup: Setup, s: State, p: Process, ok: bool): Option<State> {
    if !p.at.AtTearDisable? then None
    else
      var goOn := ok && p.exit.ByCutover? && setup.config.online.dropSubscriptionOnCutover;
      Some(At(if ok then Disabled(s) else s, p, if goOn then AtTearDetach else AtLoopReport))
  }

  function DoTearDetach(s: State, p: Process, ok: bool): Option<State> {
    if !p.at.AtTearDetach? then None
    else if !ok || s.target.sub.None? then Some(At(s, p, AtLoopReport))
    else Some(At(s.(target := s.target.(sub := Some(s.target.sub.value.(slotSet := false)))), p, AtTearDrop))
  }

  function DoTearDrop(s: State, p: Process, ok: bool): Option<State> {
    if !p.at.AtTearDrop? then None
    else if !ok then Some(At(s, p, AtLoopReport))
    else Some(At(s.(target := s.target.(sub := None, worker := None),
                    history := s.history.(dropped := true)), p, AtLoopReport))
  }

  function DoLoopReported(setup: Setup, s: State, p: Process, lsn: nat): Option<State> {
    if !p.at.AtLoopReport? || p.exit.ByFailedHealthCheck? then None
    else Some(Saving(s, p.(token := p.token.(lastAppliedLsn := Some(lsn))), AfterLoopPc(setup, p)))
  }

  function DoSequences(setup: Setup, s: State, p: Process): Option<State> {
    if p.at.AtSequences? then Some(At(s, p, CleanupPc(setup, p.token))) else None
  }

  function DoDropPublication(setup: Setup, s: State, p: Process, ok: bool): Option<State> {
    if !p.at.AtDropPublication? then None
    else Some(At(if ok then s.(source := s.source.(publication := false)) else s, p, SlotCleanupPc(setup)))
  }

  /** The outcome of this wait is only logged. */
  function DoCleanupWait(s: State, p: Process): Option<State> {
    if p.at.AtCleanupWait? then Some(At(s, p, AtDropSlot)) else None
  }

  function DoDropSlot(s: State, p: Process, ok: bool): Option<State> {
    if !p.at.AtDropSlot? then None
    else if ok && s.source.slot.Some? && !s.source.slot.value.active
    then Some(At(s.(source := s.source.(slot := None)), p, AtComplete))
    else Some(At(s, p, AtComplete))
  }

  // ---------------------------------------------------------------- histories

  /** The state a history of events leads to; None when some event could not happen. */
  function Run(setup: Setup, s: State, es: seq<Event>): Option<State> {
    if es == [] then Some(s)
    else match Run(setup, s, es[..|es| - 1])
      case None => None
      case Some(m) => Do(setup, m, es[|es| - 1])
  }

  /** Every state any history of runs, crashes, resumes, source writes and apply-worker
      progress can reach. */
  ghost predicate Reachable(setup: Setup, s: State) {
    exists init, es :: Init(setup, init) && Run(setup, init, es) == Some(s)
  }

  /** The stages recorded at this moment: by the running process, or by the file a
      resumed run would load. */
  function Recorded(s: State): set<Stage> {
    if s.proc.Some? then s.proc.value.token.completed else StagesOnDisk(s)
  }
}
