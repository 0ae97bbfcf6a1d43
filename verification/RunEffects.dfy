/** What one run of the migrator meets, and what each of its effects does to the world: the
    lemmas that module Migrator steps through. */
module RunEffects {
  import opened Prelude
  import opened Config
  import opened Resume
  import opened Protocol
  import opened ProtocolInvariant
  import opened ProtocolSteps
  import opened ProtocolTheorems
  import opened SingleRun
  import opened ApplyLoop
  import SplitPages
  import SplitCopy
  import SplitRoutes
  import Verify

  /** Why a run ended early: its configuration or token was refused, or an error, a
      cancellation or a crash stopped it. */
  datatype RunError = Refused | Stopped

  /** Which of the statements succeed whose failure is only logged. */
  datatype Statements = Statements(
    vacuum: bool, analyze: bool, disable: bool, tearDown: bool, detach: bool, drop: bool,
    dropPublication: bool, dropSlot: bool)

  /** What a run meets. `steady` says that nothing kills it, and that no other call fails that
      the state of the servers permits. The catalog is what the planner finds on the source,
      `polls` how often the wait for the slot looks, `turns` what the apply loop meets,
      `verified` the relations whose rows are counted, and `counting` the order in which the
      counting workers move. */
  datatype Fate = Fate(
    steady: bool,
    statements: Statements,
    catalog: seq<SplitCopy.CatalogRow>,
    polls: nat,
    turns: seq<Tick>,
    verified: seq<Verify.Relation>,
    counting: seq<nat>)

  /** The moves of everything but the migrating process. */
  predicate Elsewhere(e: Event) {
    e.SourceWrite? || e.WorkerAttach? || e.WorkerApply? || e.WorkerConfirm? || e.WorkerStop? || e.SlotReleased?
  }

  /** The effects of stages: everything the process does but start, end and save. */
  predicate Deed(e: Event) {
    !Elsewhere(e) && !e.Start? && !e.Die? && !e.Finish? && !e.TmpWritten? && !e.TokenRenamed? && !e.SaveFailed?
  }

  function Deeds(es: seq<Event>): seq<Event> {
    if es == [] then []
    else Deeds(es[..|es| - 1]) + if Deed(es[|es| - 1]) then [es[|es| - 1]] else []
  }

  /** What the world does on its own leaves the process and the disk alone. */
  predicate Undisturbed(s: State, s': State) {
    && s'.proc == s.proc && s'.disk == s.disk && s'.source.exported == s.source.exported
    && MovedOn(s, s') && (Quiet(s) ==> Quiet(s'))
    && s'.history.forgotten == s.history.forgotten && s'.history.saveFailed == s.history.saveFailed
  }

  /** Rows may have been written and replicated, but no object has come or gone. */
  predicate MovedOn(s: State, s': State) {
    && SameObjects(s, s')
    && s'.target.tables.Keys == s.target.tables.Keys && s.source.wal <= s'.source.wal
    && s'.history.runs == s.history.runs
    && (s.target.worker.None? && s.target.sub.None? ==> s'.target == s.target)
  }

  /** Nobody is connected to the slot, and nobody will be. */
  predicate Quiet(s: State) {
    && s.target.worker.None? && (s.target.sub.Some? ==> !s.target.sub.value.enabled)
    && (s.source.slot.Some? ==> !s.source.slot.value.active)
  }

  /** Publication, slot and subscription are there as they were. */
  predicate SameThere(s: State, s': State) {
    && s'.source.publication == s.source.publication
    && (s'.source.slot.Some? <==> s.source.slot.Some?)
    && (s'.target.sub.Some? <==> s.target.sub.Some?)
  }

  lemma MovedOf(a: State, b: State)
    requires Undisturbed(a, b)
    ensures MovedOn(a, b)
  {
  }

  lemma WentQuiet(a: State, b: State)
    requires Undisturbed(a, b)
    ensures b.target.worker.None? && (b.source.slot.Some? ==> !b.source.slot.value.active)
            && (a.target.sub.Some? ==> !a.target.sub.value.enabled) ==>
              Quiet(b)
  {
  }

  lemma StaysQuiet(a: State, b: State)
    ensures Undisturbed(a, b) && Quiet(a) ==> b.source.slot.Some? ==> !b.source.slot.value.active
  {
  }

  lemma ThereAlong(a: State, b: State, c: State)
    ensures (SameThere(a, b) || MovedOn(a, b) || SameObjects(a, b)) && (SameThere(b, c) || MovedOn(b, c)) ==>
              SameThere(a, c)
  {
  }

  predicate SameObjects(s: State, s': State) {
    && s'.source.publication == s.source.publication
    && (s'.source.slot.Some? <==> s.source.slot.Some?)
    && (s'.target.sub.Some? <==> s.target.sub.Some?)
    && (s.target.sub.Some? && s'.target.sub.Some? ==>
          && s'.target.sub.value.enabled == s.target.sub.value.enabled
          && s'.target.sub.value.slotSet == s.target.sub.value.slotSet)
  }

  // ------------------------------------------------- what effects leave alone

  predicate LeavesTarget(e: Event) {
    !(e.RestoreAllDone? || e.PreDataDone? || e.DataDone? || e.SplitCopyDone? || e.DisableDone? || e.Attached?
      || e.TearDisabled? || e.TearDetached? || e.TearDropped? || e.Die?)
  }

  predicate LeavesSource(e: Event) {
    !(e.PublicationDone? || e.SlotDone? || e.PublicationDropped? || e.SlotDropped?)
  }

  /** The target as it was, or the publication and the slot. */
  predicate Leaves(s: State, e: Event, s': State) {
    && (LeavesTarget(e) ==> s'.target == s.target)
    && (LeavesSource(e) ==> s'.source.publication == s.source.publication && s'.source.slot == s.source.slot)
    && s'.source.wal == s.source.wal && s'.history.runs == s.history.runs
  }

  lemma ApplyLeaves(setup: Setup, s: State, p: Process, e: Event, s': State)
    requires s.proc == Some(p) && DoApplyEffect(setup, s, p, e) == Some(s')
    ensures Leaves(s, e, s')
  {
  }

  lemma StageLeaves(setup: Setup, s: State, p: Process, e: Event, s': State)
    requires s.proc == Some(p) && DoStageEffect(setup, s, p, e) == Some(s')
    ensures Leaves(s, e, s')
  {
    hide DoApplyEffect;
    if DoApplyEffect(setup, s, p, e) == Some(s') { ApplyLeaves(setup, s, p, e, s'); }
  }

  lemma EffectLeaves(setup: Setup, s: State, e: Event, s': State)
    requires s.proc.Some? && Do(setup, s, e) == Some(s') && !Elsewhere(e) && !e.Start?
    ensures Leaves(s, e, s')
  {
    hide DoStageEffect;
    if DoStageEffect(setup, s, s.proc.value, e) == Some(s') { StageLeaves(setup, s, s.proc.value, e, s'); }
  }

  lemma LeavesMovesOn(s: State, e: Event, s': State)
    requires Leaves(s, e, s')
    ensures LeavesTarget(e) && LeavesSource(e) ==> MovedOn(s, s')
  {
  }

  lemma MovesAlong(a: State, b: State, c: State)
    ensures MovedOn(a, b) && MovedOn(b, c) ==> MovedOn(a, c)
    ensures MovedOn(a, a)
  {
  }

  lemma MovedObjects(a: State, b: State)
    ensures MovedOn(a, b) ==> SameObjects(a, b)
  {
  }

  lemma MovedWal(a: State, b: State)
    ensures MovedOn(a, b) ==> a.source.wal <= b.source.wal
  {
  }

  lemma MovedKeys(a: State, b: State)
    ensures MovedOn(a, b) ==> SameObjects(a, b) && b.target.tables.Keys == a.target.tables.Keys
  {
  }

  lemma ObjectsAlong(a: State, b: State, c: State)
    ensures SameObjects(a, b) && SameObjects(b, c) ==> SameObjects(a, c)
    ensures MovedOn(a, b) && SameObjects(b, c) ==> SameObjects(a, c)
    ensures SameObjects(a, b) && MovedOn(b, c) ==> SameObjects(a, c)
    ensures MovedOn(a, b) && MovedOn(b, c) ==> SameObjects(a, c)
  {
  }

  lemma CopyKeepsObjects(a: State, b: State, c: State)
    requires SameObjects(a, b) && c.source == b.source && c.target.sub == b.target.sub
    ensures SameObjects(a, c)
  {
  }

  // The publication or the slot may have been created since `a`.

  lemma PublicationMovesOn(a: State, b: State, c: State)
    requires MovedOn(a, b) && Leaves(b, PublicationDone, c) && c.source == b.source.(publication := true)
    ensures MovedOn(a.(source := a.source.(publication := true)), c)
  {
  }

  lemma PublicationMovesAlong(a: State, b: State, c: State)
    ensures b.source.publication && MovedOn(a.(source := a.source.(publication := true)), b) && MovedOn(b, c) ==>
              c.source.publication && MovedOn(a.(source := a.source.(publication := true)), c)
  {
  }

  lemma SlotMovesOn(a: State, b: State, c: State)
    requires MovedOn(a, b) && Leaves(b, SlotDone, c)
    requires c.source.publication == b.source.publication && c.source.slot.Some?
    ensures MovedOn(a.(source := a.source.(slot := c.source.slot)), c)
    ensures b.source.slot.None? <==> a.source.slot.None?
  {
  }

  lemma SlotMovesAlong(a: State, b: State, c: State)
    requires b.source.slot.Some?
    ensures MovedOn(a.(source := a.source.(slot := b.source.slot)), b) && MovedOn(b, c) ==>
              c.source.slot.Some? && MovedOn(a.(source := a.source.(slot := c.source.slot)), c)
  {
  }

  /** Some turn is cancelled or finds a request before any worker was found dead. */
  predicate EndsWell(ts: seq<Tick>) {
    exists k :: 0 <= k < |ts| && Decides(ts[k]) && forall i :: 0 <= i < k ==> ts[i].workerAlive
  }

  /** After `n` turns the loop had ended in the way given: by a turn that found it cancelled, by
      one that found a cutover requested, or by one that found the worker dead; no earlier one
      had found either; and `lsn` is the position the last sample had confirmed. */
  predicate EndedBy(ts: seq<Tick>, n: nat, how: LoopExit, lsn: nat) {
    && 0 < n <= |ts|
    && (how.ByCancel? <==> ts[n - 1].cancelled)
    && (how.ByCutover? <==> !ts[n - 1].cancelled && Decides(ts[n - 1]))
    && (how.ByFailedHealthCheck? ==> !Decides(ts[n - 1]) && !ts[n - 1].workerAlive)
    && (forall i :: 0 <= i < n - 1 ==> !Decides(ts[i]))
    && var taken := AllTaken(ts[..n]); lsn == if taken == [] then 0 else taken[|taken| - 1].confirmed
  }

  // ---------------------------------------------------- what makes effects possible

  /** The process alone decides that the effect is possible: it is the one it performs next. */
  predicate Free(p: Process, e: Event) {
    match e
    case TmpWritten => p.save.WritingTmp?
    case TokenRenamed => p.save.Renaming?
    case SaveFailed => !p.save.NotSaving?
    case _ => p.save.NotSaving? && (FreeEarly(p, e) || FreeLate(p, e))
  }

  predicate FreeEarly(p: Process, e: Event) {
    match e
    case VacuumDone(_) => p.at.AtVacuum?
    case SlotDone => p.at.AtSlot?
    case PostDataDone => p.at.AtPostData?
    case RestoreMarked => p.at.AtRestored?
    case AnalyzeDone(_) => p.at.AtAnalyze?
    case VerifyDone => p.at.AtVerify?
    case StreamDropped => p.at.AtDropStream?
    case DisableDone(_) => p.at.AtDisable?
    case Attached => p.at.AtAttach?
    case _ => false
  }

  predicate FreeLate(p: Process, e: Event) {
    match e
    case LoopEnded(exit) => p.at.AtApply? && !exit.StillRunning?
    case TearDisabled(_) => p.at.AtTearDisable?
    case TearDetached(_) => p.at.AtTearDetach?
    case TearDropped(_) => p.at.AtTearDrop?
    case LoopReported(_) => p.at.AtLoopReport? && !p.exit.ByFailedHealthCheck?
    case SequencesDone => p.at.AtSequences?
    case PublicationDropped(_) => p.at.AtDropPublication?
    case CleanupWaited => p.at.AtCleanupWait?
    case SlotDropped(_) => p.at.AtDropSlot?
    case _ => false
  }

  lemma EarlyIsPossible(setup: Setup, s: State, p: Process, e: Event)
    requires s.proc == Some(p) && p.save.NotSaving? && FreeEarly(p, e)
    ensures Do(setup, s, e).Some?
  {
  }

  lemma LateIsPossible(setup: Setup, s: State, p: Process, e: Event)
    requires s.proc == Some(p) && p.save.NotSaving? && FreeLate(p, e)
    ensures Do(setup, s, e).Some?
  {
  }

  lemma FreeIsPossible(setup: Setup, s: State, p: Process, e: Event)
    requires s.proc == Some(p) && Free(p, e)
    ensures Do(setup, s, e).Some?
  {
    if p.save.NotSaving? {
      if FreeEarly(p, e) {
        hide Do;
        EarlyIsPossible(setup, s, p, e);
      } else {
        hide Do;
        LateIsPossible(setup, s, p, e);
      }
    }
  }

  /** Saving is no deed and touches neither side. */
  lemma SavesAreFree(p: Process)
    ensures p.save.WritingTmp? ==> Free(p, TmpWritten)
    ensures p.save.Renaming? ==> Free(p, TokenRenamed)
    ensures !Deed(TmpWritten) && !Deed(TokenRenamed) && !Deed(SaveFailed)
    ensures LeavesTarget(TmpWritten) && LeavesTarget(TokenRenamed) && LeavesTarget(SaveFailed)
    ensures LeavesSource(TmpWritten) && LeavesSource(TokenRenamed) && LeavesSource(SaveFailed)
  {
  }

  /** Every dump a run gets to can be made: the snapshot it asks for is alive. */
  lemma DumpIsPossible(setup: Setup, s: State, p: Process)
    requires Reachable(setup, s) && s.proc == Some(p) && p.save.NotSaving? && p.at.AtDump?
    ensures Do(setup, s, DumpDone).Some?
  {
    hide Reachable;
    NoDeadSnapshot(setup, s);
  }

  lemma PlanIsPossible(setup: Setup, s: State, p: Process, plan: set<Table>)
    requires s.proc == Some(p) && p.save.NotSaving? && p.at.AtSplitPlan? && plan <= setup.tables
    requires plan != {} ==> setup.config.splitTablesLargerThan.Some?
    requires plan != {} && setup.config.mode.Online? ==> p.token.snapshotName.Some?
    ensures Do(setup, s, PlanDone(plan)).Some?
  {
  }

  lemma PublicationIsPossible(setup: Setup, s: State, p: Process)
    requires s.proc == Some(p) && p.save.NotSaving? && p.at.AtPublication?
    ensures Do(setup, s, PublicationDone).Some? <==> s.source.publication || setup.config.online.autoCreatePublication
  {
  }

  /** What a restore needs of the target's tables: a data-only one needs them all, any other
      needs none or permission to drop them. */
  predicate Permitted(setup: Setup, tables: set<Table>) {
    if setup.config.scope.DataOnly? then setup.tables <= tables
    else setup.config.dropTargetFirst || setup.tables !! tables
  }

  lemma DataOnlyPermits(setup: Setup, tables: set<Table>)
    ensures setup.config.scope.DataOnly? ==> (Permitted(setup, tables) <==> setup.tables <= tables)
  {
  }

  /** A restore that is permitted is possible, and any other is not. */
  lemma RestoreIsPossible(setup: Setup, s: State, p: Process, e: Event)
    requires Reachable(setup, s) && s.proc == Some(p) && p.save.NotSaving?
    requires (e.RestoreAllDone? && p.at.AtRestoreAll?) || (e.PreDataDone? && p.at.AtPreData?)
    ensures Do(setup, s, e).Some? ==>
              Permitted(setup, s.target.tables.Keys) || (e.PreDataDone? && setup.config.scope.DataOnly?)
    ensures Permitted(setup, s.target.tables.Keys) ==> Do(setup, s, e).Some?
  {
    hide Reachable;
    ReachableInv(setup, s);
    hide Inv;
  }

  lemma DataIsPossible(setup: Setup, s: State, p: Process)
    requires Reachable(setup, s) && s.proc == Some(p) && p.save.NotSaving? && p.at.AtData?
    ensures Do(setup, s, DataDone).Some? <==> !setup.config.scope.DataOnly? || setup.tables <= s.target.tables.Keys
  {
    hide Reachable;
    ReachableInv(setup, s);
  }

  /** A restore step keeps the names of the tables of a data-only restore. */
  lemma PreDataKeys(setup: Setup, s: State, p: Process, s': State)
    requires s.proc == Some(p) && p.save.NotSaving? && Do(setup, s, PreDataDone) == Some(s')
    ensures setup.config.scope.DataOnly? ==> s'.target.tables.Keys == s.target.tables.Keys
  {
  }

  /** The direct copy of a run that restores the tables' definitions is not refused. */
  lemma CopyIsPossible(setup: Setup, s: State, p: Process)
    requires Reachable(setup, s) && s.proc == Some(p) && p.save.NotSaving? && p.at.AtSplitCopy?
    requires !setup.config.scope.DataOnly?
    ensures p.split.Some? && p.held.Some? && p.held.value.id == p.split.value.snapshotId
    ensures p.held.value.lsn <= |s.source.wal| && p.split.value.plan <= s.target.tables.Keys
    ensures SplitCopySucceeds(setup, p.split.value.plan, s.target.tables)
  {
    ReachableFirstRun(setup, s);
    ReachableInv(setup, s);
    hide Reachable;
  }

  lemma ElsewhereIsUndisturbed(setup: Setup, s: State, e: Event, s': State)
    requires Elsewhere(e) && Do(setup, s, e) == Some(s')
    ensures Undisturbed(s, s')
  {
  }

  lemma GoesAndIsNoticed(setup: Setup, s: State)
    ensures var gone := s.(target := s.target.(worker := None));
            && Do(setup, s, WorkerStop) == Some(gone)
            && (s.source.slot.Some? ==>
                  Do(setup, gone, SlotReleased) ==
                  Some(gone.(source := s.source.(slot := Some(s.source.slot.value.(active := false))))))
  {
  }

  /** Only `Start` starts a process, and no step of a run that goes on forgets. */
  lemma RunningRemembers(setup: Setup, s: State, e: Event, s': State)
    requires Do(setup, s, e) == Some(s') && s'.proc.Some?
    ensures s'.history.forgotten == s.history.forgotten && (s.proc.Some? || e.Start?)
  {
    if s.history.forgotten {
      StaysForgotten(setup, s, e, s');
    } else if s'.history.forgotten {
      OnlyEndsForget(setup, s, e, s');
    }
    hide DoEffect;
  }

  /** The three outcomes of the two halves of a save. */
  lemma SaveEffects(setup: Setup, s: State, p: Process)
    requires s.proc == Some(p) && !p.save.NotSaving?
    ensures p.save.WritingTmp? ==>
              Do(setup, s, TmpWritten) ==
               Some(s.(disk := s.disk.(tmp := Whole(p.token)), proc := Some(p.(save := Renaming))))
    ensures p.save.Renaming? ==>
              Do(setup, s, TokenRenamed) == Some(s.(disk := s.disk.(token := s.disk.tmp, tmp := Missing),
                                                    history := s.history.(saved := s.history.saved + {p.token}),
                                                    proc := Some(p.(save := NotSaving))))
    ensures Do(setup, s, SaveFailed) ==
            Some(s.(disk := s.disk.(tmp := if p.save.WritingTmp? then Torn else s.disk.tmp),
                    history := s.history.(saveFailed := true), proc := Some(p.(save := NotSaving))))
  {
  }

  lemma VacuumEffect(setup: Setup, s: State, p: Process, ok: bool, s': State)
    requires s.proc == Some(p) && p.save.NotSaving? && Do(setup, s, VacuumDone(ok)) == Some(s')
    ensures s'.proc == if ok then Some(p.(token := p.token.Marked(SourceVacuum), save := WritingTmp,
                                          at := PreparePc(setup, p.token)))
                       else Some(p.(at := PreparePc(setup, p.token)))
    ensures PreparePc(setup, p.token.Marked(SourceVacuum)) == PreparePc(setup, p.token)
  {
  }

  lemma PublicationEffect(setup: Setup, s: State, p: Process, s': State)
    requires s.proc == Some(p) && p.save.NotSaving? && Do(setup, s, PublicationDone) == Some(s')
    ensures s'.source == s.source.(publication := true)
    ensures s.source.publication || setup.config.online.autoCreatePublication
    ensures s'.proc == if s.source.publication then Some(p.(at := AtSlot))
                       else Some(p.(token := p.token.(pubAutoCreated := true), save := WritingTmp, at := AtSlot))
  {
  }

  lemma AlreadyMarked(t: TokenData, stage: Stage)
    ensures t.Has(stage) ==> t.(completed := t.completed + {stage}) == t
  {
  }

  lemma AnalyzeEffect(setup: Setup, s: State, p: Process, ok: bool, s': State)
    requires s.proc == Some(p) && p.save.NotSaving? && Do(setup, s, AnalyzeDone(ok)) == Some(s')
    ensures s'.proc == if ok then Some(p.(token := p.token.Marked(Analyze), save := WritingTmp,
                                          at := AfterAnalyzePc(setup)))
                       else Some(p.(at := AfterAnalyzePc(setup)))
  {
  }

  lemma SlotEffect(setup: Setup, s: State, p: Process, s': State)
    requires s.proc == Some(p) && p.save.NotSaving? && Do(setup, s, SlotDone) == Some(s')
    ensures var created := s.source.slot.None?;
            var name := if created then Some(s.source.exported) else None;
            var held := if created then Some(Snapshot(s.source.exported, |s.source.wal|)) else None;
            s'.proc == Some(p.(at := AtSplitPlan, save := WritingTmp, held := held,
                               token := p.token.Marked(PrepareSnapshot).(snapshotName := name)))
    ensures s'.source.slot.Some? && s'.source.publication == s.source.publication && s'.disk == s.disk
  {
  }

  lemma PlanEffect(setup: Setup, s: State, p: Process, plan: set<Table>, s': State)
    requires s.proc == Some(p) && p.save.NotSaving? && Do(setup, s, PlanDone(plan)) == Some(s')
    ensures s'.disk == s.disk
    ensures plan == {} ==> s'.proc == Some(p.(at := DumpPc(setup, p.token)))
    ensures plan != {} && setup.config.mode.Online? ==>
              && p.token.snapshotName.Some?
              && s'.proc == Some(p.(split := Some(SplitContext(plan, p.token.snapshotName.value)),
                                     at := DumpPc(setup, p.token)))
    ensures plan != {} && !setup.config.mode.Online? ==>
              var snap := Snapshot(s.source.exported, |s.source.wal|);
              s'.proc == Some(p.(held := Some(snap), split := Some(SplitContext(plan, snap.id)),
                                  at := DumpPc(setup, p.token)))
  {
    hide DumpPc;
  }

  lemma DumpEffect(setup: Setup, s: State, p: Process, s': State)
    requires s.proc == Some(p) && p.save.NotSaving? && Do(setup, s, DumpDone) == Some(s')
    ensures s'.proc == Some(p.(at := RestorePc(setup, p.token.Marked(Stage.Dump)), save := WritingTmp,
                               token := p.token.Marked(Stage.Dump)))
    ensures s'.disk.token == s.disk.token && s'.disk.archive.Some?
    ensures s'.disk.archive.value.snapshot == DumpSnapshot(setup, p)
    ensures s'.disk.archive.value.excluded == if p.split.Some? then p.split.value.plan else {}
  {
    hide RestorePc;
  }

  /** The copy step is enabled wherever the streams succeed. */
  lemma CopyEffect(setup: Setup, s: State, p: Process)
    requires s.proc == Some(p) && p.save.NotSaving? && p.at.AtSplitCopy? && p.split.Some? && p.held.Some?
    requires p.held.value.id == p.split.value.snapshotId && p.held.value.lsn <= |s.source.wal|
    requires SplitCopySucceeds(setup, p.split.value.plan, s.target.tables)
    ensures Do(setup, s, SplitCopyDone) ==
            Some(s.(target := s.target.(tables :=
                      DirectCopy(s.source.wal, p.held.value.lsn, p.split.value.plan, s.target.tables)),
                    proc := Some(p.(at := if setup.config.splitSections then AtPostData else AtRestored))))
  {
    hide DirectCopy, SplitCopySucceeds;
  }

  /** Effects that only move the process on. */
  lemma RestoreEffects(setup: Setup, s: State, p: Process, e: Event, s': State)
    requires s.proc == Some(p) && p.save.NotSaving? && Do(setup, s, e) == Some(s')
    requires e.PreDataDone? || e.DataDone? || e.PostDataDone? || e.RestoreAllDone?
    ensures s'.disk == s.disk
    ensures s'.proc == Some(p.(at := match e
                                     case PreDataDone => AtData
                                     case DataDone => if p.split.Some? then AtSplitCopy else AtPostData
                                     case PostDataDone => AtRestored
                                     case _ => if p.split.Some? then AtSplitCopy else AtRestored))
    ensures SameObjects(s, s')
  {
  }

  lemma MarkEffect(setup: Setup, s: State, p: Process, s': State)
    requires s.proc == Some(p) && p.save.NotSaving? && Do(setup, s, RestoreMarked) == Some(s')
    ensures s'.disk == s.disk
    ensures s'.proc == Some(p.(at := AnalyzePc(setup, p.token.Marked(Restore)), save := WritingTmp,
                               token := p.token.Marked(Restore)))
  {
    hide AnalyzePc;
  }

  lemma VerifyIsFree(p: Process)
    ensures p.save.NotSaving? && p.at.AtVerify? ==> Free(p, VerifyDone)
    ensures Deed(VerifyDone) && LeavesTarget(VerifyDone) && LeavesSource(VerifyDone)
  {
  }

  lemma VerifyEffect(setup: Setup, s: State, p: Process, s': State)
    requires s.proc == Some(p) && p.save.NotSaving? && Do(setup, s, VerifyDone) == Some(s')
    ensures s'.proc == Some(p.(at := AtComplete))
  {
  }

  lemma StreamEffects(setup: Setup, s: State, p: Process, e: Event, s': State)
    requires s.proc == Some(p) && p.save.NotSaving? && Do(setup, s, e) == Some(s')
    requires e.StreamDropped? || e.DisableDone?
    ensures e.StreamDropped? ==> s'.proc == Some(p.(held := None, at := if p.resume then AtDisable else AtWaitSlot))
    ensures e.DisableDone? ==> s'.proc == Some(p.(at := AtWaitSlot))
    ensures SameThere(s, s')
  {
  }

  lemma IdleEffect(setup: Setup, s: State, p: Process)
    requires s.proc == Some(p) && p.save.NotSaving? && p.at.AtWaitSlot?
    requires s.source.slot.None? || !s.source.slot.value.active
    ensures Do(setup, s, SlotIdle) == Some(s.(proc := Some(p.(at := AtAttach))))
  {
  }

  lemma AttachEffect(setup: Setup, s: State, p: Process, s': State)
    requires s.proc == Some(p) && p.save.NotSaving? && Do(setup, s, Attached) == Some(s')
    ensures s'.proc == Some(p.(at := AtApply))
    ensures s'.target.sub.Some? && s'.source == s.source
    ensures s'.target.sub.value.enabled && s'.target.sub.value.slotSet
  {
  }

  lemma LoopEndEffect(setup: Setup, s: State, p: Process, how: LoopExit, s': State)
    requires s.proc == Some(p) && p.save.NotSaving? && Do(setup, s, LoopEnded(how)) == Some(s')
    ensures s'.proc == Some(p.(exit := how, at := AtTearDisable))
  {
  }

  lemma DisableEffect(setup: Setup, s: State, p: Process, ok: bool, s': State)
    requires s.proc == Some(p) && p.save.NotSaving? && Do(setup, s, TearDisabled(ok)) == Some(s')
    ensures var goOn := ok && p.exit.ByCutover? && setup.config.online.dropSubscriptionOnCutover;
            s'.proc == Some(p.(at := if goOn then AtTearDetach else AtLoopReport))
    ensures s'.target == if ok then Disabled(s).target else s.target
    ensures SameThere(s, s')
  {
  }

  lemma TearEffects(setup: Setup, s: State, p: Process, e: Event, s': State)
    requires s.proc == Some(p) && p.save.NotSaving? && Do(setup, s, e) == Some(s')
    requires e.TearDetached? || e.TearDropped?
    ensures e.TearDetached? ==>
              var detached := e.ok && s.target.sub.Some?;
              && s'.proc == Some(p.(at := if detached then AtTearDrop else AtLoopReport))
              && s'.target.sub == (if detached then Some(s.target.sub.value.(slotSet := false)) else s.target.sub)
              && s'.source == s.source
    ensures e.TearDropped? ==>
              && s'.proc == Some(p.(at := AtLoopReport))
              && s'.target.sub == (if e.ok then None else s.target.sub) && s'.source == s.source
  {
  }

  lemma ReportEffect(setup: Setup, s: State, p: Process, lsn: nat, s': State)
    requires s.proc == Some(p) && p.save.NotSaving? && Do(setup, s, LoopReported(lsn)) == Some(s')
    ensures s'.proc == Some(p.(at := AfterLoopPc(setup, p), save := WritingTmp,
                               token := p.token.(lastAppliedLsn := Some(lsn))))
    ensures s'.disk == s.disk
  {
    hide AfterLoopPc;
  }

  lemma CleanupEffects(setup: Setup, s: State, p: Process, e: Event, s': State)
    requires s.proc == Some(p) && p.save.NotSaving? && Do(setup, s, e) == Some(s')
    requires e.SequencesDone? || e.PublicationDropped? || e.CleanupWaited? || e.SlotDropped?
    ensures s'.proc == Some(p.(at := match e
                                     case SequencesDone => CleanupPc(setup, p.token)
                                     case PublicationDropped(_) => SlotCleanupPc(setup)
                                     case CleanupWaited => AtDropSlot
                                     case _ => AtComplete))
    ensures s'.target == s.target && s'.source.wal == s.source.wal
    ensures s'.source.publication == (s.source.publication && e != PublicationDropped(true))
    ensures s'.source.slot == if e == SlotDropped(true) && s.source.slot.Some? && !s.source.slot.value.active
                              then None else s.source.slot
  {
    hide CleanupPc, SlotCleanupPc;
  }

  lemma FinishEffect(setup: Setup, s: State, p: Process)
    requires s.proc == Some(p) && p.save.NotSaving? && p.at.AtComplete?
    ensures Do(setup, s, Finish) == Some(Ended(s))
  {
  }

  lemma PartsChecked(setup: Setup)
    ensures forall resume ::
              Config.Valid(setup.config.(resume := resume)) && setup.config.splitTablesLargerThan.Some? ==>
                setup.config.splitMaxParts > 0 && !resume
  {
  }

  lemma ResumeIsNotCompared(t: TokenData, c: MigrationConfig)
    ensures forall resume :: Compatible(t, c.(resume := resume)) == Compatible(t, c)
  {
  }

  lemma StartEffect(setup: Setup, s: State)
    requires s.proc.None? && MayStart(setup, s)
    ensures var resume, token := s.history.runs > 0, TokenFound(setup, s);
            Do(setup, s, Start) ==
            Some(s.(proc := Some(Process(VacuumPc(setup, token), NotSaving, resume, token, None, None, StillRunning)),
                    history := s.history.(runs := s.history.runs + 1)))
  {
    hide VacuumPc;
  }

  /** Slot, subscription and publication are still there. */
  predicate Keeps(s: State, s': State) {
    && (s.source.slot.Some? ==> s'.source.slot.Some?)
    && (s.target.sub.Some? ==> s'.target.sub.Some?)
    && (s.source.publication ==> s'.source.publication)
  }

  /** Only an online run has a loop to leave. */
  lemma AppliesOnline(setup: Setup, s: State)
    requires Inv(setup, s) && s.proc.Some? && s.proc.value.at.AtApply?
    ensures setup.config.mode.Online?
  {
  }

  /** The token a run starts from. */
  function TokenFound(setup: Setup, s: State): TokenData {
    if s.history.runs > 0 && s.disk.token.Whole? then s.disk.token.token else NewToken(setup.config)
  }

  predicate MayStart(setup: Setup, s: State) {
    && Config.Valid(RunConfig(setup, s))
    && (s.history.runs > 0 ==> !s.disk.token.Torn? && Compatible(TokenFound(setup, s), setup.config))
  }

  /** A run may start if its configuration is valid, and what it resumes is not torn and was
      written for the same migration. */
  lemma StartsIff(setup: Setup, s: State)
    ensures MayStart(setup, s) <==>
            && Config.Valid(setup.config.(resume := s.history.runs > 0))
            && (s.history.runs > 0 ==>
                  && !s.disk.token.Torn?
                  && (s.disk.token.Whole? ==> Compatible(s.disk.token.token, setup.config)))
  {
    hide KeyOf, Validate;
  }

  /** The effects of a whole restore, in order. */
  function RestoreSteps(setup: Setup, split: bool): seq<Event> {
    var copy := if split then [SplitCopyDone] else [];
    if setup.config.splitSections then [PreDataDone, DataDone] + copy + [PostDataDone] else [RestoreAllDone] + copy
  }

  /** The deeds of a run that starts with token `t`, up to the plan of the direct copy. */
  function StartDeeds(setup: Setup, t: TokenData, st: Statements, plan: set<Table>): seq<Event> {
    (if setup.config.skipSourceVacuum || t.Has(SourceVacuum) then [] else [VacuumDone(st.vacuum)])
    + (if setup.config.mode.Online? && !t.Has(Stage.Dump) then [PublicationDone, SlotDone] else [])
    + [PlanDone(plan)]
  }

  /** The deeds from the dump to the end of the restore: recorded stages are skipped. */
  function RestoreDeeds(setup: Setup, t: TokenData, st: Statements, split: bool): seq<Event> {
    (if t.Has(Stage.Dump) then [] else [DumpDone])
    + (if t.Has(Restore) then [] else RestoreSteps(setup, split) + [RestoreMarked])
    + (if setup.config.skipAnalyze || t.Has(Analyze) then [] else [AnalyzeDone(st.analyze)])
  }

  lemma SameRestore(setup: Setup, t: TokenData, t': TokenData, st: Statements, split: bool)
    ensures t'.Has(Stage.Dump) == t.Has(Stage.Dump) && t'.Has(Restore) == t.Has(Restore)
            && t'.Has(Analyze) == t.Has(Analyze) ==>
              RestoreDeeds(setup, t', st, split) == RestoreDeeds(setup, t, st, split)
  {
  }

  lemma JoinTwo(a: seq<Event>, b: seq<Event>, c: seq<Event>)
    ensures a + b + c == a + (b + c)
  {
  }

  lemma JoinThree(a: seq<Event>, b: seq<Event>, c: seq<Event>, d: seq<Event>)
    ensures a + b + c + d == a + (b + c + d)
  {
  }

  /** The deeds that make sure nobody else is on the slot, */
  function ReleaseDeeds(st: Statements, resume: bool): seq<Event> {
    [StreamDropped] + (if resume then [DisableDone(st.disable)] else []) + [SlotIdle]
  }

  /** those of the apply phase, */
  function ApplyDeeds(setup: Setup, st: Statements, exit: LoopExit): seq<Event> {
    [Attached, LoopEnded(exit), TearDisabled(st.tearDown)]
    + if !st.tearDown || !exit.ByCutover? || !setup.config.online.dropSubscriptionOnCutover then []
      else [TearDetached(st.detach)] + if st.detach then [TearDropped(st.drop)] else []
  }

  /** and those of the clean-up after a cutover. */
  function CleanupDeeds(setup: Setup, st: Statements, exit: LoopExit, created: bool): seq<Event> {
    if !exit.ByCutover? then []
    else (if setup.config.online.syncSequencesOnCutover then [SequencesDone] else [])
         + (if created then [PublicationDropped(st.dropPublication)] else [])
         + (if setup.config.online.dropSlotOnCutover then [CleanupWaited, SlotDropped(st.dropSlot)] else [])
  }

  /** The deeds of an online run after the restore. */
  function FollowingDeeds(setup: Setup, st: Statements, resume: bool, exit: LoopExit, lsn: nat, created: bool):
    seq<Event>
  {
    ReleaseDeeds(st, resume) + ApplyDeeds(setup, st, exit) + [LoopReported(lsn)]
    + CleanupDeeds(setup, st, exit, created)
  }

  lemma JoinFour(a: seq<Event>, b: seq<Event>, c: seq<Event>, d: seq<Event>, e: seq<Event>)
    ensures a + b + c + d + e == a + (b + c + d + e)
  {
  }

  lemma OnlineFollows(setup: Setup)
    ensures setup.config.mode.Online? ==> AfterAnalyzePc(setup) == AtDropStream
    ensures setup.config.mode.Offline? ==> AfterAnalyzePc(setup) == AtVerify
  {
  }

  lemma SameAfterLoop(setup: Setup, p: Process, p': Process)
    requires p'.exit == p.exit && p'.token.pubAutoCreated == p.token.pubAutoCreated
    ensures AfterLoopPc(setup, p') == AfterLoopPc(setup, p)
  {
  }

  /** The catalog of the source lists each of its tables at most once. */
  predicate IsCatalog(tables: set<Table>, catalog: seq<SplitCopy.CatalogRow>) {
    && (forall c :: c in catalog ==> c.table in tables && c.pages <= I64_MAX)
    && forall i, j :: 0 <= i < j < |catalog| ==> catalog[i].table != catalog[j].table
  }

  /** A plan made of the chosen rows names the tables that were to be chosen. */
  lemma NamesChosen(catalog: seq<SplitCopy.CatalogRow>, threshold: nat, plan: seq<SplitCopy.SplitTable>)
    requires threshold < U64_LIMIT && |plan| == |SplitCopy.Chosen(catalog, threshold)|
    requires forall i :: 0 <= i < |plan| ==> plan[i].table == SplitCopy.Chosen(catalog, threshold)[i].table
    requires forall i, j :: 0 <= i < j < |catalog| ==> catalog[i].table != catalog[j].table
    requires forall c :: c in catalog ==> c.pages <= I64_MAX
    ensures forall c :: c in catalog ==>
              (c.table in SplitRoutes.Names(plan) <==>
                 c.columns != [] && c.pages > 0 && (c.bytes >= threshold || threshold > I64_MAX))
  {
    hide SplitCopy.Chosen;
    var chosen := SplitCopy.Chosen(catalog, threshold);
    forall c | c in catalog
      ensures c.table in SplitRoutes.Names(plan) <==>
                c.columns != [] && c.pages > 0 && (c.bytes >= threshold || threshold > I64_MAX)
    {
      SplitCopy.ChosenIff(catalog, threshold, c);
      if c in chosen {
        var i :| 0 <= i < |chosen| && chosen[i] == c;
        assert plan[i].table == c.table;
      }
      if c.table in SplitRoutes.Names(plan) {
        var i :| 0 <= i < |plan| && plan[i].table == c.table;
        SplitCopy.ChosenIff(catalog, threshold, chosen[i]);
        assert chosen[i] in chosen;
        var j :| 0 <= j < |catalog| && catalog[j] == chosen[i];
        var k :| 0 <= k < |catalog| && catalog[k] == c;
        assert j == k;
      }
    }
  }

  /** The planner's parameters are machine words. */
  predicate Words(c: MigrationConfig) {
    c.splitTablesLargerThan.Some? ==> c.splitTablesLargerThan.value < U64_LIMIT && c.splitMaxParts < U64_LIMIT
  }

  /** Validation has refused zero parts. */
  predicate PlanParameters(c: MigrationConfig) {
    Words(c) && (c.splitTablesLargerThan.Some? ==> 0 < c.splitMaxParts)
  }

  /** What a completed offline run has delivered. */
  predicate OfflineResult(setup: Setup, s: State) {
    && s.disk.archive.Some?
    && var lsn := s.disk.archive.value.lsn;
    && lsn in s.history.dumps && lsn <= |s.source.wal|
    && forall t :: t in setup.tables ==>
         t in s.target.tables && s.target.tables[t] == Rows(setup, s.source.wal, lsn, t)
  }

  /** What a completed online run has delivered, provided the dump read the slot's own
      snapshot. */
  predicate OnlineResult(setup: Setup, s: State) {
    && s.disk.archive.Some? && s.history.applied <= |s.source.wal|
    && (s.disk.archive.value.snapshot.Some? ==>
          forall t :: t in setup.tables ==>
            t in s.target.tables && s.target.tables[t] == Of(s.source.wal[..s.history.applied], t))
  }

  lemma CompletedRecords(setup: Setup, s: State)
    requires Inv(setup, s) && s.proc.Some? && s.proc.value.at.AtComplete?
    ensures Restore in Recorded(s) && s.disk.archive.Some? && s.history.applied <= |s.source.wal|
  {
  }

  lemma SameOffline(setup: Setup, s: State, s': State)
    requires s'.source == s.source && s'.target == s.target && s'.disk == s.disk
    requires s'.history.dumps == s.history.dumps
    ensures OfflineResult(setup, s) ==> OfflineResult(setup, s')
  {
  }

  lemma SameOnline(setup: Setup, s: State, s': State)
    requires s'.source == s.source && s'.target == s.target && s'.disk == s.disk
    requires s'.history.applied == s.history.applied
    ensures OnlineResult(setup, s) ==> OnlineResult(setup, s')
  {
  }

  /** The tables as the verification counts them. */
  function CountsOf(s: State): Verify.Counts {
    Verify.Counts(
      (r: Verify.Relation) => |Of(s.source.wal, Verify.QualifiedName(r.schema, r.table))|,
      (r: Verify.Relation) =>
        var t := Verify.QualifiedName(r.schema, r.table);
        if t in s.target.tables then Some(|s.target.tables[t]|) else None)
  }

  /** The relation has as many rows on the target as on the source. */
  predicate SameCount(s: State, name: string) {
    name in s.target.tables && |s.target.tables[name]| == |Of(s.source.wal, name)|
  }

  predicate AllSame(s: State, rels: seq<Verify.Relation>) {
    forall rel :: rel in rels ==> SameCount(s, rel.schema + "." + rel.table)
  }

  predicate DotFree(rels: seq<Verify.Relation>) {
    forall rel :: rel in rels ==> '.' !in rel.table
  }

  /** The rows on both sides, or -1 for a table that is not on the target. */
  function ReportOf(s: State, rels: seq<Verify.Relation>): seq<Verify.TableCount> {
    seq(|rels|, i requires 0 <= i < |rels| =>
      var name := rels[i].schema + "." + rels[i].table;
      Verify.TableCount(rels[i].schema, rels[i].table, |Of(s.source.wal, name)|,
                        if name in s.target.tables then |s.target.tables[name]| else -1))
  }

  /** What these say in full. */
  lemma ReportMeans(s: State, rels: seq<Verify.Relation>)
    ensures DotFree(rels) <==> forall rel :: rel in rels ==> '.' !in rel.table
    ensures AllSame(s, rels) <==>
              forall rel :: rel in rels ==>
                var name := rel.schema + "." + rel.table;
                name in s.target.tables && |s.target.tables[name]| == |Of(s.source.wal, name)|
    ensures |ReportOf(s, rels)| == |rels|
    ensures forall i :: 0 <= i < |rels| ==>
              var name, row := rels[i].schema + "." + rels[i].table, ReportOf(s, rels)[i];
              && row.schema == rels[i].schema && row.table == rels[i].table
              && row.source == |Of(s.source.wal, name)|
              && row.target == if name in s.target.tables then |s.target.tables[name]| else -1
  {
  }

  /** Every worker that counts rows gets enough turns for all of them. */
  predicate CountersServed(setup: Setup, fate: Fate) {
    forall w :: 0 <= w < Max(setup.config.jobs, 1) ==> Turns(fate.counting, w) >= |fate.verified|
  }

  /** What a report of those counts says, for names without dots. */
  lemma CountsMean(s: State, rels: seq<Verify.Relation>)
    requires DotFree(rels)
    ensures var rows := Verify.CompareAll(CountsOf(s), Verify.Labels(rels));
            && |rows| == |rels|
            && (forall i :: 0 <= i < |rels| ==>
                  var name := rels[i].schema + "." + rels[i].table;
                  rows[i] ==
                  Verify.TableCount(rels[i].schema, rels[i].table, |Of(s.source.wal, name)|,
                                    if name in s.target.tables then |s.target.tables[name]| else -1))
            && rows == ReportOf(s, rels) && (Verify.Ok(rows) <==> AllSame(s, rels))
  {
    hide Of, Verify.CompareAll, Verify.Ok, Verify.Labels;
    Verify.ReportMeans(CountsOf(s), rels);
  }
}
