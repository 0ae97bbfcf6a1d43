/** Every event of the protocol keeps the invariant: one lemma per event, split into
    control and content where it touches both. */
module ProtocolSteps {
  import opened Prelude
  import opened Config
  import opened Resume
  import opened Protocol
  import opened ProtocolInvariant

  // ------------------------------------------------------------------- changes

  lemma {:induction false} OfAppend(a: Wal, b: Wal, t: Table)
    ensures Of(a + b, t) == Of(a, t) + Of(b, t)
  {
    if b == [] {
      assert a + b == a;
    } else {
      assert (a + b)[..|a + b| - 1] == a + b[..|b| - 1];
      OfAppend(a, b[..|b| - 1], t);
    }
  }

  /** Replaying one more change extends the part replayed so far by it. */
  lemma OfNext(w: Wal, from: nat, next: nat, t: Table)
    requires from <= next < |w|
    ensures Of(w[from..next + 1], t) == Of(w[from..next], t) + if w[next].table == t then [w[next]] else []
  {
    assert w[from..next + 1][..next - from] == w[from..next];
  }

  /** What follows the split plan. */
  lemma DumpPcStages(setup: Setup, t: TokenData)
    requires WellFormed(setup, t) && !setup.config.mode.VerifyOnly?
    requires setup.config.mode.Online? ==> t.Has(PrepareSnapshot)
    ensures var at := DumpPc(setup, t);
            && StagesAt(setup, at, t) && !AfterAttach(at) && !Populating(at)
            && (at.AtDump? || at.AtRestoreAll? || at.AtPreData? || at.AtAnalyze? || at.AtDropStream? || at.AtVerify?)
  {
  }

  /** What follows the dump. */
  lemma RestorePcStages(setup: Setup, t: TokenData)
    requires WellFormed(setup, t) && !setup.config.mode.VerifyOnly? && t.Has(Dump)
    ensures var at := RestorePc(setup, t);
            && StagesAt(setup, at, t) && !AfterAttach(at) && !Populating(at)
            && (at.AtRestoreAll? || at.AtPreData? || at.AtAnalyze? || at.AtDropStream? || at.AtVerify?)
  {
  }

  /** What follows the restore. */
  lemma AnalyzePcStages(setup: Setup, t: TokenData)
    requires WellFormed(setup, t) && !setup.config.mode.VerifyOnly? && t.Has(Restore)
    ensures var at := AnalyzePc(setup, t);
            && StagesAt(setup, at, t) && !AfterAttach(at) && !Populating(at)
            && (at.AtAnalyze? || at.AtDropStream? || at.AtVerify?)
  {
  }

  /** What follows the loop and its clean-up. */
  lemma CleanupStages(setup: Setup, t: TokenData)
    requires setup.config.mode.Online? && t.Has(Restore)
    ensures var at := CleanupPc(setup, t);
            && StagesAt(setup, at, t) && AfterAttach(at) && !Restoring(at) && !Populating(at)
            && (at.AtDropPublication? || at.AtCleanupWait? || at.AtComplete?)
            && (at.AtDropPublication? ==> t.pubAutoCreated)
    ensures var at := SlotCleanupPc(setup);
            && StagesAt(setup, at, t) && AfterAttach(at) && !Restoring(at) && !Populating(at)
            && (at.AtCleanupWait? || at.AtComplete?)
  {
  }

  lemma AfterLoopStages(setup: Setup, p: Process)
    ensures var at := AfterLoopPc(setup, p);
            && (at.AtSequences? || at.AtDropPublication? || at.AtCleanupWait? || at.AtComplete?)
            && (CutoverOnly(at) ==> p.exit.ByCutover?) && (at.AtDropPublication? ==> p.token.pubAutoCreated)
  {
  }

  /** The worker's next change lands behind those it has replayed, in its own table. */
  lemma ReplayTable(setup: Setup, s: State, s': State, a: Archive, t: Table)
    requires DoWorkerApply(s) == Some(s') && Holds(setup, s, a, Replaying) && t in setup.tables
    requires s.target.worker == Some(s.history.applied)
    ensures a.lsn <= |s'.source.wal| && s'.history.slotStart <= s'.history.applied <= |s'.source.wal|
    ensures t in s'.target.tables && s'.target.tables[t] == Expected(setup, s', a, Replaying, t)
  {
    var w, from, next := s.source.wal, s.history.slotStart, s.history.applied;
    OfNext(w, from, next, t);
    hide Of, Rows;
    var before, replayed := Rows(setup, w, a.lsn, t), Of(w[from..next], t);
    assert before + (replayed + [w[next]]) == (before + replayed) + [w[next]];
    assert replayed + [] == replayed;
  }

  lemma ReplayOne(setup: Setup, s: State, s': State, a: Archive)
    requires DoWorkerApply(s) == Some(s') && Holds(setup, s, a, Replaying)
    requires s.target.worker == Some(s.history.applied)
    ensures Holds(setup, s', a, Replaying)
  {
    forall t | t in setup.tables
      ensures t in s'.target.tables && s'.target.tables[t] == Expected(setup, s', a, Replaying, t)
    {
      ReplayTable(setup, s, s', a, t);
    }
    hide DoWorkerApply, Expected;
  }

  /** A step that touches neither target, slot nor archive leaves the content as it was. */
  lemma ContentFrame(setup: Setup, s: State, s': State)
    requires Content(setup, s) && s'.target == s.target && s'.disk.archive == s.disk.archive
    requires s'.source.slot == s.source.slot && s'.source.wal == s.source.wal
    requires s'.history == s.history.(finished := s'.history.finished, saved := s'.history.saved,
                                      saveFailed := s'.history.saveFailed)
    requires Restore in Recorded(s') <==> Restore in Recorded(s)
    requires s'.proc.Some? ==> !Populating(s'.proc.value.at) || (s.proc.Some? && s.proc.value.at == s'.proc.value.at)
    ensures Content(setup, s')
  {
    hide Of;
  }

  /** Nothing a source write does changes what was there before it. */
  lemma PhasesSurviveWrite(setup: Setup, s: State, c: Change, s': State, a: Archive)
    requires s' == s.(source := s.source.(wal := s.source.wal + [c]))
    ensures forall phase :: Holds(setup, s, a, phase) ==> Holds(setup, s', a, phase)
  {
    forall phase | Holds(setup, s, a, phase) ensures Holds(setup, s', a, phase) {
      var w, w' := s.source.wal, s'.source.wal;
      var from, to := s.history.slotStart, s.history.applied;
      assert w'[..a.lsn] == w[..a.lsn] && w'[from..to] == w[from..to];
      forall t | t in setup.tables ensures Expected(setup, s', a, phase, t) == Expected(setup, s, a, phase, t) {
      }
    }
  }

  // ---------------------------------------------------------------- the world

  lemma StartToken(setup: Setup, s: State, s': State)
    requires Control(setup, s)
    requires DoStart(setup, s) == Some(s')
    ensures TokenInv(setup, s') && LifecycleInv(setup, s')
  {
  }

  lemma StartContent(setup: Setup, s: State, s': State)
    requires Inv(setup, s)
    requires DoStart(setup, s) == Some(s')
    ensures Content(setup, s')
  {
  }

  lemma StartKeeps(setup: Setup, s: State, s': State)
    requires Inv(setup, s)
    requires DoStart(setup, s) == Some(s')
    ensures Inv(setup, s') && Lawful(setup, s, s')
  {
    StartToken(setup, s, s');
    StartContent(setup, s, s');
    hide Content;
  }

  lemma SourceWriteContent(setup: Setup, s: State, c: Change, s': State)
    requires Inv(setup, s)
    requires DoSourceWrite(setup, s, c) == Some(s')
    ensures Content(setup, s')
  {
    if s.disk.archive.Some? { PhasesSurviveWrite(setup, s, c, s', s.disk.archive.value); }
  }

  lemma SourceWriteKeeps(setup: Setup, s: State, c: Change, s': State)
    requires Inv(setup, s)
    requires DoSourceWrite(setup, s, c) == Some(s')
    ensures Inv(setup, s') && Lawful(setup, s, s')
  {
    SourceWriteContent(setup, s, c, s');
    hide Content;
  }

  lemma WorkerAttachContent(setup: Setup, s: State, s': State)
    requires Inv(setup, s)
    requires DoWorkerAttach(s) == Some(s')
    ensures Content(setup, s')
  {
  }

  lemma WorkerAttachKeeps(setup: Setup, s: State, s': State)
    requires Inv(setup, s)
    requires DoWorkerAttach(s) == Some(s')
    ensures Inv(setup, s') && Lawful(setup, s, s')
  {
    WorkerAttachContent(setup, s, s');
    hide Content;
  }

  lemma WorkerApplyContent(setup: Setup, s: State, s': State)
    requires Inv(setup, s)
    requires DoWorkerApply(s) == Some(s')
    ensures Content(setup, s')
  {
    if s.target.worker == Some(s.history.applied) && s.disk.archive.Some? && Holds(setup, s, s.disk.archive.value, Replaying) {
      ReplayOne(setup, s, s', s.disk.archive.value);
    }
  }

  lemma WorkerApplyKeeps(setup: Setup, s: State, s': State)
    requires Inv(setup, s)
    requires DoWorkerApply(s) == Some(s')
    ensures Inv(setup, s') && Lawful(setup, s, s')
  {
    WorkerApplyContent(setup, s, s');
    hide Content;
  }

  lemma WorkerConfirmContent(setup: Setup, s: State, n: nat, s': State)
    requires Inv(setup, s)
    requires DoWorkerConfirm(s, n) == Some(s')
    ensures Content(setup, s')
  {
  }

  lemma WorkerConfirmKeeps(setup: Setup, s: State, n: nat, s': State)
    requires Inv(setup, s)
    requires DoWorkerConfirm(s, n) == Some(s')
    ensures Inv(setup, s') && Lawful(setup, s, s')
  {
    WorkerConfirmContent(setup, s, n, s');
    hide Content;
  }

  lemma WorkerStopContent(setup: Setup, s: State, s': State)
    requires Inv(setup, s)
    requires DoWorkerStop(s) == Some(s')
    ensures Content(setup, s')
  {
  }

  lemma WorkerStopKeeps(setup: Setup, s: State, s': State)
    requires Inv(setup, s)
    requires DoWorkerStop(s) == Some(s')
    ensures Inv(setup, s') && Lawful(setup, s, s')
  {
    WorkerStopContent(setup, s, s');
    hide Content;
  }

  lemma SlotReleasedContent(setup: Setup, s: State, s': State)
    requires Inv(setup, s)
    requires DoSlotReleased(s) == Some(s')
    ensures Content(setup, s')
  {
  }

  lemma SlotReleasedKeeps(setup: Setup, s: State, s': State)
    requires Inv(setup, s)
    requires DoSlotReleased(s) == Some(s')
    ensures Inv(setup, s') && Lawful(setup, s, s')
  {
    SlotReleasedContent(setup, s, s');
    hide Content;
  }

  // -------------------------------------------------------- the end and saves

  lemma DiedToken(setup: Setup, s: State, p: Process, w: Wreck, s': State)
    requires s.proc == Some(p) && Control(setup, s)
    requires Some(Died(setup, s, p, w)) == Some(s')
    ensures TokenInv(setup, s') && LifecycleInv(setup, s')
  {
  }

  lemma DiedSnapshot(setup: Setup, s: State, p: Process, w: Wreck, s': State)
    requires s.proc == Some(p) && Control(setup, s)
    requires Some(Died(setup, s, p, w)) == Some(s')
    ensures SnapshotInv(setup, s')
  {
  }

  lemma DiedTables(setup: Setup, s: State, p: Process, w: Wreck, s': State)
    requires s.proc == Some(p) && Control(setup, s)
    requires Some(Died(setup, s, p, w)) == Some(s')
    ensures TablesInv(setup, s') && Lawful(setup, s, s')
  {
  }

  lemma DiedContent(setup: Setup, s: State, p: Process, w: Wreck, s': State)
    requires s.proc == Some(p) && Inv(setup, s)
    requires Some(Died(setup, s, p, w)) == Some(s')
    ensures Content(setup, s')
  {
  }

  lemma DiedKeeps(setup: Setup, s: State, p: Process, w: Wreck, s': State)
    requires s.proc == Some(p) && Inv(setup, s)
    requires Some(Died(setup, s, p, w)) == Some(s')
    ensures Inv(setup, s') && Lawful(setup, s, s')
  {
    DiedToken(setup, s, p, w, s');
    DiedSnapshot(setup, s, p, w, s');
    DiedTables(setup, s, p, w, s');
    DiedContent(setup, s, p, w, s');
    hide TokenInv, LifecycleInv, SnapshotInv, TablesInv, Content, Lawful, Died;
  }

  lemma TmpWrittenKeeps(setup: Setup, s: State, p: Process, s': State)
    requires s.proc == Some(p) && Inv(setup, s)
    requires DoTmpWritten(s, p) == Some(s')
    ensures Inv(setup, s') && Lawful(setup, s, s')
  {
    ContentFrame(setup, s, s');
    hide Content;
  }

  lemma TokenRenamedKeeps(setup: Setup, s: State, p: Process, s': State)
    requires s.proc == Some(p) && Inv(setup, s)
    requires DoTokenRenamed(s, p) == Some(s')
    ensures Inv(setup, s') && Lawful(setup, s, s')
  {
    ContentFrame(setup, s, s');
    hide Content;
  }

  lemma SaveFailedKeeps(setup: Setup, s: State, p: Process, s': State)
    requires s.proc == Some(p) && Inv(setup, s)
    requires DoSaveFailed(s, p) == Some(s')
    ensures Inv(setup, s') && Lawful(setup, s, s')
  {
    ContentFrame(setup, s, s');
    hide Content;
  }

  // ------------------------------------------------------------------ effects

  lemma VacuumToken(setup: Setup, s: State, p: Process, ok: bool, s': State)
    requires s.proc == Some(p) && p.save.NotSaving? && Control(setup, s)
    requires DoVacuum(setup, s, p, ok) == Some(s')
    ensures TokenInv(setup, s') && LifecycleInv(setup, s')
  {
  }

  lemma VacuumKeeps(setup: Setup, s: State, p: Process, ok: bool, s': State)
    requires s.proc == Some(p) && p.save.NotSaving? && Inv(setup, s)
    requires DoVacuum(setup, s, p, ok) == Some(s')
    ensures Inv(setup, s') && Lawful(setup, s, s')
  {
    VacuumToken(setup, s, p, ok, s');
    ContentFrame(setup, s, s');
    hide Content;
  }

  lemma PublicationToken(setup: Setup, s: State, p: Process, s': State)
    requires s.proc == Some(p) && p.save.NotSaving? && Control(setup, s)
    requires DoPublication(setup, s, p) == Some(s')
    ensures TokenInv(setup, s') && LifecycleInv(setup, s')
  {
  }

  lemma PublicationKeeps(setup: Setup, s: State, p: Process, s': State)
    requires s.proc == Some(p) && p.save.NotSaving? && Inv(setup, s)
    requires DoPublication(setup, s, p) == Some(s')
    ensures Inv(setup, s') && Lawful(setup, s, s')
  {
    PublicationToken(setup, s, p, s');
    ContentFrame(setup, s, s');
    hide Content;
  }

  lemma SlotContent(setup: Setup, s: State, p: Process, s': State)
    requires s.proc == Some(p) && p.save.NotSaving? && Inv(setup, s)
    requires DoSlot(s, p) == Some(s')
    ensures Content(setup, s')
  {
  }

  lemma SlotKeeps(setup: Setup, s: State, p: Process, s': State)
    requires s.proc == Some(p) && p.save.NotSaving? && Inv(setup, s)
    requires DoSlot(s, p) == Some(s')
    ensures Inv(setup, s') && Lawful(setup, s, s')
  {
    SlotContent(setup, s, p, s');
    hide Content;
  }

  lemma PlanToken(setup: Setup, s: State, p: Process, plan: set<Table>, s': State)
    requires s.proc == Some(p) && p.save.NotSaving? && Control(setup, s)
    requires DoPlan(setup, s, p, plan) == Some(s')
    ensures TokenInv(setup, s') && LifecycleInv(setup, s')
  {
    DumpPcStages(setup, p.token);
    hide DumpPc;
  }

  lemma PlanKeeps(setup: Setup, s: State, p: Process, plan: set<Table>, s': State)
    requires s.proc == Some(p) && p.save.NotSaving? && Inv(setup, s)
    requires DoPlan(setup, s, p, plan) == Some(s')
    ensures Inv(setup, s') && Lawful(setup, s, s')
  {
    PlanToken(setup, s, p, plan, s');
    ContentFrame(setup, s, s');
    DumpPcStages(setup, p.token);
    hide DumpPc;
    hide Content;
  }

  lemma DumpToken(setup: Setup, s: State, p: Process, s': State)
    requires s.proc == Some(p) && p.save.NotSaving? && Control(setup, s)
    requires DoDump(setup, s, p) == Some(s')
    ensures TokenInv(setup, s') && LifecycleInv(setup, s')
  {
    RestorePcStages(setup, p.token.Marked(Dump));
    hide RestorePc;
  }

  lemma DumpContent(setup: Setup, s: State, p: Process, s': State)
    requires s.proc == Some(p) && p.save.NotSaving? && Inv(setup, s)
    requires DoDump(setup, s, p) == Some(s')
    ensures Content(setup, s')
  {
  }

  lemma DumpKeeps(setup: Setup, s: State, p: Process, s': State)
    requires s.proc == Some(p) && p.save.NotSaving? && Inv(setup, s)
    requires DoDump(setup, s, p) == Some(s')
    ensures Inv(setup, s') && Lawful(setup, s, s')
  {
    DumpToken(setup, s, p, s');
    DumpContent(setup, s, p, s');
    RestorePcStages(setup, p.token.Marked(Dump));
    hide RestorePc;
    hide Content;
  }

  lemma RestoreAllContent(setup: Setup, s: State, p: Process, s': State)
    requires s.proc == Some(p) && p.save.NotSaving? && Inv(setup, s)
    requires DoRestoreAll(setup, s, p) == Some(s')
    ensures Content(setup, s')
  {
  }

  lemma RestoreAllKeeps(setup: Setup, s: State, p: Process, s': State)
    requires s.proc == Some(p) && p.save.NotSaving? && Inv(setup, s)
    requires DoRestoreAll(setup, s, p) == Some(s')
    ensures Inv(setup, s') && Lawful(setup, s, s')
  {
    RestoreAllContent(setup, s, p, s');
    hide Content;
  }

  lemma PreDataContent(setup: Setup, s: State, p: Process, s': State)
    requires s.proc == Some(p) && p.save.NotSaving? && Inv(setup, s)
    requires DoPreData(setup, s, p) == Some(s')
    ensures Content(setup, s')
  {
  }

  lemma PreDataKeeps(setup: Setup, s: State, p: Process, s': State)
    requires s.proc == Some(p) && p.save.NotSaving? && Inv(setup, s)
    requires DoPreData(setup, s, p) == Some(s')
    ensures Inv(setup, s') && Lawful(setup, s, s')
  {
    PreDataContent(setup, s, p, s');
    hide Content;
  }

  lemma DataContent(setup: Setup, s: State, p: Process, s': State)
    requires s.proc == Some(p) && p.save.NotSaving? && Inv(setup, s)
    requires DoData(setup, s, p) == Some(s')
    ensures Content(setup, s')
  {
  }

  lemma DataKeeps(setup: Setup, s: State, p: Process, s': State)
    requires s.proc == Some(p) && p.save.NotSaving? && Inv(setup, s)
    requires DoData(setup, s, p) == Some(s')
    ensures Inv(setup, s') && Lawful(setup, s, s')
  {
    DataContent(setup, s, p, s');
    hide Content;
  }

  lemma SplitCopyKeeps(setup: Setup, s: State, p: Process, s': State)
    requires s.proc == Some(p) && p.save.NotSaving? && Inv(setup, s)
    requires DoSplitCopy(setup, s, p) == Some(s')
    ensures Inv(setup, s') && Lawful(setup, s, s')
  {
  }

  lemma PostDataKeeps(setup: Setup, s: State, p: Process, s': State)
    requires s.proc == Some(p) && p.save.NotSaving? && Inv(setup, s)
    requires DoPostData(s, p) == Some(s')
    ensures Inv(setup, s') && Lawful(setup, s, s')
  {
  }

  lemma RestoreMarkedToken(setup: Setup, s: State, p: Process, s': State)
    requires s.proc == Some(p) && p.save.NotSaving? && Control(setup, s)
    requires DoRestoreMarked(setup, s, p) == Some(s')
    ensures TokenInv(setup, s') && LifecycleInv(setup, s')
  {
    AnalyzePcStages(setup, p.token.Marked(Restore));
    hide AnalyzePc;
  }

  lemma RestoreMarkedContent(setup: Setup, s: State, p: Process, s': State)
    requires s.proc == Some(p) && p.save.NotSaving? && Inv(setup, s)
    requires DoRestoreMarked(setup, s, p) == Some(s')
    ensures Content(setup, s')
  {
    var from := s.history.slotStart;
    if s.history.applied == from <= |s.source.wal| {
      assert s.source.wal[from..from] == [];
    }
  }

  lemma RestoreMarkedKeeps(setup: Setup, s: State, p: Process, s': State)
    requires s.proc == Some(p) && p.save.NotSaving? && Inv(setup, s)
    requires DoRestoreMarked(setup, s, p) == Some(s')
    ensures Inv(setup, s') && Lawful(setup, s, s')
  {
    RestoreMarkedToken(setup, s, p, s');
    RestoreMarkedContent(setup, s, p, s');
    AnalyzePcStages(setup, p.token.Marked(Restore));
    hide AnalyzePc;
    hide Content;
  }

  lemma AnalyzeToken(setup: Setup, s: State, p: Process, ok: bool, s': State)
    requires s.proc == Some(p) && p.save.NotSaving? && Control(setup, s)
    requires DoAnalyze(setup, s, p, ok) == Some(s')
    ensures TokenInv(setup, s') && LifecycleInv(setup, s')
  {
  }

  lemma AnalyzeKeeps(setup: Setup, s: State, p: Process, ok: bool, s': State)
    requires s.proc == Some(p) && p.save.NotSaving? && Inv(setup, s)
    requires DoAnalyze(setup, s, p, ok) == Some(s')
    ensures Inv(setup, s') && Lawful(setup, s, s')
  {
    AnalyzeToken(setup, s, p, ok, s');
    ContentFrame(setup, s, s');
    hide Content;
  }

  lemma VerifyKeeps(setup: Setup, s: State, p: Process, s': State)
    requires s.proc == Some(p) && p.save.NotSaving? && Inv(setup, s)
    requires DoVerify(s, p) == Some(s')
    ensures Inv(setup, s') && Lawful(setup, s, s')
  {
    ContentFrame(setup, s, s');
    hide Content;
  }

  lemma FinishContent(setup: Setup, s: State, p: Process, s': State)
    requires s.proc == Some(p) && p.save.NotSaving? && Inv(setup, s)
    requires DoFinish(s, p) == Some(s')
    ensures Content(setup, s')
  {
  }

  lemma FinishKeeps(setup: Setup, s: State, p: Process, s': State)
    requires s.proc == Some(p) && p.save.NotSaving? && Inv(setup, s)
    requires DoFinish(s, p) == Some(s')
    ensures Inv(setup, s') && Lawful(setup, s, s')
  {
    FinishContent(setup, s, p, s');
    hide Content;
  }

  lemma StreamDroppedKeeps(setup: Setup, s: State, p: Process, s': State)
    requires s.proc == Some(p) && p.save.NotSaving? && Inv(setup, s)
    requires DoStreamDropped(s, p) == Some(s')
    ensures Inv(setup, s') && Lawful(setup, s, s')
  {
    ContentFrame(setup, s, s');
    hide Content;
  }

  lemma DisableContent(setup: Setup, s: State, p: Process, ok: bool, s': State)
    requires s.proc == Some(p) && p.save.NotSaving? && Inv(setup, s)
    requires DoDisable(s, p, ok) == Some(s')
    ensures Content(setup, s')
  {
  }

  lemma DisableKeeps(setup: Setup, s: State, p: Process, ok: bool, s': State)
    requires s.proc == Some(p) && p.save.NotSaving? && Inv(setup, s)
    requires DoDisable(s, p, ok) == Some(s')
    ensures Inv(setup, s') && Lawful(setup, s, s')
  {
    DisableContent(setup, s, p, ok, s');
    hide Content;
  }

  lemma SlotIdleKeeps(setup: Setup, s: State, p: Process, s': State)
    requires s.proc == Some(p) && p.save.NotSaving? && Inv(setup, s)
    requires DoSlotIdle(s, p) == Some(s')
    ensures Inv(setup, s') && Lawful(setup, s, s')
  {
    ContentFrame(setup, s, s');
    hide Content;
  }

  lemma AttachToken(setup: Setup, s: State, p: Process, s': State)
    requires s.proc == Some(p) && p.save.NotSaving? && Control(setup, s)
    requires DoAttach(s, p) == Some(s')
    ensures TokenInv(setup, s')
  {
  }

  lemma AttachLifecycle(setup: Setup, s: State, p: Process, s': State)
    requires s.proc == Some(p) && p.save.NotSaving? && Control(setup, s)
    requires DoAttach(s, p) == Some(s')
    ensures LifecycleInv(setup, s')
  {
  }

  lemma AttachContent(setup: Setup, s: State, p: Process, s': State)
    requires s.proc == Some(p) && p.save.NotSaving? && Inv(setup, s)
    requires DoAttach(s, p) == Some(s')
    ensures Content(setup, s')
  {
  }

  lemma AttachKeeps(setup: Setup, s: State, p: Process, s': State)
    requires s.proc == Some(p) && p.save.NotSaving? && Inv(setup, s)
    requires DoAttach(s, p) == Some(s')
    ensures Inv(setup, s') && Lawful(setup, s, s')
  {
    AttachToken(setup, s, p, s');
    AttachLifecycle(setup, s, p, s');
    AttachContent(setup, s, p, s');
    hide Content;
  }

  lemma LoopEndedKeeps(setup: Setup, s: State, p: Process, exit: LoopExit, s': State)
    requires s.proc == Some(p) && p.save.NotSaving? && Inv(setup, s)
    requires DoLoopEnded(s, p, exit) == Some(s')
    ensures Inv(setup, s') && Lawful(setup, s, s')
  {
    ContentFrame(setup, s, s');
    hide Content;
  }

  lemma TearDisableToken(setup: Setup, s: State, p: Process, ok: bool, s': State)
    requires s.proc == Some(p) && p.save.NotSaving? && Control(setup, s)
    requires DoTearDisable(setup, s, p, ok) == Some(s')
    ensures TokenInv(setup, s') && LifecycleInv(setup, s')
  {
  }

  lemma TearDisableContent(setup: Setup, s: State, p: Process, ok: bool, s': State)
    requires s.proc == Some(p) && p.save.NotSaving? && Inv(setup, s)
    requires DoTearDisable(setup, s, p, ok) == Some(s')
    ensures Content(setup, s')
  {
  }

  lemma TearDisableKeeps(setup: Setup, s: State, p: Process, ok: bool, s': State)
    requires s.proc == Some(p) && p.save.NotSaving? && Inv(setup, s)
    requires DoTearDisable(setup, s, p, ok) == Some(s')
    ensures Inv(setup, s') && Lawful(setup, s, s')
  {
    TearDisableToken(setup, s, p, ok, s');
    TearDisableContent(setup, s, p, ok, s');
    hide Content;
  }

  lemma TearDetachContent(setup: Setup, s: State, p: Process, ok: bool, s': State)
    requires s.proc == Some(p) && p.save.NotSaving? && Inv(setup, s)
    requires DoTearDetach(s, p, ok) == Some(s')
    ensures Content(setup, s')
  {
  }

  lemma TearDetachKeeps(setup: Setup, s: State, p: Process, ok: bool, s': State)
    requires s.proc == Some(p) && p.save.NotSaving? && Inv(setup, s)
    requires DoTearDetach(s, p, ok) == Some(s')
    ensures Inv(setup, s') && Lawful(setup, s, s')
  {
    TearDetachContent(setup, s, p, ok, s');
    hide Content;
  }

  lemma TearDropContent(setup: Setup, s: State, p: Process, ok: bool, s': State)
    requires s.proc == Some(p) && p.save.NotSaving? && Inv(setup, s)
    requires DoTearDrop(s, p, ok) == Some(s')
    ensures Content(setup, s')
  {
  }

  lemma TearDropKeeps(setup: Setup, s: State, p: Process, ok: bool, s': State)
    requires s.proc == Some(p) && p.save.NotSaving? && Inv(setup, s)
    requires DoTearDrop(s, p, ok) == Some(s')
    ensures Inv(setup, s') && Lawful(setup, s, s')
  {
    TearDropContent(setup, s, p, ok, s');
    hide Content;
  }

  lemma LoopReportedToken(setup: Setup, s: State, p: Process, lsn: nat, s': State)
    requires s.proc == Some(p) && p.save.NotSaving? && Control(setup, s)
    requires DoLoopReported(setup, s, p, lsn) == Some(s')
    ensures TokenInv(setup, s') && LifecycleInv(setup, s')
  {
    AfterLoopStages(setup, p);
    hide AfterLoopPc;
  }

  lemma LoopReportedKeeps(setup: Setup, s: State, p: Process, lsn: nat, s': State)
    requires s.proc == Some(p) && p.save.NotSaving? && Inv(setup, s)
    requires DoLoopReported(setup, s, p, lsn) == Some(s')
    ensures Inv(setup, s') && Lawful(setup, s, s')
  {
    ContentFrame(setup, s, s');
    LoopReportedToken(setup, s, p, lsn, s');
    AfterLoopStages(setup, p);
    hide AfterLoopPc, Content, TokenInv, LifecycleInv;
  }

  lemma SequencesKeeps(setup: Setup, s: State, p: Process, s': State)
    requires s.proc == Some(p) && p.save.NotSaving? && Inv(setup, s)
    requires DoSequences(setup, s, p) == Some(s')
    ensures Inv(setup, s') && Lawful(setup, s, s')
  {
    ContentFrame(setup, s, s');
    CleanupStages(setup, p.token);
    hide CleanupPc;
    hide Content;
  }

  lemma DropPublicationKeeps(setup: Setup, s: State, p: Process, ok: bool, s': State)
    requires s.proc == Some(p) && p.save.NotSaving? && Inv(setup, s)
    requires DoDropPublication(setup, s, p, ok) == Some(s')
    ensures Inv(setup, s') && Lawful(setup, s, s')
  {
    ContentFrame(setup, s, s');
    CleanupStages(setup, p.token);
    hide SlotCleanupPc;
    hide Content;
  }

  lemma CleanupWaitKeeps(setup: Setup, s: State, p: Process, s': State)
    requires s.proc == Some(p) && p.save.NotSaving? && Inv(setup, s)
    requires DoCleanupWait(s, p) == Some(s')
    ensures Inv(setup, s') && Lawful(setup, s, s')
  {
    ContentFrame(setup, s, s');
    hide Content;
  }

  lemma DropSlotContent(setup: Setup, s: State, p: Process, ok: bool, s': State)
    requires s.proc == Some(p) && p.save.NotSaving? && Inv(setup, s)
    requires DoDropSlot(s, p, ok) == Some(s')
    ensures Content(setup, s')
  {
  }

  lemma DropSlotKeeps(setup: Setup, s: State, p: Process, ok: bool, s': State)
    requires s.proc == Some(p) && p.save.NotSaving? && Inv(setup, s)
    requires DoDropSlot(s, p, ok) == Some(s')
    ensures Inv(setup, s') && Lawful(setup, s, s')
  {
    DropSlotContent(setup, s, p, ok, s');
    hide Content;
  }

  // ----------------------------------------------------------------- all events

  lemma EffectKeeps(setup: Setup, s: State, p: Process, e: Event, s': State)
    requires s.proc == Some(p) && p.save.NotSaving? && Inv(setup, s)
    requires DoStageEffect(setup, s, p, e) == Some(s')
    ensures Inv(setup, s') && Lawful(setup, s, s')
  {
    hide Inv, Lawful, DoApplyEffect, DoVacuum, DoPublication, DoSlot, DoPlan, DoDump, DoRestoreAll, DoPreData,
         DoData, DoSplitCopy, DoPostData, DoRestoreMarked, DoAnalyze, DoVerify, DoFinish;
    match e
    case VacuumDone(ok) => VacuumKeeps(setup, s, p, ok, s');
    case PublicationDone => PublicationKeeps(setup, s, p, s');
    case SlotDone => SlotKeeps(setup, s, p, s');
    case PlanDone(plan) => PlanKeeps(setup, s, p, plan, s');
    case DumpDone => DumpKeeps(setup, s, p, s');
    case RestoreAllDone => RestoreAllKeeps(setup, s, p, s');
    case PreDataDone => PreDataKeeps(setup, s, p, s');
    case DataDone => DataKeeps(setup, s, p, s');
    case SplitCopyDone => SplitCopyKeeps(setup, s, p, s');
    case PostDataDone => PostDataKeeps(setup, s, p, s');
    case RestoreMarked => RestoreMarkedKeeps(setup, s, p, s');
    case AnalyzeDone(ok) => AnalyzeKeeps(setup, s, p, ok, s');
    case VerifyDone => VerifyKeeps(setup, s, p, s');
    case Finish => FinishKeeps(setup, s, p, s');
    case _ => ApplyEffectKeeps(setup, s, p, e, s');
  }

  lemma ApplyEffectKeeps(setup: Setup, s: State, p: Process, e: Event, s': State)
    requires s.proc == Some(p) && p.save.NotSaving? && Inv(setup, s)
    requires DoApplyEffect(setup, s, p, e) == Some(s')
    ensures Inv(setup, s') && Lawful(setup, s, s')
  {
    hide Inv, Lawful, DoStreamDropped, DoDisable, DoSlotIdle, DoAttach, DoLoopEnded, DoTearDisable,
         DoTearDetach, DoTearDrop, DoLoopReported, DoSequences, DoDropPublication, DoCleanupWait, DoDropSlot;
    match e
    case StreamDropped => StreamDroppedKeeps(setup, s, p, s');
    case DisableDone(ok) => DisableKeeps(setup, s, p, ok, s');
    case SlotIdle => SlotIdleKeeps(setup, s, p, s');
    case Attached => AttachKeeps(setup, s, p, s');
    case LoopEnded(exit) => LoopEndedKeeps(setup, s, p, exit, s');
    case TearDisabled(ok) => TearDisableKeeps(setup, s, p, ok, s');
    case TearDetached(ok) => TearDetachKeeps(setup, s, p, ok, s');
    case TearDropped(ok) => TearDropKeeps(setup, s, p, ok, s');
    case LoopReported(lsn) => LoopReportedKeeps(setup, s, p, lsn, s');
    case SequencesDone => SequencesKeeps(setup, s, p, s');
    case PublicationDropped(ok) => DropPublicationKeeps(setup, s, p, ok, s');
    case CleanupWaited => CleanupWaitKeeps(setup, s, p, s');
    case SlotDropped(ok) => DropSlotKeeps(setup, s, p, ok, s');
    case _ =>
  }

  lemma ProcessKeeps(setup: Setup, s: State, p: Process, e: Event, s': State)
    requires s.proc == Some(p) && Inv(setup, s)
    requires DoEffect(setup, s, p, e) == Some(s')
    ensures Inv(setup, s') && Lawful(setup, s, s')
  {
    hide Inv, Lawful, DoStageEffect, Died, DoTmpWritten, DoTokenRenamed, DoSaveFailed;
    match e
    case Die(w) => DiedKeeps(setup, s, p, w, s');
    case TmpWritten => TmpWrittenKeeps(setup, s, p, s');
    case TokenRenamed => TokenRenamedKeeps(setup, s, p, s');
    case SaveFailed => SaveFailedKeeps(setup, s, p, s');
    case _ => EffectKeeps(setup, s, p, e, s');
  }

  /** The induction step of every result about histories. */
  lemma StepKeeps(setup: Setup, s: State, e: Event, s': State)
    requires Inv(setup, s) && Do(setup, s, e) == Some(s')
    ensures Inv(setup, s') && Lawful(setup, s, s')
  {
    hide Inv, Lawful, DoEffect, DoStart, DoSourceWrite, DoWorkerAttach, DoWorkerApply, DoWorkerConfirm,
         DoWorkerStop, DoSlotReleased;
    match e
    case Start => StartKeeps(setup, s, s');
    case SourceWrite(c) => SourceWriteKeeps(setup, s, c, s');
    case WorkerAttach => WorkerAttachKeeps(setup, s, s');
    case WorkerApply => WorkerApplyKeeps(setup, s, s');
    case WorkerConfirm(n) => WorkerConfirmKeeps(setup, s, n, s');
    case WorkerStop => WorkerStopKeeps(setup, s, s');
    case SlotReleased => SlotReleasedKeeps(setup, s, s');
    case _ => ProcessKeeps(setup, s, s.proc.value, e, s');
  }

  lemma InitKeeps(setup: Setup, s: State)
    requires Init(setup, s)
    ensures Inv(setup, s)
  {
  }

  lemma {:induction false} RunKeeps(setup: Setup, s: State, es: seq<Event>, s': State)
    requires Inv(setup, s) && Run(setup, s, es) == Some(s')
    ensures Inv(setup, s')
  {
    if es == [] {
    } else {
      var m := Run(setup, s, es[..|es| - 1]).value;
      RunKeeps(setup, s, es[..|es| - 1], m);
      StepKeeps(setup, m, es[|es| - 1], s');
    }
  }

  lemma ReachableInv(setup: Setup, s: State)
    requires Reachable(setup, s)
    ensures Inv(setup, s)
  {
    var init, es :| Init(setup, init) && Run(setup, init, es) == Some(s);
    InitKeeps(setup, init);
    RunKeeps(setup, init, es, s);
  }
}
