/** What an offline migration makes of the token and the archive that an earlier one left
    behind. A first run neither reads nor removes them: until its own first save the old
    token is what a resumed run would find. */
module OfflineLeftover {
  import opened Prelude
  import opened Config
  import opened Resume
  import opened Protocol
  import opened ProtocolInvariant
  import opened ProtocolStretches

  /** A fresh history, but on a disk that holds a token and an archive. */
  predicate InitOn(setup: Setup, s: State, token: FileContent, archive: Option<Archive>) {
    && Init(setup, s.(disk := Disk(Missing, Missing, None)))
    && s.disk == Disk(token, Missing, archive)
  }

  /** Every table holds the content of one pg_dump that finished in this history. */
  predicate Exact(setup: Setup, s: State) {
    && s.disk.archive.Some? && s.disk.archive.value.lsn in s.history.dumps
    && s.disk.archive.value.lsn <= |s.source.wal|
    && forall t :: t in setup.tables ==>
         t in s.target.tables && s.target.tables[t] == Rows(setup, s.source.wal, s.disk.archive.value.lsn, t)
  }

  /** Whatever happens on the way, a run that completes is exact. */
  ghost predicate AlwaysExact(setup: Setup, token: FileContent, archive: Option<Archive>) {
    forall init, es, s ::
      && InitOn(setup, init, token, archive) && Run(setup, init, es) == Some(s)
      && s.proc.Some? && s.proc.value.at.AtComplete?
      ==> Exact(setup, s)
  }

  /** What makes a leftover dangerous: the token is one a resumed run accepts, and says that
      the restore is done, or that the dump is when there is an archive to restore. */
  predicate Misleading(setup: Setup, token: FileContent, archive: Option<Archive>) {
    && token.Whole? && Compatible(token.token, setup.config)
    && (token.token.Has(Restore) || (token.token.Has(Stage.Dump) && archive.Some?))
  }

  // ------------------------------------------------------------------ invariant

  predicate Ours(setup: Setup, f: FileContent) {
    f.Whole? && Compatible(f.token, setup.config)
  }

  predicate Backed(setup: Setup, s: State) {
    && s.disk.archive.Some? && s.disk.archive.value.lsn in s.history.dumps
    && s.disk.archive.value.lsn <= |s.source.wal|
    && (setup.config.splitTablesLargerThan.None? ==> s.disk.archive.value.excluded == {})
  }

  /** The stages `t` records were performed in this history. */
  predicate TokenBacked(setup: Setup, s: State, t: TokenData) {
    && (t.Has(Stage.Dump) && s.disk.archive.Some? ==> Backed(setup, s))
    && (t.Has(Restore) ==>
          t.Has(Stage.Dump) && Backed(setup, s) && Holds(setup, s, s.disk.archive.value, AllIn))
  }

  predicate RunInv(setup: Setup, s: State, p: Process) {
    && Compatible(p.token, setup.config) && TokenBacked(setup, s, p.token)
    && StagesAt(setup, p.at, p.token)
    && (Ours(setup, s.disk.token) && s.disk.token.token.Has(Restore) ==> p.token.Has(Restore))
    && (p.save.Renaming? ==> s.disk.tmp == Whole(p.token))
    && (p.resume <==> s.history.runs > 1) && s.history.runs > 0 && SplitGuards(setup.config, p.resume)
    && SplitAt(setup, s, p)
    && (s.disk.archive.Some? ==> ContentAt(setup, s, p.at, s.disk.archive.value))
  }

  predicate SplitAt(setup: Setup, s: State, p: Process) {
    && (p.held.Some? ==> p.held.value.lsn <= |s.source.wal|)
    && (p.split.Some? ==>
          setup.config.splitTablesLargerThan.Some? && !p.resume && p.split.value.plan <= setup.tables)
    && ((p.at.AtDump? || Restoring(p.at) || p.at.AtRestored?) && p.split.Some? ==> Live(p, p.split.value.snapshotId))
    && (p.at.AtSplitPlan? || p.at.AtVacuum? ==> p.split.None? && (p.token.Has(Stage.Dump) ==> p.resume))
    && (p.at.AtSplitCopy? ==> p.split.Some?)
    && (Populating(p.at) ==> s.disk.archive.Some?)
    && (Restoring(p.at) || p.at.AtRestored? ==>
          && (p.split.None? && s.disk.archive.Some? ==> s.disk.archive.value.excluded == {})
          && (p.split.Some? ==> s.disk.archive.Some? && FromSplit(setup, s.disk.archive.value, p)))
  }

  predicate LeftoverInv(setup: Setup, s: State) {
    && setup.config.mode.Offline? && !setup.config.scope.DataOnly?
    && s.target.sub.None? && s.history.slotStart == s.history.applied == 0
    && (Ours(setup, s.disk.token) ==> TokenBacked(setup, s, s.disk.token.token))
    && (s.proc.Some? ==> RunInv(setup, s, s.proc.value))
    && (s.history.runs == 0 && Ours(setup, s.disk.token) ==> !s.disk.token.token.Has(Restore))
  }

  // ---------------------------------------------------------------------- steps

  /** Neither the slot nor the worker matters offline. */
  lemma FrameKeeps(setup: Setup, s: State, s': State)
    requires LeftoverInv(setup, s)
    requires s' == s.(source := s.source.(slot := s'.source.slot), target := s.target.(worker := s'.target.worker))
    ensures LeftoverInv(setup, s')
  {
    hide Of;
  }

  lemma NoSubscription(setup: Setup, s: State)
    requires LeftoverInv(setup, s)
    ensures s.target.sub.None?
  {
  }

  lemma ElsewhereIsFrame(setup: Setup, s: State, e: Event, s': State)
    requires s.target.sub.None? && Do(setup, s, e) == Some(s')
    requires e.WorkerAttach? || e.WorkerApply? || e.WorkerConfirm? || e.WorkerStop? || e.SlotReleased?
    ensures s' == s.(source := s.source.(slot := s'.source.slot), target := s.target.(worker := s'.target.worker))
  {
  }

  lemma ElsewhereKeeps(setup: Setup, s: State, e: Event, s': State)
    requires LeftoverInv(setup, s) && Do(setup, s, e) == Some(s')
    requires e.WorkerAttach? || e.WorkerApply? || e.WorkerConfirm? || e.WorkerStop? || e.SlotReleased?
    ensures LeftoverInv(setup, s')
  {
    NoSubscription(setup, s);
    hide LeftoverInv;
    ElsewhereIsFrame(setup, s, e, s');
    hide Do;
    FrameKeeps(setup, s, s');
  }

  lemma SourceWriteKeeps(setup: Setup, s: State, c: Change, s': State)
    requires LeftoverInv(setup, s)
    requires DoSourceWrite(setup, s, c) == Some(s')
    ensures LeftoverInv(setup, s')
  {
    hide Of;
    var w, w' := s.source.wal, s'.source.wal;
    forall n: nat | n <= |w| ensures w'[..n] == w[..n] {
    }
    assert w'[0..0] == w[0..0];
  }

  lemma StartKeeps(setup: Setup, s: State, s': State)
    requires LeftoverInv(setup, s)
    requires DoStart(setup, s) == Some(s')
    ensures LeftoverInv(setup, s')
  {
  }

  lemma DiedKeeps(setup: Setup, s: State, p: Process, w: Wreck, s': State)
    requires LeftoverInv(setup, s) && s.proc == Some(p)
    requires Some(Died(setup, s, p, w)) == Some(s')
    ensures LeftoverInv(setup, s')
  {
  }

  lemma FinishKeeps(setup: Setup, s: State, p: Process, s': State)
    requires LeftoverInv(setup, s) && s.proc == Some(p) && p.save.NotSaving?
    requires DoFinish(s, p) == Some(s')
    ensures LeftoverInv(setup, s')
  {
  }

  lemma TmpWrittenKeeps(setup: Setup, s: State, p: Process, s': State)
    requires LeftoverInv(setup, s) && s.proc == Some(p)
    requires DoTmpWritten(s, p) == Some(s')
    ensures LeftoverInv(setup, s')
  {
  }

  lemma TokenRenamedKeeps(setup: Setup, s: State, p: Process, s': State)
    requires LeftoverInv(setup, s) && s.proc == Some(p)
    requires DoTokenRenamed(s, p) == Some(s')
    ensures LeftoverInv(setup, s')
  {
  }

  lemma SaveFailedKeeps(setup: Setup, s: State, p: Process, s': State)
    requires LeftoverInv(setup, s) && s.proc == Some(p)
    requires DoSaveFailed(s, p) == Some(s')
    ensures LeftoverInv(setup, s')
  {
  }

  lemma VacuumKeeps(setup: Setup, s: State, p: Process, ok: bool, s': State)
    requires LeftoverInv(setup, s) && s.proc == Some(p) && p.save.NotSaving?
    requires DoVacuum(setup, s, p, ok) == Some(s')
    ensures LeftoverInv(setup, s')
  {
  }

  lemma PlanKeeps(setup: Setup, s: State, p: Process, plan: set<Table>, s': State)
    requires LeftoverInv(setup, s) && s.proc == Some(p) && p.save.NotSaving?
    requires DoPlan(setup, s, p, plan) == Some(s')
    ensures LeftoverInv(setup, s')
  {
  }

  lemma DumpKeeps(setup: Setup, s: State, p: Process, s': State)
    requires LeftoverInv(setup, s) && s.proc == Some(p) && p.save.NotSaving?
    requires DoDump(setup, s, p) == Some(s')
    ensures LeftoverInv(setup, s')
  {
  }

  lemma RestoreAllKeeps(setup: Setup, s: State, p: Process, s': State)
    requires LeftoverInv(setup, s) && s.proc == Some(p) && p.save.NotSaving?
    requires DoRestoreAll(setup, s, p) == Some(s')
    ensures LeftoverInv(setup, s')
  {
    hide Of;
  }

  lemma PreDataKeeps(setup: Setup, s: State, p: Process, s': State)
    requires LeftoverInv(setup, s) && s.proc == Some(p) && p.save.NotSaving?
    requires DoPreData(setup, s, p) == Some(s')
    ensures LeftoverInv(setup, s')
  {
  }

  lemma DataKeeps(setup: Setup, s: State, p: Process, s': State)
    requires LeftoverInv(setup, s) && s.proc == Some(p) && p.save.NotSaving?
    requires DoData(setup, s, p) == Some(s')
    ensures LeftoverInv(setup, s')
  {
  }

  lemma SplitCopyKeeps(setup: Setup, s: State, p: Process, s': State)
    requires LeftoverInv(setup, s) && s.proc == Some(p) && p.save.NotSaving?
    requires DoSplitCopy(setup, s, p) == Some(s')
    ensures LeftoverInv(setup, s')
  {
  }

  lemma PostDataKeeps(setup: Setup, s: State, p: Process, s': State)
    requires LeftoverInv(setup, s) && s.proc == Some(p) && p.save.NotSaving?
    requires DoPostData(s, p) == Some(s')
    ensures LeftoverInv(setup, s')
  {
  }

  lemma RestoreMarkedKeeps(setup: Setup, s: State, p: Process, s': State)
    requires LeftoverInv(setup, s) && s.proc == Some(p) && p.save.NotSaving?
    requires DoRestoreMarked(setup, s, p) == Some(s')
    ensures LeftoverInv(setup, s')
  {
  }

  lemma AnalyzeKeeps(setup: Setup, s: State, p: Process, ok: bool, s': State)
    requires LeftoverInv(setup, s) && s.proc == Some(p) && p.save.NotSaving?
    requires DoAnalyze(setup, s, p, ok) == Some(s')
    ensures LeftoverInv(setup, s')
  {
  }

  lemma VerifyKeeps(setup: Setup, s: State, p: Process, s': State)
    requires LeftoverInv(setup, s) && s.proc == Some(p) && p.save.NotSaving?
    requires DoVerify(s, p) == Some(s')
    ensures LeftoverInv(setup, s')
  {
  }

  lemma StageKeeps(setup: Setup, s: State, p: Process, e: Event, s': State)
    requires LeftoverInv(setup, s) && s.proc == Some(p) && p.save.NotSaving?
    requires DoStageEffect(setup, s, p, e) == Some(s')
    ensures LeftoverInv(setup, s')
  {
    hide LeftoverInv, DoApplyEffect, DoVacuum, DoPublication, DoSlot, DoPlan, DoDump, DoRestoreAll, DoPreData, DoData,
      DoSplitCopy, DoPostData, DoRestoreMarked, DoAnalyze, DoVerify, DoFinish;
    match e
    case VacuumDone(ok) => VacuumKeeps(setup, s, p, ok, s');
    case PlanDone(plan) => PlanKeeps(setup, s, p, plan, s');
    case DumpDone => DumpKeeps(setup, s, p, s');
    case RestoreAllDone => RestoreAllKeeps(setup, s, p, s');
    case PreDataDone => PreDataKeeps(setup, s, p, s');
    case DataDone => DataKeeps(setup, s, p, s');
    case SplitCopyDone => SplitCopyKeeps(setup, s, p, s');
    case PostDataDone => PostDataKeeps(setup, s, p, s');
    case RestoreMarked => RestoreMarkedKeeps(setup, s, p, s');
    case AnalyzeDone(ok) => AnalyzeKeeps(setup, s, p, ok, s');
    case VerifyDone => VerifyKeeps(setup, s, p, s');
    case Finish => FinishKeeps(setup, s, p, s');
    case _ =>
      OnlineEffect(setup, s, p, e);
      assert false;
  }

  /** Offline the other effects do not occur. */
  lemma OnlineEffect(setup: Setup, s: State, p: Process, e: Event)
    requires LeftoverInv(setup, s) && s.proc == Some(p)
    requires !(e.Finish? || e.VacuumDone? || e.PlanDone? || e.DumpDone? || e.RestoreAllDone? || e.PreDataDone?
               || e.DataDone? || e.SplitCopyDone? || e.PostDataDone? || e.RestoreMarked? || e.AnalyzeDone? || e.VerifyDone?)
    ensures DoStageEffect(setup, s, p, e).None?
  {
    OfflinePc(setup, s, p);
    hide LeftoverInv, DoApplyEffect;
    ApplyEffect(setup, s, p, e);
  }

  lemma ApplyEffect(setup: Setup, s: State, p: Process, e: Event)
    requires s.proc == Some(p)
    requires p.at.AtVacuum? || p.at.AtSplitPlan? || p.at.AtDump? || Restoring(p.at) || p.at.AtRestored?
             || p.at.AtAnalyze? || p.at.AtVerify? || p.at.AtComplete?
    ensures DoApplyEffect(setup, s, p, e).None?
  {
  }

  lemma OfflinePc(setup: Setup, s: State, p: Process)
    requires LeftoverInv(setup, s) && s.proc == Some(p)
    ensures p.at.AtVacuum? || p.at.AtSplitPlan? || p.at.AtDump? || Restoring(p.at) || p.at.AtRestored?
            || p.at.AtAnalyze? || p.at.AtVerify? || p.at.AtComplete?
  {
  }

  lemma StepKeeps(setup: Setup, s: State, e: Event, s': State)
    requires LeftoverInv(setup, s) && Do(setup, s, e) == Some(s')
    ensures LeftoverInv(setup, s')
  {
    hide LeftoverInv, DoStageEffect, Died, DoTmpWritten, DoTokenRenamed, DoSaveFailed, DoStart, DoSourceWrite;
    match e
    case Start => StartKeeps(setup, s, s');
    case SourceWrite(c) => SourceWriteKeeps(setup, s, c, s');
    case WorkerAttach => ElsewhereKeeps(setup, s, e, s');
    case WorkerApply => ElsewhereKeeps(setup, s, e, s');
    case WorkerConfirm(_) => ElsewhereKeeps(setup, s, e, s');
    case WorkerStop => ElsewhereKeeps(setup, s, e, s');
    case SlotReleased => ElsewhereKeeps(setup, s, e, s');
    case Die(w) => DiedKeeps(setup, s, s.proc.value, w, s');
    case TmpWritten => TmpWrittenKeeps(setup, s, s.proc.value, s');
    case TokenRenamed => TokenRenamedKeeps(setup, s, s.proc.value, s');
    case SaveFailed => SaveFailedKeeps(setup, s, s.proc.value, s');
    case _ => StageKeeps(setup, s, s.proc.value, e, s');
  }

  lemma {:induction false} RunKeeps(setup: Setup, s: State, es: seq<Event>, s': State)
    requires LeftoverInv(setup, s) && Run(setup, s, es) == Some(s')
    ensures LeftoverInv(setup, s')
  {
    hide LeftoverInv, Do;
    if es == [] {
    } else {
      var m := Run(setup, s, es[..|es| - 1]).value;
      RunKeeps(setup, s, es[..|es| - 1], m);
      StepKeeps(setup, m, es[|es| - 1], s');
    }
  }

  // --------------------------------------------------------------------- result

  /** A leftover is harmless, over all histories, exactly when it is not misleading: this is
      what an operator can check before the first run. */
  lemma ExactIffNotMisled(setup: Setup, token: FileContent, archive: Option<Archive>, t: Table)
    requires Resumable(setup) && setup.config.mode.Offline? && !setup.config.scope.DataOnly? && t in setup.tables
    ensures AlwaysExact(setup, token, archive) <==> !Misleading(setup, token, archive)
  {
    if Misleading(setup, token, archive) {
      if token.token.Has(Restore) {
        RestoreIsSkipped(setup, token.token, archive, t);
      } else {
        OldArchiveIsRestored(setup, token.token, archive.value, t);
      }
    } else {
      forall init, es, s |
        && InitOn(setup, init, token, archive) && Run(setup, init, es) == Some(s)
        && s.proc.Some? && s.proc.value.at.AtComplete?
        ensures Exact(setup, s)
      {
        RunKeeps(setup, init, es, s);
      }
    }
  }

  /** In particular, a token alone misleads exactly when it is accepted and records a
      restore, and an archive adds the tokens that record a dump. */
  lemma ArchiveMatters(setup: Setup, stale: TokenData, archive: Archive, t: Table)
    requires Resumable(setup) && setup.config.mode.Offline? && !setup.config.scope.DataOnly? && t in setup.tables
    ensures AlwaysExact(setup, Whole(stale), None) <==>
            !(Compatible(stale, setup.config) && stale.Has(Restore))
    ensures AlwaysExact(setup, Whole(stale), None) && !AlwaysExact(setup, Whole(stale), Some(archive)) <==>
            Compatible(stale, setup.config) && stale.Has(Stage.Dump) && !stale.Has(Restore)
  {
    ExactIffNotMisled(setup, Whole(stale), None, t);
    ExactIffNotMisled(setup, Whole(stale), Some(archive), t);
  }

  // ---------------------------------------------------------------- failing runs

  /** A source with `n` rows in `t`, an empty target, and the leftovers. */
  function Found(setup: Setup, n: nat, t: Table, stale: TokenData, archive: Option<Archive>): State {
    Fresh(setup, seq(n, _ => Change(t, "row")), map[]).(disk := Disk(Whole(stale), Missing, archive))
  }

  /** The first run dies before its first save, and the second starts from the old token. */
  lemma StartedOver(setup: Setup, n: nat, t: Table, stale: TokenData, archive: Option<Archive>)
    returns (es: seq<Event>, s: State)
    requires Resumable(setup) && setup.config.mode.Offline? && Compatible(stale, setup.config)
    ensures Run(setup, Found(setup, n, t, stale, archive), es) == Some(s)
    ensures s.proc == Some(Process(DumpPc(setup, stale), NotSaving, true, stale, None, None, StillRunning))
    ensures s.source.wal == Found(setup, n, t, stale, archive).source.wal && s.target.tables == map[]
    ensures s.disk.archive == archive && s.history.dumps == {}
  {
    hide Run;
    var init := Found(setup, n, t, stale, archive);
    Nothing(setup, init);
    es, s := Then(setup, init, [], init, Start);
    es, s := Dies(setup, init, es, s);
    es, s := Begun(setup, init, es, s);
    es, s := Then(setup, init, es, s, PlanDone({}));
  }

  lemma RestoreIsSkipped(setup: Setup, stale: TokenData, archive: Option<Archive>, t: Table)
    requires Resumable(setup) && setup.config.mode.Offline? && t in setup.tables
    requires Compatible(stale, setup.config) && stale.Has(Restore)
    ensures !AlwaysExact(setup, Whole(stale), archive)
  {
    hide Run, Do;
    var init := Found(setup, 0, t, stale, archive);
    var es, s := StartedOver(setup, 0, t, stale, archive);
    es, s := CompletesEmpty(setup, init, es, s);
    assert InitOn(setup, init, Whole(stale), archive);
    assert !Exact(setup, s);
  }

  lemma CompletesEmpty(setup: Setup, init: State, es: seq<Event>, s: State) returns (es': seq<Event>, s': State)
    requires Run(setup, init, es) == Some(s) && setup.config.mode.Offline? && s.target.tables == map[]
    requires s.proc.Some? && Waiting(s, DumpPc(setup, s.proc.value.token)) && s.proc.value.token.Has(Restore)
    ensures Run(setup, init, es') == Some(s') && s'.target.tables == map[]
    ensures s'.proc.Some? && s'.proc.value.at.AtComplete?
  {
    hide Run;
    es', s' := es, s;
    if s'.proc.value.at.AtDump? {
      es', s' := Then(setup, init, es', s', DumpDone);
      es', s' := Saved(setup, init, es', s');
    }
    es', s' := AfterRestore(setup, init, es', s');
  }

  lemma AfterRestore(setup: Setup, init: State, es: seq<Event>, s: State) returns (es': seq<Event>, s': State)
    requires Run(setup, init, es) == Some(s) && setup.config.mode.Offline?
    requires Waiting(s, AtAnalyze) || Waiting(s, AtVerify)
    ensures Run(setup, init, es') == Some(s')
    ensures s' == s.(proc := Some(s.proc.value.(at := AtComplete)))
  {
    hide Run;
    es', s' := es, s;
    if s'.proc.value.at.AtAnalyze? {
      es', s' := Then(setup, init, es', s', AnalyzeDone(false));
    }
    es', s' := Then(setup, init, es', s', VerifyDone);
  }

  lemma OldArchiveIsRestored(setup: Setup, stale: TokenData, archive: Archive, t: Table)
    requires Resumable(setup) && setup.config.mode.Offline? && !setup.config.scope.DataOnly? && t in setup.tables
    requires Compatible(stale, setup.config) && stale.Has(Stage.Dump) && !stale.Has(Restore)
    ensures !AlwaysExact(setup, Whole(stale), Some(archive))
  {
    hide Run, Do;
    var init := Found(setup, archive.lsn, t, stale, Some(archive));
    var es, s := StartedOver(setup, archive.lsn, t, stale, Some(archive));
    es, s := Loaded(setup, init, es, s);
    es, s := ProtocolStretches.Marked(setup, init, es, s);
    es, s := Saved(setup, init, es, s);
    es, s := AfterRestore(setup, init, es, s);
    assert InitOn(setup, init, Whole(stale), Some(archive));
    assert !Exact(setup, s);
  }
}
