/** What an online migration makes of the token, the archive and the slot that an earlier one
    left behind. As offline, a first run neither reads nor removes the token, and until its
    own first save the old one is what a resumed run would find. */
module OnlineLeftover {
  import opened Prelude
  import opened Config
  import opened Resume
  import opened Protocol
  import opened ProtocolInvariant
  import opened ProtocolSteps
  import opened ProtocolStretches
  import opened ProtocolCounterexamples
  import OfflineLeftover
  import OnlineScope

  /** A fresh history, but on a disk that holds a token and an archive, and of a source with
      any slot. */
  predicate InitOn(setup: Setup, s: State, token: FileContent, archive: Option<Archive>) {
    && Init(setup, s.(source := s.source.(slot := None), disk := Disk(Missing, Missing, None)))
    && s.disk == Disk(token, Missing, archive)
  }

  /** The stages the running process, or the next one, takes to be done. */
  function Claims(setup: Setup, s: State): set<Stage> {
    if s.proc.Some? then s.proc.value.token.completed
    else if OfflineLeftover.Ours(setup, s.disk.token) then s.disk.token.token.completed
    else {}
  }

  /** The archive is one that was dumped from a slot's snapshot. */
  predicate Snapped(s: State) {
    s.disk.archive.Some? && s.disk.archive.value.snapshot.Some?
  }

  /** Whatever happens, with a restore claimed each change is there once and in order. */
  ghost predicate AlwaysExact(setup: Setup, token: FileContent, archive: Option<Archive>) {
    forall init, es, s ::
      && InitOn(setup, init, token, archive) && Run(setup, init, es) == Some(s)
      && Restore in Claims(setup, s) && Snapped(s)
      ==> OnlineScope.Exact(setup, s)
  }

  /** What makes a leftover dangerous: the token is one a resumed run accepts, and says that
      the restore is done, or that the dump is when there is an archive with a snapshot. */
  predicate Misleading(setup: Setup, token: FileContent, archive: Option<Archive>) {
    && OfflineLeftover.Ours(setup, token)
    && (token.token.Has(Restore)
        || (token.token.Has(Stage.Dump) && archive.Some? && archive.value.snapshot.Some?))
  }

  // ------------------------------------------------------------------ invariant

  /** The configurations whose histories from a clean disk are always exact. */
  predicate Keeping(setup: Setup) {
    && setup.config.mode.Online? && setup.config.scope.All? && setup.tables != {}
    && Resumable(setup)
    && !setup.config.online.dropSubscriptionOnCutover && !setup.config.dropTargetFirst
  }

  /** The tables have been created. None is ever dropped, and none created twice. */
  predicate Made(setup: Setup, s: State) {
    setup.tables <= s.target.tables.Keys
  }

  /** Nothing has been replicated, and the worker would start where the slot does. */
  predicate Poised(s: State) {
    && s.target.sub.None? && s.target.worker.None?
    && s.history.applied == s.history.slotStart <= |s.source.wal|
    && (s.source.slot.Some? ==>
          s.source.slot.value.start == s.source.slot.value.confirmed == s.history.slotStart)
  }

  /** The worker goes on, or would, where replication has come to. */
  predicate Following(s: State) {
    && s.history.slotStart <= s.history.applied <= |s.source.wal|
    && (s.source.slot.Some? ==>
          s.history.slotStart <= s.source.slot.value.confirmed <= s.history.applied)
    && match s.target.sub
       case None => s.target.worker.None? && s.history.applied == s.history.slotStart
       case Some(sub) =>
         && s.history.applied == Max(sub.origin, s.history.slotStart)
         && (s.target.worker.Some? ==> s.target.worker.value == s.history.applied)
  }

  predicate Replicated(setup: Setup, s: State) {
    && s.history.applied <= |s.source.wal|
    && forall t :: t in setup.tables ==>
         t in s.target.tables && s.target.tables[t] == Of(s.source.wal[..s.history.applied], t)
  }

  /** The archive shows the instant the slot starts at. */
  predicate Anchored(setup: Setup, s: State) {
    && Snapped(s) && s.disk.archive.value.excluded == {} && s.disk.archive.value.lsn == s.history.slotStart
    && s.history.slotStart <= |s.source.wal|
    && (!Made(setup, s) ==> Poised(s))
  }

  /** The stages `t` records were performed in this history, or cannot be built on. */
  predicate Backed(setup: Setup, s: State, t: TokenData) {
    && (t.Has(Restore) ==> t.Has(Stage.Dump) && Made(setup, s))
    && (t.Has(Stage.Dump) && Snapped(s) ==> Anchored(setup, s))
    && (t.Has(Restore) && Snapped(s) ==> Following(s) && Replicated(setup, s))
  }

  predicate StageOk(at: Pc, t: TokenData) {
    match at
    case AtVacuum => true
    case AtSplitPlan => true
    case AtPublication => !t.Has(Stage.Dump)
    case AtSlot => !t.Has(Stage.Dump)
    case AtDump => !t.Has(Stage.Dump)
    case AtRestoreAll => t.Has(Stage.Dump) && !t.Has(Restore)
    case AtPreData => t.Has(Stage.Dump) && !t.Has(Restore)
    case AtData => t.Has(Stage.Dump) && !t.Has(Restore)
    case AtPostData => t.Has(Stage.Dump) && !t.Has(Restore)
    case AtRestored => t.Has(Stage.Dump) && !t.Has(Restore)
    case AtSplitCopy => false
    case AtVerify => false
    case AtTearDetach => false
    case AtTearDrop => false
    case _ => t.Has(Restore)
  }

  /** A dump that is about to be made reads the slot's snapshot, or none. */
  predicate DumpReady(setup: Setup, s: State, p: Process) {
    (p.at.AtSplitPlan? || p.at.AtDump?) && !p.token.Has(Stage.Dump) && p.token.snapshotName.Some? ==>
      && p.held.Some? && p.held.value.lsn == s.history.slotStart <= |s.source.wal|
      && (!Made(setup, s) ==> Poised(s))
  }

  predicate Filling(setup: Setup, s: State, at: Pc) {
    && (Populating(at) ==> Made(setup, s))
    && (Populating(at) && Snapped(s) ==> Poised(s))
    && (at.AtData? && Snapped(s) ==> forall t :: t in setup.tables ==> t in s.target.tables && s.target.tables[t] == [])
    && ((at.AtPostData? || at.AtRestored?) && Snapped(s) ==> Replicated(setup, s))
  }

  predicate RunOk(setup: Setup, s: State, p: Process) {
    && Compatible(p.token, setup.config) && Backed(setup, s, p.token) && StageOk(p.at, p.token)
    && p.split.None? && DumpReady(setup, s, p) && Filling(setup, s, p.at)
    && (p.save.Renaming? ==> s.disk.tmp == Whole(p.token))
    && s.history.runs > 0
    && (OfflineLeftover.Ours(setup, s.disk.token) && s.disk.token.token.Has(Restore) ==> p.token.Has(Restore))
    && (OfflineLeftover.Ours(setup, s.disk.token) && s.disk.token.token.Has(Stage.Dump) && !p.token.Has(Stage.Dump) ==>
          !Snapped(s))
  }

  predicate LeftoverInv(setup: Setup, s: State) {
    && Keeping(setup)
    && (s.target.sub.Some? || s.target.worker.Some? ==> s.target.sub.Some? && Made(setup, s))
    && (OfflineLeftover.Ours(setup, s.disk.token) ==> Backed(setup, s, s.disk.token.token))
    && (s.history.runs == 0 ==> s.proc.None? && !Misleading(setup, s.disk.token, s.disk.archive))
    && (s.proc.Some? ==> RunOk(setup, s, s.proc.value))
  }

  // --------------------------------------------------------------------- frames

  /** Nothing that the content of the target depends on has changed. */
  predicate Frame(s: State, s': State) {
    && s'.source.wal == s.source.wal && s'.disk.archive == s.disk.archive && s'.disk.token == s.disk.token
    && s'.history.slotStart == s.history.slotStart && s'.history.applied == s.history.applied
    && s'.history.runs == s.history.runs
    && s'.target.tables == s.target.tables
    && (s'.target.sub.Some? <==> s.target.sub.Some?)
    && (s.target.sub.Some? ==> s'.target.sub.value.origin == s.target.sub.value.origin)
    && (s'.target.worker == s.target.worker || s'.target.worker.None?)
    && (s'.source.slot.Some? ==>
          && s.source.slot.Some? && s'.source.slot.value.start == s.source.slot.value.start
          && s'.source.slot.value.confirmed == s.source.slot.value.confirmed)
  }

  lemma FrameBacked(setup: Setup, s: State, s': State, t: TokenData)
    requires Frame(s, s') && Backed(setup, s, t)
    ensures Backed(setup, s', t)
  {
    hide Of;
  }

  lemma FrameFilling(setup: Setup, s: State, s': State, at: Pc)
    requires Frame(s, s') && Filling(setup, s, at)
    ensures Filling(setup, s', at)
  {
    hide Of;
  }

  /** The world moves, or the process ends. */
  lemma WorldKeeps(setup: Setup, s: State, s': State)
    requires LeftoverInv(setup, s) && Frame(s, s')
    requires s'.proc.None? || (s'.proc == s.proc && s'.disk == s.disk)
    ensures LeftoverInv(setup, s')
  {
    if OfflineLeftover.Ours(setup, s.disk.token) { FrameBacked(setup, s, s', s.disk.token.token); }
    if s'.proc.Some? {
      FrameBacked(setup, s, s', s.proc.value.token);
      FrameFilling(setup, s, s', s.proc.value.at);
    }
    hide Backed, Filling;
  }

  /** The process moves on without a change to what its token says of dump and restore. */
  predicate Onward(p: Process, p': Process) {
    && p'.token.key == p.token.key && p'.token.mode == p.token.mode
    && (p'.token.Has(Stage.Dump) <==> p.token.Has(Stage.Dump)) && (p'.token.Has(Restore) <==> p.token.Has(Restore))
    && p'.token.snapshotName == p.token.snapshotName
    && StageOk(p'.at, p'.token) && p'.split.None? && !p'.save.Renaming?
    && ((p'.at.AtSplitPlan? || p'.at.AtDump?) && !p'.token.Has(Stage.Dump) ==>
          (p.at.AtSplitPlan? || p.at.AtDump?) && p'.held == p.held)
    && (Populating(p'.at) ==> p'.at == p.at || (p.at.AtPostData? && p'.at.AtRestored?))
  }

  lemma MoveKeeps(setup: Setup, s: State, p: Process, s': State, p': Process)
    requires LeftoverInv(setup, s) && Frame(s, s') && s.proc == Some(p) && s'.proc == Some(p') && Onward(p, p')
    ensures LeftoverInv(setup, s')
  {
    if OfflineLeftover.Ours(setup, s.disk.token) { FrameBacked(setup, s, s', s.disk.token.token); }
    FrameBacked(setup, s, s', p.token);
    SameBacked(setup, s', p.token, p'.token);
    FrameFilling(setup, s, s', p.at);
    assert Filling(setup, s', p'.at);
    hide Backed, Filling;
  }

  lemma SameBacked(setup: Setup, s: State, t: TokenData, t': TokenData)
    requires Backed(setup, s, t)
    requires (t'.Has(Stage.Dump) <==> t.Has(Stage.Dump)) && (t'.Has(Restore) <==> t.Has(Restore))
    ensures Backed(setup, s, t')
  {
  }

  // ---------------------------------------------------------------------- steps

  lemma SourceWriteKeeps(setup: Setup, s: State, c: Change, s': State)
    requires LeftoverInv(setup, s) && DoSourceWrite(setup, s, c) == Some(s')
    ensures LeftoverInv(setup, s')
  {
    hide Of;
    var w, w' := s.source.wal, s'.source.wal;
    forall n: nat | n <= |w| ensures w'[..n] == w[..n] {
    }
  }

  lemma StartKeeps(setup: Setup, s: State, s': State)
    requires LeftoverInv(setup, s) && DoStart(setup, s) == Some(s')
    ensures LeftoverInv(setup, s')
  {
    hide Valid;
  }

  lemma DiedKeeps(setup: Setup, s: State, p: Process, w: Wreck, s': State)
    requires LeftoverInv(setup, s) && s.proc == Some(p) && s' == Died(setup, s, p, w)
    ensures LeftoverInv(setup, s')
  {
    hide Of;
  }

  lemma TmpWrittenKeeps(setup: Setup, s: State, p: Process, s': State)
    requires LeftoverInv(setup, s) && s.proc == Some(p) && DoTmpWritten(s, p) == Some(s')
    ensures LeftoverInv(setup, s')
  {
    var p' := p.(save := Renaming);
    FrameBacked(setup, s, s', p.token);
    FrameFilling(setup, s, s', p.at);
    if OfflineLeftover.Ours(setup, s.disk.token) { FrameBacked(setup, s, s', s.disk.token.token); }
    hide Backed, Filling;
  }

  lemma TokenRenamedKeeps(setup: Setup, s: State, p: Process, s': State)
    requires LeftoverInv(setup, s) && s.proc == Some(p) && DoTokenRenamed(s, p) == Some(s')
    ensures LeftoverInv(setup, s')
  {
    hide Of;
  }

  lemma SaveFailedKeeps(setup: Setup, s: State, p: Process, s': State)
    requires LeftoverInv(setup, s) && s.proc == Some(p) && DoSaveFailed(s, p) == Some(s')
    ensures LeftoverInv(setup, s')
  {
    MoveKeeps(setup, s, p, s', s'.proc.value);
  }

  lemma SlotKeeps(setup: Setup, s: State, p: Process, s': State)
    requires LeftoverInv(setup, s) && s.proc == Some(p) && p.save.NotSaving? && DoSlot(s, p) == Some(s')
    ensures LeftoverInv(setup, s')
  {
    hide Of;
  }

  lemma DumpKeeps(setup: Setup, s: State, p: Process, s': State)
    requires LeftoverInv(setup, s) && s.proc == Some(p) && p.save.NotSaving? && DoDump(setup, s, p) == Some(s')
    ensures LeftoverInv(setup, s')
  {
    hide Of;
  }

  lemma RestoreAllKeeps(setup: Setup, s: State, p: Process, s': State)
    requires LeftoverInv(setup, s) && s.proc == Some(p) && p.save.NotSaving? && DoRestoreAll(setup, s, p) == Some(s')
    ensures LeftoverInv(setup, s')
  {
    hide Of;
  }

  lemma PreDataKeeps(setup: Setup, s: State, p: Process, s': State)
    requires LeftoverInv(setup, s) && s.proc == Some(p) && p.save.NotSaving? && DoPreData(setup, s, p) == Some(s')
    ensures LeftoverInv(setup, s')
  {
    hide Of;
  }

  lemma DataKeeps(setup: Setup, s: State, p: Process, s': State)
    requires LeftoverInv(setup, s) && s.proc == Some(p) && p.save.NotSaving? && DoData(setup, s, p) == Some(s')
    ensures LeftoverInv(setup, s')
  {
    hide Of;
  }

  lemma RestoreMarkedKeeps(setup: Setup, s: State, p: Process, s': State)
    requires LeftoverInv(setup, s) && s.proc == Some(p) && p.save.NotSaving? && DoRestoreMarked(setup, s, p) == Some(s')
    ensures LeftoverInv(setup, s')
  {
    hide Of;
  }

  lemma AttachKeeps(setup: Setup, s: State, p: Process, s': State)
    requires LeftoverInv(setup, s) && s.proc == Some(p) && p.save.NotSaving? && DoAttach(s, p) == Some(s')
    ensures LeftoverInv(setup, s')
  {
    hide Of;
  }

  lemma WorkerAttachKeeps(setup: Setup, s: State, s': State)
    requires LeftoverInv(setup, s) && DoWorkerAttach(s) == Some(s')
    ensures LeftoverInv(setup, s')
  {
    hide Of;
  }

  lemma WorkerApplyKeeps(setup: Setup, s: State, s': State)
    requires LeftoverInv(setup, s) && DoWorkerApply(s) == Some(s')
    ensures LeftoverInv(setup, s')
  {
    var w, n := s.source.wal, s'.history.applied;
    forall t | t in setup.tables && 0 < n <= |w|
      ensures Of(w[..n], t) == Of(w[..n - 1], t) + if w[n - 1].table == t then [w[n - 1]] else []
    {
      assert w[0..n] == w[..n] && w[0..n - 1] == w[..n - 1];
      OfNext(w, 0, n - 1, t);
    }
    hide Of;
  }

  lemma WorkerConfirmKeeps(setup: Setup, s: State, n: nat, s': State)
    requires LeftoverInv(setup, s) && DoWorkerConfirm(s, n) == Some(s')
    ensures LeftoverInv(setup, s')
  {
    hide Of;
  }

  /** Where a process stands, and what a kept configuration rules out. */
  lemma Standing(setup: Setup, s: State, p: Process)
    requires LeftoverInv(setup, s) && s.proc == Some(p)
    ensures StageOk(p.at, p.token) && p.split.None? && setup.config.splitTablesLargerThan.None?
    ensures p.token.Has(Restore) ==> p.token.Has(Stage.Dump)
    ensures setup.config.mode.Online? && !setup.config.online.dropSubscriptionOnCutover
  {
  }

  // Events that only move the process on.

  predicate EarlyMove(e: Event) {
    e.VacuumDone? || e.PublicationDone?
  }

  lemma EarlyMoves(setup: Setup, s: State, p: Process, e: Event, s': State)
    requires s.proc == Some(p) && p.save.NotSaving? && EarlyMove(e) && DoStageEffect(setup, s, p, e) == Some(s')
    requires StageOk(p.at, p.token) && p.split.None?
    requires (p.token.Has(Restore) ==> p.token.Has(Stage.Dump)) && setup.config.mode.Online?
    ensures Frame(s, s') && s'.proc.Some? && Onward(p, s'.proc.value)
  {
  }

  predicate MiddleMove(e: Event) {
    e.PlanDone? || e.PostDataDone? || e.AnalyzeDone?
  }

  lemma MiddleMoves(setup: Setup, s: State, p: Process, e: Event, s': State)
    requires s.proc == Some(p) && p.save.NotSaving? && MiddleMove(e) && DoStageEffect(setup, s, p, e) == Some(s')
    requires StageOk(p.at, p.token) && p.split.None?
    requires setup.config.splitTablesLargerThan.None? && setup.config.mode.Online?
    ensures Frame(s, s') && s'.proc.Some? && Onward(p, s'.proc.value)
  {
  }

  predicate ReleaseMove(e: Event) {
    e.StreamDropped? || e.DisableDone? || e.SlotIdle?
  }

  lemma ReleaseMoves(setup: Setup, s: State, p: Process, e: Event, s': State)
    requires s.proc == Some(p) && p.save.NotSaving? && ReleaseMove(e) && DoApplyEffect(setup, s, p, e) == Some(s')
    requires StageOk(p.at, p.token) && p.split.None?
    ensures Frame(s, s') && s'.proc.Some? && Onward(p, s'.proc.value)
  {
  }

  predicate LoopMove(e: Event) {
    e.LoopEnded? || e.TearDisabled? || e.CleanupWaited? || e.SlotDropped?
  }

  lemma LoopMoves(setup: Setup, s: State, p: Process, e: Event, s': State)
    requires s.proc == Some(p) && p.save.NotSaving? && LoopMove(e) && DoApplyEffect(setup, s, p, e) == Some(s')
    requires StageOk(p.at, p.token) && p.split.None? && !setup.config.online.dropSubscriptionOnCutover
    ensures Frame(s, s') && s'.proc.Some? && Onward(p, s'.proc.value)
  {
  }

  predicate CutoverMove(e: Event) {
    e.LoopReported? || e.SequencesDone? || e.PublicationDropped?
  }

  lemma CutoverMoves(setup: Setup, s: State, p: Process, e: Event, s': State)
    requires s.proc == Some(p) && p.save.NotSaving? && CutoverMove(e) && DoApplyEffect(setup, s, p, e) == Some(s')
    requires StageOk(p.at, p.token) && p.split.None?
    ensures Frame(s, s') && s'.proc.Some? && Onward(p, s'.proc.value)
  {
  }

  lemma ApplyMoves(setup: Setup, s: State, p: Process, e: Event, s': State)
    requires s.proc == Some(p) && p.save.NotSaving? && DoApplyEffect(setup, s, p, e) == Some(s')
    requires StageOk(p.at, p.token) && p.split.None? && !setup.config.online.dropSubscriptionOnCutover
    requires !e.Attached? && !e.TearDetached? && !e.TearDropped?
    ensures Frame(s, s') && s'.proc.Some? && Onward(p, s'.proc.value)
  {
    assert ReleaseMove(e) || LoopMove(e) || CutoverMove(e);
    hide DoApplyEffect, Frame, Onward;
    if ReleaseMove(e) {
      ReleaseMoves(setup, s, p, e, s');
    } else if LoopMove(e) {
      LoopMoves(setup, s, p, e, s');
    } else {
      CutoverMoves(setup, s, p, e, s');
    }
  }

  lemma ApplyKeeps(setup: Setup, s: State, p: Process, e: Event, s': State)
    requires LeftoverInv(setup, s) && s.proc == Some(p) && p.save.NotSaving?
    requires DoApplyEffect(setup, s, p, e) == Some(s')
    ensures LeftoverInv(setup, s')
  {
    Standing(setup, s, p);
    hide LeftoverInv;
    if e.Attached? {
      AttachKeeps(setup, s, p, s');
    } else if e.TearDetached? || e.TearDropped? {
      assert false;
    } else {
      ApplyMoves(setup, s, p, e, s');
      hide DoApplyEffect;
      MoveKeeps(setup, s, p, s', s'.proc.value);
    }
  }

  lemma EffectKeeps(setup: Setup, s: State, p: Process, e: Event, s': State)
    requires LeftoverInv(setup, s) && s.proc == Some(p) && p.save.NotSaving?
    requires DoStageEffect(setup, s, p, e) == Some(s')
    ensures LeftoverInv(setup, s')
  {
    Standing(setup, s, p);
    hide LeftoverInv, DoStageEffect, Frame, Onward;
    if EarlyMove(e) || MiddleMove(e) {
      if EarlyMove(e) {
        EarlyMoves(setup, s, p, e, s');
      } else {
        MiddleMoves(setup, s, p, e, s');
      }
      MoveKeeps(setup, s, p, s', s'.proc.value);
    } else if e.Finish? {
      Finishes(setup, s, p, s');
      WorldKeeps(setup, s, s');
    } else {
      ChangeKeeps(setup, s, p, e, s');
    }
  }

  lemma Finishes(setup: Setup, s: State, p: Process, s': State)
    requires s.proc == Some(p) && DoStageEffect(setup, s, p, Finish) == Some(s')
    ensures Frame(s, s') && s'.proc.None?
  {
  }

  lemma ChangeKeeps(setup: Setup, s: State, p: Process, e: Event, s': State)
    requires LeftoverInv(setup, s) && s.proc == Some(p) && p.save.NotSaving?
    requires !EarlyMove(e) && !MiddleMove(e) && !e.Finish? && DoStageEffect(setup, s, p, e) == Some(s')
    ensures LeftoverInv(setup, s')
  {
    Standing(setup, s, p);
    hide LeftoverInv, DoApplyEffect, DoSlot, DoDump, DoRestoreAll, DoPreData, DoData, DoRestoreMarked;
    match e
    case SlotDone => SlotKeeps(setup, s, p, s');
    case DumpDone => DumpKeeps(setup, s, p, s');
    case RestoreAllDone => RestoreAllKeeps(setup, s, p, s');
    case PreDataDone => PreDataKeeps(setup, s, p, s');
    case DataDone => DataKeeps(setup, s, p, s');
    case RestoreMarked => RestoreMarkedKeeps(setup, s, p, s');
    case SplitCopyDone => assert false;
    case VerifyDone => assert false;
    case _ => ApplyKeeps(setup, s, p, e, s');
  }

  lemma StepKeeps(setup: Setup, s: State, e: Event, s': State)
    requires LeftoverInv(setup, s) && Do(setup, s, e) == Some(s')
    ensures LeftoverInv(setup, s')
  {
    hide LeftoverInv, DoStageEffect, Died, DoTmpWritten, DoTokenRenamed, DoSaveFailed, DoStart, DoSourceWrite,
         DoWorkerAttach, DoWorkerApply, DoWorkerConfirm;
    match e
    case Start => StartKeeps(setup, s, s');
    case SourceWrite(c) => SourceWriteKeeps(setup, s, c, s');
    case WorkerAttach => WorkerAttachKeeps(setup, s, s');
    case WorkerApply => WorkerApplyKeeps(setup, s, s');
    case WorkerConfirm(n) => WorkerConfirmKeeps(setup, s, n, s');
    case WorkerStop => WorldKeeps(setup, s, s');
    case SlotReleased => WorldKeeps(setup, s, s');
    case Die(w) => DiedKeeps(setup, s, s.proc.value, w, s');
    case TmpWritten => TmpWrittenKeeps(setup, s, s.proc.value, s');
    case TokenRenamed => TokenRenamedKeeps(setup, s, s.proc.value, s');
    case SaveFailed => SaveFailedKeeps(setup, s, s.proc.value, s');
    case _ => EffectKeeps(setup, s, s.proc.value, e, s');
  }

  lemma {:induction false} RunKeeps(setup: Setup, s: State, es: seq<Event>, s': State)
    requires LeftoverInv(setup, s) && Run(setup, s, es) == Some(s')
    ensures LeftoverInv(setup, s')
  {
    hide LeftoverInv, Do;
    if es == [] {
    } else {
      var m := Run(setup, s, es[..|es| - 1]).value;
      RunKeeps(setup, s, es[..|es| - 1], m);
      StepKeeps(setup, m, es[|es| - 1], s');
    }
  }

  // --------------------------------------------------------------------- result

  /** For a configuration that is always exact from a clean disk, a leftover is harmless,
      over all histories and whatever slot is there, exactly when it is not misleading. */
  lemma ExactIffNotMisled(setup: Setup, token: FileContent, archive: Option<Archive>, t: Table)
    requires Ordinary(setup, t)
    requires !setup.config.online.dropSubscriptionOnCutover && !setup.config.dropTargetFirst
    ensures AlwaysExact(setup, token, archive) <==> !Misleading(setup, token, archive)
  {
    hide Run, Do, Valid;
    if Misleading(setup, token, archive) {
      if token.token.Has(Restore) {
        RestoreIsSkipped(setup, token.token, archive, t);
      } else {
        OldArchiveIsRestored(setup, token.token, archive.value, t);
      }
    } else {
      forall init, es, s |
        && InitOn(setup, init, token, archive) && Run(setup, init, es) == Some(s)
        && Restore in Claims(setup, s) && Snapped(s)
        ensures OnlineScope.Exact(setup, s)
      {
        StartsWell(setup, init, token, archive);
        RunKeeps(setup, init, es, s);
      }
    }
  }

  lemma StartsWell(setup: Setup, s: State, token: FileContent, archive: Option<Archive>)
    requires Keeping(setup) && InitOn(setup, s, token, archive) && !Misleading(setup, token, archive)
    ensures LeftoverInv(setup, s)
  {
  }

  // ---------------------------------------------------------------- failing runs

  /** A source with `n` rows in `t` and no slot, an empty target, and the leftovers. */
  function FoundOn(setup: Setup, n: nat, t: Table, stale: TokenData, archive: Option<Archive>): State {
    Fresh(setup, seq(n, _ => Change(t, "row")), map[]).(disk := Disk(Whole(stale), Missing, archive))
  }

  /** The first run has created its slot, and no save of its token got through. */
  lemma SlotUnrecorded(setup: Setup, n: nat, t: Table, stale: TokenData, archive: Option<Archive>)
    returns (es: seq<Event>, s: State)
    requires Ordinary(setup, t)
    ensures Run(setup, FoundOn(setup, n, t, stale, archive), es) == Some(s)
    ensures Waiting(s, AtSplitPlan)
    ensures s.proc.value.token == FirstToken(setup).Marked(PrepareSnapshot).(snapshotName := Some(0))
    ensures s.proc.value.held == Some(Snapshot(0, n)) && s.history.runs == 1 && s.history.applied == n
    ensures s.source.wal == FoundOn(setup, n, t, stale, archive).source.wal && s.target == Target(map[], None, None)
    ensures s.disk.token == Whole(stale) && s.disk.archive == archive
  {
    hide Run;
    var init := FoundOn(setup, n, t, stale, archive);
    Nothing(setup, init);
    es, s := Begun(setup, init, [], init);
    es, s := Then(setup, init, es, s, PublicationDone);
    if !setup.publicationBefore {
      es, s := NotSaved(setup, init, es, s);
    }
    es, s := Then(setup, init, es, s, SlotDone);
    es, s := NotSaved(setup, init, es, s);
  }

  /** The next run takes the old token for its own. */
  lemma TakenOver(setup: Setup, init: State, es: seq<Event>, s: State, stale: TokenData)
    returns (es': seq<Event>, s': State)
    requires Run(setup, init, es) == Some(s) && s.proc.Some? && s.history.runs > 0
    requires s.proc.value.save.NotSaving? ==> !Restoring(s.proc.value.at)
    requires Valid(setup.config.(resume := true)) && setup.config.mode.Online?
    requires s.disk.token == Whole(stale) && Compatible(stale, setup.config)
    ensures Run(setup, init, es') == Some(s')
    ensures Waiting(s', PreparePc(setup, stale)) && s'.proc.value.token == stale
    ensures s'.source == s.source && s'.target == s.target && s'.disk == s.disk
    ensures s'.history.applied == s.history.applied
  {
    hide Run;
    es', s' := Dies(setup, init, es, s);
    es', s' := Begun(setup, init, es', s');
  }

  lemma RestoreIsSkipped(setup: Setup, stale: TokenData, archive: Option<Archive>, t: Table)
    requires Ordinary(setup, t) && Compatible(stale, setup.config) && stale.Has(Restore)
    ensures !AlwaysExact(setup, Whole(stale), archive)
  {
    hide Run, Do, Valid;
    var init := FoundOn(setup, 1, t, stale, archive);
    var es, s := SlotUnrecorded(setup, 1, t, stale, archive);
    es, s := Dumped(setup, init, es, s);
    es, s := TakenOver(setup, init, es, s, stale);
    assert InitOn(setup, init, Whole(stale), archive);
    assert Restore in Claims(setup, s) && Snapped(s) && t !in s.target.tables;
  }

  lemma OldArchiveIsRestored(setup: Setup, stale: TokenData, archive: Archive, t: Table)
    requires Ordinary(setup, t) && Compatible(stale, setup.config)
    requires stale.Has(Stage.Dump) && !stale.Has(Restore) && archive.snapshot.Some?
    ensures !AlwaysExact(setup, Whole(stale), Some(archive))
  {
    hide Run, Do, Valid, Of, OnlineScope.Exact;
    var init := FoundOn(setup, archive.lsn + 1, t, stale, Some(archive));
    var es, s := OldRowsOnly(setup, stale, archive, t);
    AllRows(s.source.wal, t);
    FallsShort(setup, s, t);
    assert InitOn(setup, init, Whole(stale), Some(archive));
  }

  lemma FallsShort(setup: Setup, s: State, t: Table)
    requires t in setup.tables && t in s.target.tables && |s.target.tables[t]| < |s.source.wal| == s.history.applied
    requires Of(s.source.wal, t) == s.source.wal
    ensures !OnlineScope.Exact(setup, s)
  {
    hide Of;
    assert s.source.wal[..s.history.applied] == s.source.wal;
  }

  /** The old archive has been restored; the slot starts after what it holds. */
  lemma OldRowsOnly(setup: Setup, stale: TokenData, archive: Archive, t: Table) returns (es: seq<Event>, s: State)
    requires Ordinary(setup, t) && Compatible(stale, setup.config)
    requires stale.Has(Stage.Dump) && !stale.Has(Restore)
    ensures var init := FoundOn(setup, archive.lsn + 1, t, stale, Some(archive));
            Run(setup, init, es) == Some(s) && s.source.wal == init.source.wal
    ensures Restore in Claims(setup, s) && s.disk.archive == Some(archive)
    ensures s.history.applied == |s.source.wal| && t in s.target.tables && |s.target.tables[t]| < |s.source.wal|
  {
    hide Run, Do, Valid, Of, Data, PreData, PreDataSucceeds, DataSucceeds;
    var n := archive.lsn + 1;
    var init := FoundOn(setup, n, t, stale, Some(archive));
    es, s := SlotUnrecorded(setup, n, t, stale, Some(archive));
    es, s := TakenOver(setup, init, es, s, stale);
    es, s := NothingPlanned(setup, init, es, s);
    OldRows(setup, s.source.wal, archive, t);
    es, s := Loaded(setup, init, es, s);
    es, s := ProtocolStretches.Marked(setup, init, es, s);
  }

  lemma OldRows(setup: Setup, wal: Wal, a: Archive, t: Table)
    requires setup.config.scope.All? && t in setup.tables && a.lsn < |wal|
    requires forall c :: c in wal ==> c.table == t
    ensures PreDataSucceeds(setup, map[]) && DataSucceeds(setup, PreData(setup, map[]))
    ensures var loaded := Data(setup, wal, a, PreData(setup, map[])); t in loaded && |loaded[t]| <= a.lsn
  {
    AllRows(wal[..a.lsn], t);
    hide Of;
  }

  lemma NothingPlanned(setup: Setup, init: State, es: seq<Event>, s: State) returns (es': seq<Event>, s': State)
    requires Run(setup, init, es) == Some(s) && Waiting(s, AtSplitPlan)
    ensures Run(setup, init, es') == Some(s')
    ensures s' == s.(proc := Some(s.proc.value.(at := DumpPc(setup, s.proc.value.token))))
  {
    hide Run;
    es', s' := Then(setup, init, es, s, PlanDone({}));
  }

  lemma {:induction false} AllRows(w: Wal, t: Table)
    requires forall c :: c in w ==> c.table == t
    ensures Of(w, t) == w
  {
    if w == [] {
    } else {
      assert w[|w| - 1] in w;
      AllRows(w[..|w| - 1], t);
    }
  }
}
