/** What the protocol guarantees in every state any history can reach: after any number
    of crashes, cancellations and resumed runs, with the source being written and the
    apply worker advancing at any point in between. */
module ProtocolTheorems {
  import opened Prelude
  import opened Config
  import opened Resume
  import opened Protocol
  import opened ProtocolInvariant
  import opened ProtocolSteps

  // ------------------------------------------------------- content of the target

  /** Once the restore is recorded, and until it is forgotten or a subscription is created
      again after having been dropped, each table holds what the archive showed followed
      by the changes replicated since the slot's start, each once and in order. */
  lemma RestoredAndReplayed(setup: Setup, s: State, t: Table)
    requires Reachable(setup, s) && !s.history.forgotten && !s.history.reopened
    requires Restore in Recorded(s) && t in setup.tables && !setup.config.scope.DataOnly?
    ensures s.disk.archive.Some? && s.disk.archive.value.lsn <= |s.source.wal|
    ensures s.history.slotStart <= s.history.applied <= |s.source.wal|
    ensures t in s.target.tables
    ensures s.target.tables[t] ==
            Rows(setup, s.source.wal, s.disk.archive.value.lsn, t) +
            Of(s.source.wal[s.history.slotStart..s.history.applied], t)
    ensures s.target.sub.Some? ==> s.history.applied == Max(s.target.sub.value.origin, s.history.slotStart)
  {
    ReachableInv(setup, s);
  }

  lemma SplitWal(w: Wal, a: nat, b: nat, t: Table)
    requires a <= b <= |w|
    ensures Of(w[..b], t) == Of(w[..a], t) + Of(w[a..b], t)
  {
    assert w[..b] == w[..a] + w[a..b];
    OfAppend(w[..a], w[a..b], t);
  }

  lemma OnlineArchive(setup: Setup, s: State)
    requires Reachable(setup, s) && !s.history.forgotten && setup.config.mode.Online? && s.disk.archive.Some?
    ensures s.history.slotStart <= s.disk.archive.value.lsn <= |s.source.wal|
    ensures s.disk.archive.value.snapshot.Some? ==> s.disk.archive.value.lsn == s.history.slotStart
    ensures s.source.slot.Some? ==> s.source.slot.value.start == s.history.slotStart
  {
    ReachableInv(setup, s);
  }

  /** Exactly-once replay, and exactly when it holds: table `t` equals the source as of
      the last replicated position if and only if no change of `t` was logged between
      the start of the slot and the instant the archive shows. */
  lemma ExactlyOnceIff(setup: Setup, s: State, t: Table)
    requires Reachable(setup, s) && !s.history.forgotten && !s.history.reopened && setup.config.mode.Online?
    requires setup.config.scope.All? && Restore in Recorded(s) && t in setup.tables
    ensures s.disk.archive.Some? && s.history.slotStart <= s.disk.archive.value.lsn <= |s.source.wal|
    ensures s.history.applied <= |s.source.wal| && t in s.target.tables
    ensures s.target.tables[t] == Of(s.source.wal[..s.history.applied], t) <==>
            Of(s.source.wal[s.history.slotStart..s.disk.archive.value.lsn], t) == []
  {
    RestoredAndReplayed(setup, s, t);
    OnlineArchive(setup, s);
    var w, from := s.source.wal, s.history.slotStart;
    SplitWal(w, from, s.disk.archive.value.lsn, t);
    SplitWal(w, from, s.history.applied, t);
  }

  /** If the dump read the slot's own snapshot, every table is exact: from the moment the
      restore is recorded, over every later crash and resume, to the state the operator
      finds after the cutover. */
  lemma ExactlyOnce(setup: Setup, s: State)
    requires Reachable(setup, s) && !s.history.forgotten && !s.history.reopened && setup.config.mode.Online?
    requires setup.config.scope.All? && Restore in Recorded(s)
    requires s.disk.archive.Some? && s.disk.archive.value.snapshot.Some?
    ensures s.history.applied <= |s.source.wal|
    ensures forall t :: t in setup.tables ==>
              t in s.target.tables && s.target.tables[t] == Of(s.source.wal[..s.history.applied], t)
    ensures s.target.sub.Some? ==> s.history.applied == Max(s.target.sub.value.origin, s.history.slotStart)
  {
    ReachableInv(setup, s);
    OnlineArchive(setup, s);
    var from := s.history.slotStart;
    assert s.source.wal[from..from] == [];
    forall t | t in setup.tables
      ensures t in s.target.tables && s.target.tables[t] == Of(s.source.wal[..s.history.applied], t)
    {
      ExactlyOnceIff(setup, s, t);
    }
  }

  /** Offline, whatever was interrupted and retried on the way and whatever saves of the
      token failed: once the restore is recorded, and in particular when the run completes,
      each table holds the content of one pg_dump that finished, as after a run nobody
      interrupted. */
  lemma OfflineExact(setup: Setup, s: State)
    requires Reachable(setup, s) && setup.config.mode.Offline? && !setup.config.scope.DataOnly?
    requires Restore in Recorded(s) || (s.proc.Some? && s.proc.value.at.AtComplete?)
    ensures s.disk.archive.Some? && s.disk.archive.value.lsn in s.history.dumps
    ensures s.disk.archive.value.lsn <= |s.source.wal|
    ensures forall t :: t in setup.tables ==>
              t in s.target.tables
              && s.target.tables[t] == Rows(setup, s.source.wal, s.disk.archive.value.lsn, t)
  {
    ReachableInv(setup, s);
    OfflineNeverReopens(setup, s);
    assert s.source.wal[0..0] == [];
    forall t | t in setup.tables
      ensures t in s.target.tables
              && s.target.tables[t] == Rows(setup, s.source.wal, s.disk.archive.value.lsn, t)
    {
      RestoredAndReplayed(setup, s, t);
    }
  }

  lemma OfflineNeverReopens(setup: Setup, s: State)
    requires Reachable(setup, s) && setup.config.mode.Offline?
    ensures s.target.sub.None? && !s.history.dropped && !s.history.reopened && !s.history.forgotten
  {
    ReachableInv(setup, s);
  }

  // -------------------------------------------------------------- forgotten restores

  /** What it takes to forget a restore: a save of the token fails, no later one gets
      through, and the run ends with the subscription attached or dropped. */
  lemma ForgottenOnlyAtAnEnd(setup: Setup, s: State, e: Event, s': State)
    requires Reachable(setup, s) && Do(setup, s, e) == Some(s') && s'.history.forgotten && !s.history.forgotten
    ensures (e.Die? || e.Finish?) && s.history.saveFailed
    ensures Restore in Recorded(s) && Restore !in StagesOnDisk(s)
    ensures s.target.sub.Some? || s.history.dropped
  {
    ReachableInv(setup, s);
    OnlyEndsForget(setup, s, e, s');
    hide Do;
  }

  lemma OnlyEndsForget(setup: Setup, s: State, e: Event, s': State)
    requires Do(setup, s, e) == Some(s') && s'.history.forgotten && !s.history.forgotten
    ensures (e.Die? || e.Finish?) && s.proc.Some? && s'.proc.None? && s'.history == Ended(s).history
  {
    hide DoStageEffect;
    if s.proc.Some? && DoStageEffect(setup, s, s.proc.value, e) == Some(s') {
      StageForgetsNothing(setup, s, s.proc.value, e, s');
    }
  }

  lemma StageForgetsNothing(setup: Setup, s: State, p: Process, e: Event, s': State)
    requires s.proc == Some(p) && DoStageEffect(setup, s, p, e) == Some(s')
    ensures !e.Finish? ==> s'.history.forgotten == s.history.forgotten
    ensures e.Finish? ==> s' == Ended(s)
  {
    hide DoApplyEffect;
    if DoApplyEffect(setup, s, p, e) == Some(s') { ApplyForgetsNothing(setup, s, p, e, s'); }
  }

  lemma ApplyForgetsNothing(setup: Setup, s: State, p: Process, e: Event, s': State)
    requires s.proc == Some(p) && DoApplyEffect(setup, s, p, e) == Some(s')
    ensures s'.history.forgotten == s.history.forgotten
  {
  }

  lemma EffectStaysForgotten(setup: Setup, s: State, p: Process, e: Event, s': State)
    requires s.proc == Some(p) && DoEffect(setup, s, p, e) == Some(s') && s.history.forgotten
    ensures s'.history.forgotten
  {
    hide DoStageEffect;
    if DoStageEffect(setup, s, p, e) == Some(s') { StageForgetsNothing(setup, s, p, e, s'); }
  }

  lemma StaysForgotten(setup: Setup, s: State, e: Event, s': State)
    requires Do(setup, s, e) == Some(s') && s.history.forgotten
    ensures s'.history.forgotten
  {
    hide DoEffect, Valid, Compatible;
    if s.proc.Some? && DoEffect(setup, s, s.proc.value, e) == Some(s') {
      EffectStaysForgotten(setup, s, s.proc.value, e, s');
    }
  }

  /** Where no save has failed, no restore has been forgotten. */
  lemma ForgottenMeansFailed(setup: Setup, s: State)
    requires Reachable(setup, s) && s.history.forgotten
    ensures s.history.saveFailed
  {
    ReachableInv(setup, s);
  }

  /** Without `--drop-target-first` a forgotten restore is never repeated, as the tables
      are still there: no later run gets as far as recording one. Their rows may have been
      changed by a pg_restore before it failed. */
  lemma ForgottenIsRefused(setup: Setup, s: State)
    requires Reachable(setup, s) && s.history.forgotten
    requires !setup.config.dropTargetFirst && !setup.config.scope.DataOnly? && setup.tables != {}
    ensures Restore !in Recorded(s) && setup.tables <= s.target.tables.Keys
  {
    ReachableInv(setup, s);
  }

  /** Split-run conservation. When the restore stage of a run with a split plan has
      succeeded, on a fresh target or with `--drop-target-first`, every table holds
      exactly the rows of the one snapshot that pg_dump and the direct copy shared, and
      the archive left out exactly the planned tables. */
  lemma SplitConservation(setup: Setup, s: State)
    requires Reachable(setup, s) && s.proc.Some? && s.proc.value.at.AtRestored?
    requires s.proc.value.split.Some? && setup.config.scope.All?
    ensures var p := s.proc.value;
            && Live(p, p.split.value.snapshotId)
            && s.disk.archive.Some?
            && s.disk.archive.value.snapshot == Some(p.split.value.snapshotId)
            && s.disk.archive.value.excluded == p.split.value.plan
            && p.held.value.lsn <= |s.source.wal|
            && forall t :: t in setup.tables ==>
                 t in s.target.tables && s.target.tables[t] == Of(s.source.wal[..p.held.value.lsn], t)
  {
    ReachableInv(setup, s);
  }

  /** The two routes do not overlap: restoring the archive's data touches no planned
      table, and the direct copy touches no other. */
  lemma RoutesAreDisjoint(setup: Setup, s: State, e: Event, s': State, t: Table)
    requires Reachable(setup, s) && Do(setup, s, e) == Some(s') && (e.DataDone? || e.SplitCopyDone?)
    requires s.proc.value.split.Some? && t in s.target.tables
    ensures e.DataDone? && t in s.proc.value.split.value.plan ==>
              t in s'.target.tables && s'.target.tables[t] == s.target.tables[t]
    ensures e.SplitCopyDone? && t !in s.proc.value.split.value.plan ==>
              t in s'.target.tables && s'.target.tables[t] == s.target.tables[t]
  {
    ReachableInv(setup, s);
  }

  // ------------------------------------------------------------------ snapshots

  /** No dead snapshot is read: a snapshot id handed to pg_dump or to the direct copy is
      one this very process still holds, and both are handed the same. */
  lemma NoDeadSnapshot(setup: Setup, s: State)
    requires Reachable(setup, s) && s.proc.Some? && s.proc.value.save.NotSaving?
    ensures var p := s.proc.value;
            && (p.at.AtDump? && DumpSnapshot(setup, p).Some? ==> Live(p, DumpSnapshot(setup, p).value))
            && (p.at.AtDump? && p.split.Some? ==> DumpSnapshot(setup, p) == Some(p.split.value.snapshotId))
            && (p.at.AtSplitCopy? ==>
                  && p.split.Some? && Live(p, p.split.value.snapshotId)
                  && s.disk.archive.Some?
                  && s.disk.archive.value.snapshot == Some(p.split.value.snapshotId))
  {
    ReachableInv(setup, s);
  }

  /** A subscription is created or enabled only by a run whose token records the slot, the
      dump and the restore it continues; on disk too, unless some save has failed. */
  lemma EnabledOnlyAfterRestore(setup: Setup, s: State, e: Event, s': State)
    requires Reachable(setup, s) && Do(setup, s, e) == Some(s')
    requires Enabled(s') && !Enabled(s)
    ensures s.disk.archive.Some? && {PrepareSnapshot, Dump, Restore} <= Recorded(s) <= s.history.finished
    ensures !s.history.saveFailed ==> {PrepareSnapshot, Dump, Restore} <= StagesOnDisk(s)
  {
    hide Inv, Do;
    ReachableInv(setup, s);
    RecordedFinished(setup, s);
    StepKeeps(setup, s, e, s');
  }

  lemma RecordedFinished(setup: Setup, s: State)
    requires Inv(setup, s)
    ensures Recorded(s) <= s.history.finished
  {
  }

  // ---------------------------------------------------------------------- token

  /** The token file is absent or a whole token that some save wrote, however a crash
      fell between writing the sibling and renaming it; its stages are closed under
      "what must come before", and each of them finished earlier. */
  lemma TokenSound(setup: Setup, s: State)
    requires Reachable(setup, s)
    ensures s.disk.token.Missing? || (s.disk.token.Whole? && s.disk.token.token in s.history.saved)
    ensures var done := StagesOnDisk(s);
            && (Analyze in done ==> Restore in done)
            && (Restore in done ==> Dump in done)
            && (setup.config.mode.Online? && Dump in done ==> PrepareSnapshot in done)
            && done <= s.history.finished
            && (Dump in done ==> s.disk.archive.Some? && s.disk.archive.value.lsn in s.history.dumps)
  {
    ReachableInv(setup, s);
  }

  /** Along a chain of runs the recorded stages only grow. */
  lemma {:induction false} TokenOnlyGrows(setup: Setup, s: State, es: seq<Event>, s': State)
    requires Reachable(setup, s) && Run(setup, s, es) == Some(s')
    ensures StagesOnDisk(s) <= StagesOnDisk(s')
  {
    hide Inv, Do;
    if es == [] {
    } else {
      var m := Run(setup, s, es[..|es| - 1]).value;
      TokenOnlyGrows(setup, s, es[..|es| - 1], m);
      ReachableInv(setup, s);
      RunKeeps(setup, s, es[..|es| - 1], m);
      StepKeeps(setup, m, es[|es| - 1], s');
    }
  }

  // ------------------------------------------------------------------ lifecycle

  /** Slot, subscription and publication disappear only in a run that left its loop by
      cutover; the slot only while nobody is connected to it, the publication only if
      the migration itself had created it. */
  lemma DroppedOnlyAfterCutover(setup: Setup, s: State, e: Event, s': State)
    requires Reachable(setup, s) && Do(setup, s, e) == Some(s')
    ensures s.source.slot.Some? && s'.source.slot.None? ==>
              !s.source.slot.value.active && s.proc.Some? && s.proc.value.exit.ByCutover?
    ensures s.target.sub.Some? && s'.target.sub.None? ==>
              s.proc.Some? && s.proc.value.exit.ByCutover?
    ensures s.source.publication && !s'.source.publication ==>
              && s.proc.Some? && s.proc.value.exit.ByCutover?
              && s.proc.value.token.pubAutoCreated && !setup.publicationBefore
  {
    hide Inv, Do;
    ReachableInv(setup, s);
    StepKeeps(setup, s, e, s');
  }

  /** A publication that was there before the migration survives every history. */
  lemma PublicationSurvives(setup: Setup, s: State)
    requires Reachable(setup, s) && setup.publicationBefore
    ensures s.source.publication
    ensures s.disk.token.Whole? ==> !s.disk.token.token.pubAutoCreated
  {
    ReachableInv(setup, s);
  }

  lemma LoopEffect(setup: Setup, s: State, p: Process, e: Event, s': State)
    requires s.proc == Some(p) && p.at.AtApply? && !p.exit.ByCutover?
    requires DoStageEffect(setup, s, p, e) == Some(s') && e != LoopEnded(ByCutover)
    ensures !LeftByCutover(s')
  {
  }

  /** In the apply loop, only its end by cutover makes the run one that may drop things. */
  lemma LoopStep(setup: Setup, s: State, e: Event, s': State)
    requires Do(setup, s, e) == Some(s') && e != LoopEnded(ByCutover)
    requires s.proc.Some? && s.proc.value.at.AtApply? && !LeftByCutover(s)
    ensures !LeftByCutover(s')
  {
    hide DoStageEffect;
    if DoStageEffect(setup, s, s.proc.value, e) == Some(s') { LoopEffect(setup, s, s.proc.value, e, s'); }
  }

  /** As long as no loop ends by cutover, no run, crash or resume drops anything. */
  lemma {:induction false} NothingDroppedBeforeCutover(setup: Setup, s: State, es: seq<Event>, s': State)
    requires Reachable(setup, s) && Run(setup, s, es) == Some(s')
    requires LoopEnded(ByCutover) !in es
    requires s.proc.Some? ==> !s.proc.value.exit.ByCutover?
    ensures s.source.slot.Some? ==> s'.source.slot.Some?
    ensures s.target.sub.Some? ==> s'.target.sub.Some?
    ensures s.source.publication ==> s'.source.publication
    ensures s'.proc.Some? ==> !s'.proc.value.exit.ByCutover?
  {
    hide Inv, Do;
    if es == [] {
    } else {
      var m, e := Run(setup, s, es[..|es| - 1]).value, es[|es| - 1];
      NothingDroppedBeforeCutover(setup, s, es[..|es| - 1], m);
      ReachableInv(setup, s);
      RunKeeps(setup, s, es[..|es| - 1], m);
      StepKeeps(setup, m, e, s');
      assert e in es;
      if m.proc.Some? && m.proc.value.at.AtApply? { LoopStep(setup, m, e, s'); }
    }
  }
}
