/** For which configurations an online migration may be interrupted, cut over and resumed
    in any order. */
module OnlineScope {
  import opened Prelude
  import opened Config
  import opened Resume
  import opened Protocol
  import opened ProtocolInvariant
  import opened ProtocolSteps
  import opened ProtocolTheorems
  import opened ProtocolStretches
  import opened ProtocolCounterexamples
  import opened SingleRun

  /** Every table equals the source as of the last replicated position. */
  predicate Exact(setup: Setup, s: State) {
    && s.history.applied <= |s.source.wal|
    && forall t :: t in setup.tables ==>
         t in s.target.tables && s.target.tables[t] == Of(s.source.wal[..s.history.applied], t)
  }

  /** A state whose tables the operator takes for migrated: the restore of a dump that read
      the slot's snapshot is recorded. */
  ghost predicate Claimed(setup: Setup, s: State) {
    && Reachable(setup, s) && Restore in Recorded(s)
    && s.disk.archive.Some? && s.disk.archive.value.snapshot.Some?
  }

  /** Whatever happens, each change is there once and in order. */
  ghost predicate AlwaysExact(setup: Setup) {
    forall s :: Claimed(setup, s) ==> Exact(setup, s)
  }

  /** Replay is exactly-once over all histories, failed saves of the token, cutovers and
      resumes after a cutover included, for precisely the configurations that keep the
      subscription at cutover and do not drop the target first, and those of which no second
      run can start or no run gets past the publication. */
  lemma ExactIffNothingDropped(setup: Setup, t: Table)
    requires setup.config.mode.Online? && setup.config.scope.All? && t in setup.tables
    ensures AlwaysExact(setup) <==>
            || (!setup.config.online.dropSubscriptionOnCutover && !setup.config.dropTargetFirst)
            || !CanBeResumed(setup)
  {
    if !CanBeResumed(setup) {
      forall s | Claimed(setup, s) ensures Exact(setup, s) {
        NothingToResume(setup, s);
        ExactlyOnce(setup, s);
      }
    } else if setup.config.online.dropSubscriptionOnCutover {
      DroppedSubscriptionDuplicates(setup, t);
    } else if setup.config.dropTargetFirst {
      DroppedTargetLoses(setup, t);
    } else {
      forall s | Claimed(setup, s) ensures Exact(setup, s) {
        KeptIsNeverReopened(setup, s);
        if s.history.forgotten { ForgottenIsRefused(setup, s); }
        ExactlyOnce(setup, s);
      }
    }
  }

  /** Each of the two failures has its own cause: without a subscription created again a
      claimed state is exact unless the restore was forgotten, and the restore can be
      forgotten and yet claimed only if the target is dropped first. */
  lemma InexactMeansForgottenOrReopened(setup: Setup, s: State)
    requires Claimed(setup, s) && !Exact(setup, s)
    requires setup.config.mode.Online? && setup.config.scope.All? && setup.tables != {}
    ensures s.history.reopened || s.history.forgotten
    ensures s.history.reopened ==> setup.config.online.dropSubscriptionOnCutover
    ensures s.history.forgotten ==> setup.config.dropTargetFirst && s.history.saveFailed
  {
    ReachableInv(setup, s);
    if !s.history.reopened && !s.history.forgotten { ExactlyOnce(setup, s); }
  }

  lemma KeptIsNeverReopened(setup: Setup, s: State)
    requires Reachable(setup, s) && !setup.config.online.dropSubscriptionOnCutover
    ensures !s.history.reopened && !s.history.dropped
  {
    ReachableInv(setup, s);
  }

  lemma DroppedSubscriptionDuplicates(setup: Setup, t: Table)
    requires Ordinary(setup, t) && setup.config.online.dropSubscriptionOnCutover
    ensures !AlwaysExact(setup)
  {
    hide Do, Run;
    var c := Change(t, "row");
    ResumeAfterCutoverDuplicates(setup, c);
    var s :| Reachable(setup, s) && !s.history.forgotten && s.history.reopened
             && Restore in Recorded(s) && s.source.wal == [c] && s.history.applied == 1
             && s.disk.archive == Some(Archive(0, Some(0), {}))
             && t in s.target.tables && s.target.tables[t] == [c, c];
    OneChange(c);
    assert Claimed(setup, s) && !Exact(setup, s);
  }

  lemma DroppedTargetLoses(setup: Setup, t: Table)
    requires Ordinary(setup, t) && setup.config.dropTargetFirst
    ensures !AlwaysExact(setup)
  {
    hide Do, Run;
    var c := Change(t, "row");
    FailedSaveLosesChange(setup, c);
    var s :| Reachable(setup, s) && s.history.forgotten && !s.history.reopened
             && Restore in Recorded(s) && s.source.wal == [c] && s.history.applied == 1
             && s.disk.archive == Some(Archive(0, Some(0), {}))
             && s.target.sub.Some? && s.target.sub.value.origin == 1
             && t in s.target.tables && s.target.tables[t] == [];
    OneChange(c);
    assert Claimed(setup, s) && !Exact(setup, s);
  }

  /** The guarantees are not empty: under every configuration that gets past the publication
      a migration can run from start to cutover, with a row written to the source meanwhile
      that reaches the target once, and leave behind exactly what it is to keep. */
  lemma MigrationCanSucceed(setup: Setup, c: Change)
    requires Migratable(setup, c.table)
    ensures exists s :: Claimed(setup, s) && !s.history.reopened && s.history.runs == 1 && s.proc.None?
                        && s.source.wal == [c]
                        && c.table in s.target.tables && s.target.tables[c.table] == [c]
                        && (s.target.sub.None? <==> setup.config.online.dropSubscriptionOnCutover)
                        && (s.source.slot.None? <==> setup.config.online.dropSlotOnCutover)
                        && (s.source.publication <==> setup.publicationBefore)
  {
    hide Do, Run;
    var init := Fresh(setup, [], map[]);
    var es, s := FirstRunStreams(setup, c.table, false);
    es, s := Writes(setup, init, es, s, c);
    es, s := Applied(setup, init, es, s, c);
    es, s := CutOver(setup, init, es, s, true);
    assert Reachable(setup, s);
  }
}
