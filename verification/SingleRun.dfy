/** Online migrations of which only one run can get anywhere: those that cannot be resumed,
    and those that find no publication and may not create one. */
module SingleRun {
  import opened Prelude
  import opened Config
  import opened Resume
  import opened Protocol
  import opened ProtocolInvariant
  import opened ProtocolStretches

  predicate Publishable(setup: Setup) {
    setup.publicationBefore || setup.config.online.autoCreatePublication
  }

  /** A first run can get past the publication, and a later one can pick up where it ended. */
  predicate CanBeResumed(setup: Setup) {
    Resumable(setup) && Publishable(setup)
  }

  /** In its first run a migration cannot create a subscription twice, and what that run
      forgets nobody has claimed since. */
  predicate FirstRun(s: State) {
    s.history.runs <= 1 ==>
      && !s.history.reopened
      && (s.history.runs == 0 ==> s.proc.None? && !s.history.dropped && !s.history.forgotten)
      && (s.proc.Some? ==> !s.history.forgotten && (s.history.dropped ==> AfterAttach(s.proc.value.at)))
      && (s.history.forgotten ==> Restore !in StagesOnDisk(s))
  }

  predicate Unrestored(t: FileContent) {
    t.Whole? ==> !t.token.Has(Dump) && !t.token.Has(Restore)
  }

  /** No run gets past the missing publication. */
  predicate Unpublished(s: State) {
    && !s.source.publication && Unrestored(s.disk.token) && Unrestored(s.disk.tmp)
    && (s.proc.Some? ==>
          && (s.proc.value.at.AtVacuum? || s.proc.value.at.AtPublication?)
          && !s.proc.value.token.Has(Dump) && !s.proc.value.token.Has(Restore))
  }

  predicate Stays(setup: Setup, s: State) {
    && FirstRun(s)
    && (!Valid(setup.config.(resume := true)) ==> s.history.runs <= 1)
    && (!Valid(setup.config.(resume := false)) ==> s.history.runs == 0)
    && (setup.config.mode.Online? && !Publishable(setup) ==> Unpublished(s))
  }

  // ----------------------------------------------------------------------- steps

  predicate UpToDump(e: Event) {
    e.VacuumDone? || e.PublicationDone? || e.SlotDone? || e.PlanDone? || e.DumpDone?
  }

  predicate InRestore(e: Event) {
    e.RestoreAllDone? || e.PreDataDone? || e.DataDone? || e.SplitCopyDone? || e.PostDataDone? || e.RestoreMarked?
  }

  /** What most events do to what a first run is about: nothing, but move on. */
  predicate MovesOn(s: State, s': State) {
    && s'.history.runs == s.history.runs && s'.history.dropped == s.history.dropped
    && s'.history.reopened == s.history.reopened && s'.history.forgotten == s.history.forgotten
    && s'.disk.token == s.disk.token && s.proc.Some? && s'.proc.Some?
    && (AfterAttach(s.proc.value.at) ==> AfterAttach(s'.proc.value.at))
  }

  lemma DumpMovesOn(setup: Setup, s: State, p: Process, e: Event, s': State)
    requires s.proc == Some(p) && UpToDump(e) && DoStageEffect(setup, s, p, e) == Some(s')
    ensures MovesOn(s, s')
  {
  }

  lemma RestoreMovesOn(setup: Setup, s: State, p: Process, e: Event, s': State)
    requires s.proc == Some(p) && InRestore(e) && DoStageEffect(setup, s, p, e) == Some(s')
    ensures MovesOn(s, s')
  {
  }

  lemma ApplyInFirstRun(setup: Setup, s: State, p: Process, e: Event, s': State)
    requires s.proc == Some(p) && FirstRun(s) && DoApplyEffect(setup, s, p, e) == Some(s')
    ensures FirstRun(s') && s'.history.runs == s.history.runs
  {
  }

  lemma EffectInFirstRun(setup: Setup, s: State, p: Process, e: Event, s': State)
    requires s.proc == Some(p) && FirstRun(s) && DoStageEffect(setup, s, p, e) == Some(s')
    ensures FirstRun(s') && s'.history.runs == s.history.runs
  {
    hide DoApplyEffect;
    if UpToDump(e) {
      hide DoStageEffect;
      DumpMovesOn(setup, s, p, e, s');
    } else if InRestore(e) {
      hide DoStageEffect;
      RestoreMovesOn(setup, s, p, e, s');
    } else if DoApplyEffect(setup, s, p, e) == Some(s') {
      hide DoStageEffect;
      ApplyInFirstRun(setup, s, p, e, s');
    }
  }

  lemma ProcessInFirstRun(setup: Setup, s: State, p: Process, e: Event, s': State)
    requires s.proc == Some(p) && FirstRun(s) && DoEffect(setup, s, p, e) == Some(s')
    ensures FirstRun(s') && s'.history.runs == s.history.runs
  {
    hide DoStageEffect;
    if DoStageEffect(setup, s, p, e) == Some(s') { EffectInFirstRun(setup, s, p, e, s'); }
  }

  lemma StepInFirstRun(setup: Setup, s: State, e: Event, s': State)
    requires FirstRun(s) && Do(setup, s, e) == Some(s')
    ensures FirstRun(s')
    ensures s'.history.runs == s.history.runs + if e.Start? then 1 else 0
    ensures e.Start? ==> Valid(RunConfig(setup, s))
  {
    hide DoEffect, Valid, Compatible;
    if s.proc.Some? && DoEffect(setup, s, s.proc.value, e) == Some(s') {
      ProcessInFirstRun(setup, s, s.proc.value, e, s');
    }
  }

  lemma EffectUnpublished(setup: Setup, s: State, p: Process, e: Event, s': State)
    requires s.proc == Some(p) && Unpublished(s) && DoStageEffect(setup, s, p, e) == Some(s')
    requires setup.config.mode.Online? && !setup.config.online.autoCreatePublication
    ensures e.VacuumDone? && Unpublished(s')
  {
    assert p.at.AtVacuum? || p.at.AtPublication?;
  }

  lemma ProcessUnpublished(setup: Setup, s: State, p: Process, e: Event, s': State)
    requires s.proc == Some(p) && Unpublished(s) && DoEffect(setup, s, p, e) == Some(s')
    requires setup.config.mode.Online? && !setup.config.online.autoCreatePublication
    ensures Unpublished(s')
  {
    hide DoStageEffect;
    if DoStageEffect(setup, s, p, e) == Some(s') { EffectUnpublished(setup, s, p, e, s'); }
  }

  lemma StepUnpublished(setup: Setup, s: State, e: Event, s': State)
    requires Unpublished(s) && Do(setup, s, e) == Some(s')
    requires setup.config.mode.Online? && !setup.config.online.autoCreatePublication
    ensures Unpublished(s')
  {
    hide DoEffect, Valid, Compatible;
    if s.proc.Some? && DoEffect(setup, s, s.proc.value, e) == Some(s') {
      ProcessUnpublished(setup, s, s.proc.value, e, s');
    }
  }

  lemma StepStays(setup: Setup, s: State, e: Event, s': State)
    requires Stays(setup, s) && Do(setup, s, e) == Some(s')
    ensures Stays(setup, s')
  {
    hide Do, Valid, FirstRun, Unpublished;
    StepInFirstRun(setup, s, e, s');
    if setup.config.mode.Online? && !Publishable(setup) { StepUnpublished(setup, s, e, s'); }
  }

  lemma {:induction false} RunStays(setup: Setup, s: State, es: seq<Event>, s': State)
    requires Stays(setup, s) && Run(setup, s, es) == Some(s')
    ensures Stays(setup, s')
  {
    hide Do, Stays;
    if es == [] {
    } else {
      var m := Run(setup, s, es[..|es| - 1]).value;
      RunStays(setup, s, es[..|es| - 1], m);
      StepStays(setup, m, es[|es| - 1], s');
    }
  }

  /** Where there is nothing to resume, no state with a recorded restore is one in which a
      restore was forgotten or a subscription created twice. */
  lemma NothingToResume(setup: Setup, s: State)
    requires Reachable(setup, s) && Restore in Recorded(s)
    requires setup.config.mode.Online? && !CanBeResumed(setup)
    ensures !s.history.forgotten && !s.history.reopened
  {
    hide Valid, Do, Run;
    var init, es :| Init(setup, init) && Run(setup, init, es) == Some(s);
    RunStays(setup, init, es, s);
  }

  lemma ReachableFirstRun(setup: Setup, s: State)
    requires Reachable(setup, s)
    ensures FirstRun(s)
  {
    hide Valid, Do, Run;
    var init, es :| Init(setup, init) && Run(setup, init, es) == Some(s);
    RunStays(setup, init, es, s);
  }
}
