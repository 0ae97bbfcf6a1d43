/** Stretches of runs, for building histories that reach a given state under any
    configuration. */
module ProtocolStretches {
  import opened Prelude
  import opened Config
  import opened Resume
  import opened Protocol

  /** A source on which `changes` have been logged, the given target, and no run yet. */
  function Fresh(setup: Setup, changes: Wal, tables: map<Table, seq<Change>>): State {
    State(Source(changes, setup.publicationBefore, None, 0), Target(tables, None, None),
          Disk(Missing, Missing, None), None, History(0, {}, {}, {}, 0, 0, false, false, false, false))
  }

  /** A first run and resumed runs are both accepted. */
  predicate Resumable(setup: Setup) {
    && !setup.config.mode.VerifyOnly?
    && Valid(setup.config.(resume := false)) && Valid(setup.config.(resume := true))
  }

  lemma Nothing(setup: Setup, init: State)
    ensures Run(setup, init, []) == Some(init)
  {
  }

  /** One more event at the end of a history. */
  lemma Then(setup: Setup, init: State, es: seq<Event>, s: State, e: Event) returns (es': seq<Event>, s': State)
    requires Run(setup, init, es) == Some(s) && Do(setup, s, e).Some?
    ensures Run(setup, init, es') == Some(s') && s' == Do(setup, s, e).value && es' == es + [e]
  {
    es', s' := es + [e], Do(setup, s, e).value;
    assert es'[..|es'| - 1] == es;
  }

  lemma Saved(setup: Setup, init: State, es: seq<Event>, s: State) returns (es': seq<Event>, s': State)
    requires Run(setup, init, es) == Some(s) && s.proc.Some? && s.proc.value.save.WritingTmp?
    ensures Run(setup, init, es') == Some(s')
    ensures s' == s.(disk := s.disk.(token := Whole(s.proc.value.token), tmp := Missing),
                     history := s.history.(saved := s.history.saved + {s.proc.value.token}),
                     proc := Some(s.proc.value.(save := NotSaving)))
  {
    hide Run;
    es', s' := Then(setup, init, es, s, TmpWritten);
    es', s' := Then(setup, init, es', s', TokenRenamed);
  }

  /** A save that fails and is only logged. */
  lemma NotSaved(setup: Setup, init: State, es: seq<Event>, s: State) returns (es': seq<Event>, s': State)
    requires Run(setup, init, es) == Some(s) && s.proc.Some? && s.proc.value.save.WritingTmp?
    ensures Run(setup, init, es') == Some(s')
    ensures s' == s.(disk := s.disk.(tmp := Torn), history := s.history.(saveFailed := true),
                     proc := Some(s.proc.value.(save := NotSaving)))
  {
    hide Run;
    es', s' := Then(setup, init, es, s, SaveFailed);
  }

  /** The process dies between two effects, or while a save is under way. */
  lemma Dies(setup: Setup, init: State, es: seq<Event>, s: State) returns (es': seq<Event>, s': State)
    requires Run(setup, init, es) == Some(s) && s.proc.Some?
    requires s.proc.value.save.NotSaving? ==> !Restoring(s.proc.value.at)
    ensures Run(setup, init, es') == Some(s') && s' == Ended(s)
  {
    hide Run, Ended;
    es', s' := Then(setup, init, es, s, Die(Wreck(false, map[], false)));
  }

  /** The process dies inside a restore that has brought the tables to `tables`. */
  lemma DiesWith(setup: Setup, init: State, es: seq<Event>, s: State, tables: map<Table, seq<Change>>)
    returns (es': seq<Event>, s': State)
    requires Run(setup, init, es) == Some(s) && s.proc.Some? && s.proc.value.save.NotSaving?
    requires Restoring(s.proc.value.at) && s.target.tables.Keys == tables.Keys
    ensures Run(setup, init, es') == Some(s') && s' == Ended(s).(target := s.target.(tables := tables))
  {
    hide Run;
    assert s.target.tables + tables == tables;
    es', s' := Then(setup, init, es, s, Die(Wreck(false, tables, false)));
  }

  lemma Writes(setup: Setup, init: State, es: seq<Event>, s: State, c: Change) returns (es': seq<Event>, s': State)
    requires Run(setup, init, es) == Some(s) && c.table in setup.tables
    ensures Run(setup, init, es') == Some(s')
    ensures s' == s.(source := s.source.(wal := s.source.wal + [c]))
  {
    hide Run;
    es', s' := Then(setup, init, es, s, SourceWrite(c));
  }

  predicate Waiting(s: State, at: Pc) {
    s.proc.Some? && s.proc.value.save.NotSaving? && s.proc.value.at == at && s.proc.value.split.None?
  }

  /** From the start of a run to the end of the vacuum stage, which fails. */
  lemma Begun(setup: Setup, init: State, es: seq<Event>, s: State) returns (es': seq<Event>, s': State)
    requires Run(setup, init, es) == Some(s) && s.proc.None? && Valid(RunConfig(setup, s))
    requires s.history.runs > 0 && s.disk.token.Whole? ==> Compatible(s.disk.token.token, setup.config)
    requires s.history.runs > 0 ==> !s.disk.token.Torn?
    ensures Run(setup, init, es') == Some(s')
    ensures var resumed := s.history.runs > 0;
            var token := if resumed && s.disk.token.Whole? then s.disk.token.token else NewToken(setup.config);
            s' == s.(proc := Some(Process(PreparePc(setup, token), NotSaving, resumed, token, None, None, StillRunning)),
                     history := s.history.(runs := s.history.runs + 1))
  {
    hide Run;
    es', s' := Then(setup, init, es, s, Start);
    if s'.proc.value.at.AtVacuum? {
      es', s' := Then(setup, init, es', s', VacuumDone(false));
    }
  }

  /** From the split plan to a dump that is not yet recorded on disk. */
  lemma Dumped(setup: Setup, init: State, es: seq<Event>, s: State) returns (es': seq<Event>, s': State)
    requires Run(setup, init, es) == Some(s) && Waiting(s, AtSplitPlan) && !s.proc.value.token.Has(Dump)
    requires var p := s.proc.value;
             setup.config.mode.Online? && p.token.snapshotName.Some? ==> Live(p, p.token.snapshotName.value)
    ensures Run(setup, init, es') == Some(s')
    ensures var p := s.proc.value;
            var snapshot := if setup.config.mode.Online? then p.token.snapshotName else None;
            var lsn := if snapshot.Some? then p.held.value.lsn else |s.source.wal|;
            s' == s.(disk := s.disk.(archive := Some(Archive(lsn, snapshot, {}))),
                     history := s.history.(dumps := s.history.dumps + {lsn},
                                           finished := s.history.finished + {Stage.Dump}),
                     proc := Some(p.(at := RestorePc(setup, p.token), save := WritingTmp,
                                     token := p.token.Marked(Dump))))
  {
    hide Run;
    es', s' := Then(setup, init, es, s, PlanDone({}));
    es', s' := Then(setup, init, es', s', DumpDone);
  }

  /** The restore gets through, in one call or section by section. */
  lemma Loaded(setup: Setup, init: State, es: seq<Event>, s: State) returns (es': seq<Event>, s': State)
    requires Run(setup, init, es) == Some(s) && s.proc.Some? && !s.proc.value.token.Has(Restore)
    requires Waiting(s, RestorePc(setup, s.proc.value.token)) && ArchiveReadable(s)
    requires PreDataSucceeds(setup, s.target.tables)
    requires DataSucceeds(setup, PreData(setup, s.target.tables))
    ensures Run(setup, init, es') == Some(s')
    ensures s' == s.(proc := Some(s.proc.value.(at := AtRestored)),
                     target := s.target.(tables := Data(setup, s.source.wal, s.disk.archive.value,
                                                        PreData(setup, s.target.tables))))
  {
    hide Run, PreDataSucceeds, DataSucceeds, PreData, Data;
    if setup.config.splitSections {
      es', s' := Then(setup, init, es, s, PreDataDone);
      es', s' := Then(setup, init, es', s', DataDone);
      es', s' := Then(setup, init, es', s', PostDataDone);
    } else {
      es', s' := Then(setup, init, es, s, RestoreAllDone);
    }
  }

  lemma Marked(setup: Setup, init: State, es: seq<Event>, s: State) returns (es': seq<Event>, s': State)
    requires Run(setup, init, es) == Some(s) && Waiting(s, AtRestored)
    ensures Run(setup, init, es') == Some(s')
    ensures var p := s.proc.value;
            s' == s.(proc := Some(p.(at := AnalyzePc(setup, p.token), save := WritingTmp,
                                     token := p.token.Marked(Restore))),
                     history := s.history.(finished := s.history.finished + {Stage.Restore}))
  {
    hide Run;
    es', s' := Then(setup, init, es, s, RestoreMarked);
  }

  /** The tables of an archive that carries its CREATE TABLE statements. */
  lemma LoadedRows(setup: Setup, wal: Wal, a: Archive, tables: map<Table, seq<Change>>, t: Table)
    requires setup.config.scope.All? && t in setup.tables && a.excluded == {} && a.lsn <= |wal|
    ensures DataSucceeds(setup, PreData(setup, tables))
    ensures var loaded := Data(setup, wal, a, PreData(setup, tables));
            setup.tables <= loaded.Keys && loaded[t] == Of(wal[..a.lsn], t)
  {
    assert [] + Of(wal[..a.lsn], t) == Of(wal[..a.lsn], t);
  }
}
