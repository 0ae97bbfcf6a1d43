/** For which dump scopes an offline migration may be interrupted and resumed. */
module OfflineScope {
  import opened Prelude
  import opened Config
  import opened Resume
  import opened Protocol
  import opened ProtocolInvariant
  import opened ProtocolSteps
  import opened ProtocolTheorems
  import opened ProtocolStretches

  predicate Exact(setup: Setup, s: State) {
    && s.disk.archive.Some? && s.disk.archive.value.lsn <= |s.source.wal|
    && forall t :: t in setup.tables ==>
         t in s.target.tables && s.target.tables[t] == Rows(setup, s.source.wal, s.disk.archive.value.lsn, t)
  }

  /** Whatever is interrupted on the way, a recorded restore means the content of one
      dump, when the target starts with the tables there and empty. */
  ghost predicate AlwaysExact(setup: Setup) {
    forall init, es, s ::
      && Init(setup, init) && init.target.tables == (map t | t in setup.tables :: [])
      && Run(setup, init, es) == Some(s) && Restore in Recorded(s)
      ==> Exact(setup, s)
  }

  /** Resuming is exact for precisely the scopes whose archive carries the CREATE TABLE
      statements: those are what resets, or refuses, a target that an interrupted restore
      left half loaded. A data-only restore that is retried loads its rows twice. */
  lemma ExactIffSchemaDumped(setup: Setup, t: Table)
    requires Resumable(setup) && setup.config.mode.Offline? && t in setup.tables
    ensures AlwaysExact(setup) <==> !setup.config.scope.DataOnly?
  {
    if setup.config.scope.DataOnly? {
      DataOnlyDoubles(setup, t);
    } else {
      forall init, es, s |
        && Init(setup, init) && init.target.tables == (map u | u in setup.tables :: [])
        && Run(setup, init, es) == Some(s) && Restore in Recorded(s)
        ensures Exact(setup, s)
      {
        OfflineExact(setup, s);
      }
    }
  }

  /** The source holds one row of `t`, the target its empty table. */
  function OneRow(setup: Setup, t: Table): State {
    Fresh(setup, [Change(t, "row")], map u | u in setup.tables :: [])
  }

  lemma DataOnlyDoubles(setup: Setup, t: Table)
    requires Resumable(setup) && setup.config.mode.Offline? && setup.config.scope.DataOnly? && t in setup.tables
    ensures !AlwaysExact(setup)
  {
    hide Do, Run;
    var init, c := OneRow(setup, t), Change(t, "row");
    var es, s := FirstRunDumps(setup, t);
    es, s := DiesLoaded(setup, init, es, s, t);
    es, s := SecondRunLoads(setup, init, es, s, t);
    assert s.target.tables[t] == [c, c];
    assert Of([c], t) == [c] && [c][..1] == [c];
    assert Init(setup, init);
    assert !Exact(setup, s);
  }

  lemma DataAppends(setup: Setup, tables: map<Table, seq<Change>>, t: Table)
    requires setup.config.scope.DataOnly? && t in setup.tables && setup.tables <= tables.Keys
    ensures var c := Change(t, "row");
            var loaded := Data(setup, [c], Archive(1, None, {}), tables);
            && loaded.Keys == tables.Keys && loaded[t] == tables[t] + [c]
  {
    var c := Change(t, "row");
    assert [c][..1] == [c] && Of([c], t) == [c];
  }

  lemma FirstRunDumps(setup: Setup, t: Table) returns (es: seq<Event>, s: State)
    requires Resumable(setup) && setup.config.mode.Offline? && t in setup.tables
    ensures Run(setup, OneRow(setup, t), es) == Some(s) && Waiting(s, RestorePc(setup, NewToken(setup.config)))
    ensures s.source == OneRow(setup, t).source && s.target == OneRow(setup, t).target
    ensures s.disk.archive == Some(Archive(1, None, {}))
    ensures s.disk.token == Whole(NewToken(setup.config).Marked(Stage.Dump)) && s.proc.value.token == s.disk.token.token
    ensures s.history.runs == 1
  {
    hide Do, Run;
    var init := OneRow(setup, t);
    Nothing(setup, init);
    es, s := Begun(setup, init, [], init);
    es, s := Dumped(setup, init, es, s);
    es, s := Saved(setup, init, es, s);
  }

  /** The restore has loaded the rows, and the process dies before it learns so. */
  lemma DiesLoaded(setup: Setup, init: State, es: seq<Event>, s: State, t: Table)
    returns (es': seq<Event>, s': State)
    requires Run(setup, init, es) == Some(s) && setup.config.scope.DataOnly? && t in setup.tables
    requires Waiting(s, RestorePc(setup, NewToken(setup.config)))
    requires s.disk.archive == Some(Archive(1, None, {}))
    requires s.target.tables == (map u | u in setup.tables :: []) && s.source.wal == [Change(t, "row")]
    ensures Run(setup, init, es') == Some(s')
    ensures s' == Ended(s).(target := s.target.(tables := s'.target.tables))
    ensures s'.target.tables.Keys == setup.tables && s'.target.tables[t] == [Change(t, "row")]
  {
    hide Do, Run;
    DataAppends(setup, s.target.tables, t);
    es', s' := ToData(setup, init, es, s);
    es', s' := DiesWith(setup, init, es', s', Data(setup, s.source.wal, s.disk.archive.value, s.target.tables));
  }

  lemma ToData(setup: Setup, init: State, es: seq<Event>, s: State) returns (es': seq<Event>, s': State)
    requires Run(setup, init, es) == Some(s) && setup.config.scope.DataOnly? && ArchiveReadable(s)
    requires Waiting(s, RestorePc(setup, NewToken(setup.config)))
    ensures Run(setup, init, es') == Some(s')
    ensures s'.proc.Some? && Restoring(s'.proc.value.at)
    ensures s' == s.(proc := Some(s.proc.value.(at := s'.proc.value.at)))
  {
    hide Run;
    es', s' := es, s;
    if setup.config.splitSections {
      es', s' := Then(setup, init, es', s', PreDataDone);
    }
  }

  lemma SecondRunLoads(setup: Setup, init: State, es: seq<Event>, s: State, t: Table)
    returns (es': seq<Event>, s': State)
    requires Run(setup, init, es) == Some(s) && s.proc.None? && s.history.runs == 1
    requires Resumable(setup) && setup.config.mode.Offline? && setup.config.scope.DataOnly? && t in setup.tables
    requires s.disk.archive == Some(Archive(1, None, {})) && s.source.wal == [Change(t, "row")]
    requires s.disk.token == Whole(NewToken(setup.config).Marked(Stage.Dump))
    requires s.target.tables.Keys == setup.tables && s.target.tables[t] == [Change(t, "row")]
    ensures Run(setup, init, es') == Some(s') && Restore in Recorded(s')
    ensures s'.disk.archive == s.disk.archive && s'.source == s.source
    ensures t in s'.target.tables && s'.target.tables[t] == [Change(t, "row"), Change(t, "row")]
  {
    hide Do, Run;
    es', s' := SkipsDump(setup, init, es, s);
    DataAppends(setup, s'.target.tables, t);
    es', s' := Loaded(setup, init, es', s');
    es', s' := ProtocolStretches.Marked(setup, init, es', s');
  }

  lemma SkipsDump(setup: Setup, init: State, es: seq<Event>, s: State) returns (es': seq<Event>, s': State)
    requires Run(setup, init, es) == Some(s) && Resumable(setup) && setup.config.mode.Offline?
    requires s.proc.None? && s.history.runs > 0 && s.disk.token == Whole(NewToken(setup.config).Marked(Stage.Dump))
    ensures Run(setup, init, es') == Some(s')
    ensures var t := s.disk.token.token;
            s' == s.(proc := Some(Process(RestorePc(setup, t), NotSaving, true, t, None, None, StillRunning)),
                     history := s.history.(runs := s.history.runs + 1))
  {
    hide Run;
    es', s' := Begun(setup, init, es, s);
    es', s' := Then(setup, init, es', s', PlanDone({}));
  }
}
