/** What the code does when a hypothesis of ProtocolTheorems is not met: under every
    ordinary configuration, a history that ends with a wrong target. */
module ProtocolCounterexamples {
  import opened Prelude
  import opened Config
  import opened Resume
  import opened Protocol
  import opened ProtocolStretches
  import opened SingleRun

  /** An online migration of a whole database with a table, whose first run can get past the
      publication. */
  predicate Migratable(setup: Setup, t: Table) {
    && Valid(setup.config.(resume := false)) && Publishable(setup)
    && setup.config.mode.Online? && setup.config.scope.All? && t in setup.tables
  }

  /** One that can be resumed. */
  predicate Ordinary(setup: Setup, t: Table) {
    Migratable(setup, t) && Valid(setup.config.(resume := true))
  }

  // ---------------------------------------------------------- stretches of a run

  /** The token of a first run that has found or created its publication. */
  function FirstToken(setup: Setup): TokenData {
    NewToken(setup.config).(pubAutoCreated := !setup.publicationBefore)
  }

  /** The first run up to the publication; that it was created is recorded. */
  lemma Published(setup: Setup, t: Table) returns (es: seq<Event>, s: State)
    requires Migratable(setup, t)
    ensures Run(setup, Fresh(setup, [], map[]), es) == Some(s)
    ensures s == State(Source([], true, None, 0), Target(map[], None, None),
                       Disk(if setup.publicationBefore then Missing else Whole(FirstToken(setup)), Missing, None),
                       Some(Process(AtSlot, NotSaving, false, FirstToken(setup), None, None, StillRunning)),
                       History(1, if setup.publicationBefore then {} else {FirstToken(setup)}, {}, {}, 0, 0,
                               false, false, false, false))
  {
    hide Run;
    var init := Fresh(setup, [], map[]);
    Nothing(setup, init);
    es, s := Begun(setup, init, [], init);
    es, s := Then(setup, init, es, s, PublicationDone);
    if !setup.publicationBefore {
      es, s := Saved(setup, init, es, s);
    }
  }

  /** The first run up to the slot, its creation not yet recorded. */
  lemma SlotCreated(setup: Setup, t: Table) returns (es: seq<Event>, s: State)
    requires Migratable(setup, t)
    ensures Run(setup, Fresh(setup, [], map[]), es) == Some(s)
    ensures s.source == Source([], true, Some(Slot(0, 0, false)), 1) && s.target == Target(map[], None, None)
    ensures s.disk == Disk(if setup.publicationBefore then Missing else Whole(FirstToken(setup)), Missing, None)
    ensures s.proc == Some(Process(AtSplitPlan, WritingTmp, false,
                                   FirstToken(setup).Marked(PrepareSnapshot).(snapshotName := Some(0)),
                                   Some(Snapshot(0, 0)), None, StillRunning))
    ensures s.history == History(1, s.history.saved, {PrepareSnapshot}, {}, 0, 0, false, false, false, false)
  {
    hide Run;
    es, s := Published(setup, t);
    es, s := Then(setup, Fresh(setup, [], map[]), es, s, SlotDone);
  }

  /** From the recorded or skipped restore to the apply loop. */
  lemma Streaming(setup: Setup, init: State, es: seq<Event>, s: State) returns (es': seq<Event>, s': State)
    requires Run(setup, init, es) == Some(s) && setup.config.mode.Online?
    requires Waiting(s, AtAnalyze) || Waiting(s, AtDropStream)
    requires s.source.slot.Some? && !s.source.slot.value.active
    ensures Run(setup, init, es') == Some(s')
    ensures s' == s.(target := s.target.(sub := Some(if s.target.sub.None? then Subscription(true, true, 0)
                                                     else s.target.sub.value.(enabled := true, slotSet := true))),
                     proc := Some(s.proc.value.(held := None, at := AtApply)),
                     history := if s.target.sub.None?
                                then s.history.(reopened := s.history.reopened || s.history.dropped) else s.history)
  {
    hide Run;
    es', s' := es, s;
    if s.proc.value.at.AtAnalyze? {
      es', s' := Then(setup, init, es', s', AnalyzeDone(false));
    }
    es', s' := Detached(setup, init, es', s');
    es', s' := Then(setup, init, es', s', Attached);
  }

  lemma Detached(setup: Setup, init: State, es: seq<Event>, s: State) returns (es': seq<Event>, s': State)
    requires Run(setup, init, es) == Some(s) && Waiting(s, AtDropStream)
    requires s.source.slot.Some? && !s.source.slot.value.active
    ensures Run(setup, init, es') == Some(s') && s' == s.(proc := Some(s.proc.value.(held := None, at := AtAttach)))
  {
    hide Run;
    es', s' := Then(setup, init, es, s, StreamDropped);
    if s.proc.value.resume {
      es', s' := Then(setup, init, es', s', DisableDone(false));
    }
    es', s' := Then(setup, init, es', s', SlotIdle);
  }

  /** The worker connects and applies the one change that is there. */
  lemma Applied(setup: Setup, init: State, es: seq<Event>, s: State, c: Change)
    returns (es': seq<Event>, s': State)
    requires Run(setup, init, es) == Some(s) && s.source.wal == [c]
    requires s.source.slot == Some(Slot(0, 0, false)) && s.target.worker.None?
    requires s.target.sub == Some(Subscription(true, true, 0)) && c.table in s.target.tables
    ensures Run(setup, init, es') == Some(s')
    ensures s' == s.(source := s.source.(slot := Some(Slot(0, 0, true))),
                     target := Target(s.target.tables[c.table := s.target.tables[c.table] + [c]],
                                      Some(Subscription(true, true, 1)), Some(1)),
                     history := s.history.(applied := 1))
  {
    hide Run;
    es', s' := Then(setup, init, es, s, WorkerAttach);
    es', s' := Then(setup, init, es', s', WorkerApply);
  }

  /** From an archive of an empty source to the restore, about to be recorded. */
  lemma EmptyLoaded(setup: Setup, init: State, es: seq<Event>, s: State, t: Table)
    returns (es': seq<Event>, s': State)
    requires Migratable(setup, t) && Run(setup, init, es) == Some(s)
    requires s.proc.Some? && !s.proc.value.token.Has(Restore) && !s.proc.value.token.Has(Analyze)
    requires Waiting(s, RestorePc(setup, s.proc.value.token))
    requires s.disk.archive.Some? && s.disk.archive.value.lsn == 0 && s.disk.archive.value.excluded == {}
    requires s.target.tables == map[] || setup.config.dropTargetFirst
    ensures Run(setup, init, es') == Some(s')
    ensures s'.proc.Some? && setup.tables <= s'.target.tables.Keys && s'.target.tables[t] == []
    ensures var p := s.proc.value;
            s' == s.(proc := Some(p.(at := AnalyzePc(setup, p.token), token := p.token.Marked(Restore),
                                      save := WritingTmp)),
                     target := s.target.(tables := s'.target.tables),
                     history := s.history.(finished := s.history.finished + {Stage.Restore}))
  {
    hide Run, Do;
    LoadedRows(setup, s.source.wal, s.disk.archive.value, s.target.tables, t);
    es', s' := Loaded(setup, init, es, s);
    es', s' := ProtocolStretches.Marked(setup, init, es', s');
  }

  /** From an archive and an empty target to the apply loop. */
  lemma RestoredAndStreaming(setup: Setup, init: State, es: seq<Event>, s: State, t: Table, failSave: bool)
    returns (es': seq<Event>, s': State)
    requires Migratable(setup, t) && Run(setup, init, es) == Some(s)
    requires s.proc.Some? && !s.proc.value.token.Has(Restore) && !s.proc.value.token.Has(Analyze)
    requires Waiting(s, RestorePc(setup, s.proc.value.token))
    requires ArchiveReadable(s) && s.disk.archive.value.excluded == {} && s.target == Target(map[], None, None)
    requires s.source.slot.Some? && !s.source.slot.value.active && !s.history.dropped
    ensures Run(setup, init, es') == Some(s') && s'.proc.Some?
    ensures s'.proc == Some(s.proc.value.(held := None, at := AtApply, token := s.proc.value.token.Marked(Restore)))
    ensures s'.source == s.source && s'.disk.archive == s.disk.archive
    ensures s'.disk.token == if failSave then s.disk.token else Whole(s'.proc.value.token)
    ensures s'.target == Target(s'.target.tables, Some(Subscription(true, true, 0)), None)
    ensures setup.tables <= s'.target.tables.Keys
    ensures s'.target.tables[t] == Of(s.source.wal[..s.disk.archive.value.lsn], t)
    ensures s'.history == s.history.(saved := s'.history.saved, finished := s'.history.finished,
                                     saveFailed := s.history.saveFailed || failSave)
  {
    hide Do, Run, Of;
    LoadedRows(setup, s.source.wal, s.disk.archive.value, s.target.tables, t);
    es', s' := Loaded(setup, init, es, s);
    es', s' := ProtocolStretches.Marked(setup, init, es', s');
    if failSave {
      es', s' := NotSaved(setup, init, es', s');
    } else {
      es', s' := Saved(setup, init, es', s');
    }
    es', s' := Streaming(setup, init, es', s');
  }

  lemma FirstRunDumps(setup: Setup, t: Table) returns (es: seq<Event>, s: State)
    requires Migratable(setup, t)
    ensures Run(setup, Fresh(setup, [], map[]), es) == Some(s)
    ensures s.proc.Some? && Waiting(s, RestorePc(setup, s.proc.value.token)) && !s.proc.value.resume
    ensures StreamingToken(setup, s.proc.value.token, false) && s.disk.token == Whole(s.proc.value.token)
    ensures s.source == Source([], true, Some(Slot(0, 0, false)), 1) && s.target == Target(map[], None, None)
    ensures s.disk.archive == Some(Archive(0, Some(0), {})) && s.proc.value.exit.StillRunning?
    ensures s.history.runs == 1 && !s.history.forgotten && !s.history.dropped && !s.history.reopened
  {
    hide Do, Run;
    var init := Fresh(setup, [], map[]);
    es, s := SlotCreated(setup, t);
    es, s := Saved(setup, init, es, s);
    es, s := Dumped(setup, init, es, s);
    es, s := Saved(setup, init, es, s);
  }

  /** A first run restored the archive of an empty source and is streaming. */
  lemma FirstRunStreams(setup: Setup, t: Table, failRestoreSave: bool) returns (es: seq<Event>, s: State)
    requires Migratable(setup, t)
    ensures Run(setup, Fresh(setup, [], map[]), es) == Some(s) && Waiting(s, AtApply)
    ensures s.source == Source([], true, Some(Slot(0, 0, false)), 1)
    ensures s.target == Target(s.target.tables, Some(Subscription(true, true, 0)), None)
    ensures setup.tables <= s.target.tables.Keys && s.target.tables[t] == []
    ensures s.disk.archive == Some(Archive(0, Some(0), {})) && s.disk.token.Whole?
    ensures !s.proc.value.resume && s.proc.value.exit.StillRunning?
    ensures StreamingToken(setup, s.proc.value.token, true)
    ensures StreamingToken(setup, s.disk.token.token, !failRestoreSave)
    ensures s.history.runs == 1 && !s.history.forgotten
    ensures !s.history.dropped && !s.history.reopened
  {
    hide Do, Run;
    es, s := FirstRunDumps(setup, t);
    es, s := RestoredAndStreaming(setup, Fresh(setup, [], map[]), es, s, t, failRestoreSave);
  }

  predicate StreamingToken(setup: Setup, token: TokenData, restored: bool) {
    && token.key == KeyOf(setup.config) && token.mode.Online?
    && (token.pubAutoCreated <==> !setup.publicationBefore)
    && token.Has(Stage.Dump) && (token.Has(Restore) <==> restored) && !token.Has(Analyze)
  }

  /** A resumed run that finds the dump recorded, up to what it does next. */
  lemma ResumedPastDump(setup: Setup, init: State, es: seq<Event>, s: State) returns (es': seq<Event>, s': State)
    requires Run(setup, init, es) == Some(s) && setup.config.mode.Online? && Valid(setup.config.(resume := true))
    requires s.proc.None? && s.disk.token.Whole? && s.history.runs > 0
    requires Compatible(s.disk.token.token, setup.config) && s.disk.token.token.Has(Stage.Dump)
    ensures Run(setup, init, es') == Some(s')
    ensures var t := s.disk.token.token;
            s' == s.(proc := Some(Process(RestorePc(setup, t), NotSaving, true, t, None, None, StillRunning)),
                     history := s.history.(runs := s.history.runs + 1))
  {
    hide Run;
    es', s' := Begun(setup, init, es, s);
    es', s' := Then(setup, init, es', s', PlanDone({}));
  }

  // ------------------------------------------------------- no exported snapshot

  /** The process dies between creating the slot and recording the dump; one row is
      written before the resumed run dumps without the slot's snapshot. The row is in the
      archive and is replayed on top of it. */
  lemma ReusedSlotDuplicates(setup: Setup, c: Change)
    requires Ordinary(setup, c.table)
    ensures exists s :: Reachable(setup, s) && !s.history.forgotten && !s.history.reopened
                        && Restore in Recorded(s) && s.source.wal == [c] && s.history.applied == 1
                        && c.table in s.target.tables && s.target.tables[c.table] == [c, c]
  {
    hide Do, Run;
    var init := Fresh(setup, [], map[]);
    var es, s := DumpedWithoutSnapshot(setup, c);
    OneChange(c);
    es, s := RestoredAndStreaming(setup, init, es, s, c.table, false);
    es, s := Applied(setup, init, es, s, c);
    assert Reachable(setup, s);
  }

  lemma OneChange(c: Change)
    ensures Of([c], c.table) == [c] && [c][..1] == [c]
  {
  }

  /** Killed before its mark reached the disk, the slot is found again by the next run,
      which dumps what was written meanwhile. */
  lemma DumpedWithoutSnapshot(setup: Setup, c: Change) returns (es: seq<Event>, s: State)
    requires Ordinary(setup, c.table)
    ensures Run(setup, Fresh(setup, [], map[]), es) == Some(s)
    ensures s.proc.Some? && Waiting(s, RestorePc(setup, s.proc.value.token))
    ensures var token := s.proc.value.token;
            !token.Has(Restore) && !token.Has(Analyze)
    ensures s.source.wal == [c] && s.source.slot == Some(Slot(0, 0, false)) && s.target == Target(map[], None, None)
    ensures s.disk.archive == Some(Archive(1, None, {}))
    ensures !s.history.forgotten && !s.history.reopened && !s.history.dropped
  {
    hide Do, Run;
    var init := Fresh(setup, [], map[]);
    es, s := SlotCreated(setup, c.table);
    es, s := Dies(setup, init, es, s);
    es, s := Writes(setup, init, es, s, c);
    es, s := SlotFoundAgain(setup, init, es, s);
    es, s := Dumped(setup, init, es, s);
    es, s := Saved(setup, init, es, s);
  }

  lemma SlotFoundAgain(setup: Setup, init: State, es: seq<Event>, s: State) returns (es': seq<Event>, s': State)
    requires Run(setup, init, es) == Some(s) && setup.config.mode.Online? && Valid(setup.config.(resume := true))
    requires s.proc.None? && s.source.publication && s.history.runs == 1
    requires s.disk.token.Missing? || s.disk.token == Whole(FirstToken(setup))
    requires s.source.slot == Some(Slot(0, 0, false))
    ensures Run(setup, init, es') == Some(s') && Waiting(s', AtSplitPlan)
    ensures var p := s'.proc.value;
            && p.token.completed == {PrepareSnapshot} && p.token.snapshotName.None? && p.held.None? && p.resume
    ensures s'.source == s.source.(exported := s.source.exported + 1) && s'.target == s.target
    ensures s'.history.forgotten == s.history.forgotten && s'.history.reopened == s.history.reopened
    ensures s'.history.dropped == s.history.dropped
  {
    hide Run;
    es', s' := Begun(setup, init, es, s);
    es', s' := Then(setup, init, es', s', PublicationDone);
    es', s' := Then(setup, init, es', s', SlotDone);
    es', s' := Saved(setup, init, es', s');
  }

  // ------------------------------------------------------------- a failed save

  /** With `--drop-target-first`, the save of the Restore mark fails and the run streams
      on; the process dies, and the restore is forgotten. The resumed run restores the
      archive again under a subscription whose origin is already past the change. The
      change is lost. */
  lemma FailedSaveLosesChange(setup: Setup, c: Change)
    requires Ordinary(setup, c.table) && setup.config.dropTargetFirst
    ensures exists s :: Reachable(setup, s) && s.history.forgotten && !s.history.reopened
                        && Restore in Recorded(s) && s.source.wal == [c] && s.history.applied == 1
                        && s.disk.archive == Some(Archive(0, Some(0), {}))
                        && s.target.sub.Some? && s.target.sub.value.origin == 1
                        && c.table in s.target.tables && s.target.tables[c.table] == []
  {
    hide Do, Run;
    var init := Fresh(setup, [], map[]);
    var es, s := FirstRunStreams(setup, c.table, true);
    es, s := Writes(setup, init, es, s, c);
    es, s := Applied(setup, init, es, s, c);
    es, s := Dies(setup, init, es, s);
    es, s := ResumedPastDump(setup, init, es, s);
    es, s := EmptyLoaded(setup, init, es, s, c.table);
    assert Reachable(setup, s);
  }

  // -------------------------------------------------------- a dropped subscription

  /** A cutover drops the subscription, and with it the origin, while the slot is kept or
      cannot be dropped. A later `--resume` creates the subscription anew, and the worker
      starts again at the slot's confirmed position. */
  lemma ResumeAfterCutoverDuplicates(setup: Setup, c: Change)
    requires Ordinary(setup, c.table) && setup.config.online.dropSubscriptionOnCutover
    ensures exists s :: Reachable(setup, s) && !s.history.forgotten && s.history.reopened
                        && Restore in Recorded(s) && s.source.wal == [c] && s.history.applied == 1
                        && s.disk.archive == Some(Archive(0, Some(0), {}))
                        && c.table in s.target.tables && s.target.tables[c.table] == [c, c]
  {
    hide Do, Run;
    var init := Fresh(setup, [], map[]);
    var es, s := FirstRunStreams(setup, c.table, false);
    es, s := Writes(setup, init, es, s, c);
    es, s := Applied(setup, init, es, s, c);
    es, s := CutOver(setup, init, es, s, false);
    es, s := ResumedPastDump(setup, init, es, s);
    es, s := Streaming(setup, init, es, s);
    es, s := Applied(setup, init, es, s, c);
    assert Reachable(setup, s);
  }

  /** What a cutover leaves of a subscription. */
  function Torn(setup: Setup, target: Target): Target
    requires target.sub.Some?
  {
    if setup.config.online.dropSubscriptionOnCutover then Target(target.tables, None, None)
    else target.(sub := Some(target.sub.value.(enabled := false)), worker := None)
  }

  /** What it leaves of the source, if its clean-up gets through or, if not `tidy`, fails. */
  function Cleaned(setup: Setup, source: Source, created: bool, tidy: bool): Source
    requires source.slot.Some?
  {
    source.(publication := source.publication && !(created && tidy),
            slot := if tidy && setup.config.online.dropSlotOnCutover then None
                    else Some(source.slot.value.(active := false)))
  }

  lemma CutOver(setup: Setup, init: State, es: seq<Event>, s: State, tidy: bool)
    returns (es': seq<Event>, s': State)
    requires Run(setup, init, es) == Some(s) && Waiting(s, AtApply)
    requires s.target.sub.Some? && s.source.slot.Some? && s.proc.value.token.Has(Restore)
    ensures Run(setup, init, es') == Some(s')
    ensures var token := s.proc.value.token.(lastAppliedLsn := Some(0));
            s' == s.(proc := None,
                     source := Cleaned(setup, s.source, token.pubAutoCreated, tidy),
                     target := Torn(setup, s.target),
                     disk := s.disk.(token := Whole(token), tmp := Missing),
                     history := s.history.(saved := s.history.saved + {token},
                                           dropped := s.history.dropped || setup.config.online.dropSubscriptionOnCutover))
  {
    hide Do, Run;
    es', s' := TornDown(setup, init, es, s);
    es', s' := Reported(setup, init, es', s', tidy);
    es', s' := Closed(setup, init, es', s', tidy);
  }

  lemma TornDown(setup: Setup, init: State, es: seq<Event>, s: State) returns (es': seq<Event>, s': State)
    requires Run(setup, init, es) == Some(s) && Waiting(s, AtApply)
    requires s.target.sub.Some?
    ensures Run(setup, init, es') == Some(s')
    ensures s' == s.(proc := Some(s.proc.value.(exit := ByCutover, at := AtLoopReport)),
                     target := Torn(setup, s.target),
                     history := s.history.(dropped := s.history.dropped || setup.config.online.dropSubscriptionOnCutover))
  {
    hide Run;
    es', s' := LoopLeft(setup, init, es, s);
    if setup.config.online.dropSubscriptionOnCutover {
      es', s' := Then(setup, init, es', s', TearDetached(true));
      es', s' := Then(setup, init, es', s', TearDropped(true));
    }
  }

  lemma LoopLeft(setup: Setup, init: State, es: seq<Event>, s: State) returns (es': seq<Event>, s': State)
    requires Run(setup, init, es) == Some(s) && Waiting(s, AtApply)
    requires s.target.sub.Some?
    ensures Run(setup, init, es') == Some(s')
    ensures s' == s.(proc := Some(s.proc.value.(exit := ByCutover,
                                                at := if setup.config.online.dropSubscriptionOnCutover
                                                      then AtTearDetach else AtLoopReport)),
                     target := Target(s.target.tables, Some(s.target.sub.value.(enabled := false)), None))
  {
    hide Run;
    es', s' := Then(setup, init, es, s, LoopEnded(ByCutover));
    es', s' := Then(setup, init, es', s', TearDisabled(true));
    es', s' := Then(setup, init, es', s', WorkerStop);
  }

  lemma Reported(setup: Setup, init: State, es: seq<Event>, s: State, tidy: bool)
    returns (es': seq<Event>, s': State)
    requires Run(setup, init, es) == Some(s) && Waiting(s, AtLoopReport)
    requires s.proc.value.exit.ByCutover?
    ensures Run(setup, init, es') == Some(s')
    ensures var token := s.proc.value.token.(lastAppliedLsn := Some(0));
            s' == s.(proc := Some(s.proc.value.(token := token, at := SlotCleanupPc(setup))),
                     source := s.source.(publication := s.source.publication && !(token.pubAutoCreated && tidy)),
                     disk := s.disk.(token := Whole(token), tmp := Missing),
                     history := s.history.(saved := s.history.saved + {token}))
  {
    hide Run;
    es', s' := Then(setup, init, es, s, LoopReported(0));
    es', s' := Saved(setup, init, es', s');
    es', s' := PublicationCleaned(setup, init, es', s', tidy);
  }

  /** The publication is dropped, if the migration created it; that may fail. */
  lemma PublicationCleaned(setup: Setup, init: State, es: seq<Event>, s: State, tidy: bool)
    returns (es': seq<Event>, s': State)
    requires Run(setup, init, es) == Some(s) && s.proc.Some? && s.proc.value.exit.ByCutover?
    requires Waiting(s, AfterLoopPc(setup, s.proc.value))
    ensures Run(setup, init, es') == Some(s')
    ensures var created := s.proc.value.token.pubAutoCreated;
            s' == s.(proc := Some(s.proc.value.(at := SlotCleanupPc(setup))),
                     source := s.source.(publication := s.source.publication && !(created && tidy)))
  {
    hide Run;
    es', s' := es, s;
    if s'.proc.value.at.AtSequences? {
      es', s' := Then(setup, init, es', s', SequencesDone);
    }
    if s'.proc.value.at.AtDropPublication? {
      es', s' := Then(setup, init, es', s', PublicationDropped(tidy));
    }
  }

  /** The run ends; the slot has been dropped, if it is to be, or that has failed. */
  lemma Closed(setup: Setup, init: State, es: seq<Event>, s: State, tidy: bool)
    returns (es': seq<Event>, s': State)
    requires Run(setup, init, es) == Some(s) && Waiting(s, SlotCleanupPc(setup))
    requires s.source.slot.Some? && s.target.worker.None? && Restore in StagesOnDisk(s)
    ensures Run(setup, init, es') == Some(s')
    ensures s' == s.(proc := None, source := Cleaned(setup, s.source, false, tidy))
  {
    hide Run;
    es', s' := Then(setup, init, es, s, SlotReleased);
    es', s' := SlotCleaned(setup, init, es', s', tidy);
    es', s' := Then(setup, init, es', s', Finish);
  }

  lemma SlotCleaned(setup: Setup, init: State, es: seq<Event>, s: State, tidy: bool)
    returns (es': seq<Event>, s': State)
    requires Run(setup, init, es) == Some(s) && Waiting(s, SlotCleanupPc(setup))
    requires s.source.slot.Some? && !s.source.slot.value.active
    ensures Run(setup, init, es') == Some(s')
    ensures s' == s.(proc := Some(s.proc.value.(at := AtComplete)), source := Cleaned(setup, s.source, false, tidy))
  {
    hide Run;
    es', s' := es, s;
    if s.proc.value.at.AtCleanupWait? {
      es', s' := Then(setup, init, es', s', CleanupWaited);
      es', s' := Then(setup, init, es', s', SlotDropped(tidy));
    }
  }
}
