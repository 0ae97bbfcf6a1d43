/** `run_offline` and `run_online` (`pg_dbmigrator/src/orchestrator.rs`) and the apply phase
    they end in, as the imperative code they are. The methods branch on the token as the
    original does; each awaited call acts on the world through `Await`, before and during
    which the rest of the world moves on and the process may be killed. Every run is shown
    to be a history of module Protocol, so that what holds of all histories becomes the
    contract of the two entry points. */
module Migrator {
  import opened Prelude
  import opened Config
  import opened Resume
  import opened Protocol
  import opened ProtocolInvariant
  import opened ProtocolSteps
  import opened ProtocolTheorems
  import opened ApplyLoop
  import opened RunEffects
  import SplitPages
  import SplitCopy
  import SplitRoutes
  import Verify

  class Migrator {
    const setup: Setup
    /** Whether this build checks integer arithmetic for overflow. */
    const checked: bool
    /** The outside world, and in `world.proc` what module Protocol knows of this process. */
    var world: State
    /** What the present run meets. */
    var fate: Fate
    // The local state of the run.
    var resume: bool
    var token: TokenData
    var preparedStream: Option<Snapshot>
    var split: Option<SplitContext>
    var splitTables: seq<SplitCopy.SplitTable>
    var exit: LoopExit
    var stats: Stats
    /** The bags of rows the streams of the direct copy left in the tables. */
    var copied: map<Table, multiset<string>>
    /** The world as the last call found it; what a call returns is read off it. */
    var before: State

    ghost const origin: State
    ghost var past: seq<Event>
    /** The effects of stages so far, in all runs. */
    ghost var deeds: seq<Event>
    /** The history and the world as they were when this run began, and whether it has left
        its loop by cutover since. */
    ghost var runStart: seq<Event>
    ghost var start: State
    ghost var cutOver: bool
    /** The world as the verification counted it, and how many turns the apply loop took. */
    ghost var counted: State
    ghost var loopTurns: nat

    /** The world is where the history recorded so far leads; the history only grows; and
        this run has dropped nothing unless it has left its loop by cutover. */
    ghost predicate Valid()
      reads `world, `past, `deeds, `runStart, `start, `cutOver
    {
      && Init(setup, origin) && Run(setup, origin, past) == Some(world) && runStart <= past
      && deeds == Deeds(past)
      && (LeftByCutover(world) ==> cutOver)
      && (cutOver ==> setup.config.mode.Online?)
      && (!cutOver ==> Keeps(start, world))
      && (world.proc.Some? ==> world.history.forgotten == start.history.forgotten)
    }

    ghost function Local(at: Pc, save: SaveStep): Process
      reads this
    {
      Process(at, save, resume, token, preparedStream, split, exit)
    }

    /** Between two awaited calls: the protocol's process is exactly this run's local
        state, and its next effect is `at`. */
    ghost predicate Awaits(at: Pc)
      reads this
    {
      Valid() && world.proc == Some(Local(at, NotSaving)) && (cutOver ==> exit.ByCutover?)
    }

    /** The token has just been changed in memory. */
    ghost predicate MustSave(at: Pc)
      reads this
    {
      Valid() && world.proc == Some(Local(at, WritingTmp)) && (cutOver ==> exit.ByCutover?)
    }

    /** However the world moves on by itself, the effect will be possible. */
    ghost predicate Sure(e: Event)
      reads this
    {
      forall s :: Reachable(setup, s) && Undisturbed(world, s) ==> Do(setup, s, e).Some?
    }

    constructor (setup: Setup, checked: bool, world: State, fate: Fate)
      requires Init(setup, world)
      ensures Valid() && this.world == world && this.setup == setup && this.checked == checked && past == []
    {
      this.setup, this.checked, this.world, origin, before := setup, checked, world, world, world;
      this.fate := fate;
      resume, token := false, NewToken(setup.config);
      preparedStream, split, splitTables, exit := None, None, [], StillRunning;
      stats, copied := Stats(0, 0, 0, false), map[];
      past, deeds, runStart, start, cutOver := [], [], [], world, false;
      counted, loopTurns := world, 0;
    }

    // ------------------------------------------------------------ the outside world

    method Happens(e: Event)
      requires Valid() && Do(setup, world, e).Some?
      requires e.Start? ==> world.history.forgotten == start.history.forgotten
      modifies `world, `past, `deeds, `before, `cutOver
      ensures Valid() && before == old(world) && Do(setup, before, e) == Some(world)
      ensures cutOver == (old(cutOver) || LeftByCutover(world))
      ensures deeds == old(deeds) + if Deed(e) then [e] else []
    {
      hide Do, Deed;
      StepDropsNothing(e, Do(setup, world, e).value);
      before := world;
      past := past + [e];
      world := Do(setup, world, e).value;
      cutOver := cutOver || LeftByCutover(world);
      assert past[..|past| - 1] == old(past);
      deeds := Deeds(past);
    }

    lemma StepDropsNothing(e: Event, s: State)
      requires Valid() && Do(setup, world, e) == Some(s)
      ensures !LeftByCutover(world) ==> Keeps(world, s)
      ensures LeftByCutover(s) && !LeftByCutover(world) ==> setup.config.mode.Online?
      ensures s.proc.Some? ==> s.history.forgotten == world.history.forgotten && (world.proc.Some? || e.Start?)
    {
      hide Do, Inv;
      assert Reachable(setup, world);
      ReachableInv(setup, world);
      StepKeeps(setup, world, e, s);
      if LeftByCutover(s) && !LeftByCutover(world) { AppliesOnline(setup, world); }
      if s.proc.Some? { RunningRemembers(setup, world, e, s); }
    }

    /** The source is written, the apply worker and its connection come and go. */
    method Others()
      requires Valid()
      modifies `world, `past, `deeds, `before, `cutOver
      ensures Valid() && Undisturbed(old(world), world) && cutOver == old(cutOver) && deeds == old(deeds)
      ensures world.proc == old(world).proc && world.disk == old(world).disk
    {
      hide Do, Deeds, Keeps, Run, Init;
      var moves: seq<Event> := *;
      for k := 0 to |moves|
        invariant Valid() && Undisturbed(old(world), world) && cutOver == old(cutOver) && deeds == old(deeds)
      {
        var e := moves[k];
        if Elsewhere(e) && Do(setup, world, e).Some? {
          ElsewhereIsUndisturbed(setup, world, e, Do(setup, world, e).value);
          Happens(e);
        }
      }
    }

    /** In a steady run the worker goes when it should, and the source notices. */
    method WorkerGoes()
      requires Valid()
      modifies `world, `past, `deeds, `before, `cutOver
      ensures Valid() && Undisturbed(old(world), world) && cutOver == old(cutOver) && deeds == old(deeds)
      ensures world.proc == old(world).proc && world.disk == old(world).disk
      ensures fate.steady ==> world.target.worker.None?
      ensures fate.steady ==> world.source.slot.None? || !world.source.slot.value.active
    {
      hide Do, Deeds, Keeps, Run, Init;
      Others();
      if fate.steady {
        ghost var settled := world;
        GoesAndIsNoticed(setup, world);
        Happens(WorkerStop);
        ElsewhereIsUndisturbed(setup, settled, WorkerStop, world);
        if world.source.slot.Some? {
          ghost var gone := world;
          Happens(SlotReleased);
          ElsewhereIsUndisturbed(setup, gone, SlotReleased, world);
        }
      }
    }

    method Dies()
      requires Valid() && world.proc.Some?
      modifies `world, `past, `deeds, `before, `cutOver
      ensures Valid() && world.proc.None? && deeds == old(deeds) && before == old(world)
      ensures world.disk.token == old(world.disk.token)
      ensures world.source == old(world).source && world.target.sub == old(world).target.sub
    {
      var wreck: Wreck := *;
      Happens(Die(wreck));
    }

    /** One awaited call. It fails when the world does not permit it, or for any other
        reason, or the process is killed in it; either way the run is over. In a steady run
        it does not fail if it is bound to be possible. */
    method Await(e: Event) returns (r: Outcome<RunError>)
      requires Valid() && world.proc.Some? && !e.Start? && !e.Die? && !Elsewhere(e)
      modifies `world, `past, `deeds, `before, `cutOver
      ensures Valid()
      ensures r.Pass? ==> Undisturbed(old(world), before) && Do(setup, before, e) == Some(world)
      ensures r.Pass? ==> before.proc == old(world).proc && before.disk == old(world).disk
      ensures r.Pass? ==> Leaves(before, e, world) && Reachable(setup, before)
      ensures r.Pass? && LeavesTarget(e) && LeavesSource(e) ==> MovedOn(old(world), world)
      ensures r.Pass? ==> MovedOn(old(world), before)
      ensures r.Pass? ==> cutOver == (old(cutOver) || LeftByCutover(world))
      ensures r.Pass? ==> deeds == old(deeds) + if Deed(e) then [e] else []
      ensures r.Fail? ==> world.proc.None? && world.disk.token == old(world.disk.token) && deeds == old(deeds)
      ensures r != Fail(Refused)
      ensures fate.steady && Free(old(world).proc.value, e) ==> r.Pass?
      ensures fate.steady && old(Sure(e)) ==> r.Pass?
    {
      hide Do, Deed, Valid, Leaves, LeavesTarget, LeavesSource, MovedOn, Free;
      Others();
      IsReachable();
      if Free(world.proc.value, e) { FreeIsPossible(setup, world, world.proc.value, e); }
      var killed: bool := *;
      if (killed && !fate.steady) || Do(setup, world, e).None? {
        Dies();
        return Fail(Stopped);
      }
      Happens(e);
      EffectLeaves(setup, before, e, world);
      assert LeavesTarget(e) && LeavesSource(e) ==> MovedOn(before, world) by { LeavesMovesOn(before, e, world); }
      MovesAlong(old(world), before, world);
      return Pass;
    }

    lemma IsReachable()
      requires Valid()
      ensures Reachable(setup, world)
    {
    }

    // ------------------------------------------------------------------- the token

    /** Write the token beside its file, then rename it into place. A failure is logged
        and the run goes on. Whatever happens, the file is untouched or the new token. */
    method SaveResume(ghost at: Pc) returns (r: Outcome<RunError>)
      requires MustSave(at)
      modifies `world, `past, `deeds, `before, `cutOver
      ensures Valid() && deeds == old(deeds)
      ensures world.disk.token == old(world.disk.token) || world.disk.token == Whole(token)
      ensures r.Pass? ==> Awaits(at) && MovedOn(old(world), world)
      ensures r.Pass? ==> world.disk.archive == old(world.disk.archive)
      ensures r.Pass? && !world.history.saveFailed ==> world.disk.token == Whole(token) && world.disk.tmp.Missing?
      ensures r.Fail? ==> world.proc.None?
      ensures r != Fail(Refused)
      ensures fate.steady ==> r.Pass? && world.disk.token == Whole(token)
    {
      hide Do, Valid, Undisturbed, MovedOn, Leaves, LeavesTarget, LeavesSource, Deed, Free, Sure;
      SavesAreFree(Local(at, WritingTmp));
      var writeFails: bool := *;
      if writeFails && !fate.steady {
        r := Await(SaveFailed);
        if r.Pass? { SaveEffects(setup, before, Local(at, WritingTmp)); }
        return;
      }
      :- Await(TmpWritten);
      SaveEffects(setup, before, Local(at, WritingTmp));
      ghost var written := world;
      r := RenameToken(at);
      MovesAlong(old(world), written, world);
    }

    method RenameToken(ghost at: Pc) returns (r: Outcome<RunError>)
      requires Valid() && world.proc == Some(Local(at, Renaming)) && (cutOver ==> exit.ByCutover?)
      requires world.disk.tmp == Whole(token)
      modifies `world, `past, `deeds, `before, `cutOver
      ensures Valid() && deeds == old(deeds)
      ensures world.disk.token == old(world.disk.token) || world.disk.token == Whole(token)
      ensures r.Pass? ==> Awaits(at) && MovedOn(old(world), world)
      ensures r.Pass? ==> world.disk.archive == old(world.disk.archive)
      ensures r.Pass? && !world.history.saveFailed ==> world.disk.token == Whole(token) && world.disk.tmp.Missing?
      ensures r.Fail? ==> world.proc.None?
      ensures r != Fail(Refused)
      ensures fate.steady ==> r.Pass? && world.disk.token == Whole(token)
    {
      hide Do, Valid, Undisturbed, MovedOn, Leaves, LeavesTarget, LeavesSource, Deed, Free, Sure;
      SavesAreFree(Local(at, Renaming));
      var renameFails: bool := *;
      r := Await(if renameFails && !fate.steady then SaveFailed else TokenRenamed);
      if r.Pass? { SaveEffects(setup, before, Local(at, Renaming)); }
    }

    /** The token a run starts from: on `--resume` the one on disk, if it is compatible. */
    method LoadOrInitResume() returns (r: Outcome<RunError>)
      requires Valid() && world.proc.None? && !cutOver && world.history.forgotten == start.history.forgotten
      modifies `world, `past, `deeds, `before, `cutOver, `resume, `token, `preparedStream, `split, `exit
      ensures Valid() && deeds == old(deeds)
      ensures r.Pass? <==> MayStart(setup, old(world))
      ensures r.Pass? ==> token == TokenFound(setup, old(world)) && resume == (old(world).history.runs > 0)
      ensures r.Pass? ==> Awaits(VacuumPc(setup, token)) && preparedStream.None? && split.None? && exit.StillRunning?
      ensures r.Pass? ==> world.disk == old(world.disk) && world.source == old(world).source
      ensures r.Pass? ==> world.target == old(world).target && world.history.runs == old(world).history.runs + 1
      ensures r.Pass? && !resume ==> token.completed == {}
      ensures r.Pass? && setup.config.splitTablesLargerThan.Some? ==> setup.config.splitMaxParts > 0 && !resume
      ensures r.Fail? ==> world == old(world) && r.error.Refused?
    {
      hide Do, Run, Init, Keeps, Deeds, VacuumPc, MayStart, TokenFound;
      :- ReadToken();
      preparedStream, split, exit := None, None, StillRunning;
      StartEffect(setup, world);
      Happens(Start);
      return Pass;
    }

    /** A run may start if its configuration is valid, and what it resumes is not torn and was
        written for the same migration. */
    method ReadToken() returns (r: Outcome<RunError>)
      modifies `resume, `token
      ensures r.Pass? <==> MayStart(setup, world)
      ensures r.Pass? <==>
                && Config.Valid(setup.config.(resume := world.history.runs > 0))
                && (world.history.runs > 0 ==>
                      && !world.disk.token.Torn?
                      && (world.disk.token.Whole? ==> Compatible(world.disk.token.token, setup.config)))
      ensures r.Pass? ==> token == TokenFound(setup, world) && resume == (world.history.runs > 0)
      ensures r.Pass? ==>
                token == if world.history.runs > 0 && world.disk.token.Whole? then world.disk.token.token
                         else NewToken(setup.config)
      ensures r.Pass? && (world.history.runs == 0 || world.disk.token.Missing?) ==>
                token.completed == {} && !token.pubAutoCreated
      ensures r.Pass? && setup.config.splitTablesLargerThan.Some? ==> setup.config.splitMaxParts > 0 && !resume
      ensures r.Fail? ==> r.error.Refused?
    {
      hide KeyOf, ValidateOnline, ValidateSplitCopy;
      PartsChecked(setup);
      ResumeIsNotCompared(NewToken(setup.config), setup.config);
      var config := setup.config.(resume := world.history.runs > 0);
      if Validate(config).Some? { return Fail(Refused); }
      resume := config.resume;
      token := NewToken(setup.config);
      if resume {
        match world.disk.token
        case Torn => return Fail(Refused);
        case Missing =>
        case Whole(t) =>
          token := t;
          ResumeIsNotCompared(t, setup.config);
      }
      if resume && !Compatible(token, config) { return Fail(Refused); }
      return Pass;
    }

    // ---------------------------------------------------------- up to the restore

    method RunSourceVacuumStage() returns (r: Outcome<RunError>)
      requires Awaits(VacuumPc(setup, token))
      modifies `world, `past, `deeds, `before, `cutOver, `token
      ensures Valid()
      ensures r.Pass? ==> Awaits(PreparePc(setup, token)) && MovedOn(old(world), world)
      ensures r.Pass? ==>
                deeds == old(deeds) + if setup.config.skipSourceVacuum || old(token).Has(SourceVacuum) then []
                                      else [VacuumDone(fate.statements.vacuum)]
      ensures r.Pass? ==>
                token == if setup.config.skipSourceVacuum || !fate.statements.vacuum then old(token)
                         else old(token).(completed := old(token).completed + {SourceVacuum})
      ensures r.Fail? ==> world.proc.None?
      ensures r != Fail(Refused) && (fate.steady ==> r.Pass?)
    {
      hide Do, Valid, Undisturbed, MovedOn, Leaves, Sure, PreparePc;
      AlreadyMarked(token, SourceVacuum);
      MovesAlong(world, world, world);
      if setup.config.skipSourceVacuum || token.Has(SourceVacuum) { return Pass; }
      var ok := fate.statements.vacuum;
      :- Await(VacuumDone(ok));
      VacuumEffect(setup, before, before.proc.value, ok, world);
      if ok {
        token := token.Marked(SourceVacuum);
        ghost var vacuumed := world;
        r := SaveResume(PreparePc(setup, token));
        MovesAlong(old(world), vacuumed, world);
        return;
      }
      return Pass;
    }

    /** The token remembers that the migration created the publication exactly when it was
        missing. */
    method EnsurePublication() returns (r: Outcome<RunError>)
      requires Awaits(AtPublication)
      modifies `world, `past, `deeds, `before, `cutOver, `token
      ensures Valid()
      ensures r.Pass? ==> Awaits(AtSlot) && world.source.publication && deeds == old(deeds) + [PublicationDone]
      ensures r.Pass? ==> MovedOn(old(world).(source := old(world).source.(publication := true)), world)
      ensures r.Pass? ==>
                token == if old(world).source.publication then old(token) else old(token).(pubAutoCreated := true)
      ensures r.Pass? ==> old(world).source.publication || setup.config.online.autoCreatePublication
      ensures r.Fail? ==> world.proc.None?
      ensures r != Fail(Refused)
      ensures fate.steady && (old(world).source.publication || setup.config.online.autoCreatePublication) ==> r.Pass?
    {
      hide Do, Valid, Undisturbed, MovedOn, Leaves, Sure;
      if world.source.publication || setup.config.online.autoCreatePublication { PublicationIsSure(); }
      :- Await(PublicationDone);
      PublicationEffect(setup, before, before.proc.value, world);
      MovedKeys(old(world), before);
      PublicationMovesOn(old(world), before, world);
      ghost var published := world;
      var created := !before.source.publication;
      if created {
        token := token.(pubAutoCreated := true);
        r := SaveResume(AtSlot);
        PublicationMovesAlong(old(world), published, world);
        return;
      }
      return Pass;
    }

    lemma PublicationIsSure()
      requires world.proc.Some? && world.proc.value.save.NotSaving? && world.proc.value.at.AtPublication?
      requires world.source.publication || setup.config.online.autoCreatePublication
      ensures Sure(PublicationDone)
    {
      hide Do;
      forall s | Reachable(setup, s) && Undisturbed(world, s) ensures Do(setup, s, PublicationDone).Some? {
        PublicationIsPossible(setup, s, s.proc.value);
      }
    }

    /** A new slot brings a stream that keeps its exported snapshot alive. */
    method PrepareReplicationSlot() returns (r: Outcome<RunError>)
      requires Awaits(AtSlot)
      modifies `world, `past, `deeds, `before, `cutOver, `token, `preparedStream
      ensures Valid()
      ensures r.Pass? ==> Awaits(AtSplitPlan) && world.source.slot.Some? && deeds == old(deeds) + [SlotDone]
      ensures r.Pass? ==> MovedOn(old(world).(source := old(world).source.(slot := world.source.slot)), world)
      ensures r.Pass? ==> (preparedStream.Some? <==> old(world).source.slot.None?)
      ensures r.Pass? ==>
                token == old(token).(completed := old(token).completed + {PrepareSnapshot},
                                     snapshotName := if preparedStream.Some? then Some(preparedStream.value.id)
                                                     else None)
      ensures r.Fail? ==> world.proc.None?
      ensures r != Fail(Refused) && (fate.steady ==> r.Pass?)
    {
      hide Do, Valid, Undisturbed, MovedOn, Leaves, Sure;
      :- Await(SlotDone);
      SlotEffect(setup, before, before.proc.value, world);
      SlotMovesOn(old(world), before, world);
      ghost var created1 := world;
      var created := before.source.slot.None?;
      preparedStream := if created then Some(Snapshot(before.source.exported, |before.source.wal|)) else None;
      token := token.Marked(PrepareSnapshot);
      token := token.(snapshotName := if created then Some(preparedStream.value.id) else None);
      r := SaveResume(AtSplitPlan);
      SlotMovesAlong(old(world), created1, world);
    }

    /** Up to the dump: nothing of this is done again once the dump is recorded. */
    method PrepareStream() returns (r: Outcome<RunError>)
      requires Awaits(PreparePc(setup, token)) && setup.config.mode.Online?
      modifies `world, `past, `deeds, `before, `cutOver, `token, `preparedStream
      ensures Valid()
      ensures r.Pass? ==> Awaits(AtSplitPlan)
      ensures old(token).Has(Stage.Dump) ==>
                r.Pass? && world == old(world) && token == old(token) && deeds == old(deeds)
      ensures r.Pass? && !old(token).Has(Stage.Dump) ==>
                && deeds == old(deeds) + [PublicationDone, SlotDone]
                && world.source.publication && world.source.slot.Some?
                && (old(world).source.publication || setup.config.online.autoCreatePublication)
                && (token.snapshotName.Some? <==> old(world).source.slot.None?)
                && (preparedStream.Some? <==> token.snapshotName.Some?)
                && token == old(token).(completed := old(token).completed + {PrepareSnapshot},
                                        snapshotName := token.snapshotName,
                                        pubAutoCreated := old(token).pubAutoCreated || !old(world).source.publication)
      ensures r.Pass? ==>
                MovedOn(old(world).(source := old(world).source.(publication := world.source.publication,
                                                                 slot := world.source.slot)), world)
      ensures r.Fail? ==> world.proc.None?
      ensures r != Fail(Refused)
      ensures fate.steady && (old(world).source.publication || setup.config.online.autoCreatePublication) ==> r.Pass?
    {
      hide Do, Valid;
      if token.Has(Stage.Dump) { return Pass; }
      :- EnsurePublication();
      r := PrepareReplicationSlot();
    }

    /** Which tables bypass the archive, and the snapshot they share with it. */
    method PrepareSplit() returns (r: Outcome<RunError>)
      requires Awaits(AtSplitPlan) && PlanParameters(setup.config) && split.None?
      modifies `world, `past, `deeds, `before, `cutOver, `preparedStream, `split, `splitTables
      ensures Valid()
      ensures r.Pass? ==> Awaits(DumpPc(setup, token)) && Planned() && MovedOn(old(world), world)
      ensures r.Pass? ==> deeds == old(deeds) + [PlanDone(SplitRoutes.Names(splitTables))]
      ensures r.Pass? ==> (split.Some? <==> splitTables != [])
      ensures r.Pass? && setup.config.splitTablesLargerThan.None? ==> splitTables == []
      ensures r.Pass? && split.Some? && setup.config.mode.Online? ==> token.snapshotName == Some(split.value.snapshotId)
      ensures r.Pass? && split.Some? && setup.config.mode.Offline? ==>
                preparedStream.Some? && preparedStream.value.id == split.value.snapshotId
      ensures r.Pass? && setup.config.mode.Online? ==> preparedStream == old(preparedStream)
      ensures r.Fail? ==> world.proc.None?
      ensures r != Fail(Refused)
      ensures fate.steady
              && (setup.config.splitTablesLargerThan.Some? ==>
                    && !(checked && setup.config.splitMaxParts == 0x8000_0000_0000_0000)
                    && (setup.config.mode.Online? ==> token.snapshotName.Some?)) ==>
                r.Pass?
    {
      hide Do, Valid, Workable, SplitRoutes.Names, Sure;
      splitTables :- PlanTables();
      r := ShareSnapshot();
    }

    /** The tables of the plan are read at the snapshot of the dump. */
    method ShareSnapshot() returns (r: Outcome<RunError>)
      requires Awaits(AtSplitPlan) && split.None? && Workable(splitTables)
      requires splitTables != [] ==> setup.config.splitTablesLargerThan.Some? && 0 < setup.config.splitMaxParts
      requires SplitRoutes.Names(splitTables) <= setup.tables
      modifies `world, `past, `deeds, `before, `cutOver, `preparedStream, `split
      ensures Valid()
      ensures r.Pass? ==> Awaits(DumpPc(setup, token)) && Planned() && MovedOn(old(world), world)
      ensures r.Pass? ==> deeds == old(deeds) + [PlanDone(SplitRoutes.Names(splitTables))]
      ensures r.Pass? ==> (split.Some? <==> splitTables != [])
      ensures r.Pass? && split.Some? && setup.config.mode.Online? ==> token.snapshotName == Some(split.value.snapshotId)
      ensures r.Pass? && split.Some? && setup.config.mode.Offline? ==>
                preparedStream.Some? && preparedStream.value.id == split.value.snapshotId
      ensures r.Pass? && setup.config.mode.Online? ==> preparedStream == old(preparedStream)
      ensures r.Fail? ==> world.proc.None?
      ensures r != Fail(Refused)
      ensures fate.steady && (splitTables == [] || !setup.config.mode.Online? || token.snapshotName.Some?) ==> r.Pass?
    {
      hide Do, DumpPc, Valid, Workable, SplitRoutes.Names, Undisturbed, MovedOn, Leaves;
      var plan := SplitRoutes.Names(splitTables);
      NamesEmpty(splitTables);
      if plan == {} || !setup.config.mode.Online? || token.snapshotName.Some? { PlanIsSure(plan); }
      hide Sure;
      :- Await(PlanDone(plan));
      PlanEffect(setup, before, before.proc.value, plan, world);
      if splitTables == [] { return Pass; }
      if setup.config.mode.Online? {
        split := Some(SplitContext(plan, token.snapshotName.value));
      } else {
        preparedStream := Some(Snapshot(before.source.exported, |before.source.wal|));
        split := Some(SplitContext(plan, preparedStream.value.id));
      }
      return Pass;
    }

    lemma PlanIsSure(plan: set<Table>)
      requires world.proc.Some? && world.proc.value.save.NotSaving? && world.proc.value.at.AtSplitPlan?
      requires plan <= setup.tables && (plan != {} ==> setup.config.splitTablesLargerThan.Some?)
      requires plan != {} && setup.config.mode.Online? ==> world.proc.value.token.snapshotName.Some?
      ensures Sure(PlanDone(plan))
    {
      hide Do;
      forall s | Reachable(setup, s) && Undisturbed(world, s) ensures Do(setup, s, PlanDone(plan)).Some? {
        PlanIsPossible(setup, s, s.proc.value, plan);
      }
    }

    lemma NamesEmpty(plan: seq<SplitCopy.SplitTable>)
      ensures SplitRoutes.Names(plan) == {} <==> plan == []
    {
      if plan != [] { assert plan[0].table in SplitRoutes.Names(plan); }
    }

    /** Plan, if there is a threshold, from what the source's catalog lists at this moment: the
        tables with columns and pages that are at or above the threshold, as far as it fits a
        signed integer. An overflow that is checked ends the process. */
    method PlanTables() returns (r: Outcome<RunError>, plan: seq<SplitCopy.SplitTable>)
      requires PlanParameters(setup.config) && Valid() && world.proc.Some?
      modifies `world, `past, `deeds, `before, `cutOver
      ensures Valid() && deeds == old(deeds)
      ensures r.Pass? ==> world == old(world) && cutOver == old(cutOver)
      ensures r.Pass? ==> Workable(plan) && SplitRoutes.Names(plan) <= setup.tables
      ensures r.Pass? && setup.config.splitTablesLargerThan.None? ==> plan == []
      ensures r.Pass? && setup.config.splitTablesLargerThan.Some?
              && (forall c :: c in fate.catalog ==> c.table in setup.tables && c.pages <= I64_MAX)
              && (forall i, j :: 0 <= i < j < |fate.catalog| ==> fate.catalog[i].table != fate.catalog[j].table) ==>
                forall c :: c in fate.catalog ==>
                  (c.table in SplitRoutes.Names(plan) <==>
                     && c.columns != [] && c.pages > 0
                     && (c.bytes >= setup.config.splitTablesLargerThan.value
                         || setup.config.splitTablesLargerThan.value > I64_MAX))
      ensures r.Fail? ==> world.proc.None?
      ensures r.Fail? ==>
                && setup.config.splitTablesLargerThan.Some?
                && checked && setup.config.splitMaxParts == 0x8000_0000_0000_0000
      ensures r != Fail(Refused)
    {
      hide Valid, SplitCopy.Planned;
      if setup.config.splitTablesLargerThan.None? { return Pass, []; }
      var catalog := fate.catalog;
      if !IsCatalog(setup.tables, catalog) {
        catalog := [];
      }
      var threshold := setup.config.splitTablesLargerThan.value;
      var planned := SplitCopy.PlanSplitTables(catalog, threshold, setup.config.splitMaxParts, checked);
      if planned.None? {
        Dies();
        return Fail(Stopped), [];
      }
      plan := planned.value;
      SplitCopy.ChosenDistinct(catalog, threshold);
      hide SplitPages.CutsAtSteps;
      assert forall i :: 0 <= i < |plan| ==> plan[i].table == SplitCopy.Chosen(catalog, threshold)[i].table;
      NamesChosen(catalog, threshold, plan);
      return Pass, plan;
    }

    /** A plan the streams can work on: no table twice, and the pages of each cut. */
    ghost predicate Workable(plan: seq<SplitCopy.SplitTable>) {
      && SplitCopy.Distinct(plan)
      && forall i :: 0 <= i < |plan| ==>
           && plan[i].pages > 0 && 0 < setup.config.splitMaxParts
           && SplitPages.CutsAtSteps(plan[i].parts, plan[i].pages, setup.config.splitMaxParts)
    }

    ghost predicate Planned()
      reads `split, `splitTables
    {
      && (split.Some? ==> split.value.plan == SplitRoutes.Names(splitTables) && 0 < setup.config.splitMaxParts)
      && Workable(splitTables)
    }

    /** The dump is recorded once pg_dump has succeeded, and not before. Online it reads the
        snapshot the token names, if any; offline the one exported for the direct copy. */
    method RunPgDump() returns (r: Outcome<RunError>)
      requires Awaits(AtDump)
      modifies `world, `past, `deeds, `before, `cutOver, `token
      ensures Valid()
      ensures r.Pass? ==> Awaits(RestorePc(setup, token)) && MovedOn(old(world), world)
      ensures r.Pass? ==> deeds == old(deeds) + [DumpDone]
      ensures r.Pass? ==> token == old(token).(completed := old(token).completed + {Stage.Dump})
      ensures r.Pass? ==> world.disk.archive.Some?
      ensures r.Pass? ==>
                world.disk.archive.value.snapshot == if setup.config.mode.Online? then old(token).snapshotName
                                                     else if split.Some? then Some(split.value.snapshotId) else None
      ensures r.Pass? ==> world.disk.archive.value.excluded == if split.Some? then split.value.plan else {}
      ensures world.disk.token == old(world.disk.token)
              || (deeds == old(deeds) + [DumpDone]
                  && world.disk.token == Whole(old(token).(completed := old(token).completed + {Stage.Dump})))
      ensures r.Fail? ==> world.proc.None?
      ensures r != Fail(Refused) && (fate.steady ==> r.Pass?)
    {
      hide Do, RestorePc, Valid, Undisturbed, MovedOn, Leaves;
      DumpIsSure();
      hide Sure;
      :- Await(DumpDone);
      DumpEffect(setup, before, before.proc.value, world);
      token := token.Marked(Stage.Dump);
      ghost var dumped := world;
      r := SaveResume(RestorePc(setup, token));
      MovesAlong(old(world), dumped, world);
    }

    lemma DumpIsSure()
      requires world.proc.Some? && world.proc.value.save.NotSaving? && world.proc.value.at.AtDump?
      ensures Sure(DumpDone)
    {
      hide Do, Reachable;
      forall s | Reachable(setup, s) && Undisturbed(world, s) ensures Do(setup, s, DumpDone).Some? {
        DumpIsPossible(setup, s, s.proc.value);
      }
    }

    /** One pg_restore, or one per section; the split tables follow the data. It takes a target
        that permits the restore, and in a steady run nothing else. */
    method RestoreArchive() returns (r: Outcome<RunError>)
      requires Awaits(if setup.config.splitSections then AtPreData else AtRestoreAll) && Planned()
      modifies `world, `past, `deeds, `before, `cutOver, `copied
      ensures Valid() && world.disk.token == old(world.disk.token)
      ensures r.Pass? ==> Awaits(AtRestored) && SameObjects(old(world), world)
      ensures r.Pass? ==>
                deeds == old(deeds) +
                         if setup.config.splitSections
                         then [PreDataDone, DataDone] + (if split.Some? then [SplitCopyDone] else []) + [PostDataDone]
                         else [RestoreAllDone] + if split.Some? then [SplitCopyDone] else []
      ensures r.Pass? ==> Permitted(setup, old(world).target.tables.Keys)
      ensures r.Fail? ==> world.proc.None?
      ensures r != Fail(Refused)
      ensures fate.steady && Permitted(setup, old(world).target.tables.Keys)
              && (split.Some? ==> !setup.config.scope.DataOnly?) ==>
                r.Pass?
    {
      hide Do, Valid, Planned, SameObjects, Permitted;
      if setup.config.splitSections {
        :- RestoreSections();
        ghost var loaded := world;
        r := RestorePostData();
        ObjectsAlong(old(world), loaded, world);
        return;
      }
      :- RestoreAtOnce();
      ghost var restored := world;
      r := RunSplitCopyStage(AtRestored);
      ObjectsAlong(old(world), restored, world);
    }

    method RestorePostData() returns (r: Outcome<RunError>)
      requires Awaits(AtPostData)
      modifies `world, `past, `deeds, `before, `cutOver
      ensures Valid() && world.disk.token == old(world.disk.token)
      ensures r.Pass? ==> Awaits(AtRestored) && SameObjects(old(world), world) && deeds == old(deeds) + [PostDataDone]
      ensures r.Fail? ==> world.proc.None?
      ensures r != Fail(Refused) && (fate.steady ==> r.Pass?)
    {
      hide Do, Valid, Undisturbed, MovedOn, SameObjects, Leaves, Sure;
      :- Await(PostDataDone);
      RestoreEffects(setup, before, before.proc.value, PostDataDone, world);
      ObjectsAlong(old(world), before, world);
      return Pass;
    }

    /** One pg_restore for everything. */
    method RestoreAtOnce() returns (r: Outcome<RunError>)
      requires Awaits(AtRestoreAll)
      modifies `world, `past, `deeds, `before, `cutOver
      ensures Valid() && world.disk.token == old(world.disk.token)
      ensures r.Pass? ==> Awaits(if split.Some? then AtSplitCopy else AtRestored)
      ensures r.Pass? ==> SameObjects(old(world), world) && deeds == old(deeds) + [RestoreAllDone]
      ensures r.Pass? ==> Permitted(setup, old(world).target.tables.Keys)
      ensures r.Fail? ==> world.proc.None?
      ensures r != Fail(Refused)
      ensures fate.steady && Permitted(setup, old(world).target.tables.Keys) ==> r.Pass?
    {
      hide Do, Valid, Undisturbed, MovedOn, SameObjects, Leaves, Permitted, Sure;
      AllIsSure();
      :- Await(RestoreAllDone);
      RestoreEffects(setup, before, before.proc.value, RestoreAllDone, world);
      RestoreIsPossible(setup, before, before.proc.value, RestoreAllDone);
      MovedKeys(old(world), before);
      ObjectsAlong(old(world), before, world);
      return Pass;
    }

    lemma AllIsSure()
      requires world.proc.Some? && world.proc.value.save.NotSaving?
      ensures world.proc.value.at.AtRestoreAll? && Permitted(setup, world.target.tables.Keys) ==> Sure(RestoreAllDone)
      ensures world.proc.value.at.AtPreData? && Permitted(setup, world.target.tables.Keys) ==> Sure(PreDataDone)
      ensures world.proc.value.at.AtData?
              && (!setup.config.scope.DataOnly? || setup.tables <= world.target.tables.Keys) ==>
                Sure(DataDone)
    {
      hide Do, Reachable, Permitted;
      forall s | Reachable(setup, s) && Undisturbed(world, s)
        ensures world.proc.value.at.AtRestoreAll? && Permitted(setup, world.target.tables.Keys) ==>
                  Do(setup, s, RestoreAllDone).Some?
        ensures world.proc.value.at.AtPreData? && Permitted(setup, world.target.tables.Keys) ==>
                  Do(setup, s, PreDataDone).Some?
        ensures world.proc.value.at.AtData?
                && (!setup.config.scope.DataOnly? || setup.tables <= world.target.tables.Keys) ==>
                  Do(setup, s, DataDone).Some?
      {
        if s.proc.value.at.AtRestoreAll? { RestoreIsPossible(setup, s, s.proc.value, RestoreAllDone); }
        if s.proc.value.at.AtPreData? { RestoreIsPossible(setup, s, s.proc.value, PreDataDone); }
        if s.proc.value.at.AtData? { DataIsPossible(setup, s, s.proc.value); }
      }
    }

    /** Up to the point where indexes are about to be built. */
    method RestoreSections() returns (r: Outcome<RunError>)
      requires Awaits(AtPreData) && setup.config.splitSections && Planned()
      modifies `world, `past, `deeds, `before, `cutOver, `copied
      ensures Valid() && world.disk.token == old(world.disk.token)
      ensures r.Pass? ==> Awaits(AtPostData) && SameObjects(old(world), world)
      ensures r.Pass? ==> deeds == old(deeds) + [PreDataDone, DataDone] + if split.Some? then [SplitCopyDone] else []
      ensures r.Pass? ==> Permitted(setup, old(world).target.tables.Keys)
      ensures r.Fail? ==> world.proc.None?
      ensures r != Fail(Refused)
      ensures fate.steady && Permitted(setup, old(world).target.tables.Keys)
              && (split.Some? ==> !setup.config.scope.DataOnly?) ==>
                r.Pass?
    {
      hide Do, Valid, Planned, Undisturbed, MovedOn, SameObjects, Leaves, Sure, Permitted;
      DataOnlyPermits(setup, world.target.tables.Keys);
      :- RestorePreData();
      ghost var created := world;
      :- RestoreData();
      ghost var loaded := world;
      ObjectsAlong(old(world), created, loaded);
      r := RunSplitCopyStage(AtPostData);
      ObjectsAlong(old(world), loaded, world);
    }

    method RestorePreData() returns (r: Outcome<RunError>)
      requires Awaits(AtPreData)
      modifies `world, `past, `deeds, `before, `cutOver
      ensures Valid() && world.disk.token == old(world.disk.token)
      ensures r.Pass? ==> Awaits(AtData) && SameObjects(old(world), world) && deeds == old(deeds) + [PreDataDone]
      ensures r.Pass? ==> setup.config.scope.DataOnly? || Permitted(setup, old(world).target.tables.Keys)
      ensures r.Pass? && setup.config.scope.DataOnly? ==> world.target.tables.Keys == old(world).target.tables.Keys
      ensures r.Fail? ==> world.proc.None?
      ensures r != Fail(Refused)
      ensures fate.steady && Permitted(setup, old(world).target.tables.Keys) ==> r.Pass?
    {
      hide Do, Valid, Undisturbed, MovedOn, SameObjects, Leaves, Sure, Permitted;
      AllIsSure();
      :- Await(PreDataDone);
      RestoreEffects(setup, before, before.proc.value, PreDataDone, world);
      RestoreIsPossible(setup, before, before.proc.value, PreDataDone);
      PreDataKeys(setup, before, before.proc.value, world);
      MovedKeys(old(world), before);
      ObjectsAlong(old(world), before, world);
      return Pass;
    }

    method RestoreData() returns (r: Outcome<RunError>)
      requires Awaits(AtData)
      modifies `world, `past, `deeds, `before, `cutOver
      ensures Valid() && world.disk.token == old(world.disk.token)
      ensures r.Pass? ==> Awaits(if split.Some? then AtSplitCopy else AtPostData)
      ensures r.Pass? ==> SameObjects(old(world), world) && deeds == old(deeds) + [DataDone]
      ensures r.Pass? && setup.config.scope.DataOnly? ==> setup.tables <= old(world).target.tables.Keys
      ensures r.Fail? ==> world.proc.None?
      ensures r != Fail(Refused)
      ensures fate.steady && (!setup.config.scope.DataOnly? || setup.tables <= old(world).target.tables.Keys) ==> r.Pass?
    {
      hide Do, Valid, Undisturbed, MovedOn, SameObjects, Leaves, Sure, Permitted;
      AllIsSure();
      :- Await(DataDone);
      RestoreEffects(setup, before, before.proc.value, DataDone, world);
      DataIsPossible(setup, before, before.proc.value);
      MovedKeys(old(world), before);
      ObjectsAlong(old(world), before, world);
      return Pass;
    }

    /** Run the streams of the plan; when they get through, the tables hold what the
        protocol's copy step says. */
    method RunSplitCopyStage(ghost next: Pc) returns (r: Outcome<RunError>)
      requires Awaits(if split.Some? then AtSplitCopy else next) && Planned()
      requires next == if setup.config.splitSections then AtPostData else AtRestored
      modifies `world, `past, `deeds, `before, `cutOver, `copied
      ensures Valid() && world.disk.token == old(world.disk.token)
      ensures r.Pass? ==> Awaits(next) && deeds == old(deeds) + if split.Some? then [SplitCopyDone] else []
      ensures r.Pass? ==> SameObjects(old(world), world)
      ensures split.None? ==> r.Pass? && world == old(world)
      ensures r.Pass? && split.Some? ==> copied == SplitRoutes.Bags(world.target.tables)
      ensures r.Fail? ==> world.proc.None?
      ensures r != Fail(Refused) && (fate.steady && !setup.config.scope.DataOnly? ==> r.Pass?)
    {
      if split.None? { return Pass; }
      hide Valid, Planned;
      r := RunStreams(next);
    }

    method RunStreams(ghost next: Pc) returns (r: Outcome<RunError>)
      requires split.Some? && Awaits(AtSplitCopy) && Planned()
      requires next == if setup.config.splitSections then AtPostData else AtRestored
      modifies `world, `past, `deeds, `before, `cutOver, `copied
      ensures Valid() && world.disk.token == old(world.disk.token)
      ensures r.Pass? ==> Awaits(next) && deeds == old(deeds) + [SplitCopyDone] && SameObjects(old(world), world)
      ensures r.Pass? ==> copied == SplitRoutes.Bags(world.target.tables)
      ensures r.Fail? ==> world.proc.None?
      ensures r != Fail(Refused) && (fate.steady && !setup.config.scope.DataOnly? ==> r.Pass?)
    {
      hide Do, Valid, Planned, Undisturbed, MovedOn, SameObjects, SplitRoutes.Bags, DirectCopy, SplitCopySucceeds,
           Reachable;
      Others();
      MovedOf(old(world), world);
      MovedObjects(old(world), world);
      IsReachable();
      if !setup.config.scope.DataOnly? { CopyIsPossible(setup, world, world.proc.value); }
      r := CopyTables();
      if r.Fail? {
        Dies();
        return;
      }
      ghost var moved := world;
      StreamsAreThrough(next);
      CopyKeepsObjects(old(world), moved, world);
    }

    method StreamsAreThrough(ghost next: Pc)
      requires Awaits(AtSplitCopy) && split.Some?
      requires next == if setup.config.splitSections then AtPostData else AtRestored
      requires preparedStream.Some? && preparedStream.value.id == split.value.snapshotId
      requires preparedStream.value.lsn <= |world.source.wal|
      requires SplitCopySucceeds(setup, split.value.plan, world.target.tables)
      modifies `world, `past, `deeds, `before, `cutOver
      ensures Awaits(next) && deeds == old(deeds) + [SplitCopyDone] && world.disk.token == old(world.disk.token)
      ensures world.source == old(world).source && world.target.sub == old(world).target.sub
      ensures world.target.tables == DirectCopy(old(world).source.wal, preparedStream.value.lsn, split.value.plan,
                                                old(world).target.tables)
    {
      hide Do, Valid, DirectCopy, SplitCopySucceeds;
      CopyEffect(setup, world, world.proc.value);
      Happens(SplitCopyDone);
    }

    /** The concurrent streams, under any schedule: every one reads the snapshot this run
        holds, and without it none connects. In a steady run they are all served, and then
        they get through wherever the protocol's copy step is possible. */
    method CopyTables() returns (r: Outcome<RunError>)
      requires Awaits(AtSplitCopy) && Planned() && split.Some?
      modifies `copied
      ensures r.Pass? ==>
                && preparedStream.Some? && preparedStream.value.id == split.value.snapshotId
                && preparedStream.value.lsn <= |world.source.wal|
                && SplitCopySucceeds(setup, split.value.plan, world.target.tables)
                && copied == SplitRoutes.Bags(DirectCopy(world.source.wal, preparedStream.value.lsn, split.value.plan,
                                                         world.target.tables))
      ensures r != Fail(Refused)
      ensures fate.steady && preparedStream.Some? && preparedStream.value.id == split.value.snapshotId
              && preparedStream.value.lsn <= |world.source.wal|
              && split.value.plan <= world.target.tables.Keys
              && SplitCopySucceeds(setup, split.value.plan, world.target.tables) ==>
                r.Pass?
    {
      hide Do, Valid, SplitRoutes.Names, SplitRoutes.Bags, SplitRoutes.Ready, SplitRoutes.AllServed,
           SplitCopy.Distinct, SplitPages.CutsAtSteps, DirectCopy, SplitCopySucceeds;
      if preparedStream.None? || preparedStream.value.id != split.value.snapshotId
         || preparedStream.value.lsn > |world.source.wal| {
        return Fail(Stopped);
      }
      var wal, lsn, tables := world.source.wal, preparedStream.value.lsn, world.target.tables;
      var heaps: map<Table, seq<SplitCopy.Row>>, schedules: seq<SplitCopy.Schedule> := *, *;
      var parts := setup.config.splitMaxParts;
      if fate.steady && !(|schedules| == |splitTables|
                          && SplitRoutes.Ready(splitTables, tables.Keys, heaps, wal, lsn, parts)
                          && SplitRoutes.AllServed(splitTables, heaps, schedules)) {
        heaps := SplitRoutes.SteadyHeaps(splitTables, wal, lsn);
        schedules := SplitRoutes.SteadySchedules(splitTables, heaps);
        if split.value.plan <= tables.Keys { SplitRoutes.SteadyIsServed(splitTables, tables.Keys, wal, lsn, parts); }
      }
      if |schedules| != |splitTables| || !SplitRoutes.Ready(splitTables, tables.Keys, heaps, wal, lsn, parts) {
        return Fail(Stopped);
      }
      var target := new SplitCopy.Target(SplitRoutes.Bags(tables));
      var rows := SplitRoutes.CopySplitTables(target, setup, wal, lsn, splitTables, tables, heaps, parts, schedules);
      if rows.Err? {
        return Fail(Stopped);
      }
      copied := target.tables;
      return Pass;
    }

    /** The restore is recorded once all of it has succeeded, and not before. */
    method RunRestoreStage() returns (r: Outcome<RunError>)
      requires Awaits(if setup.config.splitSections then AtPreData else AtRestoreAll) && Planned()
      modifies `world, `past, `deeds, `before, `cutOver, `token, `copied
      ensures Valid()
      ensures r.Pass? ==> Awaits(AnalyzePc(setup, token)) && SameObjects(old(world), world)
      ensures r.Pass? ==> token == old(token).(completed := old(token).completed + {Restore})
      ensures r.Pass? ==> deeds == old(deeds) + RestoreSteps(setup, split.Some?) + [RestoreMarked]
      ensures world.disk.token == old(world.disk.token)
              || (deeds == old(deeds) + RestoreSteps(setup, split.Some?) + [RestoreMarked]
                  && world.disk.token == Whole(old(token).(completed := old(token).completed + {Restore})))
      ensures r.Pass? ==> Permitted(setup, old(world).target.tables.Keys)
      ensures r.Fail? ==> world.proc.None?
      ensures r != Fail(Refused)
      ensures fate.steady && Permitted(setup, old(world).target.tables.Keys)
              && (split.Some? ==> !setup.config.scope.DataOnly?) ==>
                r.Pass?
    {
      hide Do, Valid, Planned, AnalyzePc, Undisturbed, MovedOn, SameObjects, Leaves, Permitted, Sure;
      :- RestoreArchive();
      ghost var restored := world;
      hide RestoreSteps;
      :- Await(RestoreMarked);
      MarkEffect(setup, before, before.proc.value, world);
      token := token.Marked(Restore);
      ghost var marked := world;
      r := SaveResume(AnalyzePc(setup, token));
      MovesAlong(restored, marked, world);
      MovedObjects(restored, world);
      ObjectsAlong(old(world), restored, world);
    }

    method RunTargetAnalyzeStage() returns (r: Outcome<RunError>)
      requires Awaits(AnalyzePc(setup, token)) && token.Has(Restore)
      modifies `world, `past, `deeds, `before, `cutOver, `token
      ensures Valid()
      ensures r.Pass? ==> Awaits(AfterAnalyzePc(setup)) && token.Has(Restore) && MovedOn(old(world), world)
      ensures r.Pass? ==>
                deeds == old(deeds) + if setup.config.skipAnalyze || old(token).Has(Analyze) then []
                                      else [AnalyzeDone(fate.statements.analyze)]
      ensures r.Pass? ==>
                token == if setup.config.skipAnalyze || !fate.statements.analyze then old(token)
                         else old(token).(completed := old(token).completed + {Analyze})
      ensures r.Fail? ==> world.proc.None?
      ensures r != Fail(Refused) && (fate.steady ==> r.Pass?)
    {
      hide Do, Valid, Undisturbed, MovedOn, Leaves, Sure, AfterAnalyzePc;
      AlreadyMarked(token, Analyze);
      MovesAlong(world, world, world);
      if setup.config.skipAnalyze || token.Has(Analyze) { return Pass; }
      var ok := fate.statements.analyze;
      :- Await(AnalyzeDone(ok));
      AnalyzeEffect(setup, before, before.proc.value, ok, world);
      if ok {
        token := token.Marked(Analyze);
        ghost var analyzed := world;
        r := SaveResume(AfterAnalyzePc(setup));
        MovesAlong(old(world), analyzed, world);
        return;
      }
      return Pass;
    }

    /** Recorded stages are skipped; the others are performed, in this order, and recorded. */
    method DumpAndRestore() returns (r: Outcome<RunError>)
      requires Awaits(DumpPc(setup, token)) && Planned() && (token.Has(Restore) ==> token.Has(Stage.Dump))
      modifies `world, `past, `deeds, `before, `cutOver, `token, `copied
      ensures Valid()
      ensures r.Pass? ==> Awaits(AfterAnalyzePc(setup)) && token.Has(Restore) && SameObjects(old(world), world)
      ensures r.Pass? ==>
                deeds == old(deeds) + RestoreDeeds(setup, old(token), fate.statements, split.Some?)
      ensures r.Pass? ==> token.pubAutoCreated == old(token).pubAutoCreated
      ensures r.Pass? && !old(token).Has(Restore) ==> Permitted(setup, old(world).target.tables.Keys)
      ensures r.Fail? ==> world.proc.None?
      ensures r != Fail(Refused)
      ensures fate.steady && (old(token).Has(Restore) || Permitted(setup, old(world).target.tables.Keys))
              && (split.Some? ==> !setup.config.scope.DataOnly?) ==>
                r.Pass?
    {
      hide Do, Valid, Planned, RestoreSteps, Undisturbed, MovedOn, SameObjects, Leaves, Permitted, Sure, AnalyzePc;
      MovesAlong(world, world, world);
      MovedObjects(world, world);
      if !token.Has(Stage.Dump) {
        :- RunPgDump();
        MovedKeys(old(world), world);
      }
      MovedObjects(old(world), world);
      ghost var dumped, atDump := deeds, world;
      assert dumped == old(deeds) + if old(token).Has(Stage.Dump) then [] else [DumpDone];
      if !token.Has(Restore) {
        :- RunRestoreStage();
        ObjectsAlong(old(world), atDump, world);
      }
      ghost var steps := if old(token).Has(Restore) then [] else RestoreSteps(setup, split.Some?) + [RestoreMarked];
      assert deeds == dumped + steps;
      ghost var restored := world;
      r := RunTargetAnalyzeStage();
      MovedObjects(restored, world);
      ObjectsAlong(old(world), restored, world);
      JoinThree(old(deeds), if old(token).Has(Stage.Dump) then [] else [DumpDone], steps,
                if setup.config.skipAnalyze || old(token).Has(Analyze) then []
                else [AnalyzeDone(fate.statements.analyze)]);
    }

    // ---------------------------------------------------------------- the apply phase

    /** Let go of the stream and make sure nobody else is on the slot. */
    method ReleaseSlot() returns (r: Outcome<RunError>)
      requires Awaits(AtDropStream)
      modifies `world, `past, `deeds, `before, `cutOver, `preparedStream
      ensures Valid()
      ensures r.Pass? ==> Awaits(AtAttach) && preparedStream.None? && SameThere(old(world), world)
      ensures r.Pass? ==> !(world.source.slot.Some? && world.source.slot.value.active)
      ensures r.Pass? ==>
                deeds == old(deeds) + [StreamDropped]
                         + (if resume then [DisableDone(fate.statements.disable)] else []) + [SlotIdle]
      ensures r.Pass? ==> deeds == old(deeds) + ReleaseDeeds(fate.statements, resume)
      ensures r.Fail? ==> world.proc.None?
      ensures r != Fail(Refused) && (fate.steady && fate.polls > 0 ==> r.Pass?)
    {
      hide Do, Valid, Undisturbed, MovedOn, SameThere, Leaves, Sure;
      :- Await(StreamDropped);
      StreamEffects(setup, before, before.proc.value, StreamDropped, world);
      preparedStream := None;
      ghost var released := world;
      ThereAlong(old(world), before, released);
      if resume {
        :- Await(DisableDone(fate.statements.disable));
        StreamEffects(setup, before, before.proc.value, DisableDone(fate.statements.disable), world);
        ThereAlong(released, before, world);
        ThereAlong(old(world), released, world);
      }
      ghost var disabled := world;
      r := WaitForSlotInactive(fate.polls);
      ThereAlong(old(world), disabled, world);
      JoinThree(old(deeds), [StreamDropped], if resume then [DisableDone(fate.statements.disable)] else [], [SlotIdle]);
    }

    /** Poll until nobody is connected to the slot, for at most `polls` polls. */
    method WaitForSlotInactive(polls: nat) returns (r: Outcome<RunError>)
      requires Awaits(AtWaitSlot)
      modifies `world, `past, `deeds, `before, `cutOver
      ensures Valid()
      ensures r.Pass? ==> Awaits(AtAttach) && !(world.source.slot.Some? && world.source.slot.value.active)
      ensures r.Pass? ==> deeds == old(deeds) + [SlotIdle] && SameThere(old(world), world)
      ensures r.Fail? ==> world.proc.None? && deeds == old(deeds)
      ensures r != Fail(Refused) && (fate.steady && polls > 0 ==> r.Pass?)
    {
      hide Do, Valid, MovedOn;
      MovesAlong(world, world, world);
      var k := 0;
      while k < polls
        invariant Awaits(AtWaitSlot) && deeds == old(deeds) && MovedOn(old(world), world)
        invariant fate.steady ==> k == 0
      {
        ghost var polled := world;
        WorkerGoes();
        MovesAlong(old(world), polled, world);
        if world.source.slot.None? || !world.source.slot.value.active {
          IdleEffect(setup, world, world.proc.value);
          ThereAlong(old(world), world, world);
          Happens(SlotIdle);
          return Pass;
        }
        k := k + 1;
      }
      Dies();
      return Fail(Stopped);
    }

    /** Attach the subscription, stay in the loop until it ends, and tear down, however it
        ended. */
    method RunNativeApply() returns (r: Outcome<RunError>)
      requires Awaits(AtAttach) && exit.StillRunning?
      modifies `world, `past, `deeds, `before, `cutOver, `exit, `stats, `loopTurns
      ensures Valid()
      ensures r.Pass? ==> Awaits(AtLoopReport) && (exit.ByCutover? || exit.ByCancel?)
      ensures r.Pass? ==> (stats.cutoverTriggered <==> exit.ByCutover?)
      ensures r.Pass? ==>
                deeds == old(deeds) + [Attached, LoopEnded(exit), TearDisabled(fate.statements.tearDown)]
                         + if !fate.statements.tearDown || !exit.ByCutover?
                              || !setup.config.online.dropSubscriptionOnCutover
                           then []
                           else [TearDetached(fate.statements.detach)]
                                + if fate.statements.detach then [TearDropped(fate.statements.drop)] else []
      ensures r.Pass? ==>
                && world.source.publication == old(world).source.publication
                && (world.source.slot.Some? <==> old(world).source.slot.Some?)
                && (world.target.sub.None? <==>
                      && exit.ByCutover? && setup.config.online.dropSubscriptionOnCutover
                      && fate.statements.tearDown && fate.statements.detach && fate.statements.drop)
                && (world.target.sub.Some? && fate.statements.tearDown ==> !world.target.sub.value.enabled)
      ensures r.Pass? ==> EndedBy(fate.turns, loopTurns, exit, stats.lastApplied)
      ensures r.Fail? ==> world.proc.None?
      ensures r != Fail(Refused)
      ensures fate.steady && EndsWell(fate.turns) ==> r.Pass?
    {
      hide Do, Valid, Undisturbed, MovedOn, Leaves, Sure, EndedBy, EndsWell;
      :- AttachSubscription();
      ghost var attached := world;
      :- RunApplyLoop();
      MovedKeys(attached, world);
      hide SameObjects;
      :- TeardownSubscription();
      if exit.ByFailedHealthCheck? {
        Dies();
        return Fail(Stopped);
      }
      return Pass;
    }

    /** Create the subscription, or enable the one that is there. */
    method AttachSubscription() returns (r: Outcome<RunError>)
      requires Awaits(AtAttach)
      modifies `world, `past, `deeds, `before, `cutOver
      ensures Valid()
      ensures r.Pass? ==> Awaits(AtApply) && deeds == old(deeds) + [Attached]
      ensures r.Pass? ==>
                && world.source.publication == old(world).source.publication
                && (world.source.slot.Some? <==> old(world).source.slot.Some?)
                && world.target.sub.Some? && world.target.sub.value.enabled && world.target.sub.value.slotSet
      ensures r.Fail? ==> world.proc.None?
      ensures r != Fail(Refused) && (fate.steady ==> r.Pass?)
    {
      hide Do, Valid, Undisturbed, MovedOn, Leaves, Sure;
      :- Await(Attached);
      AttachEffect(setup, before, before.proc.value, world);
      MovedKeys(old(world), before);
      return Pass;
    }

    /** The loop of module ApplyLoop on the turns it meets; should none of them end it, the
        process is killed in it. */
    method RunApplyLoop() returns (r: Outcome<RunError>)
      requires Awaits(AtApply) && exit.StillRunning?
      modifies `world, `past, `deeds, `before, `cutOver, `exit, `stats, `loopTurns
      ensures Valid()
      ensures r.Pass? ==> Awaits(AtTearDisable) && !exit.StillRunning? && deeds == old(deeds) + [LoopEnded(exit)]
      ensures r.Pass? ==> (stats.cutoverTriggered <==> exit.ByCutover?) && MovedOn(old(world), world)
      // The turn that ended the loop is the first to find it cancelled or a cutover requested,
      // or it found the worker dead.
      ensures r.Pass? ==>
                && 0 < loopTurns <= |fate.turns|
                && var t := fate.turns[loopTurns - 1];
                   && (exit.ByCancel? <==> t.cancelled)
                   && (exit.ByCutover? <==> !t.cancelled && t.requested && !t.wake.CancelFired?
                                            && (t.wake.NoWait? || !t.cancelledAfterWait))
                   && (exit.ByFailedHealthCheck? ==> !t.workerAlive)
                   && forall i :: 0 <= i < loopTurns - 1 ==> !Decides(fate.turns[i])
      ensures r.Pass? ==> EndedBy(fate.turns, loopTurns, exit, stats.lastApplied)
      ensures r.Fail? ==> world.proc.None?
      ensures r != Fail(Refused)
      ensures fate.steady
              && (exists k :: 0 <= k < |fate.turns| && Decides(fate.turns[k])
                              && forall i :: 0 <= i < k ==> fate.turns[i].workerAlive) ==>
                r.Pass? && !exit.ByFailedHealthCheck?
      ensures fate.steady && EndsWell(fate.turns) ==> r.Pass? && !exit.ByFailedHealthCheck?
    {
      hide Do, Valid, TurnOutcome, LoopsOn, AllTaken, Stalled, MovedOn, Engine.Valid;
      var engine := new Engine(setup.config.online.cutover);
      var outcome, n := engine.Run(fate.turns);
      stats := engine.stats;
      loopTurns := n;
      if outcome.StillRunning? {
        Dies();
        return Fail(Stopped);
      }
      r := EndLoop(outcome);
    }

    method EndLoop(how: LoopExit) returns (r: Outcome<RunError>)
      requires Awaits(AtApply) && exit.StillRunning? && !how.StillRunning?
      modifies `world, `past, `deeds, `before, `cutOver, `exit
      ensures Valid()
      ensures r.Pass? ==> Awaits(AtTearDisable) && exit == how && deeds == old(deeds) + [LoopEnded(how)]
      ensures r.Pass? ==> MovedOn(old(world), world)
      ensures r.Fail? ==> world.proc.None?
      ensures r != Fail(Refused) && (fate.steady ==> r.Pass?)
    {
      hide Do, Valid, Undisturbed, MovedOn, Leaves, Sure;
      :- Await(LoopEnded(how));
      LoopEndEffect(setup, before, before.proc.value, how, world);
      exit := how;
      return Pass;
    }

    /** Disable the subscription and, after a cutover, detach and drop it; the first
        statement that fails ends the teardown, but not the run. */
    method TeardownSubscription() returns (r: Outcome<RunError>)
      requires Awaits(AtTearDisable) && world.target.sub.Some?
      modifies `world, `past, `deeds, `before, `cutOver
      ensures Valid()
      ensures r.Pass? ==> Awaits(AtLoopReport)
      ensures r.Pass? ==>
                deeds == old(deeds) + [TearDisabled(fate.statements.tearDown)]
                         + if !fate.statements.tearDown || !exit.ByCutover?
                              || !setup.config.online.dropSubscriptionOnCutover
                           then []
                           else [TearDetached(fate.statements.detach)]
                                + if fate.statements.detach then [TearDropped(fate.statements.drop)] else []
      ensures r.Pass? ==>
                && world.source.publication == old(world).source.publication
                && (world.source.slot.Some? <==> old(world).source.slot.Some?)
                && (world.target.sub.None? <==>
                      && exit.ByCutover? && setup.config.online.dropSubscriptionOnCutover
                      && fate.statements.tearDown && fate.statements.detach && fate.statements.drop)
                && (world.target.sub.Some? && fate.statements.tearDown ==> !world.target.sub.value.enabled)
      ensures r.Fail? ==> world.proc.None?
      ensures r != Fail(Refused) && (fate.steady ==> r.Pass?)
    {
      hide Do, Valid, Undisturbed, MovedOn, Leaves, Sure;
      var disabled := fate.statements.tearDown;
      :- Await(TearDisabled(disabled));
      MovedKeys(old(world), before);
      DisableEffect(setup, before, before.proc.value, disabled, world);
      if disabled && exit.ByCutover? && setup.config.online.dropSubscriptionOnCutover {
        r := DropSubscription();
        return;
      }
      return Pass;
    }

    /** The subscription is detached from its slot before it is dropped. */
    method DropSubscription() returns (r: Outcome<RunError>)
      requires Awaits(AtTearDetach) && world.target.sub.Some?
      modifies `world, `past, `deeds, `before, `cutOver
      ensures Valid()
      ensures r.Pass? ==> Awaits(AtLoopReport)
      ensures r.Pass? ==>
                deeds == old(deeds) + [TearDetached(fate.statements.detach)]
                         + if fate.statements.detach then [TearDropped(fate.statements.drop)] else []
      ensures r.Pass? ==>
                && world.source.publication == old(world).source.publication
                && (world.source.slot.Some? <==> old(world).source.slot.Some?)
                && (world.target.sub.None? <==> fate.statements.detach && fate.statements.drop)
                && (world.target.sub.Some? ==>
                      && world.target.sub.value.enabled == old(world).target.sub.value.enabled
                      && (fate.statements.detach ==> !world.target.sub.value.slotSet))
      ensures r.Fail? ==> world.proc.None?
      ensures r != Fail(Refused) && (fate.steady ==> r.Pass?)
    {
      hide Do, Valid, Undisturbed, MovedOn, Leaves, Sure;
      var detached, dropped := fate.statements.detach, fate.statements.drop;
      :- Await(TearDetached(detached));
      MovedKeys(old(world), before);
      TearEffects(setup, before, before.proc.value, TearDetached(detached), world);
      if !detached {
        return Pass;
      }
      ghost var loose := world;
      r := Await(TearDropped(dropped));
      if r.Pass? {
        MovedKeys(loose, before);
        TearEffects(setup, before, before.proc.value, TearDropped(dropped), world);
      }
    }

    /** The position of the last sample goes into the token. */
    method ReportLoop(ghost next: Pc) returns (r: Outcome<RunError>)
      requires Awaits(AtLoopReport) && !exit.ByFailedHealthCheck?
      requires next == AfterLoopPc(setup, Local(AtLoopReport, NotSaving))
      modifies `world, `past, `deeds, `before, `cutOver, `token
      ensures Valid()
      ensures r.Pass? ==> Awaits(next) && MovedOn(old(world), world)
      ensures r.Pass? ==> deeds == old(deeds) + [LoopReported(stats.lastApplied)]
      ensures r.Pass? ==> token == old(token).(lastAppliedLsn := Some(stats.lastApplied))
      ensures r.Fail? ==> world.proc.None?
      ensures r != Fail(Refused) && (fate.steady ==> r.Pass?)
    {
      hide Do, Valid, AfterLoopPc, Undisturbed, MovedOn, Leaves, Sure;
      :- Await(LoopReported(stats.lastApplied));
      ReportEffect(setup, before, before.proc.value, stats.lastApplied, world);
      token := token.(lastAppliedLsn := Some(stats.lastApplied));
      ghost var reported := world;
      r := SaveResume(next);
      MovesAlong(old(world), reported, world);
    }

    /** Nothing is synced or cleaned up unless the loop was left by cutover. After one the
        sequences come first, if they are to be synced, then the publication, if the migration
        created it, and last the slot, if it is to be dropped. */
    method AfterLoop() returns (r: Outcome<RunError>)
      requires Awaits(AfterLoopPc(setup, Local(AtLoopReport, NotSaving)))
      modifies `world, `past, `deeds, `before, `cutOver
      ensures Valid()
      ensures r.Pass? ==> Awaits(AtComplete)
      ensures !exit.ByCutover? ==> r.Pass? && world == old(world) && deeds == old(deeds)
      ensures r.Pass? && exit.ByCutover? ==>
                deeds == old(deeds)
                         + (if setup.config.online.syncSequencesOnCutover then [SequencesDone] else [])
                         + (if token.pubAutoCreated then [PublicationDropped(fate.statements.dropPublication)] else [])
                         + (if setup.config.online.dropSlotOnCutover
                            then [CleanupWaited, SlotDropped(fate.statements.dropSlot)] else [])
      ensures r.Pass? && exit.ByCutover? ==> Cleaned(old(world), world)
      ensures r.Fail? ==> world.proc.None?
      ensures r != Fail(Refused) && (fate.steady ==> r.Pass?)
    {
      hide Do, Valid, MovedOn, Cleaned;
      MovesAlong(world, world, world);
      if exit.ByCutover? {
        if setup.config.online.syncSequencesOnCutover {
          :- SyncSequences();
        }
        ghost var synced := world;
        r := CleanupSourceAfterCutover();
        CleanedAlong(old(world), synced, world);
        return;
      }
      return Pass;
    }

    /** What the clean-up of a cutover leaves, in terms of what it found: the publication is gone
        if the migration had created it and the statement succeeded; the slot is gone only if it
        was to be dropped and the statement succeeded, and then unless somebody was connected to
        it, which in a steady run is nobody once the subscription is disabled. */
    ghost predicate Cleaned(s: State, s': State)
      reads `token, `fate
    {
      && s'.source.publication == (s.source.publication
                                   && !(token.pubAutoCreated && fate.statements.dropPublication))
      && (s'.target.sub.Some? <==> s.target.sub.Some?)
      && (s.target.sub.Some? && s'.target.sub.Some? ==>
            s'.target.sub.value.enabled == s.target.sub.value.enabled)
      && (s.source.slot.None? ==> s'.source.slot.None?)
      && (!(setup.config.online.dropSlotOnCutover && fate.statements.dropSlot) && s.source.slot.Some? ==>
            s'.source.slot.Some?)
      && (setup.config.online.dropSlotOnCutover && fate.statements.dropSlot ==>
            s'.source.slot.None? || s'.source.slot.value.active)
      && (setup.config.online.dropSlotOnCutover && fate.statements.dropSlot && fate.steady
          && (s.target.sub.Some? ==> !s.target.sub.value.enabled) ==>
            s'.source.slot.None?)
    }

    lemma CleanedAlong(a: State, b: State, c: State)
      ensures MovedOn(a, b) && Cleaned(b, c) ==> Cleaned(a, c)
    {
    }

    method SyncSequences() returns (r: Outcome<RunError>)
      requires Awaits(AtSequences)
      modifies `world, `past, `deeds, `before, `cutOver
      ensures Valid()
      ensures r.Pass? ==> Awaits(CleanupPc(setup, token)) && deeds == old(deeds) + [SequencesDone]
      ensures r.Pass? ==> MovedOn(old(world), world)
      ensures r.Fail? ==> world.proc.None?
      ensures r != Fail(Refused) && (fate.steady ==> r.Pass?)
    {
      hide Do, Valid, CleanupPc, Undisturbed, MovedOn, Sure;
      r := Await(SequencesDone);
      if r.Pass? { CleanupEffects(setup, before, before.proc.value, SequencesDone, world); }
    }

    /** The publication is dropped if and only if the token says that the migration created it,
        and then the slot if and only if the configuration says so. */
    method CleanupSourceAfterCutover() returns (r: Outcome<RunError>)
      requires Awaits(CleanupPc(setup, token))
      modifies `world, `past, `deeds, `before, `cutOver
      ensures Valid()
      ensures r.Pass? ==> Awaits(AtComplete)
      ensures r.Pass? ==>
                deeds == old(deeds)
                         + (if token.pubAutoCreated then [PublicationDropped(fate.statements.dropPublication)] else [])
                         + (if setup.config.online.dropSlotOnCutover
                            then [CleanupWaited, SlotDropped(fate.statements.dropSlot)] else [])
      ensures r.Pass? ==>
                && world.source.publication == (old(world).source.publication
                                                && !(token.pubAutoCreated && fate.statements.dropPublication))
                && (world.target.sub.Some? <==> old(world).target.sub.Some?)
                && (old(world).source.slot.None? ==> world.source.slot.None?)
                && (old(world).source.slot.Some? && world.source.slot.None? ==>
                      setup.config.online.dropSlotOnCutover && fate.statements.dropSlot)
                && (setup.config.online.dropSlotOnCutover && fate.statements.dropSlot ==>
                      world.source.slot.None? || world.source.slot.value.active)
                && (setup.config.online.dropSlotOnCutover && fate.statements.dropSlot && fate.steady
                    && (old(world).target.sub.Some? ==> !old(world).target.sub.value.enabled) ==>
                      world.source.slot.None?)
      ensures r.Pass? ==> Cleaned(old(world), world)
      ensures r.Fail? ==> world.proc.None?
      ensures r != Fail(Refused) && (fate.steady ==> r.Pass?)
    {
      hide Do, Valid;
      :- DropPublicationIfCreated();
      if setup.config.online.dropSlotOnCutover {
        r := DropSlot();
        return;
      }
      return Pass;
    }

    method DropPublicationIfCreated() returns (r: Outcome<RunError>)
      requires Awaits(CleanupPc(setup, token))
      modifies `world, `past, `deeds, `before, `cutOver
      ensures Valid()
      ensures r.Pass? ==> Awaits(if setup.config.online.dropSlotOnCutover then AtCleanupWait else AtComplete)
      ensures r.Pass? ==>
                deeds == old(deeds)
                         + if token.pubAutoCreated then [PublicationDropped(fate.statements.dropPublication)] else []
      ensures r.Pass? ==>
                && world.source.publication == (old(world).source.publication
                                                && !(token.pubAutoCreated && fate.statements.dropPublication))
                && (world.target.sub.Some? <==> old(world).target.sub.Some?)
                && (world.target.sub.Some? && old(world).target.sub.Some? ==>
                      world.target.sub.value.enabled == old(world).target.sub.value.enabled)
                && (world.source.slot.Some? <==> old(world).source.slot.Some?)
      ensures r.Fail? ==> world.proc.None?
      ensures r != Fail(Refused) && (fate.steady ==> r.Pass?)
    {
      hide Do, Valid, MovedOn, Leaves, Undisturbed, Sure;
      if token.pubAutoCreated {
        var ok := fate.statements.dropPublication;
        :- Await(PublicationDropped(ok));
        CleanupEffects(setup, before, before.proc.value, PublicationDropped(ok), world);
        MovedKeys(old(world), before);
      }
      return Pass;
    }

    /** A slot that is still in use when its turn comes survives; any other is dropped, if the
        statement succeeds. */
    method DropSlot() returns (r: Outcome<RunError>)
      requires Awaits(AtCleanupWait)
      modifies `world, `past, `deeds, `before, `cutOver
      ensures Valid()
      ensures r.Pass? ==> Awaits(AtComplete)
      ensures r.Pass? ==> deeds == old(deeds) + [CleanupWaited, SlotDropped(fate.statements.dropSlot)]
      ensures r.Pass? ==>
                && world.source.publication == old(world).source.publication
                && (world.target.sub.Some? <==> old(world).target.sub.Some?)
                && (world.target.sub.Some? && old(world).target.sub.Some? ==>
                      world.target.sub.value.enabled == old(world).target.sub.value.enabled)
                && (old(world).source.slot.None? ==> world.source.slot.None?)
                && (!fate.statements.dropSlot && old(world).source.slot.Some? ==> world.source.slot.Some?)
                && (fate.statements.dropSlot ==> world.source.slot.None? || world.source.slot.value.active)
                && (fate.statements.dropSlot && fate.steady
                    && (old(world).target.sub.Some? ==> !old(world).target.sub.value.enabled) ==>
                      world.source.slot.None?)
      ensures r.Pass? && before.source.slot.Some? && before.source.slot.value.active ==>
                world.source.slot == before.source.slot
      ensures r.Fail? ==> world.proc.None?
      ensures r != Fail(Refused) && (fate.steady ==> r.Pass?)
    {
      hide Do, Valid, MovedOn, Leaves, Undisturbed, Sure;
      :- AwaitWorker();
      MovedKeys(old(world), world);
      ghost var gone := world;
      r := Await(SlotDropped(fate.statements.dropSlot));
      if r.Pass? {
        CleanupEffects(setup, before, before.proc.value, SlotDropped(fate.statements.dropSlot), world);
        MovedKeys(gone, before);
        StaysQuiet(gone, before);
      }
    }

    /** Wait until nobody is connected to the slot; the outcome is only logged. */
    method AwaitWorker() returns (r: Outcome<RunError>)
      requires Awaits(AtCleanupWait)
      modifies `world, `past, `deeds, `before, `cutOver
      ensures Valid()
      ensures r.Pass? ==> Awaits(AtDropSlot) && MovedOn(old(world), world) && deeds == old(deeds) + [CleanupWaited]
      ensures r.Pass? && fate.steady && (old(world).target.sub.Some? ==> !old(world).target.sub.value.enabled) ==>
                Quiet(world)
      ensures r.Fail? ==> world.proc.None?
      ensures r != Fail(Refused) && (fate.steady ==> r.Pass?)
    {
      hide Do, Valid, MovedOn, Leaves, Undisturbed, Sure, Quiet;
      :- Await(CleanupWaited);
      CleanupEffects(setup, before, before.proc.value, CleanupWaited, world);
      ghost var waited := world;
      WorkerGoes();
      MovedKeys(old(world), waited);
      MovedOf(waited, world);
      MovesAlong(old(world), waited, world);
      WentQuiet(waited, world);
      return Pass;
    }

    // ----------------------------------------------------------------- verification

    /** Compare row counts, unless switched off; a mismatch fails the run in strict mode and
        is only a warning otherwise. */
    method RunVerifyStage() returns (r: Outcome<RunError>, report: Option<seq<Verify.TableCount>>)
      requires Awaits(AtVerify)
      modifies `world, `past, `deeds, `before, `cutOver, `counted
      ensures Valid()
      ensures r.Pass? ==> Awaits(AtComplete) && deeds == old(deeds) + [VerifyDone] && MovedOn(counted, world)
      ensures MovedOn(old(world), counted)
      ensures setup.config.verify.Off? ==> report.None?
      ensures r.Pass? && !setup.config.verify.Off? ==> report.Some?
      ensures report.Some? && DotFree(fate.verified) ==> report.value == ReportOf(counted, fate.verified)
      ensures r.Pass? && setup.config.verify.Strict? && DotFree(fate.verified) ==> AllSame(counted, fate.verified)
      ensures r.Fail? ==> world.proc.None?
      ensures r != Fail(Refused)
      // In a steady run whose workers are all served nothing else fails it.
      ensures fate.steady
              && CountersServed(setup, fate) && (setup.config.verify.Strict? ==> DotFree(fate.verified)) ==>
                (r.Pass? <==> !setup.config.verify.Strict? || AllSame(counted, fate.verified))
    {
      hide Valid, Do, AllSame, ReportOf, DotFree, CountersServed, Verify.Ok, Undisturbed, MovedOn, Leaves, LeavesTarget,
           LeavesSource, Free, Deed, Sure;
      VerifyIsFree(Local(AtVerify, NotSaving));
      MovesAlong(world, world, world);
      counted := world;
      report := None;
      if !setup.config.verify.Off? {
        report := CompareRows();
        if report.None? || (setup.config.verify.Strict? && !Verify.Ok(report.value)) {
          Dies();
          return Fail(Stopped), report;
        }
      }
      r := Await(VerifyDone);
      if r.Pass? { VerifyEffect(setup, before, before.proc.value, world); }
    }

    /** Count the rows of both sides as they are at one moment. */
    method CompareRows() returns (report: Option<seq<Verify.TableCount>>)
      requires Awaits(AtVerify)
      modifies `world, `past, `deeds, `before, `cutOver, `counted
      ensures Awaits(AtVerify) && deeds == old(deeds) && MovedOn(old(world), world) && counted == world
      ensures report.Some? && DotFree(fate.verified) ==>
                && report.value == ReportOf(counted, fate.verified)
                && (Verify.Ok(report.value) <==> AllSame(counted, fate.verified))
      ensures CountersServed(setup, fate) ==> report.Some?
    {
      hide Valid, Do, CountsOf, AllSame, Verify.CompareAll, Of, Undisturbed, MovedOn, Verify.Labels;
      ghost var found := world;
      Others();
      MovedOf(found, world);
      counted := world;
      var names := Verify.Labels(fate.verified);
      Verify.LabelsSize(fate.verified);
      if DotFree(fate.verified) { CountsMean(world, fate.verified); }
      report := Verify.VerifyRowCounts(names, CountsOf(world), setup.config.jobs, fate.counting);
    }

    // ------------------------------------------------------------------ entry points

    /** The run has nothing left to do, and ends without touching what it delivered. */
    method Finishes()
      requires Awaits(AtComplete)
      modifies `world, `past, `deeds, `before, `cutOver
      ensures Valid() && world.proc.None? && cutOver == old(cutOver) && deeds == old(deeds)
      ensures world.disk == old(world).disk && world.source == old(world).source && world.target == old(world).target
      ensures world.history == old(world).history.(forgotten := world.history.forgotten)
    {
      hide Do, Valid;
      FinishEffect(setup, world, world.proc.value);
      Happens(Finish);
    }

    method Begins(fate: Fate)
      requires Valid() && world.proc.None?
      modifies `runStart, `start, `cutOver, `fate
      ensures Valid() && runStart == past && start == world && !cutOver && this.fate == fate
    {
      runStart, start, cutOver := past, world, false;
      this.fate := fate;
    }

    lemma SinceStart()
      requires Valid()
      ensures Reachable(setup, world) && runStart <= past && (!cutOver ==> Keeps(start, world))
      ensures cutOver ==> setup.config.mode.Online?
      ensures world.proc.Some? ==> world.history.forgotten == start.history.forgotten
    {
    }

    /** A token never records a restore without the dump it restored. */
    lemma RestoredIsDumped()
      requires Valid() && world.proc.Some? && world.proc.value.token.Has(Restore)
      ensures world.proc.value.token.Has(Stage.Dump)
    {
      SinceStart();
      ReachableInv(setup, world);
    }

    /** A run that starts here may restore a second time what it does not know to be restored
        and followed. */
    predicate MayRepeat(s: State) {
      s.history.forgotten && setup.config.dropTargetFirst
    }

    /** What a steady run needs to get as far as a restored target: online a publication, unless
        the dump is recorded; a restore that is permitted, unless it is recorded; and for a
        direct copy a snapshot to share, definitions to restore and no overflow. */
    predicate CanPrepare(s: State) {
      var t := TokenFound(setup, s);
      && (setup.config.mode.Online? && !t.Has(Stage.Dump) ==>
            s.source.publication || setup.config.online.autoCreatePublication)
      && (t.Has(Restore) || Permitted(setup, s.target.tables.Keys))
      && (setup.config.splitTablesLargerThan.Some? ==>
            && !setup.config.scope.DataOnly? && !(checked && setup.config.splitMaxParts == 0x8000_0000_0000_0000)
            && (setup.config.mode.Online? ==> s.source.slot.None?))
    }

    /** From the start to a restored target. */
    method PrepareTarget() returns (r: Outcome<RunError>)
      requires Valid() && world.proc.None? && !cutOver && world.history.forgotten == start.history.forgotten
      requires Words(setup.config)
      modifies `world, `past, `deeds, `before, `cutOver, `resume, `token, `preparedStream, `split,
               `splitTables, `exit, `copied
      ensures Valid()
      ensures r.Pass? ==> Awaits(AfterAnalyzePc(setup)) && exit.StillRunning? && resume == (old(world).history.runs > 0)
      ensures r == Fail(Refused) <==> !MayStart(setup, old(world))
      ensures r.Pass? ==>
                var t, plan := TokenFound(setup, old(world)), SplitRoutes.Names(splitTables);
                deeds == old(deeds) + (StartDeeds(setup, t, fate.statements, plan)
                                       + RestoreDeeds(setup, t, fate.statements, plan != {}))
      ensures r.Pass? ==>
                var t := TokenFound(setup, old(world));
                var begins := setup.config.mode.Online? && !t.Has(Stage.Dump);
                && token.pubAutoCreated == (t.pubAutoCreated || (begins && !old(world).source.publication))
                && (world.source.publication <==> old(world).source.publication || begins)
                && (world.source.slot.Some? <==> old(world).source.slot.Some? || begins)
                && (world.target.sub.Some? <==> old(world).target.sub.Some?)
                && (t.Has(Restore) || Permitted(setup, old(world).target.tables.Keys))
                && (begins ==> old(world).source.publication || setup.config.online.autoCreatePublication)
      ensures r.Fail? ==> world.proc.None?
      ensures fate.steady && MayStart(setup, old(world)) && CanPrepare(old(world)) ==> r.Pass?
    {
      hide Do, Valid, MovedOn, SameObjects, MayStart, TokenFound, RestoreSteps, Planned, Permitted, DumpPc,
           AfterAnalyzePc, SplitRoutes.Names, StartDeeds, RestoreDeeds;
      :- StartAndPlan();
      ghost var t, planned, started, now := TokenFound(setup, old(world)), world, deeds, token;
      if token.Has(Restore) { RestoredIsDumped(); }
      NamesEmpty(splitTables);
      r := DumpAndRestore();
      ObjectsMean(planned, world);
      SameRestore(setup, t, now, fate.statements, split.Some?);
      JoinTwo(old(deeds), StartDeeds(setup, t, fate.statements, SplitRoutes.Names(splitTables)),
              RestoreDeeds(setup, t, fate.statements, split.Some?));
    }

    method StartAndVacuum() returns (r: Outcome<RunError>)
      requires Valid() && world.proc.None? && !cutOver && world.history.forgotten == start.history.forgotten
      modifies `world, `past, `deeds, `before, `cutOver, `resume, `token, `preparedStream, `split, `exit
      ensures Valid()
      ensures r.Pass? ==> Awaits(PreparePc(setup, token)) && split.None? && exit.StillRunning?
      ensures r.Pass? ==> resume == (old(world).history.runs > 0)
      ensures r == Fail(Refused) <==> !MayStart(setup, old(world))
      ensures r.Pass? ==>
                var t := TokenFound(setup, old(world));
                && deeds == old(deeds) + (if setup.config.skipSourceVacuum || t.Has(SourceVacuum) then []
                                          else [VacuumDone(fate.statements.vacuum)])
                && token.pubAutoCreated == t.pubAutoCreated
                && world.source.publication == old(world).source.publication
                && (world.source.slot.Some? <==> old(world).source.slot.Some?)
                && (world.target.sub.Some? <==> old(world).target.sub.Some?)
                && world.target.tables.Keys == old(world).target.tables.Keys
                && token.Has(Stage.Dump) == t.Has(Stage.Dump)
                && token.Has(Restore) == t.Has(Restore) && token.Has(Analyze) == t.Has(Analyze)
      ensures r.Pass? && setup.config.splitTablesLargerThan.Some? ==>
                setup.config.splitMaxParts > 0 && !token.Has(Stage.Dump)
      ensures r.Fail? ==> world.proc.None?
      ensures fate.steady && MayStart(setup, old(world)) ==> r.Pass?
    {
      hide Do, Valid, MovedOn, SameObjects, MayStart, TokenFound, PreparePc, VacuumPc;
      :- LoadOrInitResume();
      ghost var loaded := world;
      :- RunSourceVacuumStage();
      MovedKeys(loaded, world);
      ObjectsMean(loaded, world);
      return Pass;
    }

    /** Everything before the dump. */
    method StartAndPlan() returns (r: Outcome<RunError>)
      requires Valid() && world.proc.None? && !cutOver && world.history.forgotten == start.history.forgotten
      requires Words(setup.config)
      modifies `world, `past, `deeds, `before, `cutOver, `resume, `token, `preparedStream, `split, `splitTables, `exit
      ensures Valid()
      ensures r.Pass? ==> Awaits(DumpPc(setup, token)) && Planned() && exit.StillRunning?
      ensures r.Pass? ==> resume == (old(world).history.runs > 0) && (split.Some? <==> splitTables != [])
      ensures r == Fail(Refused) <==> !MayStart(setup, old(world))
      ensures r.Pass? ==>
                var t := TokenFound(setup, old(world));
                var begins := setup.config.mode.Online? && !t.Has(Stage.Dump);
                && deeds == old(deeds) + StartDeeds(setup, t, fate.statements, SplitRoutes.Names(splitTables))
                && token.pubAutoCreated == (t.pubAutoCreated || (begins && !old(world).source.publication))
                && (world.source.publication <==> old(world).source.publication || begins)
                && (world.source.slot.Some? <==> old(world).source.slot.Some? || begins)
                && (world.target.sub.Some? <==> old(world).target.sub.Some?)
                && world.target.tables.Keys == old(world).target.tables.Keys
                && (begins ==> old(world).source.publication || setup.config.online.autoCreatePublication)
                && token.Has(Stage.Dump) == t.Has(Stage.Dump)
                && token.Has(Restore) == t.Has(Restore) && token.Has(Analyze) == t.Has(Analyze)
                && (setup.config.splitTablesLargerThan.None? ==> split.None?)
      ensures r.Fail? ==> world.proc.None?
      ensures fate.steady && MayStart(setup, old(world)) && CanPrepare(old(world)) ==> r.Pass?
    {
      hide Do, Valid, MovedOn, SameObjects, MayStart, TokenFound, PreparePc, Planned, Permitted, VacuumPc, DumpPc,
           SplitRoutes.Names;
      :- StartAndVacuum();
      :- PrepareStreamIfOnline();
      ghost var prepared := world;
      r := PrepareSplit();
      MovedKeys(prepared, world);
      ObjectsMean(prepared, world);
      ghost var t := TokenFound(setup, old(world));
      JoinThree(old(deeds), if setup.config.skipSourceVacuum || t.Has(SourceVacuum) then []
                            else [VacuumDone(fate.statements.vacuum)],
                if setup.config.mode.Online? && !t.Has(Stage.Dump) then [PublicationDone, SlotDone] else [],
                [PlanDone(SplitRoutes.Names(splitTables))]);
    }

    lemma ObjectsMean(a: State, b: State)
      ensures SameObjects(a, b) ==>
                && b.source.publication == a.source.publication
                && (b.source.slot.Some? <==> a.source.slot.Some?) && (b.target.sub.Some? <==> a.target.sub.Some?)
    {
    }

    method PrepareStreamIfOnline() returns (r: Outcome<RunError>)
      requires Awaits(PreparePc(setup, token))
      modifies `world, `past, `deeds, `before, `cutOver, `token, `preparedStream
      ensures Valid()
      ensures r.Pass? ==> Awaits(AtSplitPlan)
      ensures r.Pass? ==>
                var begins := setup.config.mode.Online? && !old(token).Has(Stage.Dump);
                && deeds == old(deeds) + (if begins then [PublicationDone, SlotDone] else [])
                && token.pubAutoCreated == (old(token).pubAutoCreated || (begins && !old(world).source.publication))
                && (world.source.publication <==> old(world).source.publication || begins)
                && (world.source.slot.Some? <==> old(world).source.slot.Some? || begins)
                && (world.target.sub.Some? <==> old(world).target.sub.Some?)
                && world.target.tables.Keys == old(world).target.tables.Keys
                && (begins ==> old(world).source.publication || setup.config.online.autoCreatePublication)
                && (begins && old(world).source.slot.None? ==> token.snapshotName.Some?)
                && token.Has(Stage.Dump) == old(token).Has(Stage.Dump)
                && token.Has(Restore) == old(token).Has(Restore) && token.Has(Analyze) == old(token).Has(Analyze)
      ensures r.Fail? ==> world.proc.None?
      ensures r != Fail(Refused)
      ensures fate.steady
              && (setup.config.mode.Online? && !old(token).Has(Stage.Dump) ==>
                    old(world).source.publication || setup.config.online.autoCreatePublication) ==>
                r.Pass?
    {
      hide Do, Valid;
      if setup.config.mode.Online? {
        r := PrepareStream();
        return;
      }
      return Pass;
    }

    /** Follow the source until the operator cuts over or cancels, and clean up after a
        cutover. */
    method FollowSource() returns (r: Outcome<RunError>)
      requires Awaits(AtDropStream) && exit.StillRunning?
      modifies `world, `past, `deeds, `before, `cutOver, `token, `preparedStream, `exit, `stats, `loopTurns
      ensures Valid()
      ensures r.Pass? ==> Awaits(AtComplete) && (exit.ByCutover? || exit.ByCancel?)
      ensures r.Pass? ==>
                deeds == old(deeds) + FollowingDeeds(setup, fate.statements, resume, exit, stats.lastApplied,
                                                     token.pubAutoCreated)
      ensures r.Pass? ==> token.pubAutoCreated == old(token).pubAutoCreated
      ensures r.Pass? ==> EndedBy(fate.turns, loopTurns, exit, stats.lastApplied)
      ensures r.Pass? ==> LeftBehind(old(world), world)
      ensures r.Fail? ==> world.proc.None?
      ensures r != Fail(Refused)
      ensures fate.steady && fate.polls > 0 && EndsWell(fate.turns) ==> r.Pass?
    {
      hide Do, Valid, MovedOn, SameThere, SameObjects, EndsWell, EndedBy, Cleaned, LeftBehind, AppliedFrom,
           ReleaseDeeds, ApplyDeeds, CleanupDeeds;
      :- ReleaseSlot();
      ghost var released := world;
      :- ApplyUntilLeft();
      ghost var left := world;
      r := ReportAndCleanUp();
      if r.Pass? {
        LeavesBehind(old(world), released, left, world);
        JoinFour(old(deeds), ReleaseDeeds(fate.statements, resume), ApplyDeeds(setup, fate.statements, exit),
                 [LoopReported(stats.lastApplied)],
                 CleanupDeeds(setup, fate.statements, exit, token.pubAutoCreated));
      }
    }

    method ApplyUntilLeft() returns (r: Outcome<RunError>)
      requires Awaits(AtAttach) && exit.StillRunning?
      modifies `world, `past, `deeds, `before, `cutOver, `exit, `stats, `loopTurns
      ensures Valid()
      ensures r.Pass? ==> Awaits(AtLoopReport) && (exit.ByCutover? || exit.ByCancel?)
      ensures r.Pass? ==> deeds == old(deeds) + ApplyDeeds(setup, fate.statements, exit)
      ensures r.Pass? ==> AppliedFrom(old(world), world)
      ensures r.Pass? ==> EndedBy(fate.turns, loopTurns, exit, stats.lastApplied)
      ensures r.Fail? ==> world.proc.None?
      ensures r != Fail(Refused)
      ensures fate.steady && EndsWell(fate.turns) ==> r.Pass?
    {
      hide Do, Valid, EndsWell, EndedBy;
      r := RunNativeApply();
      JoinTwo(old(deeds), [Attached, LoopEnded(exit), TearDisabled(fate.statements.tearDown)],
              if !fate.statements.tearDown || !exit.ByCutover? || !setup.config.online.dropSubscriptionOnCutover then []
              else [TearDetached(fate.statements.detach)]
                   + if fate.statements.detach then [TearDropped(fate.statements.drop)] else []);
    }

    ghost predicate AppliedFrom(s: State, s': State)
      reads `fate, `exit
    {
      && s'.source.publication == s.source.publication
      && (s'.source.slot.Some? <==> s.source.slot.Some?)
      && (s'.target.sub.None? <==>
            && exit.ByCutover? && setup.config.online.dropSubscriptionOnCutover
            && fate.statements.tearDown && fate.statements.detach && fate.statements.drop)
      && (s'.target.sub.Some? && fate.statements.tearDown ==> !s'.target.sub.value.enabled)
    }

    method ReportAndCleanUp() returns (r: Outcome<RunError>)
      requires Awaits(AtLoopReport) && !exit.ByFailedHealthCheck?
      modifies `world, `past, `deeds, `before, `cutOver, `token
      ensures Valid()
      ensures r.Pass? ==> Awaits(AtComplete) && token.pubAutoCreated == old(token).pubAutoCreated
      ensures r.Pass? ==>
                deeds == old(deeds) + [LoopReported(stats.lastApplied)]
                         + CleanupDeeds(setup, fate.statements, exit, token.pubAutoCreated)
      ensures r.Pass? ==> if exit.ByCutover? then Cleaned(old(world), world) else MovedOn(old(world), world)
      ensures r.Fail? ==> world.proc.None?
      ensures r != Fail(Refused) && (fate.steady ==> r.Pass?)
    {
      hide Do, Valid, MovedOn, Cleaned, AfterLoopPc;
      ghost var p := Local(AtLoopReport, NotSaving);
      :- ReportLoop(AfterLoopPc(setup, p));
      ghost var reported, said := world, deeds;
      SameAfterLoop(setup, p, Local(AtLoopReport, NotSaving));
      r := AfterLoop();
      CleanedAlong(old(world), reported, world);
      JoinThree(said, if setup.config.online.syncSequencesOnCutover then [SequencesDone] else [],
                if token.pubAutoCreated then [PublicationDropped(fate.statements.dropPublication)] else [],
                if setup.config.online.dropSlotOnCutover
                then [CleanupWaited, SlotDropped(fate.statements.dropSlot)] else []);
    }

    /** Whatever the run left on both sides, in terms of what it found when it began to follow
        the source: the subscription is gone exactly if a cutover was to drop it and all three
        statements succeeded, and disabled otherwise if the first did; publication and slot are
        gone only after a cutover, as `Cleaned` says. */
    ghost predicate LeftBehind(s: State, s': State)
      reads `token, `fate, `exit
    {
      var st, online := fate.statements, setup.config.online;
      && s'.source.publication == (s.source.publication
                                   && !(exit.ByCutover? && token.pubAutoCreated && st.dropPublication))
      && (s'.target.sub.None? <==>
            exit.ByCutover? && online.dropSubscriptionOnCutover && st.tearDown && st.detach && st.drop)
      && (s'.target.sub.Some? && st.tearDown ==> !s'.target.sub.value.enabled)
      && (s.source.slot.None? ==> s'.source.slot.None?)
      && (s.source.slot.Some? && s'.source.slot.None? ==> exit.ByCutover? && online.dropSlotOnCutover && st.dropSlot)
      && (exit.ByCutover? && online.dropSlotOnCutover && st.dropSlot ==>
            s'.source.slot.None? || s'.source.slot.value.active)
      && (exit.ByCutover? && online.dropSlotOnCutover && st.dropSlot && fate.steady && st.tearDown ==>
            s'.source.slot.None?)
    }

    lemma LeavesBehind(a: State, b: State, c: State, d: State)
      requires SameThere(a, b) && AppliedFrom(b, c) && if exit.ByCutover? then Cleaned(c, d) else MovedOn(c, d)
      ensures LeftBehind(a, d)
    {
    }

    method MigrateOnline() returns (r: Outcome<RunError>)
      requires Valid() && world.proc.None? && !cutOver && start == world
      requires setup.config.mode.Online? && Words(setup.config)
      modifies `world, `past, `deeds, `before, `cutOver, `resume, `token, `preparedStream, `split,
               `splitTables, `exit, `stats, `copied, `loopTurns
      ensures Valid() && world.proc.None?
      ensures r == Fail(Refused) <==> !MayStart(setup, old(world))
      ensures r.Pass? ==> (exit.ByCutover? || exit.ByCancel?) && (cutOver ==> exit.ByCutover?)
      ensures r.Pass? && setup.config.scope.All? && !world.history.reopened && !MayRepeat(start) ==>
                OnlineResult(setup, world)
      ensures r.Pass? ==>
                var t, plan := TokenFound(setup, old(world)), SplitRoutes.Names(splitTables);
                deeds == old(deeds) + (StartDeeds(setup, t, fate.statements, plan)
                                       + RestoreDeeds(setup, t, fate.statements, plan != {}))
                         + FollowingDeeds(setup, fate.statements, old(world).history.runs > 0, exit,
                                          stats.lastApplied, token.pubAutoCreated)
      ensures r.Pass? ==> EndedBy(fate.turns, loopTurns, exit, stats.lastApplied)
      ensures r.Pass? ==>
                var t := TokenFound(setup, old(world));
                var begins := !t.Has(Stage.Dump);
                && token.pubAutoCreated == (t.pubAutoCreated || (begins && !old(world).source.publication))
                && (t.Has(Restore) || Permitted(setup, old(world).target.tables.Keys))
                && (begins ==> old(world).source.publication || setup.config.online.autoCreatePublication)
                && exists s: State :: LeftBehind(s, world)
                     && (s.source.publication <==> old(world).source.publication || begins)
                     && (s.source.slot.Some? <==> old(world).source.slot.Some? || begins)
      ensures fate.steady && fate.polls > 0 && MayStart(setup, old(world)) && CanPrepare(old(world))
              && EndsWell(fate.turns) ==>
                r.Pass?
    {
      hide Do, Valid, OnlineResult, MayStart, TokenFound, StartDeeds, RestoreDeeds, FollowingDeeds, Permitted, EndsWell,
           EndedBy, LeftBehind, SplitRoutes.Names, CanPrepare, AfterAnalyzePc, MayRepeat;
      OnlineFollows(setup);
      :- PrepareTarget();
      ghost var ready := world;
      :- FollowSource();
      ghost var done := world;
      CompletesOnline();
      StillBehind(ready, done, world);
      return Pass;
    }

    method CompletesOnline()
      requires Awaits(AtComplete) && setup.config.mode.Online?
      modifies `world, `past, `deeds, `before, `cutOver
      ensures Valid() && world.proc.None? && cutOver == old(cutOver) && deeds == old(deeds)
      ensures world.source == old(world).source && world.target == old(world).target
      ensures setup.config.scope.All? && !world.history.reopened && !MayRepeat(start) ==> OnlineResult(setup, world)
    {
      hide Do, Valid, OnlineResult;
      ghost var done := world;
      if setup.config.scope.All? && !done.history.reopened && !MayRepeat(start) {
        OnlineEnd();
      }
      Finishes();
      SameOnline(setup, done, world);
    }

    lemma StillBehind(a: State, b: State, c: State)
      ensures LeftBehind(a, b) && c.source == b.source && c.target == b.target ==> LeftBehind(a, c)
    {
    }

    lemma OnlineEnd()
      requires Awaits(AtComplete) && setup.config.mode.Online? && setup.config.scope.All?
      requires !world.history.reopened && !MayRepeat(start)
      ensures OnlineResult(setup, world)
    {
      hide Do, Run, Init, Keeps, Deeds, Inv;
      SinceStart();
      ReachableInv(setup, world);
      CompletedRecords(setup, world);
      if setup.tables != {} {
        if world.history.forgotten { ForgottenIsRefused(setup, world); }
        if world.disk.archive.value.snapshot.Some? { ExactlyOnce(setup, world); }
      }
    }

    method MigrateOffline() returns (r: Outcome<RunError>)
      requires Valid() && world.proc.None? && !cutOver && start == world
      requires setup.config.mode.Offline? && Words(setup.config)
      modifies `world, `past, `deeds, `before, `cutOver, `resume, `token, `preparedStream, `split,
               `splitTables, `exit, `copied, `counted
      ensures Valid() && world.proc.None?
      ensures r == Fail(Refused) <==> !MayStart(setup, old(world))
      ensures r.Pass? && !setup.config.scope.DataOnly? ==> OfflineResult(setup, world)
      ensures r.Pass? ==>
                var t, plan := TokenFound(setup, old(world)), SplitRoutes.Names(splitTables);
                deeds == old(deeds) + (StartDeeds(setup, t, fate.statements, plan)
                                       + RestoreDeeds(setup, t, fate.statements, plan != {})) + [VerifyDone]
      ensures r.Pass? ==>
                TokenFound(setup, old(world)).Has(Restore) || Permitted(setup, old(world).target.tables.Keys)
      ensures r.Pass? && setup.config.verify.Strict? && DotFree(fate.verified) ==> AllSame(counted, fate.verified)
      ensures r.Pass? ==> counted.source.wal <= world.source.wal
      ensures fate.steady && MayStart(setup, old(world)) && CanPrepare(old(world)) && CountersServed(setup, fate)
              && (setup.config.verify.Strict? ==> DotFree(fate.verified)) ==>
                (r.Pass? <==> !setup.config.verify.Strict? || AllSame(counted, fate.verified))
    {
      hide Do, Valid, OfflineResult, MayStart, TokenFound, StartDeeds, RestoreDeeds, Permitted, DotFree, AllSame,
           SplitRoutes.Names, CanPrepare, CountersServed, MovedOn;
      :- PrepareTarget();
      var report :- RunVerifyStage();
      MovedKeys(counted, world);
      MovedWal(counted, world);
      ghost var done := world;
      if !setup.config.scope.DataOnly? { OfflineEnd(); }
      Finishes();
      SameOffline(setup, done, world);
      return Pass;
    }

    lemma OfflineEnd()
      requires Awaits(AtComplete) && setup.config.mode.Offline? && !setup.config.scope.DataOnly?
      ensures OfflineResult(setup, world)
    {
      SinceStart();
      OfflineExact(setup, world);
    }

    /** An online run is refused exactly if its configuration is invalid or what it resumes does
        not fit. It ends well only by cutover or cancellation, as the turns of its loop say; it
        has then done precisely what the token it started from did not record, and left on both
        sides what the way it ended says. If the dump read the slot's own snapshot, every table
        holds the source's rows as of the last replicated position, each change once and in
        order, whatever earlier runs of the same history did and whatever saves of the token
        failed; unless a dropped subscription was created again, or an earlier run had
        forgotten its restore and the target is dropped first. A steady run does end well if
        the publication and the restore permit it and a turn of the loop is cancelled or finds
        a request before a worker was found dead. Unless the loop was left by cutover, however
        the run ended, slot, subscription and publication are still there for a later
        `--resume`. */
    method RunOnline(fate: Fate) returns (r: Outcome<RunError>)
      requires Valid() && world.proc.None? && setup.config.mode.Online? && Words(setup.config)
      modifies this
      ensures Valid() && old(past) <= past && world.proc.None? && this.fate == fate
      ensures !cutOver ==> Keeps(old(world), world)
      ensures r == Fail(Refused) <==>
                !(&& Config.Valid(setup.config.(resume := old(world).history.runs > 0))
                  && (old(world).history.runs > 0 ==>
                        && !old(world).disk.token.Torn?
                        && (old(world).disk.token.Whole? ==> Compatible(old(world).disk.token.token, setup.config))))
      ensures r.Pass? ==> (exit.ByCutover? || exit.ByCancel?) && (cutOver ==> exit.ByCutover?)
      ensures r.Pass? ==> EndedBy(fate.turns, loopTurns, exit, stats.lastApplied)
      ensures r.Pass? ==>
                var t, plan := TokenFound(setup, old(world)), SplitRoutes.Names(splitTables);
                deeds == old(deeds) + (StartDeeds(setup, t, fate.statements, plan)
                                       + RestoreDeeds(setup, t, fate.statements, plan != {}))
                         + FollowingDeeds(setup, fate.statements, old(world).history.runs > 0, exit,
                                          stats.lastApplied, token.pubAutoCreated)
      // What is left: the publication,
      ensures r.Pass? ==>
                var t := TokenFound(setup, old(world));
                && token.pubAutoCreated == (t.pubAutoCreated
                                            || (!t.Has(Stage.Dump) && !old(world).source.publication))
                && (world.source.publication <==>
                      && (old(world).source.publication || !t.Has(Stage.Dump))
                      && !(exit.ByCutover? && token.pubAutoCreated && fate.statements.dropPublication))
      // the subscription,
      ensures r.Pass? ==>
                && (world.target.sub.None? <==>
                      && exit.ByCutover? && setup.config.online.dropSubscriptionOnCutover
                      && fate.statements.tearDown && fate.statements.detach && fate.statements.drop)
                && (world.target.sub.Some? && fate.statements.tearDown ==> !world.target.sub.value.enabled)
      // and the slot.
      ensures r.Pass? && world.source.slot.None? ==>
                || (old(world).source.slot.None? && TokenFound(setup, old(world)).Has(Stage.Dump))
                || (exit.ByCutover? && setup.config.online.dropSlotOnCutover && fate.statements.dropSlot)
      ensures r.Pass? && exit.ByCutover? && setup.config.online.dropSlotOnCutover && fate.statements.dropSlot ==>
                || world.source.slot.None?
                || (world.source.slot.value.active && !(fate.steady && fate.statements.tearDown))
      ensures r.Pass? && setup.config.scope.All? && !world.history.reopened
              && !(old(world).history.forgotten && setup.config.dropTargetFirst) ==>
                && world.disk.archive.Some? && world.history.applied <= |world.source.wal|
                && (world.disk.archive.value.snapshot.Some? ==>
                      forall t :: t in setup.tables ==>
                        && t in world.target.tables
                        && world.target.tables[t] == Of(world.source.wal[..world.history.applied], t))
      // It needs a publication and a restore that is permitted, unless they are recorded as done.
      ensures r.Pass? ==>
                var t := TokenFound(setup, old(world));
                && (t.Has(Restore)
                    || if setup.config.scope.DataOnly? then setup.tables <= old(world).target.tables.Keys
                       else setup.config.dropTargetFirst || setup.tables !! old(world).target.tables.Keys)
                && (t.Has(Stage.Dump) || old(world).source.publication || setup.config.online.autoCreatePublication)
      // In a steady run, and without a direct copy, it needs nothing else.
      ensures fate.steady && fate.polls > 0 && r != Fail(Refused)
              && (var t := TokenFound(setup, old(world));
                  && (t.Has(Restore)
                      || if setup.config.scope.DataOnly? then setup.tables <= old(world).target.tables.Keys
                         else setup.config.dropTargetFirst || setup.tables !! old(world).target.tables.Keys)
                  && (t.Has(Stage.Dump) || old(world).source.publication || setup.config.online.autoCreatePublication))
              && (setup.config.splitTablesLargerThan.Some? ==>
                    && !setup.config.scope.DataOnly? && old(world).source.slot.None?
                    && !(checked && setup.config.splitMaxParts == 0x8000_0000_0000_0000))
              && (exists k :: 0 <= k < |fate.turns| && Decides(fate.turns[k])
                              && forall i :: 0 <= i < k ==> fate.turns[i].workerAlive) ==>
                r.Pass?
    {
      hide Do, Valid, Keeps, StartDeeds, RestoreDeeds, FollowingDeeds, EndedBy, SplitRoutes.Names, TokenFound;
      StartsIff(setup, world);
      Begins(fate);
      r := MigrateOnline();
      SinceStart();
    }

    /** An offline run that ends well has put into every table the content of one pg_dump
        that finished, whatever earlier runs of the same history did, however they ended and
        whatever saves of the token failed, and has done precisely what the token it started
        from did not record. It drops nothing. A steady run does end well if the restore is
        permitted, unless the rows are to be compared strictly and differ. */
    method RunOffline(fate: Fate) returns (r: Outcome<RunError>)
      requires Valid() && world.proc.None? && setup.config.mode.Offline? && Words(setup.config)
      modifies this
      ensures Valid() && old(past) <= past && world.proc.None? && this.fate == fate
      ensures Keeps(old(world), world)
      ensures r == Fail(Refused) <==>
                !(&& Config.Valid(setup.config.(resume := old(world).history.runs > 0))
                  && (old(world).history.runs > 0 ==>
                        && !old(world).disk.token.Torn?
                        && (old(world).disk.token.Whole? ==> Compatible(old(world).disk.token.token, setup.config))))
      ensures r.Pass? ==>
                var t, plan := TokenFound(setup, old(world)), SplitRoutes.Names(splitTables);
                deeds == old(deeds) + (StartDeeds(setup, t, fate.statements, plan)
                                       + RestoreDeeds(setup, t, fate.statements, plan != {})) + [VerifyDone]
      ensures r.Pass? && !setup.config.scope.DataOnly? ==>
                && world.disk.archive.Some? && world.disk.archive.value.lsn in world.history.dumps
                && world.disk.archive.value.lsn <= |world.source.wal|
                && forall t :: t in setup.tables ==>
                     && t in world.target.tables
                     && world.target.tables[t] == Rows(setup, world.source.wal, world.disk.archive.value.lsn, t)
      ensures r.Pass? ==>
                || TokenFound(setup, old(world)).Has(Restore)
                || if setup.config.scope.DataOnly? then setup.tables <= old(world).target.tables.Keys
                   else setup.config.dropTargetFirst || setup.tables !! old(world).target.tables.Keys
      ensures r.Pass? ==> counted.source.wal <= world.source.wal
      ensures r.Pass? && setup.config.verify.Strict?
              && (forall rel :: rel in fate.verified ==> '.' !in rel.table) ==>
                forall rel :: rel in fate.verified ==>
                  var name := rel.schema + "." + rel.table;
                  name in counted.target.tables && |counted.target.tables[name]| == |Of(counted.source.wal, name)|
      ensures fate.steady && r != Fail(Refused)
              && (|| TokenFound(setup, old(world)).Has(Restore)
                  || if setup.config.scope.DataOnly? then setup.tables <= old(world).target.tables.Keys
                     else setup.config.dropTargetFirst || setup.tables !! old(world).target.tables.Keys)
              && (setup.config.splitTablesLargerThan.Some? ==>
                    && !setup.config.scope.DataOnly?
                    && !(checked && setup.config.splitMaxParts == 0x8000_0000_0000_0000))
              && (forall w :: 0 <= w < Max(setup.config.jobs, 1) ==> Turns(fate.counting, w) >= |fate.verified|)
              && (setup.config.verify.Strict? ==> forall rel :: rel in fate.verified ==> '.' !in rel.table) ==>
                (r.Pass? <==>
                   || !setup.config.verify.Strict?
                   || forall rel :: rel in fate.verified ==>
                        var name := rel.schema + "." + rel.table;
                        && name in counted.target.tables
                        && |counted.target.tables[name]| == |Of(counted.source.wal, name)|)
    {
      hide Do, Valid, Keeps, StartDeeds, RestoreDeeds, SplitRoutes.Names, TokenFound, ReportOf;
      StartsIff(setup, world);
      Begins(fate);
      r := MigrateOffline();
      SinceStart();
      ReportMeans(counted, fate.verified);
    }
  }
}
