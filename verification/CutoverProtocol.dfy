/** The cutover request as a concurrent protocol: the signal handler
    (`bin/pg_dbmigrator/main.rs`), any number of other holders of the handle, and the
    apply loop, interleaved step by step. `Notify` keeps at most one permit: a
    notification either wakes the parked loop or is kept for its next wait. */
module CutoverProtocol {
  import opened Prelude
  import opened Config
  import opened Cutover

  datatype SigintAction = RequestCutover | Cancel

  function ClassifySigint(mode: Mode, alreadyRequested: bool): SigintAction {
    if mode.Online? && !alreadyRequested then RequestCutover else Cancel
  }

  /** The loop's next step. */
  datatype LoopPc =
    | NotStarted
    | AtTop            // cancelled?
    | AtClock          // is it time for the next poll?
    | Parked           // waiting for the timer, the cancel token or a permit
    | Woken            // cancelled?
    | AtFlag           // cutover requested?
    | Sampling
    | CheckingWorker
    | Exited(exit: LoopExit)

  /** The signal handler's next step. */
  datatype HandlerPc = AwaitingSignal | Swapping | Notifying | Cancelling | Returned

  /** `halfway` counts the requests by other holders that have set the flag but not yet
      notified, `completed` the requests that have returned, `samplesAfter` the lag
      samples completed since the flag was set, and `deadSeen` says that a check found the
      apply worker dead. */
  datatype State = State(
    mode: Mode,
    flag: bool,
    permit: bool,
    cancelled: bool,
    loop: LoopPc,
    handler: HandlerPc,
    halfway: nat,
    started: nat,
    completed: nat,
    samplesAfter: nat,
    deadSeen: bool)

  predicate Init(s: State) {
    && !s.flag && !s.permit && !s.cancelled && s.loop.NotStarted? && s.handler.AwaitingSignal?
    && s.halfway == 0 && s.started == 0 && s.completed == 0 && s.samplesAfter == 0 && !s.deadSeen
  }

  datatype Event =
    // the signal handler
    | Sigint | HandlerSwaps | HandlerNotifies | HandlerCancels
    // another holder of the handle
    | OtherSwaps | OtherNotifies
    // the loop
    | LoopStarts
    | ChecksTop | ChecksClock(due: bool)
    | TimerWakes | CancelWakes | PermitWakes
    | ChecksAfterWake | ChecksFlag
    | SampleCompletes(checkDue: bool)
    | WorkerChecked(alive: bool)

  predicate LoopEvent(e: Event) {
    || e.ChecksTop? || e.ChecksClock? || e.TimerWakes? || e.CancelWakes? || e.PermitWakes?
    || e.ChecksAfterWake? || e.ChecksFlag? || e.SampleCompletes? || e.WorkerChecked?
  }

  function When(c: bool, s: State): Option<State> {
    if c then Some(s) else None
  }

  function Do(s: State, e: Event): Option<State> {
    match e
    case Sigint =>
      When(s.handler.AwaitingSignal?,
           s.(handler := if ClassifySigint(s.mode, s.flag).RequestCutover? then Swapping else Cancelling))
    case HandlerSwaps => When(s.handler.Swapping?, s.(flag := true, started := s.started + 1, handler := Notifying))
    case HandlerNotifies =>
      When(s.handler.Notifying?, s.(permit := true, completed := s.completed + 1, handler := AwaitingSignal))
    case HandlerCancels => When(s.handler.Cancelling?, s.(cancelled := true, handler := Returned))
    case OtherSwaps => Some(s.(flag := true, started := s.started + 1, halfway := s.halfway + 1))
    case OtherNotifies =>
      if s.halfway == 0 then None
      else Some(s.(permit := true, completed := s.completed + 1, halfway := s.halfway - 1))
    case LoopStarts => When(s.loop.NotStarted?, s.(loop := AtTop))
    case ChecksTop => When(s.loop.AtTop?, s.(loop := if s.cancelled then Exited(ByCancel) else AtClock))
    case ChecksClock(due) => When(s.loop.AtClock?, s.(loop := if due then AtFlag else Parked))
    case TimerWakes => When(s.loop.Parked?, s.(loop := Woken))
    case CancelWakes => When(s.loop.Parked? && s.cancelled, s.(loop := AtTop))
    case PermitWakes => When(s.loop.Parked? && s.permit, s.(permit := false, loop := Woken))
    case ChecksAfterWake => When(s.loop.Woken?, s.(loop := if s.cancelled then AtTop else AtFlag))
    case ChecksFlag => When(s.loop.AtFlag?, s.(loop := if s.flag then Exited(ByCutover) else Sampling))
    case SampleCompletes(checkDue) =>
      When(s.loop.Sampling?, s.(loop := if checkDue then CheckingWorker else AtTop,
                                samplesAfter := if s.flag then s.samplesAfter + 1 else 0))
    case WorkerChecked(alive) =>
      When(s.loop.CheckingWorker?, s.(loop := if alive then AtTop else Exited(ByFailedHealthCheck),
                                      deadSeen := s.deadSeen || !alive))
  }

  function Run(s: State, es: seq<Event>): Option<State> {
    if es == [] then Some(s)
    else match Run(s, es[..|es| - 1])
      case None => None
      case Some(m) => Do(m, es[|es| - 1])
  }

  ghost predicate Reachable(s: State) {
    exists init, es :: Init(init) && Run(init, es) == Some(s)
  }

  // ------------------------------------------------------------------ invariant

  /** Where the loop may have used up the permit of a completed request: on its way from
      the wake-up to an exit. */
  predicate LeavingAfterWake(s: State) {
    s.loop.Woken? || s.loop.AtFlag? || s.loop.Exited? || (s.loop.AtTop? && s.cancelled)
  }

  predicate Inv(s: State) {
    && (s.flag <==> s.started > 0)
    && s.started == s.completed + s.halfway + (if s.handler.Notifying? then 1 else 0)
    && (s.permit ==> s.completed > 0)
    && (s.completed > 0 ==> s.permit || LeavingAfterWake(s))
    && (s.samplesAfter > 0 ==> s.flag && s.samplesAfter == 1 && !s.loop.Sampling?)
    && (s.loop == Exited(ByCutover) ==> s.flag)
    && (s.loop == Exited(ByCancel) ==> s.cancelled)
    && (s.loop == Exited(ByFailedHealthCheck) <==> s.deadSeen)
    && s.loop != Exited(StillRunning)
    && (s.cancelled <==> s.handler.Returned?)
    && (s.handler.Swapping? || s.handler.Notifying? ==> s.mode.Online?)
  }

  lemma LoopKeeps(s: State, e: Event, s': State)
    requires Inv(s) && Do(s, e) == Some(s') && LoopEvent(e)
    ensures Inv(s') && s'.mode == s.mode
  {
  }

  lemma RequestKeeps(s: State, e: Event, s': State)
    requires Inv(s) && Do(s, e) == Some(s') && !LoopEvent(e)
    ensures Inv(s') && s'.mode == s.mode
  {
  }

  lemma StepKeeps(s: State, e: Event, s': State)
    requires Inv(s) && Do(s, e) == Some(s')
    ensures Inv(s') && s'.mode == s.mode
  {
    hide Inv, Do;
    if LoopEvent(e) {
      LoopKeeps(s, e, s');
    } else {
      RequestKeeps(s, e, s');
    }
  }

  lemma {:induction false} RunKeeps(s: State, es: seq<Event>, s': State)
    requires Inv(s) && Run(s, es) == Some(s')
    ensures Inv(s') && s'.mode == s.mode
  {
    if es == [] {
    } else {
      var m := Run(s, es[..|es| - 1]).value;
      RunKeeps(s, es[..|es| - 1], m);
      StepKeeps(m, es[|es| - 1], s');
    }
  }

  lemma ReachableInv(s: State)
    requires Reachable(s)
    ensures Inv(s)
  {
    var init, es :| Init(init) && Run(init, es) == Some(s);
    RunKeeps(init, es, s);
  }

  // -------------------------------------------------------------------- results

  /** A stored permit means the flag is set; a loop that is parked after some request has
      returned has a permit to wake on; at most one more sample completes once the flag
      is set; and an exit has the cause it claims. */
  lemma NoLostWakeUp(s: State)
    requires Reachable(s)
    ensures s.permit ==> s.flag
    ensures s.completed > 0 && s.loop.Parked? ==> s.permit
    ensures s.samplesAfter <= 1
    ensures s.loop == Exited(ByCutover) ==> s.started > 0
    ensures s.loop == Exited(ByCancel) ==> s.cancelled
    ensures s.loop == Exited(ByFailedHealthCheck) <==> s.deadSeen
    ensures s.loop.Exited? ==> s.loop.exit.ByCutover? || s.loop.exit.ByCancel? || s.loop.exit.ByFailedHealthCheck?
  {
    ReachableInv(s);
  }

  /** Once some request has returned, the loop can always take a step of its own without
      waiting for a timer. */
  lemma NeverBlocked(s: State)
    requires Reachable(s) && s.completed > 0 && !s.loop.NotStarted? && !s.loop.Exited?
    ensures exists e :: LoopEvent(e) && !e.TimerWakes? && Do(s, e).Some?
  {
    ReachableInv(s);
    var e := match s.loop
      case AtTop => ChecksTop
      case AtClock => ChecksClock(false)
      case Parked => PermitWakes
      case Woken => ChecksAfterWake
      case AtFlag => ChecksFlag
      case Sampling => SampleCompletes(false)
      case _ => WorkerChecked(true);
    assert LoopEvent(e) && Do(s, e).Some?;
  }

  /** How many steps of its own the loop has left once the flag is set. */
  function Left(s: State): nat {
    match s.loop
    case Exited(_) => 0
    case AtFlag => 1
    case Woken => 2
    case Parked => 3
    case AtClock => 4
    case AtTop => if s.cancelled then 1 else 5
    case CheckingWorker => 6
    case Sampling => 7
    case NotStarted => 8
  }

  function LoopSteps(es: seq<Event>): nat {
    if es == [] then 0
    else LoopSteps(es[..|es| - 1]) + if LoopEvent(es[|es| - 1]) then 1 else 0
  }

  lemma LeftStep(s: State, e: Event, s': State)
    requires s.flag && Do(s, e) == Some(s')
    ensures s'.flag && Left(s') + (if LoopEvent(e) then 1 else 0) <= Left(s)
  {
  }

  /** From the moment the flag is set the loop takes at most seven more steps, whatever
      else is interleaved: the sample in flight and the way to the exit. */
  lemma {:induction false} LatencyBound(s: State, es: seq<Event>, s': State)
    requires s.flag && Run(s, es) == Some(s')
    ensures s'.flag && LoopSteps(es) + Left(s') <= Left(s)
    ensures !s.loop.NotStarted? ==> LoopSteps(es) <= 7
  {
    hide Do, LoopEvent;
    if es == [] {
    } else {
      var m := Run(s, es[..|es| - 1]).value;
      LatencyBound(s, es[..|es| - 1], m);
      LeftStep(m, es[|es| - 1], s');
    }
  }

  /** How many steps of its own the loop has left once it is cancelled. */
  function LeftOnCancel(s: State): nat {
    match s.loop
    case Exited(_) => 0
    case AtTop => 1
    case Woken => 2
    case NotStarted => 2
    case CheckingWorker => 2
    case Parked => 3
    case Sampling => 3
    case AtFlag => 4
    case AtClock => 5
  }

  lemma LeftOnCancelStep(s: State, e: Event, s': State)
    requires s.cancelled && Do(s, e) == Some(s')
    ensures s'.cancelled && LeftOnCancel(s') + (if LoopEvent(e) then 1 else 0) <= LeftOnCancel(s)
  {
  }

  /** From a cancellation on the loop takes at most five more steps. */
  lemma {:induction false} CancelBound(s: State, es: seq<Event>, s': State)
    requires s.cancelled && Run(s, es) == Some(s')
    ensures s'.cancelled && LoopSteps(es) + LeftOnCancel(s') <= LeftOnCancel(s) && LoopSteps(es) <= 5
  {
    hide Do, LoopEvent;
    if es == [] {
    } else {
      var m := Run(s, es[..|es| - 1]).value;
      CancelBound(s, es[..|es| - 1], m);
      LeftOnCancelStep(m, es[|es| - 1], s');
    }
  }

  /** Offline, where nobody else holds the handle, Ctrl+C never requests a cutover. */
  lemma {:induction false} OfflineNeverCutsOver(init: State, es: seq<Event>, s: State)
    requires Init(init) && init.mode.Offline? && Run(init, es) == Some(s) && OtherSwaps !in es
    ensures !s.flag && s.loop != Exited(ByCutover)
  {
    if es == [] {
    } else {
      var m := Run(init, es[..|es| - 1]).value;
      OfflineNeverCutsOver(init, es[..|es| - 1], m);
      RunKeeps(init, es[..|es| - 1], m);
    }
  }

  /** Online, the first Ctrl+C sets the flag and every later one cancels: when the handler
      has nothing under way, the next signal cancels exactly if a cutover was requested. */
  lemma SecondSigintCancels(s: State, s': State)
    requires Reachable(s) && s.mode.Online? && Do(s, Sigint) == Some(s')
    ensures s'.handler.Cancelling? <==> s.started > 0
    ensures s'.handler.Swapping? <==> s.started == 0
  {
    ReachableInv(s);
  }

  /** The handler's own loop, serving `signals` deliveries of Ctrl+C with nobody else
      holding the handle: it requests a cutover at most once, cancels at most once, and
      returns when it has cancelled. */
  method ServeSignals(handle: CutoverHandle, mode: Mode, signals: nat) returns (cancelled: bool, served: nat)
    modifies handle
    ensures handle.requested <==> old(handle.requested) || (mode.Online? && signals > 0)
    ensures cancelled <==> signals > (if mode.Online? && !old(handle.requested) then 1 else 0)
    ensures served == if cancelled then (if mode.Online? && !old(handle.requested) then 2 else 1) else signals
    ensures !old(handle.requested) && handle.requested ==> handle.permit
  {
    cancelled, served := false, 0;
    while served < signals
      invariant served <= signals && !cancelled
      invariant handle.requested <==> old(handle.requested) || (mode.Online? && served > 0)
      invariant served <= if mode.Online? && !old(handle.requested) then 1 else 0
      invariant !old(handle.requested) && handle.requested ==> handle.permit
    {
      var already := handle.IsRequested();
      served := served + 1;
      match ClassifySigint(mode, already)
      case RequestCutover =>
        var _ := handle.Request();
      case Cancel =>
        cancelled := true;
        return;
    }
  }
}
