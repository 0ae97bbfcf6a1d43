/** The lag-polling loop of the native apply engine (`run_native_apply` in
    `pg_dbmigrator/src/native_apply.rs`). Elapsed time and the remote ends are inputs:
    one `Tick` says what one turn of the loop meets. */
module ApplyLoop {
  import opened Prelude
  import opened Config
  import opened Cutover

  datatype Sample = Sample(source: nat, confirmed: nat)

  /** How the wait between two polls ends, when there is one. */
  datatype Wake = NoWait | TimerFired | CutoverNotified | CancelFired

  datatype Tick = Tick(
    cancelled: bool,
    wake: Wake,
    cancelledAfterWait: bool,
    requested: bool,
    sample: Option<Sample>,
    workerAlive: bool)

  datatype Stats = Stats(lastApplied: nat, lastReceived: nat, lastLag: nat, cutoverTriggered: bool)

  datatype Report =
    | Heartbeat(lag: nat)
    | ReadyForCutover(lag: nat)
    | TargetFellBehind(lag: nat)
    | CutoverRequested

  // -------------------------------------------------- the history of samples

  function Lag(s: Sample): nat { LagBytes(s.source, s.confirmed) }

  /** Sample `i` of `h` shows no progress although there is lag. */
  predicate Stale(h: seq<Sample>, i: nat)
    requires i < |h|
  {
    i > 0 && h[i].confirmed == h[i - 1].confirmed && Lag(h[i]) > 0
  }

  /** On the positions themselves: the confirmed position has not moved, and is behind. */
  lemma StaleIff(h: seq<Sample>, i: nat)
    requires i < |h|
    ensures Stale(h, i) <==> i > 0 && h[i].confirmed == h[i - 1].confirmed && h[i].confirmed < h[i].source
    ensures h[i].confirmed + Lag(h[i]) == Max(h[i].source, h[i].confirmed)
  {
  }

  /** The length of the run of stale samples at the end of `h`. */
  function StaleRun(h: seq<Sample>): nat {
    if h == [] || !Stale(h, |h| - 1) then 0 else 1 + StaleRun(h[..|h| - 1])
  }

  lemma {:induction false} StaleRunIsLongest(h: seq<Sample>)
    ensures StaleRun(h) <= |h|
    ensures forall i :: |h| - StaleRun(h) <= i < |h| ==> Stale(h, i)
    ensures StaleRun(h) < |h| ==> !Stale(h, |h| - StaleRun(h) - 1)
  {
    if h == [] || !Stale(h, |h| - 1) {
    } else {
      var front := h[..|h| - 1];
      StaleRunIsLongest(front);
      assert forall i :: 0 <= i < |front| ==> (Stale(h, i) <==> Stale(front, i));
    }
  }

  predicate CheckDue(h: seq<Sample>) {
    StaleRun(h) > 0 && StaleRun(h) % 3 == 0
  }

  /** The last `k` samples, and not the one before them, show no progress behind the source. */
  predicate Stalled(h: seq<Sample>, k: nat)
    requires k <= |h|
  {
    && (forall i :: |h| - k <= i < |h| ==> Stale(h, i))
    && (k < |h| ==> !Stale(h, |h| - k - 1))
  }

  /** A check is due after every third sample in a row without progress, and never else. */
  lemma CheckDueIff(h: seq<Sample>)
    ensures CheckDue(h) <==> exists k: nat :: k <= |h| && Stalled(h, k) && k > 0 && k % 3 == 0
  {
    StaleRunIsLongest(h);
    var n := StaleRun(h);
    hide StaleRun, Stale;
    assert Stalled(h, n);
    forall k: nat | k <= |h| && Stalled(h, k) ensures k == n {
    }
  }

  /** The lengths of history at which the health of the worker is checked. */
  function Checks(h: seq<Sample>): seq<nat> {
    if h == [] then []
    else Checks(h[..|h| - 1]) + if CheckDue(h) then [|h|] else []
  }

  /** What one more sample does to the run of stale samples and to the checks. */
  lemma ProgressStep(h: seq<Sample>, s: Sample)
    ensures StaleRun(h + [s]) ==
            if h != [] && s.confirmed == h[|h| - 1].confirmed && Lag(s) > 0 then StaleRun(h) + 1 else 0
    ensures Checks(h + [s]) == Checks(h) + if CheckDue(h + [s]) then [|h| + 1] else []
  {
    var more := h + [s];
    assert more[..|more| - 1] == h && more != [];
    hide Lag, CheckDue;
    StaleNext(h, s);
    assert Checks(more) == Checks(more[..|more| - 1]) + if CheckDue(more) then [|more|] else [];
    hide Stale;
  }

  lemma StaleNext(h: seq<Sample>, s: Sample)
    ensures Stale(h + [s], |h|) <==> h != [] && s.confirmed == h[|h| - 1].confirmed && Lag(s) > 0
  {
    hide Lag;
  }

  predicate CaughtUp(threshold: nat, h: seq<Sample>) {
    h != [] && Lag(h[|h| - 1]) <= threshold
  }

  /** What the reporter has been told. */
  function Reports(threshold: nat, h: seq<Sample>): seq<Report> {
    if h == [] then []
    else
      var front, lag := h[..|h| - 1], Lag(h[|h| - 1]);
      Reports(threshold, front) + [Heartbeat(lag)] +
      if CaughtUp(threshold, h) && !CaughtUp(threshold, front) then [ReadyForCutover(lag)]
      else if !CaughtUp(threshold, h) && CaughtUp(threshold, front) then [TargetFellBehind(lag)]
      else []
  }

  predicate Crossing(r: Report) { r.ReadyForCutover? || r.TargetFellBehind? }

  function Crossings(rs: seq<Report>): seq<Report> {
    if rs == [] then []
    else Crossings(rs[..|rs| - 1]) + if Crossing(rs[|rs| - 1]) then [rs[|rs| - 1]] else []
  }

  lemma CrossingsOfMore(rs: seq<Report>, r: Report)
    ensures Crossings(rs + [r]) == Crossings(rs) + if Crossing(r) then [r] else []
  {
    assert (rs + [r])[..|rs|] == rs;
  }

  /** "Ready for cutover" and "fell behind" alternate, the former first, and the sampler
      is caught up exactly while one more of the former has been sent. */
  lemma {:induction false} ReportsAlternate(threshold: nat, h: seq<Sample>)
    ensures Alternating(Crossings(Reports(threshold, h)), CaughtUp(threshold, h))
  {
    if h == [] {
    } else {
      hide Reports, Crossings, Lag, Alternating;
      var front, lag := h[..|h| - 1], Lag(h[|h| - 1]);
      ReportsAlternate(threshold, front);
      CrossingsStep(threshold, h);
      AlternatingNext(Crossings(Reports(threshold, front)), CaughtUp(threshold, front), CaughtUp(threshold, h), lag);
    }
  }

  predicate Alternating(cs: seq<Report>, up: bool) {
    && (forall i :: 0 <= i < |cs| ==> Crossing(cs[i]) && (cs[i].ReadyForCutover? <==> i % 2 == 0))
    && (up <==> |cs| % 2 == 1)
  }

  lemma AlternatingNext(cs: seq<Report>, up: bool, now: bool, lag: nat)
    requires Alternating(cs, up)
    ensures Alternating(cs + if now && !up then [ReadyForCutover(lag)]
                             else if !now && up then [TargetFellBehind(lag)] else [], now)
  {
  }

  lemma CrossingsStep(threshold: nat, h: seq<Sample>)
    requires h != []
    ensures var front, lag := h[..|h| - 1], Lag(h[|h| - 1]);
            Crossings(Reports(threshold, h)) ==
            Crossings(Reports(threshold, front)) +
            if CaughtUp(threshold, h) && !CaughtUp(threshold, front) then [ReadyForCutover(lag)]
            else if !CaughtUp(threshold, h) && CaughtUp(threshold, front) then [TargetFellBehind(lag)]
            else []
  {
    var front, lag := h[..|h| - 1], Lag(h[|h| - 1]);
    var rs := Reports(threshold, front) + [Heartbeat(lag)];
    CrossingsOfMore(Reports(threshold, front), Heartbeat(lag));
    CrossingsOfMore(rs, ReadyForCutover(lag));
    CrossingsOfMore(rs, TargetFellBehind(lag));
    assert rs + [] == rs;
  }

  // ------------------------------------------------------------------- one turn

  /** The turn ends at the check for cancellation, before the wait or after it. */
  predicate StoppedByCancel(t: Tick) {
    t.cancelled || t.wake.CancelFired? || (!t.wake.NoWait? && t.cancelledAfterWait)
  }

  /** A turn that finds the loop cancelled or, if it is not stopped before, a cutover
      requested. */
  predicate Decides(t: Tick) {
    t.cancelled || (t.requested && !t.wake.CancelFired? && (t.wake.NoWait? || !t.cancelledAfterWait))
  }

  /** The sample a turn takes, if it gets that far and the poll succeeds. */
  function Taken(t: Tick): seq<Sample> {
    if StoppedByCancel(t) || t.requested || t.sample.None? then [] else [t.sample.value]
  }

  /** How a turn ends, given the samples so far: lag plays no part except through three
      polls without progress in a row. A cancellation noticed during the wait goes round
      to the check at the top. */
  function TurnOutcome(h: seq<Sample>, t: Tick): LoopExit {
    if t.cancelled then ByCancel
    else if StoppedByCancel(t) then StillRunning
    else if t.requested then ByCutover
    else if t.sample.Some? && CheckDue(h + [t.sample.value]) && !t.workerAlive then ByFailedHealthCheck
    else StillRunning
  }

  /** The samples taken by a sequence of turns. */
  function AllTaken(ts: seq<Tick>): seq<Sample> {
    if ts == [] then [] else AllTaken(ts[..|ts| - 1]) + Taken(ts[|ts| - 1])
  }

  lemma NothingTaken(ts: seq<Tick>)
    ensures AllTaken(ts[..0]) == []
  {
  }

  lemma TakenNext(ts: seq<Tick>, n: nat)
    requires n < |ts|
    ensures AllTaken(ts[..n + 1]) == AllTaken(ts[..n]) + Taken(ts[n])
  {
    assert ts[..n + 1][..n] == ts[..n];
  }

  /** None of the first `n` turns ends the loop. */
  predicate LoopsOn(ts: seq<Tick>, n: nat)
    requires n <= |ts|
  {
    n == 0 || (LoopsOn(ts, n - 1) && TurnOutcome(AllTaken(ts[..n - 1]), ts[n - 1]).StillRunning?)
  }

  class Engine {
    const config: CutoverConfig
    const sampler: LagSampler
    var stats: Stats
    var staleCount: nat
    var prevConfirmed: Option<nat>
    var currentInterval: nat
    var reports: seq<Report>
    ghost var history: seq<Sample>
    ghost var checks: seq<nat>

    /** Every variable of the loop is a function of the samples taken so far. */
    ghost predicate Valid()
      reads this, sampler
    {
      && LagPart(history) && ProgressPart(history)
      && reports == Reports(config.lagThreshold, history)
                    + (if stats.cutoverTriggered then [CutoverRequested] else [])
    }

    ghost predicate LagPart(h: seq<Sample>)
      reads `stats, `currentInterval, sampler
    {
      && sampler.threshold == config.lagThreshold
      && sampler.caughtUp == CaughtUp(config.lagThreshold, h)
      && currentInterval == (if sampler.caughtUp then config.fastPollInterval else config.pollInterval)
      && (h == [] ==> stats.lastApplied == stats.lastReceived == stats.lastLag == 0)
      && (h != [] ==>
            var last := h[|h| - 1];
            && stats.lastApplied == stats.lastReceived == last.confirmed
            && stats.lastLag == Lag(last))
    }

    ghost predicate ProgressPart(h: seq<Sample>)
      reads `staleCount, `prevConfirmed, `checks
    {
      && staleCount == StaleRun(h) % 3
      && prevConfirmed == (if h == [] then None else Some(h[|h| - 1].confirmed))
      && checks == Checks(h)
    }

    constructor (config: CutoverConfig)
      ensures Valid() && history == [] && !stats.cutoverTriggered && this.config == config
      ensures currentInterval == config.pollInterval && stats.lastApplied == 0 && reports == []
      ensures fresh(sampler)
    {
      this.config := config;
      sampler := new LagSampler(config.lagThreshold);
      stats := Stats(0, 0, 0, false);
      staleCount, prevConfirmed := 0, None;
      currentInterval := config.pollInterval;
      reports, history, checks := [], [], [];
    }

    lemma LastConfirmed()
      requires Valid()
      ensures stats.lastApplied == if history == [] then 0 else history[|history| - 1].confirmed
    {
    }

    /** One turn of the loop. */
    method Turn(t: Tick) returns (r: LoopExit)
      requires Valid() && !stats.cutoverTriggered
      modifies this, sampler
      ensures Valid()
      ensures history == old(history) + Taken(t)
      ensures history == if Decides(t) || t.wake.CancelFired? || (!t.wake.NoWait? && t.cancelledAfterWait)
                            || t.sample.None?
                         then old(history) else old(history) + [t.sample.value]
      ensures r == TurnOutcome(old(history), t)
      ensures r.ByCancel? <==> t.cancelled
      ensures r.ByCutover? <==> !t.cancelled && Decides(t)
      ensures r.ByCutover? ==> reports == old(reports) + [CutoverRequested]
      ensures r.ByFailedHealthCheck? ==>
                && !Decides(t) && t.sample.Some? && history == old(history) + [t.sample.value] && !t.workerAlive
                && exists k: nat :: k <= |history| && Stalled(history, k) && k > 0 && k % 3 == 0
      ensures stats.cutoverTriggered <==> r.ByCutover?
    {
      CheckDueIff(old(history) + Taken(t));
      if t.cancelled {
        assert history == old(history) + Taken(t);
        return ByCancel;
      }
      if !t.wake.NoWait? {
        if t.wake.CancelFired? || t.cancelledAfterWait {
          assert history == old(history) + Taken(t);
          return StillRunning;
        }
      }
      if t.requested {
        stats := stats.(cutoverTriggered := true);
        reports := reports + [CutoverRequested];
        assert history == old(history) + Taken(t);
        return ByCutover;
      }
      match t.sample
      case None =>
        assert history == old(history) + Taken(t);
        return StillRunning;
      case Some(s) =>
        r := Sampled(s, t.workerAlive);
    }

    method Sampled(s: Sample, workerAlive: bool) returns (r: LoopExit)
      requires Valid() && !stats.cutoverTriggered
      modifies this, sampler
      ensures Valid() && !stats.cutoverTriggered
      ensures history == old(history) + [s]
      ensures r == if CheckDue(history) && !workerAlive then ByFailedHealthCheck else StillRunning
    {
      hide LagPart, ProgressPart, CheckDue, Reports;
      var lag := Measure(s);
      var due := Progress(s, lag);
      history := history + [s];
      return if due && !workerAlive then ByFailedHealthCheck else StillRunning;
    }

    /** Feed the sampler, choose the next interval and report. */
    method Measure(s: Sample) returns (lag: nat)
      requires LagPart(history) && reports == Reports(config.lagThreshold, history) && !stats.cutoverTriggered
      modifies `stats, `currentInterval, `reports, sampler
      ensures lag == Lag(s) && !stats.cutoverTriggered
      ensures LagPart(history + [s]) && reports == Reports(config.lagThreshold, history + [s])
      // On the positions themselves:
      ensures s.confirmed + lag == Max(s.source, s.confirmed)
      ensures stats == Stats(s.confirmed, s.confirmed, lag, false)
      ensures currentInterval == if s.source <= s.confirmed + config.lagThreshold
                                 then config.fastPollInterval else config.pollInterval
      ensures var was := history != [] && history[|history| - 1].source <=
                                          history[|history| - 1].confirmed + config.lagThreshold;
              var now := s.source <= s.confirmed + config.lagThreshold;
              reports == old(reports) + [Heartbeat(lag)] +
                         if now && !was then [ReadyForCutover(lag)]
                         else if was && !now then [TargetFellBehind(lag)] else []
    {
      assert (history + [s])[..|history|] == history;
      var transition := sampler.Observe(s.source, s.confirmed);
      lag := transition.lag;
      stats := stats.(lastReceived := s.confirmed, lastApplied := s.confirmed, lastLag := lag);
      currentInterval := if lag <= config.lagThreshold then config.fastPollInterval else config.pollInterval;
      reports := reports + [Heartbeat(lag)];
      if transition.JustCaughtUp? {
        reports := reports + [ReadyForCutover(lag)];
      } else if transition.FellBehind? {
        reports := reports + [TargetFellBehind(lag)];
      }
    }

    /** Count the polls without progress; three in a row make a health check due. */
    method Progress(s: Sample, lag: nat) returns (due: bool)
      requires ProgressPart(history) && lag == Lag(s)
      modifies `staleCount, `prevConfirmed, `checks
      ensures ProgressPart(history + [s]) && due == CheckDue(history + [s])
      ensures var h := history + [s]; due <==> exists k: nat :: k <= |h| && Stalled(h, k) && k > 0 && k % 3 == 0
    {
      CheckDueIff(history + [s]);
      ProgressStep(history, s);
      hide StaleRun, Checks, Stale, Stalled, Lag;
      if prevConfirmed == Some(s.confirmed) && lag > 0 {
        staleCount := staleCount + 1;
      } else {
        staleCount := 0;
      }
      prevConfirmed := Some(s.confirmed);
      due := staleCount >= 3;
      if due {
        staleCount := 0;
        checks := checks + [|history| + 1];
      }
    }

    /** The loop, for as long as there are turns to take: `n` of them were taken, the last
        one decided how it ended, and no earlier one would have ended it. */
    method Run(ts: seq<Tick>) returns (r: LoopExit, n: nat)
      requires Valid() && history == [] && !stats.cutoverTriggered
      modifies this, sampler
      ensures Valid() && n <= |ts|
      ensures history == AllTaken(ts[..n])
      ensures r.StillRunning? ==> n == |ts|
      ensures !r.StillRunning? ==> n > 0 && r == TurnOutcome(AllTaken(ts[..n - 1]), ts[n - 1])
      ensures n > 0 ==> LoopsOn(ts, n - 1)
      ensures stats.cutoverTriggered <==> r.ByCutover?
      // On the turns themselves: the last one ended the loop for the cause given,
      ensures !r.StillRunning? ==>
                var t := ts[n - 1];
                && (r.ByCancel? <==> t.cancelled)
                && (r.ByCutover? <==> !t.cancelled && t.requested && !t.wake.CancelFired?
                                      && (t.wake.NoWait? || !t.cancelledAfterWait))
                && (r.ByFailedHealthCheck? ==>
                      && !Decides(t) && !t.workerAlive && t.sample.Some?
                      && exists k: nat :: k <= |history| && Stalled(history, k) && k > 0 && k % 3 == 0)
      // and no earlier one was cancelled, or found a request when it got to look for one.
      ensures forall i :: 0 <= i < n && (i < n - 1 || r.StillRunning?) ==>
                && !ts[i].cancelled
                && (ts[i].requested ==> ts[i].wake.CancelFired? || (!ts[i].wake.NoWait? && ts[i].cancelledAfterWait))
      // It does end well at the first turn that decides, if no worker was found dead before.
      ensures (exists k :: 0 <= k < |ts| && Decides(ts[k]) && forall i :: 0 <= i < k ==> ts[i].workerAlive) ==>
                r.ByCancel? || r.ByCutover?
      ensures stats.lastApplied == if history == [] then 0 else history[|history| - 1].confirmed
    {
      hide Valid, TurnOutcome, Taken, Stalled, AllTaken;
      r, n := StillRunning, 0;
      NothingTaken(ts);
      while n < |ts|
        invariant n <= |ts| && Valid() && !stats.cutoverTriggered && r.StillRunning?
        invariant history == AllTaken(ts[..n])
        invariant LoopsOn(ts, n)
        invariant forall i :: 0 <= i < n ==> !Decides(ts[i])
      {
        TakenNext(ts, n);
        r := Turn(ts[n]);
        n := n + 1;
        if !r.StillRunning? {
          LastConfirmed();
          return;
        }
      }
      LastConfirmed();
    }
  }
}
