/** The operator's cutover handle and the lag sampler (`pg_dbmigrator/src/cutover.rs`). */
module Cutover {
  import opened Prelude

  /** A flag that is set once and never cleared, and the single permit of a `Notify`. */
  class CutoverHandle {
    var requested: bool
    var permit: bool

    constructor ()
      ensures !requested && !permit
    {
      requested, permit := false, false;
    }

    /** Set the flag, then store the permit. The order matters to a concurrent reader:
        see module CutoverProtocol. */
    method Request() returns (previous: bool)
      modifies this
      ensures previous == old(requested)
      ensures requested && permit
    {
      previous := requested;
      requested := true;
      permit := true;
    }

    method IsRequested() returns (r: bool)
      ensures r == requested
    {
      return requested;
    }

    /** One poll of the `notified` future: it takes the permit if one is stored, and
        otherwise stays pending. */
    method PollNotified() returns (ready: bool)
      modifies this`permit
      ensures ready == old(permit) && !permit
    {
      ready := permit;
      permit := false;
    }
  }

  datatype Transition =
    | JustCaughtUp(lag: nat)
    | StillCaughtUp(lag: nat)
    | FellBehind(lag: nat)
    | StillBehind(lag: nat)
  {
    predicate CrossedUp() { JustCaughtUp? }
    predicate CrossedDown() { FellBehind? }
    predicate CaughtUp() { JustCaughtUp? || StillCaughtUp? }
  }

  /** Saturating subtraction of two 64-bit positions. */
  function LagBytes(source: nat, applied: nat): nat {
    if applied < source then source - applied else 0
  }

  function Observed(threshold: nat, before: bool, source: nat, applied: nat): Transition {
    var lag := LagBytes(source, applied);
    match (before, lag <= threshold)
    case (false, true) => JustCaughtUp(lag)
    case (true, false) => FellBehind(lag)
    case (true, true) => StillCaughtUp(lag)
    case (false, false) => StillBehind(lag)
  }

  class LagSampler {
    const threshold: nat
    var caughtUp: bool

    constructor (threshold: nat)
      ensures this.threshold == threshold && !caughtUp
    {
      this.threshold := threshold;
      caughtUp := false;
    }

    /** The transition tells both sides of the step: where the sampler was and where the
        new sample puts it. */
    method Observe(source: nat, applied: nat) returns (t: Transition)
      modifies this
      ensures applied + t.lag == Max(source, applied)
      ensures caughtUp <==> source <= applied + threshold
      ensures t.JustCaughtUp? <==> !old(caughtUp) && source <= applied + threshold
      ensures t.StillCaughtUp? <==> old(caughtUp) && source <= applied + threshold
      ensures t.FellBehind? <==> old(caughtUp) && applied + threshold < source
      ensures t.StillBehind? <==> !old(caughtUp) && applied + threshold < source
      ensures t.CaughtUp() <==> source <= applied + threshold
      ensures t.CrossedUp() <==> !old(caughtUp) && source <= applied + threshold
      ensures t.CrossedDown() <==> old(caughtUp) && applied + threshold < source
      ensures t == Observed(threshold, old(caughtUp), source, applied)
    {
      var lag := LagBytes(source, applied);
      var now := lag <= threshold;
      if !caughtUp && now {
        t := JustCaughtUp(lag);
      } else if caughtUp && !now {
        t := FellBehind(lag);
      } else if caughtUp {
        t := StillCaughtUp(lag);
      } else {
        t := StillBehind(lag);
      }
      caughtUp := now;
    }
  }
}
