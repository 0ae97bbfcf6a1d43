/** Types shared by every component of the model. */
module Prelude {

  datatype Option<+T> = None | Some(value: T)

  datatype Result<+T, +E> = Ok(value: T) | Err(error: E)

  /** What an operation that only succeeds or fails returns. */
  datatype Outcome<+E> = Pass | Fail(error: E)
  {
    predicate IsFailure() { Fail? }

    function PropagateFailure(): Outcome<E>
      requires Fail?
    {
      this
    }
  }

  const U32_LIMIT: nat := 0x1_0000_0000
  const U64_LIMIT: nat := 0x1_0000_0000_0000_0000
  const I64_MAX: nat := 0x7fff_ffff_ffff_ffff

  function Max(a: int, b: int): int {
    if a < b then b else a
  }

  function Min(a: int, b: int): int {
    if a < b then a else b
  }

  /** How the apply loop ended, if it has. */
  datatype LoopExit = StillRunning | ByCutover | ByCancel | ByFailedHealthCheck

  // ------------------------------------------------------------------------- text

  /** `t` occurs somewhere in `s`. */
  predicate Occurs(s: string, t: string) {
    t <= s || (s != [] && Occurs(s[1..], t))
  }

  lemma {:induction false} OccursIff(s: string, t: string)
    ensures Occurs(s, t) <==> exists i :: 0 <= i <= |s| && t <= s[i..]
  {
    assert s[0..] == s;
    if s == [] {
    } else {
      OccursIff(s[1..], t);
      if i :| 0 <= i <= |s[1..]| && t <= s[1..][i..] { assert s[1..][i..] == s[i + 1..]; }
      if i :| 0 < i <= |s| && t <= s[i..] { assert s[1..][i - 1..] == s[i..]; }
    }
  }

  function StripPrefix(s: string, prefix: string): Option<string> {
    if prefix <= s then Some(s[|prefix|..]) else None
  }

  function Digit(d: nat): char
    requires d < 10
  {
    "0123456789"[d]
  }

  /** A number in decimal. */
  function Digits(n: nat): string {
    if n < 10 then [Digit(n)] else Digits(n / 10) + [Digit(n % 10)]
  }

  // -------------------------------------------------------------------- schedules

  /** How often `turns`, a schedule of concurrent workers, lets worker `w` move. */
  function Turns(turns: seq<nat>, w: nat): nat {
    if turns == [] then 0 else Turns(turns[..|turns| - 1], w) + if turns[|turns| - 1] == w then 1 else 0
  }

  lemma TurnsNext(turns: seq<nat>, k: nat)
    requires k < |turns|
    ensures forall w :: Turns(turns[..k + 1], w) == Turns(turns[..k], w) + if turns[k] == w then 1 else 0
  {
    assert turns[..k + 1][..k] == turns[..k];
  }
}
