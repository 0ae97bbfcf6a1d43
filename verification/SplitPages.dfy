/** Cutting a heap into page ranges, and the row predicate of each range
    (`split_pages` and `ctid_predicate` in `pg_dbmigrator/src/copy_split.rs`). */
module SplitPages {
  import opened Prelude

  /** The machine integers of the original: every operation on them is proved to stay in
      range. */
  newtype i64 = x: int | -0x8000_0000_0000_0000 <= x <= 0x7fff_ffff_ffff_ffff

  /** The pages from `start` up to `end`, or to whatever the heap has grown to. */
  datatype Part = Part(start: i64, end: Option<i64>)

  function Step(pages: nat, maxParts: nat): (step: nat)
    requires maxParts > 0
  {
    Max(pages / maxParts, 1)
  }

  function PartCount(pages: nat, maxParts: nat): nat {
    Min(pages, maxParts)
  }

  /** `out` cuts `pages` pages at every multiple of the step, and leaves the last range
      open. */
  predicate CutsAtSteps(out: seq<Part>, pages: nat, maxParts: nat)
    requires maxParts > 0
  {
    && |out| == PartCount(pages, maxParts)
    && forall i :: 0 <= i < |out| ==> IsCut(out[i], i, Step(pages, maxParts), i == |out| - 1)
  }

  predicate IsCut(p: Part, i: nat, step: nat, last: bool) {
    && p.start as int == Cut(i, step)
    && (last ==> p.end.None?)
    && (!last ==> p.end.Some? && p.end.value as int == Cut(i + 1, step))
  }

  function Cut(i: nat, step: nat): nat {
    i * step
  }

  /** Where range `i` ends: never past the planned pages, and at or past their end, or at
      the part limit, exactly when it is the last one. */
  lemma StepFits(pages: nat, maxParts: nat, i: nat)
    requires 0 < maxParts && i < PartCount(pages, maxParts)
    ensures var end := Cut(i + 1, Step(pages, maxParts));
            && end == Cut(i, Step(pages, maxParts)) + Step(pages, maxParts)
            && end <= pages
            && (end >= pages || i + 1 == maxParts <==> i + 1 == PartCount(pages, maxParts))
  {
    var step := Step(pages, maxParts);
    CutNext(i, step);
    CutNext(i + 1, step);
    if pages >= maxParts {
      hide Cut;
      FullCutsFit(pages, maxParts);
      CutMonotone(i + 1, maxParts, step);
      if i + 1 < maxParts { CutMonotone(i + 2, maxParts, step); }
    }
  }

  lemma FullCutsFit(pages: nat, maxParts: nat)
    requires 0 < maxParts <= pages
    ensures Cut(maxParts, Step(pages, maxParts)) <= pages
  {
    var k := pages / maxParts;
    assert pages == maxParts * k + pages % maxParts;
  }

  lemma CutNext(i: nat, step: nat)
    ensures Cut(i + 1, step) == Cut(i, step) + step
  {
  }

  lemma CutMonotone(a: nat, b: nat, k: nat)
    requires a <= b
    ensures Cut(a, k) <= Cut(b, k)
  {
  }

  lemma CutZero(step: nat)
    ensures Cut(0, step) == 0
  {
  }

  /** The value of a 64-bit pattern read as a signed integer: a cast of the original. */
  function AsI64(x: nat): int
    requires x < U64_LIMIT
  {
    if x <= I64_MAX then x else x - U64_LIMIT
  }

  const I64_MIN: int := -0x8000_0000_0000_0000

  /** The part count that is cast to the smallest integer. */
  const SMALLEST_PARTS: nat := 0x8000_0000_0000_0000

  /** One less, in 64-bit arithmetic that wraps around. */
  function WrappedLessOne(x: int): i64
    requires I64_MIN <= x <= I64_MAX
  {
    if x == I64_MIN then I64_MAX as i64 else (x - 1) as i64
  }

  lemma DivByNegative(a: int, b: int)
    requires 0 <= a && b < 0
    ensures -a <= a / b <= 0
  {
  }

  lemma DivByPositive(a: int, b: int)
    requires 0 <= a && 0 < b
    ensures 0 <= a / b <= a && (a < b ==> a / b == 0)
  {
    var q := a / b;
    assert a == b * q + a % b;
    Product(b, q);
  }

  lemma Product(b: int, q: int)
    requires 0 < b
    ensures 1 <= q ==> q <= b * q && b <= b * q
    ensures q < 0 ==> b * q <= -b
  {
    if 1 <= q { CutMonotone(1, q, b); CutMonotone(1, b, q); }
    if q < 0 { CutMonotone(1, -q, b); assert b * q == -((-q) * b); }
  }

  /** The length of the ranges. A part count beyond the signed range is cast to a negative
      one, and the step is then one page. */
  lemma StepOf(pages: nat, maxParts: nat)
    requires pages <= I64_MAX && 0 < maxParts < U64_LIMIT
    ensures var q := pages / AsI64(maxParts);
            -(pages as int) <= q <= pages && (if q < 1 then 1 else q) == Step(pages, maxParts)
  {
    DivByPositive(pages, maxParts);
    if AsI64(maxParts) < 0 { DivByNegative(pages, AsI64(maxParts)); }
  }

  /** Taking one from the part count leaves the signed range for one count, which is cast to
      the smallest integer. */
  lemma PartsLessOneFits(maxParts: nat)
    requires 0 < maxParts < U64_LIMIT
    ensures AsI64(maxParts) - 1 >= I64_MIN <==> maxParts != SMALLEST_PARTS
  {
  }

  /** The loop of the original, on 64-bit integers. Each operation stays in range but one:
      `parts - 1`, which is not evaluated when the first range is the only one. A build that
      checks for overflow stops there with a panic, and nothing is planned; any other build
      wraps around to the largest integer, and cuts as for every other part count. */
  method SplitPages(pages: i64, maxParts: nat, checked: bool) returns (out: Option<seq<Part>>)
    requires maxParts < U64_LIMIT
    ensures out.None? <==> checked && maxParts == SMALLEST_PARTS && pages >= 2
    ensures out.Some? && (pages <= 0 || maxParts == 0) ==> out.value == []
    ensures out.Some? && pages > 0 && maxParts > 0 ==> CutsAtSteps(out.value, pages as nat, maxParts)
  {
    hide Cut, Step;
    if pages <= 0 || maxParts == 0 {
      return Some([]);
    }
    var parts := AsI64(maxParts);
    PartsLessOneFits(maxParts);
    StepOf(pages as nat, maxParts);
    var q := (pages as int / parts) as i64;
    var step := if q < 1 then 1 else q;
    ghost var n := PartCount(pages as nat, maxParts);
    assert Cut(0, step as nat) == 0 by { CutZero(step as nat); }
    var ranges: seq<Part> := [];
    var start: i64 := 0;
    while start < pages
      invariant |ranges| < n && start as int == Cut(|ranges|, step as nat)
      invariant start < pages
      invariant forall i :: 0 <= i < |ranges| ==> IsCut(ranges[i], i, step as nat, false)
      invariant checked && maxParts == SMALLEST_PARTS ==> ranges == []
      decreases n - |ranges|
    {
      StepFits(pages as nat, maxParts, |ranges|);
      var end := start + step;
      var isLast := end >= pages;
      if !isLast {
        if checked && parts - 1 < I64_MIN {
          return None;
        }
        isLast := |ranges| as i64 == WrappedLessOne(parts);
      }
      ranges := ranges + [Part(start, if isLast then None else Some(end))];
      if isLast {
        break;
      }
      start := end;
    }
    return Some(ranges);
  }

  // ------------------------------------------------------------------- coverage

  /** A row's physical address, ordered first by page, then by offset. */
  datatype Tid = Tid(page: nat, offset: nat)

  predicate Before(a: Tid, b: Tid) {
    a.page < b.page || (a.page == b.page && a.offset < b.offset)
  }

  /** `ctid >= '(start,0)'` and, unless the range is open, `ctid < '(end,0)'`. */
  predicate InPart(p: Part, t: Tid) {
    && 0 <= p.start
    && !Before(t, Tid(p.start as nat, 0))
    && (p.end.Some? ==> 0 <= p.end.value && Before(t, Tid(p.end.value as nat, 0)))
  }

  /** The range a row falls into. */
  function PartOf(pages: nat, maxParts: nat, t: Tid): (i: nat)
    requires pages > 0 && maxParts > 0
  {
    Min(t.page / Step(pages, maxParts), PartCount(pages, maxParts) - 1)
  }

  lemma DivBounds(a: nat, step: nat, q: nat)
    requires step > 0
    ensures q * step <= a <==> q <= a / step
  {
    if q <= a / step {
      CutMonotone(q, a / step, step);
    } else {
      CutMonotone(a / step + 1, q, step);
    }
  }

  /** Every row of the heap, on any page it may have by the time it is read, satisfies
      the predicate of exactly one range. */
  lemma ExactlyOnePart(out: seq<Part>, pages: nat, maxParts: nat, t: Tid, i: nat)
    requires pages > 0 && maxParts > 0 && CutsAtSteps(out, pages, maxParts) && i < |out|
    ensures PartOf(pages, maxParts, t) < |out|
    ensures InPart(out[i], t) <==> i == PartOf(pages, maxParts, t)
  {
    var step := Step(pages, maxParts);
    DivBounds(t.page, step, i);
    DivBounds(t.page, step, i + 1);
    assert IsCut(out[i], i, step, i == |out| - 1);
  }

  /** How many of the planned pages lie in range `i`. */
  function PlannedPages(out: seq<Part>, pages: nat, i: nat): int
    requires i < |out|
  {
    (if out[i].end.Some? then out[i].end.value as int else pages) - out[i].start as int
  }

  /** All ranges but the last have exactly the same number of pages, and the last exceeds
      that by fewer than `maxParts` planned pages. */
  lemma Balanced(out: seq<Part>, pages: nat, maxParts: nat, i: nat)
    requires pages > 0 && maxParts > 0 && CutsAtSteps(out, pages, maxParts) && i < |out|
    ensures i < |out| - 1 ==> PlannedPages(out, pages, i) == Step(pages, maxParts)
    ensures i == |out| - 1 ==>
              Step(pages, maxParts) <= PlannedPages(out, pages, i) < Step(pages, maxParts) + maxParts
  {
    var step := Step(pages, maxParts);
    assert IsCut(out[i], i, step, i == |out| - 1);
    if i == |out| - 1 {
      StepFits(pages, maxParts, i);
      assert (i + 1) * step == i * step + step;
      if pages >= maxParts {
        assert pages == maxParts * (pages / maxParts) + pages % maxParts;
        assert (i + 1) * step == maxParts * (pages / maxParts);
      } else {
        assert i * step == i;
      }
    } else {
      assert (i + 1) * step - i * step == step;
    }
  }
}
