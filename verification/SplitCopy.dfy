/** The direct parallel copy of large tables (`plan_split_tables`, `copy_part` and
    `run_split_copy` in `pg_dbmigrator/src/copy_split.rs`). */
module SplitCopy {
  import opened Prelude
  import opened SplitPages

  type Table = string

  /** A row of the snapshot: where it lies in the source heap, and its content. The
      address is not copied. */
  datatype Row = Row(tid: Tid, data: string)

  datatype SplitTable = SplitTable(table: Table, columns: seq<string>, pages: nat, parts: seq<Part>)

  // ------------------------------------------------------------------ conservation

  function Contents(rows: seq<Row>): multiset<string> {
    if rows == [] then multiset{} else Contents(rows[..|rows| - 1]) + multiset{rows[|rows| - 1].data}
  }

  /** What one stream selects. */
  function Selected(rows: seq<Row>, p: Part): seq<Row> {
    if rows == [] then []
    else
      var r := rows[|rows| - 1];
      Selected(rows[..|rows| - 1], p) + if InPart(p, r.tid) then [r] else []
  }

  /** What the streams of the first `n` ranges select together. */
  function AllSelected(rows: seq<Row>, parts: seq<Part>, n: nat): multiset<string>
    requires n <= |parts|
  {
    if n == 0 then multiset{} else AllSelected(rows, parts, n - 1) + Contents(Selected(rows, parts[n - 1]))
  }

  lemma ContentsAppend(rows: seq<Row>, r: Row)
    ensures Contents(rows + [r]) == Contents(rows) + multiset{r.data}
  {
    assert (rows + [r])[..|rows|] == rows;
  }

  lemma SelectedStep(rows: seq<Row>, p: Part)
    requires rows != []
    ensures Contents(Selected(rows, p)) ==
            Contents(Selected(rows[..|rows| - 1], p)) +
            if InPart(p, rows[|rows| - 1].tid) then multiset{rows[|rows| - 1].data} else multiset{}
  {
    hide InPart;
    var before, r := Selected(rows[..|rows| - 1], p), rows[|rows| - 1];
    ContentsAppend(before, r);
    assert Selected(rows, p) == if InPart(p, r.tid) then before + [r] else before;
  }

  /** The last row is selected by its own stream and by no other. */
  lemma {:induction false} OneMoreRow(rows: seq<Row>, parts: seq<Part>, n: nat, own: nat)
    requires rows != [] && n <= |parts| && own < |parts|
    requires forall i :: 0 <= i < |parts| ==> (InPart(parts[i], rows[|rows| - 1].tid) <==> i == own)
    ensures AllSelected(rows, parts, n) ==
            AllSelected(rows[..|rows| - 1], parts, n) +
            if own < n then multiset{rows[|rows| - 1].data} else multiset{}
  {
    hide Selected, Contents, InPart;
    if n == 0 {
    } else {
      OneMoreRow(rows, parts, n - 1, own);
      SelectedStep(rows, parts[n - 1]);
      var front, d := rows[..|rows| - 1], multiset{rows[|rows| - 1].data};
      Regroup(AllSelected(front, parts, n - 1), d, Contents(Selected(front, parts[n - 1])));
    }
  }

  lemma Regroup(a: multiset<string>, b: multiset<string>, c: multiset<string>)
    ensures (a + b) + c == (a + c) + b == a + (c + b)
  {
  }

  /** Nothing is lost and nothing copied twice: together the streams deliver every row of
      the snapshot once, however far the heap has grown past the planned pages. */
  lemma {:induction false} StreamsCoverSnapshot(rows: seq<Row>, parts: seq<Part>, pages: nat, maxParts: nat)
    requires pages > 0 && maxParts > 0 && CutsAtSteps(parts, pages, maxParts)
    ensures AllSelected(rows, parts, |parts|) == Contents(rows)
  {
    if rows == [] {
      NothingSelected(parts, |parts|);
    } else {
      StreamsCoverSnapshot(rows[..|rows| - 1], parts, pages, maxParts);
      var t := rows[|rows| - 1].tid;
      var own := PartOf(pages, maxParts, t);
      forall i | 0 <= i < |parts| ensures InPart(parts[i], t) <==> i == own {
        ExactlyOnePart(parts, pages, maxParts, t, i);
      }
      assert own < |parts| by { ExactlyOnePart(parts, pages, maxParts, t, 0); }
      OneMoreRow(rows, parts, |parts|, own);
    }
  }

  lemma {:induction false} NothingSelected(parts: seq<Part>, n: nat)
    requires n <= |parts|
    ensures AllSelected([], parts, n) == multiset{}
  {
    if n == 0 {
    } else {
      NothingSelected(parts, n - 1);
    }
  }

  lemma {:induction false} ContentsSize(rows: seq<Row>)
    ensures |Contents(rows)| == |rows|
  {
    if rows == [] {
    } else {
      ContentsSize(rows[..|rows| - 1]);
    }
  }

  // ----------------------------------------------------------------------- planning

  datatype CatalogRow = CatalogRow(table: Table, bytes: nat, pages: nat, columns: seq<string>)

  /** The threshold is cast to a signed integer when it is bound to the query. */
  predicate Planned(c: CatalogRow, threshold: nat)
    requires threshold < U64_LIMIT
  {
    c.bytes >= AsI64(threshold) && c.columns != [] && c.pages > 0
  }

  predicate PlanEntry(e: SplitTable, c: CatalogRow, maxParts: nat)
    requires maxParts > 0
  {
    && e.table == c.table && e.columns == c.columns && e.pages == c.pages
    && e.pages > 0 && CutsAtSteps(e.parts, e.pages, maxParts)
  }

  function Chosen(catalog: seq<CatalogRow>, threshold: nat): seq<CatalogRow>
    requires threshold < U64_LIMIT
  {
    if catalog == [] then []
    else
      var c := catalog[|catalog| - 1];
      Chosen(catalog[..|catalog| - 1], threshold) + if Planned(c, threshold) then [c] else []
  }

  lemma {:induction false} ChosenDistinct(catalog: seq<CatalogRow>, threshold: nat)
    requires threshold < U64_LIMIT
    requires forall i, j :: 0 <= i < j < |catalog| ==> catalog[i].table != catalog[j].table
    ensures forall c :: c in Chosen(catalog, threshold) ==> c in catalog
    ensures forall i, j :: 0 <= i < j < |Chosen(catalog, threshold)| ==>
              Chosen(catalog, threshold)[i].table != Chosen(catalog, threshold)[j].table
  {
    if catalog == [] {
    } else {
      var front, last := catalog[..|catalog| - 1], catalog[|catalog| - 1];
      ChosenDistinct(front, threshold);
      forall c | c in front ensures c in catalog && c.table != last.table {
        var i :| 0 <= i < |front| && front[i] == c;
        assert catalog[i] == c;
      }
      forall c | c in Chosen(front, threshold) ensures c.table != last.table {
      }
    }
  }

  /** Chosen are the tables of the catalog that have columns to copy and pages, and are at or
      above the threshold or not compared with it, because the cast has made it negative. */
  lemma {:induction false} ChosenIff(catalog: seq<CatalogRow>, threshold: nat, c: CatalogRow)
    requires threshold < U64_LIMIT
    ensures c in Chosen(catalog, threshold) <==>
            && c in catalog && c.columns != [] && c.pages > 0
            && (c.bytes >= threshold || threshold > I64_MAX)
  {
    if catalog == [] {
    } else {
      PlannedIffLarge(threshold);
      ChosenIff(catalog[..|catalog| - 1], threshold, c);
    }
  }

  /** The plan, or nothing when the arithmetic overflows in a build that checks for it. */
  method PlanSplitTables(catalog: seq<CatalogRow>, threshold: nat, maxParts: nat, checked: bool)
    returns (r: Option<seq<SplitTable>>)
    requires threshold < U64_LIMIT && 0 < maxParts < U64_LIMIT
    requires forall c :: c in catalog ==> c.pages <= I64_MAX
    ensures r.None? <==>
            && checked && maxParts == SMALLEST_PARTS
            && exists c :: c in catalog && Planned(c, threshold) && c.pages >= 2
    ensures r.Some? ==>
              var chosen := Chosen(catalog, threshold);
              && |r.value| == |chosen|
              && forall i :: 0 <= i < |r.value| ==> PlanEntry(r.value[i], chosen[i], maxParts)
  {
    var plan := [];
    var k := 0;
    while k < |catalog|
      invariant k <= |catalog|
      invariant |plan| == |Chosen(catalog[..k], threshold)|
      invariant forall i :: 0 <= i < |plan| ==> PlanEntry(plan[i], Chosen(catalog[..k], threshold)[i], maxParts)
      invariant checked && maxParts == SMALLEST_PARTS ==>
                  forall i :: 0 <= i < k && Planned(catalog[i], threshold) ==> catalog[i].pages < 2
    {
      var c := catalog[k];
      assert catalog[..k + 1][..k] == catalog[..k];
      k := k + 1;
      if c.bytes < AsI64(threshold) || c.columns == [] {
        continue;
      }
      var parts := SplitPages.SplitPages(c.pages as i64, maxParts, checked);
      if parts.None? {
        return None;
      }
      if parts.value == [] {
        continue;
      }
      plan := plan + [SplitTable(c.table, c.columns, c.pages, parts.value)];
    }
    assert catalog[..k] == catalog;
    return Some(plan);
  }

  /** The plan picks precisely the copyable tables at or above the threshold, provided the
      threshold fits a signed 64-bit integer; past that it picks tables of any size. */
  lemma PlannedIffLarge(threshold: nat)
    requires threshold < U64_LIMIT
    ensures threshold <= I64_MAX <==>
            (forall c: CatalogRow :: Planned(c, threshold) ==> c.bytes >= threshold)
    ensures forall c: CatalogRow ::
              Planned(c, threshold) <==>
              (c.bytes >= threshold || threshold > I64_MAX) && c.columns != [] && c.pages > 0
  {
    if threshold > I64_MAX {
      var tiny := CatalogRow("t", 0, 1, ["c"]);
      assert Planned(tiny, threshold) && tiny.bytes < threshold;
    }
  }

  // ------------------------------------------------------------------------ copying

  datatype CopyError = Occupied(table: Table) | Cancelled | StreamFailed | TargetFailed

  /** How far the statements on the target get that come before the streams: the connection,
      the query for rows, and the TRUNCATE. */
  datatype Preparation = Prepared | NoConnection | NoQuery | NoTruncate

  /** One stream: not connected yet, part-way through its rows, or committed. Rows become
      visible on the target only when the stream commits. */
  datatype Worker = Idle | Streaming(sent: nat) | Committed

  /** What the concurrent streams of one table do, as an interleaving: `turns` names the
      stream that makes the next move; `cancelled` says that the cancellation, and not the
      last stream, ended the wait. A schedule that leaves streams unfinished is one in
      which some stream failed. */
  datatype Schedule = Schedule(preparation: Preparation, turns: seq<nat>, cancelled: bool)

  /** Nothing stands in the way of the streams: the table can be prepared, nobody cancels,
      and each stream gets enough turns to connect, send what it selects and commit. */
  predicate Served(schedule: Schedule, parts: seq<Part>, rows: seq<Row>) {
    && schedule.preparation.Prepared? && !schedule.cancelled
    && forall w :: 0 <= w < |parts| ==> Turns(schedule.turns, w) >= |rows| + 2
  }

  /** Where `taken` turns have brought a stream that selects `size` rows. */
  predicate Reached(worker: Worker, size: nat, taken: nat) {
    match worker
    case Idle => taken == 0
    case Streaming(sent) => sent <= size && taken == sent + 1
    case Committed => true
  }

  /** The next move of a stream that has not committed. */
  function Moved(worker: Worker, size: nat): Worker {
    match worker
    case Idle => Streaming(0)
    case Streaming(sent) => if sent < size then Streaming(sent + 1) else Committed
    case Committed => Committed
  }

  lemma MovedReaches(worker: Worker, size: nat, taken: nat)
    requires Reached(worker, size, taken)
    ensures Reached(Moved(worker, size), size, taken + 1)
    ensures worker.Committed? ==> Reached(worker, size, taken + 1)
  {
  }

  lemma ServedCommits(schedule: Schedule, parts: seq<Part>, rows: seq<Row>, worker: Worker, w: nat)
    requires w < |parts| && Reached(worker, |Selected(rows, parts[w])|, Turns(schedule.turns, w))
    ensures Served(schedule, parts, rows) ==> worker.Committed?
  {
    SelectedFits(rows, parts[w]);
  }

  lemma {:induction false} SelectedFits(rows: seq<Row>, p: Part)
    ensures |Selected(rows, p)| <= |rows|
  {
    hide InPart;
    if rows == [] {
    } else {
      SelectedFits(rows[..|rows| - 1], p);
    }
  }

  function Copied(rows: seq<Row>, parts: seq<Part>, workers: seq<Worker>, n: nat): multiset<string>
    requires n <= |parts| == |workers|
  {
    if n == 0 then multiset{}
    else Copied(rows, parts, workers, n - 1) +
         if workers[n - 1].Committed? then Contents(Selected(rows, parts[n - 1])) else multiset{}
  }

  lemma {:induction false} CommitAdds(rows: seq<Row>, parts: seq<Part>, workers: seq<Worker>, w: nat, n: nat)
    requires n <= |parts| == |workers| && w < |workers| && !workers[w].Committed?
    ensures Copied(rows, parts, workers[w := Committed], n) ==
            Copied(rows, parts, workers, n) + if w < n then Contents(Selected(rows, parts[w])) else multiset{}
  {
    hide Selected, Contents;
    if n == 0 {
    } else {
      CommitAdds(rows, parts, workers, w, n - 1);
      var mine, last := Contents(Selected(rows, parts[w])), Contents(Selected(rows, parts[n - 1]));
      Regroup(Copied(rows, parts, workers, n - 1), mine, last);
    }
  }

  lemma {:induction false} MoveKeeps(rows: seq<Row>, parts: seq<Part>, workers: seq<Worker>, w: nat, v: Worker, n: nat)
    requires n <= |parts| == |workers| && w < |workers| && !workers[w].Committed? && !v.Committed?
    ensures Copied(rows, parts, workers[w := v], n) == Copied(rows, parts, workers, n)
  {
    hide Selected, Contents;
    if n == 0 {
    } else {
      MoveKeeps(rows, parts, workers, w, v, n - 1);
    }
  }

  lemma {:induction false} AllCommitted(rows: seq<Row>, parts: seq<Part>, workers: seq<Worker>, n: nat)
    requires n <= |parts| == |workers| && forall i :: 0 <= i < n ==> workers[i].Committed?
    ensures Copied(rows, parts, workers, n) == AllSelected(rows, parts, n)
  {
    hide Selected, Contents;
    if n == 0 {
    } else {
      AllCommitted(rows, parts, workers, n - 1);
    }
  }

  lemma {:induction false} CopiedWithin(rows: seq<Row>, parts: seq<Part>, workers: seq<Worker>, n: nat)
    requires n <= |parts| == |workers|
    ensures Copied(rows, parts, workers, n) <= AllSelected(rows, parts, n)
  {
    hide Selected, Contents;
    if n == 0 {
    } else {
      CopiedWithin(rows, parts, workers, n - 1);
    }
  }

  function Total(snapshot: map<Table, seq<Row>>, plan: seq<SplitTable>, n: nat): nat
    requires n <= |plan| && forall i :: 0 <= i < |plan| ==> plan[i].table in snapshot
  {
    if n == 0 then 0 else Total(snapshot, plan, n - 1) + |snapshot[plan[n - 1].table]|
  }

  /** The heaps of the first `n` planned tables, one after the other. */
  function Joined(snapshot: map<Table, seq<Row>>, plan: seq<SplitTable>, n: nat): seq<Row>
    requires n <= |plan| && forall i :: 0 <= i < |plan| ==> plan[i].table in snapshot
  {
    if n == 0 then [] else Joined(snapshot, plan, n - 1) + snapshot[plan[n - 1].table]
  }

  /** The total counts every row of every planned table. */
  lemma {:induction false} TotalCounts(snapshot: map<Table, seq<Row>>, plan: seq<SplitTable>, n: nat)
    requires n <= |plan| && forall i :: 0 <= i < |plan| ==> plan[i].table in snapshot
    ensures Total(snapshot, plan, n) == |Joined(snapshot, plan, n)|
    ensures forall i :: 0 <= i < n ==> forall r :: r in snapshot[plan[i].table] ==> r in Joined(snapshot, plan, n)
  {
    if n == 0 {
    } else {
      TotalCounts(snapshot, plan, n - 1);
    }
  }

  /** Table `u` is none of the first `n` planned ones. */
  predicate Outside(plan: seq<SplitTable>, n: nat, u: Table)
    requires n <= |plan|
  {
    forall i :: 0 <= i < n ==> plan[i].table != u
  }

  predicate Distinct(plan: seq<SplitTable>) {
    forall i, j :: 0 <= i < j < |plan| ==> plan[i].table != plan[j].table
  }

  lemma CancelledIsNotServed(schedule: Schedule, parts: seq<Part>, rows: seq<Row>)
    requires schedule.cancelled
    ensures !Served(schedule, parts, rows)
  {
  }

  lemma NoTurns()
    ensures forall w :: Turns([], w) == 0
    ensures forall size :: Reached(Idle, size, 0)
  {
  }

  class Target {
    var tables: map<Table, multiset<string>>

    constructor (tables: map<Table, multiset<string>>)
      ensures this.tables == tables
    {
      this.tables := tables;
    }

    /** The streams of one table make the moves of the schedule. What they leave is what the
        streams that committed had selected. */
    method RunStreams(e: SplitTable, rows: seq<Row>, turns: seq<nat>) returns (workers: seq<Worker>)
      requires e.table in tables && tables[e.table] == multiset{}
      modifies this
      ensures tables.Keys == old(tables).Keys
      ensures forall u :: u in tables && u != e.table ==> tables[u] == old(tables)[u]
      ensures |workers| == |e.parts| && tables[e.table] == Copied(rows, e.parts, workers, |e.parts|)
      ensures forall w :: 0 <= w < |workers| ==>
                Reached(workers[w], |Selected(rows, e.parts[w])|, Turns(turns, w))
    {
      hide Turns, Reached, Moved, Copied, Selected, Contents;
      workers := seq(|e.parts|, _ => Idle);
      MoveNone(rows, e.parts, workers, |e.parts|);
      NoTurns();
      assert turns[..0] == [];
      for k := 0 to |turns|
        invariant |workers| == |e.parts| && tables.Keys == old(tables).Keys
        invariant forall u :: u in tables && u != e.table ==> tables[u] == old(tables)[u]
        invariant tables[e.table] == Copied(rows, e.parts, workers, |e.parts|)
        invariant forall w :: 0 <= w < |workers| ==>
                    Reached(workers[w], |Selected(rows, e.parts[w])|, Turns(turns[..k], w))
      {
        var w := turns[k];
        TurnsNext(turns, k);
        if w < |workers| {
          MovedReaches(workers[w], |Selected(rows, e.parts[w])|, Turns(turns[..k], w));
        }
        if w < |workers| && !workers[w].Committed? {
          var mine := Selected(rows, e.parts[w]);
          var next := Moved(workers[w], |mine|);
          if next.Committed? {
            CommitAdds(rows, e.parts, workers, w, |e.parts|);
            tables := tables[e.table := tables[e.table] + Contents(mine)];
          } else {
            MoveKeeps(rows, e.parts, workers, w, next, |e.parts|);
          }
          workers := workers[w := next];
        }
      }
      assert turns[..|turns|] == turns;
    }

    /** One table, its streams interleaved in any way. On success the table holds exactly
        the rows of the snapshot; otherwise what the streams that got through had
        committed, which is never a row too many. No other table is touched. */
    method CopyTable(e: SplitTable, rows: seq<Row>, maxParts: nat, schedule: Schedule)
      returns (r: Result<nat, CopyError>)
      requires e.table in tables && tables[e.table] == multiset{}
      requires maxParts > 0 && e.pages > 0 && CutsAtSteps(e.parts, e.pages, maxParts)
      modifies this
      ensures tables.Keys == old(tables).Keys
      ensures forall u :: u in tables && u != e.table ==> tables[u] == old(tables)[u]
      ensures r.Ok? ==> r.value == |rows| && tables[e.table] == Contents(rows)
      ensures r.Err? ==> !r.error.Occupied? && tables[e.table] <= Contents(rows)
      ensures r.Err? ==> r.error == if schedule.cancelled then Cancelled else StreamFailed
      ensures schedule.cancelled ==> r.Err?
      ensures Served(schedule, e.parts, rows) ==> r.Ok?
    {
      hide Turns, Reached, Served, Copied, Selected, Contents, AllSelected, CutsAtSteps;
      var workers := RunStreams(e, rows, schedule.turns);
      StreamsCoverSnapshot(rows, e.parts, e.pages, maxParts);
      CopiedWithin(rows, e.parts, workers, |e.parts|);
      if schedule.cancelled {
        CancelledIsNotServed(schedule, e.parts, rows);
        return Err(Cancelled);
      }
      if exists i :: 0 <= i < |workers| && !workers[i].Committed? {
        ghost var i :| 0 <= i < |workers| && !workers[i].Committed?;
        ServedCommits(schedule, e.parts, rows, workers[i], i);
        return Err(StreamFailed);
      }
      AllCommitted(rows, e.parts, workers, |e.parts|);
      ContentsSize(rows);
      return Ok(|rows|);
    }

    /** One table of the plan: refuse or truncate it, then copy it. */
    method CopyPlanned(e: SplitTable, rows: seq<Row>, maxParts: nat, allowNonempty: bool, schedule: Schedule)
      returns (r: Result<nat, CopyError>)
      requires e.table in tables && maxParts > 0 && e.pages > 0 && CutsAtSteps(e.parts, e.pages, maxParts)
      modifies this
      ensures tables.Keys == old(tables).Keys
      ensures forall u :: u in tables && u != e.table ==> tables[u] == old(tables)[u]
      ensures r.Ok? ==> r.value == |rows| && tables[e.table] == Contents(rows)
      ensures !allowNonempty && old(tables)[e.table] != multiset{} ==>
                r.Err? && tables[e.table] == old(tables)[e.table]
      ensures r.Err? && r.error.Occupied? ==>
                !allowNonempty && r.error.table == e.table && old(tables)[e.table] != multiset{}
      ensures Served(schedule, e.parts, rows) ==>
                if allowNonempty || old(tables)[e.table] == multiset{} then r.Ok?
                else r == Err(Occupied(e.table))
      // Without a connection, the query for rows or the TRUNCATE nothing is touched.
      ensures schedule.preparation.NoConnection? || schedule.preparation.NoTruncate?
              || (schedule.preparation.NoQuery? && !allowNonempty) ==>
                r.Err? && tables == old(tables)
      ensures schedule.cancelled ==> r.Err?
    {
      hide Contents, CutsAtSteps;
      if schedule.cancelled && schedule.turns == [] {
        return Err(Cancelled);
      }
      if schedule.preparation.NoConnection? {
        return Err(TargetFailed);
      }
      if !allowNonempty {
        if schedule.preparation.NoQuery? {
          return Err(TargetFailed);
        }
        if tables[e.table] != multiset{} {
          return Err(Occupied(e.table));
        }
      }
      if schedule.preparation.NoTruncate? {
        return Err(TargetFailed);
      }
      tables := tables[e.table := multiset{}];
      r := CopyTable(e, rows, maxParts, schedule);
    }

    /** Every planned table in turn, ending at the first failure. */
    method RunSplitCopy(plan: seq<SplitTable>, snapshot: map<Table, seq<Row>>, maxParts: nat,
                        allowNonempty: bool, schedules: seq<Schedule>)
      returns (r: Result<nat, CopyError>)
      requires maxParts > 0 && |schedules| == |plan| && Distinct(plan)
      requires forall i :: 0 <= i < |plan| ==>
                 && plan[i].table in tables && plan[i].table in snapshot
                 && plan[i].pages > 0 && CutsAtSteps(plan[i].parts, plan[i].pages, maxParts)
      modifies this
      ensures tables.Keys == old(tables).Keys
      // Tables outside the plan are never touched.
      ensures forall u :: u in tables && Outside(plan, |plan|, u) ==> tables[u] == old(tables)[u]
      // Success delivers every planned table and counts its rows.
      ensures r.Ok? ==> r.value == Total(snapshot, plan, |plan|)
      ensures r.Ok? ==> forall i :: 0 <= i < |plan| ==> tables[plan[i].table] == Contents(snapshot[plan[i].table])
      // Without the opt-in, a planned table that held rows fails the run and keeps them.
      ensures !allowNonempty ==>
                forall i :: 0 <= i < |plan| && old(tables)[plan[i].table] != multiset{} ==>
                  r.Err? && tables[plan[i].table] == old(tables)[plan[i].table]
      ensures r.Err? && r.error.Occupied? ==>
                && !allowNonempty && r.error.table in tables && old(tables)[r.error.table] != multiset{}
                && exists i :: 0 <= i < |plan| && plan[i].table == r.error.table
      // Where nothing fails from outside, it succeeds unless it refuses an occupied table.
      ensures (forall i :: 0 <= i < |plan| ==> Served(schedules[i], plan[i].parts, snapshot[plan[i].table])) ==>
                r.Ok? || r.error.Occupied?
    {
      hide Contents, CutsAtSteps, Delivered, Vacant, Distinct, Outside, Served;
      ghost var start := tables;
      var total, k := 0, 0;
      NoneDelivered(start, snapshot, plan);
      while k < |plan|
        invariant k <= |plan| && total == Total(snapshot, plan, k)
        invariant tables.Keys == start.Keys && Delivered(tables, start, snapshot, plan, k)
        invariant !allowNonempty ==> Vacant(start, plan, k)
      {
        ghost var before := tables;
        var copied := CopyPlanned(plan[k], snapshot[plan[k].table], maxParts, allowNonempty, schedules[k]);
        NextUntouched(before, start, snapshot, plan, k);
        if copied.Err? {
          LaterUntouched(tables, before, start, snapshot, plan, k);
          if !allowNonempty { FailureKeeps(tables, start, plan, k); }
          return Err(copied.error);
        }
        NextDelivered(tables, before, start, snapshot, plan, k);
        if !allowNonempty { NextVacant(start, plan, k); }
        total := total + copied.value;
        k := k + 1;
      }
      AllDelivered(tables, start, snapshot, plan);
      if !allowNonempty { VacantBefore(start, plan, k); }
      return Ok(total);
    }
  }

  type Tables = map<Table, multiset<string>>

  /** The first `k` planned tables held nothing. */
  predicate Vacant(before: Tables, plan: seq<SplitTable>, k: nat)
    requires k <= |plan|
  {
    forall i :: 0 <= i < k ==> plan[i].table in before && before[plan[i].table] == multiset{}
  }

  lemma VacantBefore(before: Tables, plan: seq<SplitTable>, k: nat)
    requires k <= |plan| && Vacant(before, plan, k)
    ensures forall i :: 0 <= i < k ==> plan[i].table in before && before[plan[i].table] == multiset{}
  {
  }

  /** A run without the opt-in that fails at table `k` leaves every planned table that held
      rows as it was. */
  lemma FailureKeeps(now: Tables, before: Tables, plan: seq<SplitTable>, k: nat)
    requires k < |plan| && Vacant(before, plan, k)
    requires forall i :: 0 <= i < |plan| ==> plan[i].table in now && plan[i].table in before
    requires before[plan[k].table] != multiset{} ==> now[plan[k].table] == before[plan[k].table]
    requires forall i :: k < i < |plan| ==> now[plan[i].table] == before[plan[i].table]
    ensures forall i :: 0 <= i < |plan| && before[plan[i].table] != multiset{} ==>
              now[plan[i].table] == before[plan[i].table]
  {
  }

  lemma NextVacant(before: Tables, plan: seq<SplitTable>, k: nat)
    requires k < |plan| && Vacant(before, plan, k)
    requires plan[k].table in before && before[plan[k].table] == multiset{}
    ensures Vacant(before, plan, k + 1)
  {
  }

  /** The first `k` planned tables hold their snapshot rows, all others what they held
      before. */
  predicate Delivered(now: Tables, before: Tables, snapshot: map<Table, seq<Row>>, plan: seq<SplitTable>, k: nat)
    requires k <= |plan|
  {
    && now.Keys == before.Keys
    && (forall i :: 0 <= i < k ==>
          plan[i].table in now && plan[i].table in snapshot && now[plan[i].table] == Contents(snapshot[plan[i].table]))
    && (forall u :: u in now && Outside(plan, k, u) ==> now[u] == before[u])
  }

  lemma NoneDelivered(now: Tables, snapshot: map<Table, seq<Row>>, plan: seq<SplitTable>)
    ensures Delivered(now, now, snapshot, plan, 0) && Vacant(now, plan, 0)
  {
  }

  lemma AllDelivered(now: Tables, before: Tables, snapshot: map<Table, seq<Row>>, plan: seq<SplitTable>)
    requires Delivered(now, before, snapshot, plan, |plan|)
    ensures forall i :: 0 <= i < |plan| ==>
              plan[i].table in now && plan[i].table in snapshot && now[plan[i].table] == Contents(snapshot[plan[i].table])
    ensures forall u :: u in now && Outside(plan, |plan|, u) ==> u in before && now[u] == before[u]
  {
  }

  lemma NextUntouched(now: Tables, before: Tables, snapshot: map<Table, seq<Row>>, plan: seq<SplitTable>, k: nat)
    requires k < |plan| && Distinct(plan) && Delivered(now, before, snapshot, plan, k) && plan[k].table in now
    ensures plan[k].table in before && now[plan[k].table] == before[plan[k].table]
  {
    assert Outside(plan, k, plan[k].table);
  }

  /** One more table has been copied. */
  lemma NextDelivered(now: Tables, mid: Tables, before: Tables, snapshot: map<Table, seq<Row>>,
                      plan: seq<SplitTable>, k: nat)
    requires k < |plan| && Distinct(plan) && Delivered(mid, before, snapshot, plan, k)
    requires now.Keys == mid.Keys && plan[k].table in now && plan[k].table in snapshot
    requires now[plan[k].table] == Contents(snapshot[plan[k].table])
    requires forall u :: u in now && u != plan[k].table ==> now[u] == mid[u]
    ensures Delivered(now, before, snapshot, plan, k + 1)
  {
    hide Contents;
    forall u | u in now && Outside(plan, k + 1, u) ensures now[u] == before[u] {
      assert Outside(plan, k, u) && plan[k].table != u;
    }
  }

  /** When table `k` fails, it alone may have changed among those not yet delivered. */
  lemma LaterUntouched(now: Tables, mid: Tables, before: Tables, snapshot: map<Table, seq<Row>>,
                       plan: seq<SplitTable>, k: nat)
    requires k < |plan| && Distinct(plan) && Delivered(mid, before, snapshot, plan, k)
    requires now.Keys == mid.Keys && forall u :: u in now && u != plan[k].table ==> now[u] == mid[u]
    ensures forall i :: k < i < |plan| && plan[i].table in now ==>
              plan[i].table in before && now[plan[i].table] == before[plan[i].table]
    ensures forall u :: u in now && Outside(plan, |plan|, u) ==> u in before && now[u] == before[u]
  {
    hide Contents;
    forall i | k < i < |plan| && plan[i].table in now
      ensures plan[i].table in before && now[plan[i].table] == before[plan[i].table]
    {
      assert Outside(plan, k, plan[i].table);
    }
    forall u | u in now && Outside(plan, |plan|, u) ensures u in before && now[u] == before[u] {
      assert Outside(plan, k, u) && plan[k].table != u;
    }
  }

  lemma {:induction false} MoveNone(rows: seq<Row>, parts: seq<Part>, workers: seq<Worker>, n: nat)
    requires n <= |parts| == |workers| && forall i :: 0 <= i < |workers| ==> workers[i].Idle?
    ensures Copied(rows, parts, workers, n) == multiset{}
  {
    hide Selected, Contents;
    if n == 0 {
    } else {
      MoveNone(rows, parts, workers, n - 1);
    }
  }
}
