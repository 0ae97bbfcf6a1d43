/** The row-count comparison (`pg_dbmigrator/src/verify.rs`): which tables are compared,
    how they are dealt out to concurrent workers, and what the report says. */
module Verify {
  import opened Prelude

  // ----------------------------------------------------------------- table names

  /** Everything before and after the last `sep`. */
  function RsplitOnce(s: string, sep: char): Option<(string, string)> {
    if s == [] then None
    else if s[|s| - 1] == sep then Some((s[..|s| - 1], []))
    else match RsplitOnce(s[..|s| - 1], sep)
      case None => None
      case Some((a, b)) => Some((a, b + [s[|s| - 1]]))
  }

  /** Everything up to the first `sep`. */
  function FirstSegment(s: string, sep: char): string {
    if s == [] || s[0] == sep then [] else [s[0]] + FirstSegment(s[1..], sep)
  }

  function QualifiedName(schema: string, table: string): string {
    schema + ['.'] + table
  }

  lemma {:induction false} RsplitParts(s: string, sep: char)
    ensures RsplitOnce(s, sep).None? <==> sep !in s
    ensures RsplitOnce(s, sep).Some? ==>
              var (a, b) := RsplitOnce(s, sep).value;
              s == a + [sep] + b && sep !in b
  {
    if s == [] || s[|s| - 1] == sep {
    } else {
      var front, c := s[..|s| - 1], s[|s| - 1];
      RsplitParts(front, sep);
      assert s == front + [c];
      if RsplitOnce(front, sep).Some? {
        var (a, b) := RsplitOnce(front, sep).value;
        assert s == a + [sep] + (b + [c]);
      }
    }
  }

  /** The last separator of a text is at most as far right as any other. */
  lemma LastSeparator(a: string, b: string, c: string, d: string, sep: char)
    requires a + [sep] + b == c + [sep] + d && sep !in d
    ensures |a| <= |c|
  {
    var s := c + [sep] + d;
    assert s[|a|] == sep;
  }

  /** The qualified name splits back into its two halves exactly when the table's own name
      has no dot; the schema may have any. */
  lemma SplitsBackIff(schema: string, table: string)
    ensures RsplitOnce(QualifiedName(schema, table), '.') == Some((schema, table)) <==> '.' !in table
  {
    var s := QualifiedName(schema, table);
    RsplitParts(s, '.');
    assert s[|schema|] == '.';
    var (a, b) := RsplitOnce(s, '.').value;
    if '.' !in table {
      LastSeparator(a, b, schema, table, '.');
      LastSeparator(schema, table, a, b, '.');
      assert a == s[..|a|] == schema && b == s[|a| + 1..] == table;
    }
  }

  lemma {:induction false} FirstSegmentOf(schema: string, rest: string)
    requires '.' !in schema
    ensures FirstSegment(schema + ['.'] + rest, '.') == schema
  {
    var s := schema + ['.'] + rest;
    if schema == [] {
    } else {
      assert s[1..] == schema[1..] + ['.'] + rest;
      FirstSegmentOf(schema[1..], rest);
    }
  }

  // -------------------------------------------------------------------- selection

  function SchemaOf(name: string): string {
    match RsplitOnce(name, '.')
    case None => ""
    case Some((schema, _)) => schema
  }

  predicate Included(name: string, schemas: seq<string>, tables: seq<string>) {
    || (schemas == [] && tables == [])
    || SchemaOf(name) in schemas
    || name in tables
  }

  predicate Excluded(name: string, excludeTables: seq<string>, excludeSchemas: seq<string>) {
    name in excludeTables || FirstSegment(name, '.') in excludeSchemas
  }

  function Select(names: seq<string>, schemas: seq<string>, tables: seq<string>,
                  excludeTables: seq<string>, excludeSchemas: seq<string>): seq<string>
  {
    if names == [] then []
    else
      (if Included(names[0], schemas, tables) && !Excluded(names[0], excludeTables, excludeSchemas)
       then [names[0]] else [])
      + Select(names[1..], schemas, tables, excludeTables, excludeSchemas)
  }

  lemma {:induction false} SelectMeans(names: seq<string>, schemas: seq<string>, tables: seq<string>,
                                       excludeTables: seq<string>, excludeSchemas: seq<string>, n: string)
    ensures n in Select(names, schemas, tables, excludeTables, excludeSchemas) <==>
            n in names && Included(n, schemas, tables) && !Excluded(n, excludeTables, excludeSchemas)
  {
    if names == [] {
    } else {
      SelectMeans(names[1..], schemas, tables, excludeTables, excludeSchemas, n);
      assert names == [names[0]] + names[1..];
    }
  }

  /** For dot-free names the selection is what the flags say: include lists are a union,
      and the exclusions then win. */
  lemma SelectedIff(names: seq<string>, schemas: seq<string>, tables: seq<string>,
                    excludeTables: seq<string>, excludeSchemas: seq<string>, schema: string, table: string)
    requires '.' !in schema && '.' !in table
    ensures var n := QualifiedName(schema, table);
            n in Select(names, schemas, tables, excludeTables, excludeSchemas) <==>
            && n in names
            && ((schemas == [] && tables == []) || schema in schemas || n in tables)
            && n !in excludeTables && schema !in excludeSchemas
  {
    SelectMeans(names, schemas, tables, excludeTables, excludeSchemas, QualifiedName(schema, table));
    SplitsBackIff(schema, table);
    FirstSegmentOf(schema, table);
  }

  // ------------------------------------------------------------------------ report

  datatype TableCount = TableCount(schema: string, table: string, source: int, target: int)

  /** A relation of the database, by schema and name; either may contain anything. */
  datatype Relation = Relation(schema: string, table: string)

  /** The row counts of both sides, fixed while they are compared; None for a table that
      does not exist on the target. */
  datatype Counts = Counts(source: Relation -> nat, target: Relation -> Option<nat>)

  const MISSING: int := -1

  /** The comparison of one table: nothing when the name has no dot. */
  function Compare(c: Counts, name: string): seq<TableCount> {
    match RsplitOnce(name, '.')
    case None => []
    case Some((schema, table)) =>
      var rel := Relation(schema, table);
      [TableCount(schema, table, c.source(rel), if c.target(rel).Some? then c.target(rel).value else MISSING)]
  }

  function CompareAll(c: Counts, names: seq<string>): seq<TableCount> {
    if names == [] then [] else CompareAll(c, names[..|names| - 1]) + Compare(c, names[|names| - 1])
  }

  predicate Ok(rows: seq<TableCount>) {
    forall i :: 0 <= i < |rows| ==> rows[i].source == rows[i].target
  }

  lemma {:induction false} CompareAppend(c: Counts, a: seq<string>, b: seq<string>)
    ensures CompareAll(c, a + b) == CompareAll(c, a) + CompareAll(c, b)
  {
    hide Compare;
    if b == [] {
      assert a + b == a;
    } else {
      assert (a + b)[..|a + b| - 1] == a + b[..|b| - 1];
      CompareAppend(c, a, b[..|b| - 1]);
    }
  }

  function Labels(rels: seq<Relation>): seq<string> {
    if rels == [] then []
    else Labels(rels[..|rels| - 1]) + [QualifiedName(rels[|rels| - 1].schema, rels[|rels| - 1].table)]
  }

  lemma CompareRelation(c: Counts, r: Relation)
    requires '.' !in r.table
    ensures var row := Compare(c, QualifiedName(r.schema, r.table));
            && row == [TableCount(r.schema, r.table, c.source(r),
                                  if c.target(r).Some? then c.target(r).value else -1)]
            && (row[0].source == row[0].target <==> c.target(r) == Some(c.source(r)))
  {
    SplitsBackIff(r.schema, r.table);
  }

  lemma OkAppend(rows: seq<TableCount>, row: TableCount)
    ensures Ok(rows + [row]) <==> Ok(rows) && row.source == row.target
  {
    assert (rows + [row])[|rows|] == row;
    assert forall i :: 0 <= i < |rows| ==> (rows + [row])[i] == rows[i];
  }

  /** For relations whose own names have no dot the report has one entry each, with the counts
      of both sides and -1 for a table the target does not have, and it is ok exactly when each of them exists on the target with as many rows: a missing table is
      never mistaken for an empty one. */
  lemma {:induction false} ReportMeans(c: Counts, rels: seq<Relation>)
    requires forall r :: r in rels ==> '.' !in r.table
    ensures |CompareAll(c, Labels(rels))| == |rels|
    ensures forall i :: 0 <= i < |rels| ==>
              CompareAll(c, Labels(rels))[i] ==
              TableCount(rels[i].schema, rels[i].table, c.source(rels[i]),
                         if c.target(rels[i]).Some? then c.target(rels[i]).value else -1)
    ensures Ok(CompareAll(c, Labels(rels))) <==> forall r :: r in rels ==> c.target(r) == Some(c.source(r))
  {
    hide Compare, QualifiedName, Ok;
    if rels == [] {
      NothingIsOk();
    } else {
      var front, last := rels[..|rels| - 1], rels[|rels| - 1];
      assert forall r :: r in rels <==> r in front || r == last;
      ReportMeans(c, front);
      CompareRelation(c, last);
      var name := QualifiedName(last.schema, last.table);
      var rows, row := CompareAll(c, Labels(front)), Compare(c, name);
      assert Labels(rels)[..|Labels(front)|] == Labels(front);
      assert row == [row[0]] && CompareAll(c, Labels(rels)) == rows + [row[0]];
      OkAppend(rows, row[0]);
    }
  }

  lemma NothingIsOk()
    ensures Ok([])
  {
  }

  /** The relations of the candidates that the flags select, in order. */
  function Chosen(rels: seq<Relation>, schemas: seq<string>, tables: seq<string>,
                  excludeTables: seq<string>, excludeSchemas: seq<string>): seq<Relation>
  {
    if rels == [] then []
    else
      var r := rels[|rels| - 1];
      Chosen(rels[..|rels| - 1], schemas, tables, excludeTables, excludeSchemas)
      + if Wanted(r, schemas, tables, excludeTables, excludeSchemas) then [r] else []
  }

  /** Include lists are a union, and the exclusions then win. */
  predicate Wanted(r: Relation, schemas: seq<string>, tables: seq<string>,
                   excludeTables: seq<string>, excludeSchemas: seq<string>)
  {
    var n := QualifiedName(r.schema, r.table);
    && ((schemas == [] && tables == []) || r.schema in schemas || n in tables)
    && n !in excludeTables && r.schema !in excludeSchemas
  }

  lemma {:induction false} SelectAppend(a: seq<string>, n: string, schemas: seq<string>, tables: seq<string>,
                                        excludeTables: seq<string>, excludeSchemas: seq<string>)
    ensures Select(a + [n], schemas, tables, excludeTables, excludeSchemas) ==
            Select(a, schemas, tables, excludeTables, excludeSchemas)
            + if Included(n, schemas, tables) && !Excluded(n, excludeTables, excludeSchemas) then [n] else []
  {
    hide Included, Excluded;
    if a == [] {
      assert [] + [n] == [n] && [n][1..] == [];
    } else {
      assert (a + [n])[1..] == a[1..] + [n];
      SelectAppend(a[1..], n, schemas, tables, excludeTables, excludeSchemas);
    }
  }

  lemma WantedIff(r: Relation, schemas: seq<string>, tables: seq<string>,
                  excludeTables: seq<string>, excludeSchemas: seq<string>)
    requires '.' !in r.schema && '.' !in r.table
    ensures var n := QualifiedName(r.schema, r.table);
            Included(n, schemas, tables) && !Excluded(n, excludeTables, excludeSchemas) <==>
            Wanted(r, schemas, tables, excludeTables, excludeSchemas)
  {
    SplitsBackIff(r.schema, r.table);
    FirstSegmentOf(r.schema, r.table);
  }

  /** Selecting by label is selecting by relation, for dot-free names. */
  lemma {:induction false} SelectedLabels(rels: seq<Relation>, schemas: seq<string>, tables: seq<string>,
                                          excludeTables: seq<string>, excludeSchemas: seq<string>)
    requires forall r :: r in rels ==> '.' !in r.schema && '.' !in r.table
    ensures Select(Labels(rels), schemas, tables, excludeTables, excludeSchemas) ==
            Labels(Chosen(rels, schemas, tables, excludeTables, excludeSchemas))
    ensures forall r :: r in Chosen(rels, schemas, tables, excludeTables, excludeSchemas) <==>
              r in rels && Wanted(r, schemas, tables, excludeTables, excludeSchemas)
  {
    hide Wanted, Included, Excluded, QualifiedName;
    if rels == [] {
    } else {
      var front, r := rels[..|rels| - 1], rels[|rels| - 1];
      SelectedLabels(front, schemas, tables, excludeTables, excludeSchemas);
      assert forall x :: x in rels <==> x in front || x == r;
      SelectAppend(Labels(front), QualifiedName(r.schema, r.table), schemas, tables, excludeTables, excludeSchemas);
      WantedIff(r, schemas, tables, excludeTables, excludeSchemas);
      LabelsNext(Chosen(front, schemas, tables, excludeTables, excludeSchemas), r);
    }
  }

  lemma LabelsNext(rels: seq<Relation>, r: Relation)
    ensures Labels(rels + [r]) == Labels(rels) + [QualifiedName(r.schema, r.table)]
    ensures Labels(rels + []) == Labels(rels)
  {
    assert (rels + [r])[..|rels|] == rels && rels + [] == rels;
  }

  // ----------------------------------------------------------------------- workers

  function Flatten<T>(chunks: seq<seq<T>>): seq<T> {
    if chunks == [] then [] else Flatten(chunks[..|chunks| - 1]) + chunks[|chunks| - 1]
  }

  function CeilDiv(a: nat, b: nat): nat
    requires b > 0
  {
    (a + b - 1) / b
  }

  function ChunkSize(tables: nat, jobs: nat): (size: nat)
    ensures size > 0
  {
    var workers := Min(Max(jobs, 1), Max(tables, 1));
    Max(CeilDiv(tables, workers), 1)
  }

  /** Where chunk `k` begins. */
  function Offset(k: nat, size: nat): nat {
    k * size
  }

  lemma EnoughWorkers(tables: nat, jobs: nat, k: nat)
    ensures Offset(k, ChunkSize(tables, jobs)) < tables ==> k < Max(jobs, 1)
    ensures Offset(k + 1, ChunkSize(tables, jobs)) == Offset(k, ChunkSize(tables, jobs)) + ChunkSize(tables, jobs)
    ensures Offset(0, ChunkSize(tables, jobs)) == 0
  {
    var workers := Min(Max(jobs, 1), Max(tables, 1));
    var size := ChunkSize(tables, jobs);
    assert workers * size >= tables by {
      var q := CeilDiv(tables, workers);
      assert tables + workers - 1 == workers * q + (tables + workers - 1) % workers;
      MulMonotone(q, size, workers);
    }
    if k >= workers { MulMonotone(workers, k, size); }
  }

  lemma MulMonotone(a: nat, b: nat, k: nat)
    requires a <= b
    ensures a * k <= b * k && k * a <= k * b
  {
  }

  /** Contiguous chunks of equal size, the last one possibly shorter. */
  method Chunks(names: seq<string>, jobs: nat) returns (chunks: seq<seq<string>>)
    ensures Flatten(chunks) == names
    ensures |chunks| <= Max(jobs, 1)
    ensures forall i :: 0 <= i < |chunks| ==> 0 < |chunks[i]| <= ChunkSize(|names|, jobs)
    ensures forall i :: 0 <= i < |chunks| - 1 ==> |chunks[i]| == ChunkSize(|names|, jobs)
  {
    hide Offset, ChunkSize;
    var size := ChunkSize(|names|, jobs);
    chunks := [];
    var start := 0;
    EnoughWorkers(|names|, jobs, 0);
    while start < |names|
      invariant start <= |names| && (start < |names| ==> start == Offset(|chunks|, size))
      invariant |chunks| <= Max(jobs, 1)
      invariant Flatten(chunks) == names[..start]
      invariant forall i :: 0 <= i < |chunks| ==> 0 < |chunks[i]| <= size
      invariant forall i :: 0 <= i < |chunks| ==> |chunks[i]| == size || start == |names|
      invariant forall i :: 0 <= i < |chunks| - 1 ==> |chunks[i]| == size
    {
      EnoughWorkers(|names|, jobs, |chunks|);
      var end := Min(start + size, |names|);
      assert (chunks + [names[start..end]])[..|chunks|] == chunks;
      assert names[..end] == names[..start] + names[start..end];
      chunks := chunks + [names[start..end]];
      start := end;
    }
    assert names[..start] == names;
  }

  lemma {:induction false} ChunkFits<T>(chunks: seq<seq<T>>, w: nat)
    requires w < |chunks|
    ensures |chunks[w]| <= |Flatten(chunks)|
  {
    if w == |chunks| - 1 {
    } else {
      ChunkFits(chunks[..|chunks| - 1], w);
    }
  }

  /** The workers take turns in any order, each going through its own chunk. If all get
      to the end, the joined results are those of one pass over the whole list; and they
      do if none is starved. */
  method VerifyRowCounts(names: seq<string>, c: Counts, jobs: nat, turns: seq<nat>)
    returns (report: Option<seq<TableCount>>)
    ensures report.Some? ==> report.value == CompareAll(c, names)
    ensures (forall w :: 0 <= w < Max(jobs, 1) ==> Turns(turns, w) >= |names|) ==> report.Some?
  {
    hide Progress, Compare, CompareAll, Turns;
    var chunks := Chunks(names, jobs);
    var done: seq<nat> := seq(|chunks|, _ => 0);
    var local: seq<seq<TableCount>> := seq(|chunks|, _ => []);
    NothingCompared(c);
    var k := 0;
    while k < |turns|
      invariant k <= |turns| && |done| == |local| == |chunks|
      invariant forall w :: 0 <= w < |chunks| ==> Progress(c, chunks[w], done[w], local[w], Turns(turns[..k], w))
    {
      var w := turns[k];
      TurnsNext(turns, k);
      if w < |chunks| {
        ghost var taken := Turns(turns[..k], w);
        ProgressNext(c, chunks[w], done[w], local[w], taken);
        if done[w] < |chunks[w]| {
          local := local[w := local[w] + Compare(c, chunks[w][done[w]])];
          done := done[w := done[w] + 1];
        }
      }
      k := k + 1;
    }
    assert turns[..k] == turns;
    forall w | 0 <= w < |chunks|
      ensures done[w] == |chunks[w]| ==> local[w] == CompareAll(c, chunks[w])
      ensures Turns(turns, w) >= |names| ==> done[w] == |chunks[w]|
    {
      ChunkFits(chunks, w);
      ProgressEnds(c, chunks[w], done[w], local[w], Turns(turns, w));
    }
    if exists w :: 0 <= w < |chunks| && done[w] != |chunks[w]| {
      return None;
    }
    JoinedIsSequential(c, chunks, local);
    return Some(Flatten(local));
  }

  /** In `taken` turns a worker has compared the first `n` names of its chunk. */
  predicate Progress(c: Counts, chunk: seq<string>, n: nat, local: seq<TableCount>, taken: nat) {
    Min(taken, |chunk|) <= n <= |chunk| && local == CompareAll(c, chunk[..n])
  }

  lemma NothingCompared(c: Counts)
    ensures forall chunk :: Progress(c, chunk, 0, [], 0)
    ensures forall w :: Turns([], w) == 0
  {
  }

  lemma ProgressNext(c: Counts, chunk: seq<string>, n: nat, local: seq<TableCount>, taken: nat)
    requires Progress(c, chunk, n, local, taken)
    ensures n <= |chunk|
    ensures n == |chunk| ==> Progress(c, chunk, n, local, taken + 1)
    ensures n < |chunk| ==> Progress(c, chunk, n + 1, local + Compare(c, chunk[n]), taken + 1)
  {
    if n < |chunk| { assert chunk[..n + 1][..n] == chunk[..n]; }
  }

  lemma ProgressEnds(c: Counts, chunk: seq<string>, n: nat, local: seq<TableCount>, taken: nat)
    requires Progress(c, chunk, n, local, taken)
    ensures n == |chunk| ==> local == CompareAll(c, chunk)
    ensures taken >= |chunk| ==> n == |chunk|
  {
    assert chunk[..|chunk|] == chunk;
  }

  lemma {:induction false} JoinedIsSequential(c: Counts, chunks: seq<seq<string>>, local: seq<seq<TableCount>>)
    requires |local| == |chunks|
    requires forall w :: 0 <= w < |chunks| ==> local[w] == CompareAll(c, chunks[w])
    ensures Flatten(local) == CompareAll(c, Flatten(chunks))
  {
    if chunks == [] {
    } else {
      var front := chunks[..|chunks| - 1];
      CompareAppend(c, Flatten(front), chunks[|chunks| - 1]);
      JoinedIsSequential(c, front, local[..|chunks| - 1]);
    }
  }

  /** The whole verification, for dot-free names: one entry per selected relation, and ok
      exactly when each of those exists on the target with the same count. */
  method VerifySelected(ghost rels: seq<Relation>, labels: seq<string>, c: Counts, schemas: seq<string>,
                        tables: seq<string>, excludeTables: seq<string>, excludeSchemas: seq<string>,
                        jobs: nat, turns: seq<nat>)
    returns (report: Option<seq<TableCount>>)
    requires labels == Labels(rels) && forall r :: r in rels ==> '.' !in r.schema && '.' !in r.table
    ensures report.Some? ==>
              var chosen := Chosen(rels, schemas, tables, excludeTables, excludeSchemas);
              && |report.value| == |chosen|
              && (forall i :: 0 <= i < |chosen| ==>
                    report.value[i] ==
                    TableCount(chosen[i].schema, chosen[i].table, c.source(chosen[i]),
                               if c.target(chosen[i]).Some? then c.target(chosen[i]).value else -1))
              && (Ok(report.value) <==>
                    forall r :: r in rels && Wanted(r, schemas, tables, excludeTables, excludeSchemas) ==>
                      c.target(r) == Some(c.source(r)))
    ensures (forall w :: 0 <= w < Max(jobs, 1) ==> Turns(turns, w) >= |rels|) ==> report.Some?
  {
    hide Wanted, Compare, Select;
    var names := Select(labels, schemas, tables, excludeTables, excludeSchemas);
    report := VerifyRowCounts(names, c, jobs, turns);
    SelectedLabels(rels, schemas, tables, excludeTables, excludeSchemas);
    LabelsSize(rels);
    ghost var chosen := Chosen(rels, schemas, tables, excludeTables, excludeSchemas);
    LabelsSize(chosen);
    ChosenFits(rels, schemas, tables, excludeTables, excludeSchemas);
    assert forall r :: r in chosen ==> '.' !in r.table;
    ReportMeans(c, chosen);
  }

  /** Each relation is chosen as often as it is a candidate, if it is wanted. */
  lemma {:induction false} ChosenOnce(rels: seq<Relation>, schemas: seq<string>, tables: seq<string>,
                                      excludeTables: seq<string>, excludeSchemas: seq<string>, r: Relation)
    ensures multiset(Chosen(rels, schemas, tables, excludeTables, excludeSchemas))[r] ==
            if Wanted(r, schemas, tables, excludeTables, excludeSchemas) then multiset(rels)[r] else 0
  {
    hide Wanted;
    if rels == [] {
    } else {
      var front, last := rels[..|rels| - 1], rels[|rels| - 1];
      ChosenOnce(front, schemas, tables, excludeTables, excludeSchemas, r);
      assert rels == front + [last];
    }
  }

  lemma {:induction false} LabelsSize(rels: seq<Relation>)
    ensures |Labels(rels)| == |rels|
  {
    if rels == [] {
    } else {
      LabelsSize(rels[..|rels| - 1]);
    }
  }

  lemma {:induction false} ChosenFits(rels: seq<Relation>, schemas: seq<string>, tables: seq<string>,
                                      excludeTables: seq<string>, excludeSchemas: seq<string>)
    ensures |Chosen(rels, schemas, tables, excludeTables, excludeSchemas)| <= |rels|
  {
    if rels == [] {
    } else {
      ChosenFits(rels[..|rels| - 1], schemas, tables, excludeTables, excludeSchemas);
    }
  }
}
