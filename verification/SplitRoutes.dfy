/** The direct copy inside the protocol: what the concurrent streams of module SplitCopy
    deliver is what the protocol's copy step says, and together with the archive it is the
    whole snapshot. A change inserts a row; a table is compared as the bag of its rows. */
module SplitRoutes {
  import opened Prelude
  import opened Config
  import opened Resume
  import opened Protocol
  import opened ProtocolInvariant
  import opened ProtocolSteps
  import SplitPages
  import SplitCopy

  function Bag(cs: seq<Change>): multiset<string> {
    if cs == [] then multiset{} else Bag(cs[..|cs| - 1]) + multiset{cs[|cs| - 1].row}
  }

  function Bags(tables: map<Table, seq<Change>>): map<Table, multiset<string>> {
    map t | t in tables :: Bag(tables[t])
  }

  lemma {:induction false} BagSize(cs: seq<Change>)
    ensures |Bag(cs)| == |cs|
  {
    if cs == [] {
    } else {
      BagSize(cs[..|cs| - 1]);
    }
  }

  lemma BagNext(cs: seq<Change>, c: Change)
    ensures Bag(cs + [c]) == Bag(cs) + multiset{c.row}
  {
    assert (cs + [c])[..|cs|] == cs;
  }

  function Names(plan: seq<SplitCopy.SplitTable>): set<Table> {
    set i | 0 <= i < |plan| :: plan[i].table
  }

  /** The heap rows a stream reads at the snapshot are those the changes up to it left. */
  predicate Shows(snapshot: map<Table, seq<SplitCopy.Row>>, wal: Wal, lsn: nat, t: Table)
    requires lsn <= |wal|
  {
    t in snapshot && SplitCopy.Contents(snapshot[t]) == Bag(Of(wal[..lsn], t))
  }

  /** A plan the streams can work on: distinct tables that exist on both sides, cut into
      ranges, with the heaps the snapshot shows. */
  predicate Ready(plan: seq<SplitCopy.SplitTable>, tables: set<Table>, snapshot: map<Table, seq<SplitCopy.Row>>,
                  wal: Wal, lsn: nat, maxParts: nat)
    requires lsn <= |wal| && 0 < maxParts
  {
    && SplitCopy.Distinct(plan)
    && forall i :: 0 <= i < |plan| ==>
         && plan[i].table in tables && Shows(snapshot, wal, lsn, plan[i].table)
         && plan[i].pages > 0 && SplitPages.CutsAtSteps(plan[i].parts, plan[i].pages, maxParts)
  }

  /** No stream is disturbed from outside. */
  predicate AllServed(plan: seq<SplitCopy.SplitTable>, snapshot: map<Table, seq<SplitCopy.Row>>,
                      schedules: seq<SplitCopy.Schedule>)
    requires |schedules| == |plan|
  {
    forall i :: 0 <= i < |plan| ==>
      plan[i].table in snapshot && SplitCopy.Served(schedules[i], plan[i].parts, snapshot[plan[i].table])
  }

  /** The streams, in any interleaving, on tables whose bags are those of the protocol's:
      success is the protocol's copy step, refusal is where that step is not enabled. */
  method CopySplitTables(target: SplitCopy.Target, setup: Setup, wal: Wal, lsn: nat,
                         plan: seq<SplitCopy.SplitTable>, tables: map<Table, seq<Change>>,
                         snapshot: map<Table, seq<SplitCopy.Row>>, maxParts: nat,
                         schedules: seq<SplitCopy.Schedule>)
    returns (r: Result<nat, SplitCopy.CopyError>)
    requires lsn <= |wal| && 0 < maxParts && |schedules| == |plan|
    requires Ready(plan, tables.Keys, snapshot, wal, lsn, maxParts) && target.tables == Bags(tables)
    modifies target
    ensures r.Ok? ==> SplitCopySucceeds(setup, Names(plan), tables)
    ensures r.Ok? ==> target.tables == Bags(DirectCopy(wal, lsn, Names(plan), tables))
    ensures r.Err? && r.error.Occupied? ==> !SplitCopySucceeds(setup, Names(plan), tables)
    ensures AllServed(plan, snapshot, schedules) ==>
              && (r.Ok? <==> SplitCopySucceeds(setup, Names(plan), tables))
              && (r.Err? ==> r.error.Occupied?)
  {
    hide Of, Bag, DirectCopy, SplitCopySucceeds, SplitPages.CutsAtSteps, SplitCopy.Served, SplitCopy.Contents;
    ghost var before := target.tables;
    r := target.RunSplitCopy(plan, snapshot, maxParts, setup.config.dropTargetFirst, schedules);
    if r.Ok? {
      NothingOccupied(setup, plan, tables);
      BagsOfCopy(plan, tables, snapshot, wal, lsn, target.tables);
    } else if r.error.Occupied? {
      SomethingOccupied(setup, plan, tables, r.error.table);
    }
  }

  lemma NothingOccupied(setup: Setup, plan: seq<SplitCopy.SplitTable>, tables: map<Table, seq<Change>>)
    requires forall i :: 0 <= i < |plan| ==> plan[i].table in tables
    requires !setup.config.dropTargetFirst ==>
               forall i :: 0 <= i < |plan| ==> Bags(tables)[plan[i].table] == multiset{}
    ensures SplitCopySucceeds(setup, Names(plan), tables)
  {
    forall t | t in Names(plan) ensures t in tables && (setup.config.dropTargetFirst || tables[t] == []) {
      var i :| 0 <= i < |plan| && plan[i].table == t;
      BagSize(tables[t]);
    }
  }

  lemma SomethingOccupied(setup: Setup, plan: seq<SplitCopy.SplitTable>, tables: map<Table, seq<Change>>, t: Table)
    requires !setup.config.dropTargetFirst && t in tables && Bags(tables)[t] != multiset{}
    requires exists i :: 0 <= i < |plan| && plan[i].table == t
    ensures !SplitCopySucceeds(setup, Names(plan), tables)
  {
    assert t in Names(plan);
  }

  /** Delivered heaps where planned, everything else untouched: the bags of the copy step. */
  lemma BagsOfCopy(plan: seq<SplitCopy.SplitTable>, tables: map<Table, seq<Change>>,
                   snapshot: map<Table, seq<SplitCopy.Row>>, wal: Wal, lsn: nat, now: map<Table, multiset<string>>)
    requires lsn <= |wal| && now.Keys == tables.Keys
    requires forall i :: 0 <= i < |plan| ==>
               && plan[i].table in now && Shows(snapshot, wal, lsn, plan[i].table)
               && now[plan[i].table] == SplitCopy.Contents(snapshot[plan[i].table])
    requires forall u :: u in now && SplitCopy.Outside(plan, |plan|, u) ==> now[u] == Bags(tables)[u]
    ensures now == Bags(DirectCopy(wal, lsn, Names(plan), tables))
  {
    hide Of, Bag, SplitCopy.Contents;
    var copied := DirectCopy(wal, lsn, Names(plan), tables);
    assert copied.Keys == now.Keys by {
      forall t | t in Names(plan) ensures t in tables {
        var i :| 0 <= i < |plan| && plan[i].table == t;
      }
    }
    forall t | t in now ensures now[t] == Bags(copied)[t] {
      if t in Names(plan) {
        var i :| 0 <= i < |plan| && plan[i].table == t;
        assert copied[t] == Of(wal[..lsn], t);
      } else {
        assert SplitCopy.Outside(plan, |plan|, t);
        assert copied[t] == tables[t];
      }
    }
  }

  /** Conservation across both routes, for real streams: when the archive's data is in and
      the streams of the plan then get through, in any interleaving, every table holds
      exactly the rows of the one snapshot, whichever way they came. */
  method DeliverBothRoutes(target: SplitCopy.Target, setup: Setup, ghost s: State,
                           plan: seq<SplitCopy.SplitTable>, wal: Wal, lsn: nat, tables: map<Table, seq<Change>>,
                           snapshot: map<Table, seq<SplitCopy.Row>>, maxParts: nat,
                           schedules: seq<SplitCopy.Schedule>)
    returns (r: Result<nat, SplitCopy.CopyError>)
    requires Reachable(setup, s) && setup.config.scope.All?
    requires s.proc.Some? && s.proc.value.at.AtSplitCopy? && s.proc.value.split.Some? && s.proc.value.held.Some?
    requires wal == s.source.wal && tables == s.target.tables && Names(plan) == s.proc.value.split.value.plan
    requires lsn == s.proc.value.held.value.lsn <= |wal| && 0 < maxParts && |schedules| == |plan|
    requires Ready(plan, tables.Keys, snapshot, wal, lsn, maxParts) && target.tables == Bags(tables)
    modifies target
    ensures r.Ok? ==> forall t :: t in setup.tables ==>
              t in target.tables && target.tables[t] == Bag(Of(wal[..lsn], t))
  {
    hide Of, Bag;
    r := CopySplitTables(target, setup, wal, lsn, plan, tables, snapshot, maxParts, schedules);
    if r.Ok? { BothRoutes(setup, s); }
  }

  lemma BothRoutes(setup: Setup, s: State)
    requires Reachable(setup, s) && setup.config.scope.All?
    requires s.proc.Some? && s.proc.value.at.AtSplitCopy?
    ensures var p := s.proc.value;
            && p.split.Some? && p.held.Some? && p.held.value.lsn <= |s.source.wal|
            && var copied := DirectCopy(s.source.wal, p.held.value.lsn, p.split.value.plan, s.target.tables);
               forall t :: t in setup.tables ==>
                 t in copied && copied[t] == Of(s.source.wal[..p.held.value.lsn], t)
  {
    hide Of;
    ReachableInv(setup, s);
  }

  // ------------------------------------------------------- streams nobody disturbs

  /** A heap that shows the given changes, all on one page. */
  function HeapOf(cs: seq<Change>): seq<SplitCopy.Row> {
    if cs == [] then []
    else HeapOf(cs[..|cs| - 1]) + [SplitCopy.Row(SplitPages.Tid(0, |cs| - 1), cs[|cs| - 1].row)]
  }

  lemma {:induction false} HeapShows(cs: seq<Change>)
    ensures SplitCopy.Contents(HeapOf(cs)) == Bag(cs)
  {
    if cs == [] {
    } else {
      HeapShows(cs[..|cs| - 1]);
      var h := HeapOf(cs);
      assert h[..|h| - 1] == HeapOf(cs[..|cs| - 1]);
    }
  }

  /** Every worker moves once, in order. */
  function Round(workers: nat): seq<nat> {
    if workers == 0 then [] else Round(workers - 1) + [workers - 1]
  }

  function Rounds(workers: nat, n: nat): seq<nat> {
    if n == 0 then [] else Rounds(workers, n - 1) + Round(workers)
  }

  lemma {:induction false} TurnsAdd(a: seq<nat>, b: seq<nat>, w: nat)
    ensures Turns(a + b, w) == Turns(a, w) + Turns(b, w)
  {
    if b == [] {
      assert a + b == a;
    } else {
      assert (a + b)[..|a + b| - 1] == a + b[..|b| - 1];
      TurnsAdd(a, b[..|b| - 1], w);
    }
  }

  lemma {:induction false} RoundServes(workers: nat, w: nat)
    ensures Turns(Round(workers), w) == if w < workers then 1 else 0
  {
    if workers == 0 {
    } else {
      RoundServes(workers - 1, w);
      TurnsAdd(Round(workers - 1), [workers - 1], w);
      assert [workers - 1][..0] == [];
    }
  }

  lemma {:induction false} RoundsServe(workers: nat, n: nat, w: nat)
    ensures Turns(Rounds(workers, n), w) == if w < workers then n else 0
  {
    if n == 0 {
    } else {
      RoundsServe(workers, n - 1, w);
      RoundServes(workers, w);
      TurnsAdd(Rounds(workers, n - 1), Round(workers), w);
    }
  }

  function SteadyHeaps(plan: seq<SplitCopy.SplitTable>, wal: Wal, lsn: nat): map<Table, seq<SplitCopy.Row>>
    requires lsn <= |wal|
  {
    map t | t in Names(plan) :: HeapOf(Of(wal[..lsn], t))
  }

  /** All streams of a table move in rounds until each has sent everything. */
  function SteadySchedule(parts: nat, rows: nat): SplitCopy.Schedule {
    SplitCopy.Schedule(SplitCopy.Prepared, Rounds(parts, rows + 2), false)
  }

  function SteadySchedules(plan: seq<SplitCopy.SplitTable>, heaps: map<Table, seq<SplitCopy.Row>>):
    seq<SplitCopy.Schedule>
  {
    seq(|plan|, i requires 0 <= i < |plan| =>
      SteadySchedule(|plan[i].parts|, if plan[i].table in heaps then |heaps[plan[i].table]| else 0))
  }

  /** Such streams are ready and served. */
  lemma SteadyIsServed(plan: seq<SplitCopy.SplitTable>, tables: set<Table>, wal: Wal, lsn: nat, maxParts: nat)
    requires lsn <= |wal| && 0 < maxParts && SplitCopy.Distinct(plan) && Names(plan) <= tables
    requires forall i :: 0 <= i < |plan| ==>
               plan[i].pages > 0 && SplitPages.CutsAtSteps(plan[i].parts, plan[i].pages, maxParts)
    ensures var heaps := SteadyHeaps(plan, wal, lsn);
            && Ready(plan, tables, heaps, wal, lsn, maxParts)
            && AllServed(plan, heaps, SteadySchedules(plan, heaps))
  {
    hide Of, Bag, SplitCopy.Contents, SplitPages.CutsAtSteps, HeapOf, Rounds, Turns;
    var heaps := SteadyHeaps(plan, wal, lsn);
    forall i | 0 <= i < |plan| ensures plan[i].table in tables && Shows(heaps, wal, lsn, plan[i].table) {
      assert plan[i].table in Names(plan);
      HeapShows(Of(wal[..lsn], plan[i].table));
    }
    forall i | 0 <= i < |plan|
      ensures plan[i].table in heaps
              && SplitCopy.Served(SteadySchedules(plan, heaps)[i], plan[i].parts, heaps[plan[i].table])
    {
      assert plan[i].table in Names(plan);
      var parts, rows := |plan[i].parts|, |heaps[plan[i].table]|;
      var turns := Rounds(parts, rows + 2);
      forall w: nat | w < parts ensures Turns(turns, w) >= rows + 2 {
        RoundsServe(parts, rows + 2, w);
      }
    }
  }
}
