/** Setting the target's sequences at cutover (`apply_sequences_impl` and its helpers in
    `pg_dbmigrator/src/sequences.rs`). The target executes the SQL text it is sent. */
module SequenceSync {
  import opened Prelude
  import opened Quoting
  import opened SequenceScript

  type Key = (string, string)

  datatype SourceSequence = SourceSequence(schema: string, name: string, lastValue: Option<int>)

  function KeyOf(q: Advance): Key { (q.schema, q.name) }

  /** The sequences that have been advanced on the source. */
  function Actionable(seqs: seq<SourceSequence>): seq<Advance> {
    if seqs == [] then []
    else
      var s := seqs[|seqs| - 1];
      Actionable(seqs[..|seqs| - 1])
      + if s.lastValue.Some? then [Advance(s.schema, s.name, s.lastValue.value)] else []
  }

  // -------------------------------------------------------------- specification

  /** The target after each sequence in turn was set where that is permitted. */
  function Synced(before: map<Key, int>, settable: set<Key>, qs: seq<Advance>): map<Key, int> {
    if qs == [] then before
    else
      var q := qs[|qs| - 1];
      var m := Synced(before, settable, qs[..|qs| - 1]);
      if KeyOf(q) in settable then m[KeyOf(q) := q.value] else m
  }

  function Settable(settable: set<Key>, qs: seq<Advance>): nat {
    if qs == [] then 0
    else Settable(settable, qs[..|qs| - 1]) + if KeyOf(qs[|qs| - 1]) in settable then 1 else 0
  }

  predicate Distinct(qs: seq<Advance>) {
    forall i, j :: 0 <= i < j < |qs| ==> KeyOf(qs[i]) != KeyOf(qs[j])
  }

  /** What the specification means, key by key: a settable sequence that was advanced has
      its source value, every other is unchanged. */
  lemma {:induction false} SyncedMeans(before: map<Key, int>, settable: set<Key>, qs: seq<Advance>)
    requires Distinct(qs)
    ensures var m := Synced(before, settable, qs);
            && (forall i :: 0 <= i < |qs| && KeyOf(qs[i]) in settable ==>
                  KeyOf(qs[i]) in m && m[KeyOf(qs[i])] == qs[i].value)
            && (forall k :: k in before && (k !in settable || forall i :: 0 <= i < |qs| ==> KeyOf(qs[i]) != k) ==>
                  k in m && m[k] == before[k])
            && (forall k :: k in m ==> k in before || k in settable)
  {
    if qs == [] {
    } else {
      SyncedMeans(before, settable, qs[..|qs| - 1]);
    }
  }

  /** `now` is what a batch that failed may have left of `before`: some of the settable
      sequences set already, nothing else changed. */
  predicate PartlySynced(now: map<Key, int>, before: map<Key, int>, settable: set<Key>, qs: seq<Advance>) {
    && now.Keys == before.Keys
    && forall k :: k in now && now[k] != before[k] ==>
         k in settable && exists i :: 0 <= i < |qs| && KeyOf(qs[i]) == k
  }

  /** Syncing again erases every trace of a partial batch. */
  lemma Converges(now: map<Key, int>, before: map<Key, int>, settable: set<Key>, qs: seq<Advance>)
    requires PartlySynced(now, before, settable, qs)
    ensures Synced(now, settable, qs) == Synced(before, settable, qs)
  {
    SyncedDiffers(now, before, settable, qs, |qs|);
  }

  /** After the first `n` sequences two runs differ at most where the rest will write. */
  lemma {:induction false} SyncedDiffers(now: map<Key, int>, before: map<Key, int>, settable: set<Key>,
                                         qs: seq<Advance>, n: nat)
    requires PartlySynced(now, before, settable, qs) && n <= |qs|
    ensures var a, b := Synced(now, settable, qs[..n]), Synced(before, settable, qs[..n]);
            && a.Keys == b.Keys
            && (forall k :: k in a && a[k] != b[k] ==>
                  k in settable && exists i :: n <= i < |qs| && KeyOf(qs[i]) == k)
    ensures n == |qs| ==> Synced(now, settable, qs) == Synced(before, settable, qs)
  {
    if n == 0 {
    } else {
      SyncedDiffers(now, before, settable, qs, n - 1);
      assert qs[..n][..n - 1] == qs[..n - 1];
    }
    if n == |qs| {
      assert qs[..n] == qs;
      var a, b := Synced(now, settable, qs), Synced(before, settable, qs);
      assert forall k :: k in a ==> a[k] == b[k];
    }
  }

  lemma {:induction false} ActionableSize(seqs: seq<SourceSequence>, settable: set<Key>)
    ensures |Actionable(seqs)| <= |seqs|
    ensures Settable(settable, Actionable(seqs)) <= |seqs|
  {
    if seqs == [] {
    } else {
      ActionableSize(seqs[..|seqs| - 1], settable);
    }
    SettableSize(settable, Actionable(seqs));
  }

  /** The listed sequences that were advanced on the source and can be set on the target. */
  function Reached(seqs: seq<SourceSequence>, settable: set<Key>): set<nat> {
    set i: nat | i < |seqs| && seqs[i].lastValue.Some? && (seqs[i].schema, seqs[i].name) in settable
  }

  predicate DistinctNames(seqs: seq<SourceSequence>) {
    forall i, j :: 0 <= i < j < |seqs| ==> (seqs[i].schema, seqs[i].name) != (seqs[j].schema, seqs[j].name)
  }

  /** Actionable are the sequences that were advanced, with their values. */
  lemma {:induction false} ActionableIff(seqs: seq<SourceSequence>, q: Advance)
    ensures q in Actionable(seqs) <==>
            exists i :: 0 <= i < |seqs| && seqs[i] == SourceSequence(q.schema, q.name, Some(q.value))
  {
    if seqs == [] {
    } else {
      var front := seqs[..|seqs| - 1];
      ActionableIff(front, q);
      if q in Actionable(front) {
        var i :| 0 <= i < |front| && front[i] == SourceSequence(q.schema, q.name, Some(q.value));
        assert seqs[i] == front[i];
      }
      if i :| 0 <= i < |seqs| && seqs[i] == SourceSequence(q.schema, q.name, Some(q.value)) {
        assert i < |front| ==> front[i] == seqs[i];
      }
    }
  }

  lemma {:induction false} ActionableDistinct(seqs: seq<SourceSequence>)
    requires DistinctNames(seqs)
    ensures Distinct(Actionable(seqs))
  {
    if seqs == [] {
    } else {
      var front, last := seqs[..|seqs| - 1], seqs[|seqs| - 1];
      ActionableDistinct(front);
      forall k | 0 <= k < |Actionable(front)|
        ensures KeyOf(Actionable(front)[k]) != (last.schema, last.name)
      {
        ActionableIff(front, Actionable(front)[k]);
      }
    }
  }

  lemma {:induction false} ActionableCount(seqs: seq<SourceSequence>, settable: set<Key>)
    ensures Settable(settable, Actionable(seqs)) == |Reached(seqs, settable)|
  {
    if seqs == [] {
      assert Reached(seqs, settable) == {};
    } else {
      var front := seqs[..|seqs| - 1];
      ActionableCount(front, settable);
      ReachedNext(seqs, settable);
      hide Reached;
      var s, qs := seqs[|seqs| - 1], Actionable(seqs);
      if s.lastValue.Some? {
        assert qs[..|qs| - 1] == Actionable(front) && KeyOf(qs[|qs| - 1]) == (s.schema, s.name);
      } else {
        assert qs == Actionable(front);
      }
    }
  }

  lemma ReachedNext(seqs: seq<SourceSequence>, settable: set<Key>)
    requires seqs != []
    ensures var n := |seqs| - 1;
            |Reached(seqs, settable)| == |Reached(seqs[..n], settable)| +
            if seqs[n].lastValue.Some? && (seqs[n].schema, seqs[n].name) in settable then 1 else 0
  {
    var n: nat := |seqs| - 1;
    var before := Reached(seqs[..n], settable);
    assert n !in before;
    assert Reached(seqs, settable) ==
           if seqs[n].lastValue.Some? && (seqs[n].schema, seqs[n].name) in settable then before + {n} else before;
  }

  lemma {:induction false} SettableSize(settable: set<Key>, qs: seq<Advance>)
    ensures Settable(settable, qs) <= |qs|
  {
    if qs == [] {
    } else {
      SettableSize(settable, qs[..|qs| - 1]);
    }
  }

  // ------------------------------------------------------------------- execution

  datatype SyncError = BadName | ExecutionFailed

  /** What happens to a batch: it runs; it fails, having set some sequences already (what
      `setval` does is not undone by a rollback); or it runs and its count cannot be
      read. */
  datatype BatchFate = Runs | Fails(done: set<Key>) | CountUnreadable

  class Target {
    var values: map<Key, int>
    const settable: set<Key>
    var applied: nat

    constructor (values: map<Key, int>, settable: set<Key>)
      ensures this.values == values && this.settable == settable
    {
      this.values, this.settable := values, settable;
      applied := 0;
    }

    /** Execute one `setval` statement. */
    method ExecuteSetval(sql: string, value: int) returns (ok: bool)
      modifies this`values
      ensures var k := ParseSetval(sql);
              && (ok <==> k.Some? && k.value in settable)
              && values == if ok then old(values)[k.value := value] else old(values)
    {
      var k := ParseSetval(sql);
      ok := k.Some? && k.value in settable;
      if ok {
        values := values[k.value := value];
      }
    }

    /** The sequences a batch of the given fate can set. */
    function Reach(fate: BatchFate): set<Key> {
      if fate.Fails? then settable * fate.done else settable
    }

    /** Execute a batch script. Inside it, a sequence that cannot be set is skipped. */
    method ExecuteBatch(sql: string, fate: BatchFate) returns (ok: bool)
      modifies this
      ensures ok <==> !fate.Fails? && ReadScript(sql).Some?
      ensures ReadScript(sql).Some? ==>
                && values == Synced(old(values), Reach(fate), ReadScript(sql).value)
                && applied == Settable(Reach(fate), ReadScript(sql).value)
      ensures ReadScript(sql).None? ==> values == old(values) && applied == old(applied)
    {
      hide ReadScript, Reach;
      var script := ReadScript(sql);
      if script.None? {
        return false;
      }
      var qs, k := script.value, 0;
      applied := 0;
      while k < |qs|
        invariant k <= |qs|
        invariant values == Synced(old(values), Reach(fate), qs[..k])
        invariant applied == Settable(Reach(fate), qs[..k])
      {
        assert qs[..k + 1][..k] == qs[..k];
        var q := qs[k];
        if KeyOf(q) in Reach(fate) {
          values := values[KeyOf(q) := q.value];
          applied := applied + 1;
        }
        k := k + 1;
      }
      assert qs[..k] == qs;
      return !fate.Fails?;
    }
  }

  /** One statement per sequence, failures skipped and not counted. */
  method ApplyIndividually(target: Target, qs: seq<Advance>) returns (r: Result<nat, SyncError>)
    modifies target
    ensures (forall q :: q in qs ==> Printable(q)) ==>
              && r == Ok(Settable(target.settable, qs))
              && target.values == Synced(old(target.values), target.settable, qs)
    ensures r.Err? <==> exists q :: q in qs && !Printable(q)
  {
    var applied, k := 0, 0;
    while k < |qs|
      invariant k <= |qs| && forall i :: 0 <= i < k ==> Printable(qs[i])
      invariant applied == Settable(target.settable, qs[..k])
      invariant target.values == Synced(old(target.values), target.settable, qs[..k])
    {
      var q := qs[k];
      assert q in qs && qs[..k + 1][..k] == qs[..k];
      SetvalRoundTrip(q.schema, q.name);
      var sql := BuildSetvalSql(q.schema, q.name);
      if sql.None? {
        return Err(BadName);
      }
      var ok := target.ExecuteSetval(sql.value, q.value);
      if ok {
        applied := applied + 1;
      }
      k := k + 1;
    }
    assert qs[..k] == qs;
    return Ok(applied);
  }

  method ApplyBatch(target: Target, qs: seq<Advance>, fate: BatchFate) returns (r: Result<nat, SyncError>)
    modifies target
    ensures (forall q :: q in qs ==> Printable(q)) && target.settable <= old(target.values).Keys ==>
              && (r.Ok? ==> r.value == Settable(target.settable, qs)
                            && target.values == Synced(old(target.values), target.settable, qs))
              && (r.Err? ==> PartlySynced(target.values, old(target.values), target.settable, qs))
    // It runs through unless it is disturbed, or a name contains the tag of the DO block.
    ensures fate.Runs? && (forall q :: q in qs ==> Printable(q) && !Tagged(q)) ==> r.Ok?
    ensures (exists q :: q in qs && Tagged(q)) ==> r.Err? && target.values == old(target.values)
    ensures r.Ok? ==> forall q :: q in qs ==> Printable(q)
  {
    ScriptRoundTrip(qs);
    var sql := BuildBatchSql(qs);
    if sql.None? {
      return Err(BadName);
    }
    var ok := target.ExecuteBatch(sql.value, fate);
    if !ok || fate.CountUnreadable? {
      if ReadScript(sql.value).Some? {
        SyncedIsPartial(old(target.values), target.Reach(fate), qs);
      }
      return Err(ExecutionFailed);
    }
    return Ok(target.applied);
  }

  lemma {:induction false} SyncedIsPartial(before: map<Key, int>, settable: set<Key>, qs: seq<Advance>)
    ensures settable <= before.Keys ==> PartlySynced(Synced(before, settable, qs), before, settable, qs)
  {
    if settable <= before.Keys && qs != [] {
      var front := qs[..|qs| - 1];
      SyncedIsPartial(before, settable, front);
      var m, m' := Synced(before, settable, front), Synced(before, settable, qs);
      forall k | k in m' && m'[k] != before[k]
        ensures k in settable && exists i :: 0 <= i < |qs| && KeyOf(qs[i]) == k
      {
        if k == KeyOf(qs[|qs| - 1]) {
        } else {
          var i :| 0 <= i < |front| && KeyOf(front[i]) == k;
          assert KeyOf(qs[i]) == k;
        }
      }
    }
  }

  method ApplySingle(target: Target, q: Advance) returns (r: Result<nat, SyncError>)
    modifies target
    ensures Printable(q) ==>
              && r == Ok(Settable(target.settable, [q]))
              && target.values == Synced(old(target.values), target.settable, [q])
    ensures r.Err? <==> !Printable(q)
  {
    SetvalRoundTrip(q.schema, q.name);
    assert [q][..0] == [];
    var sql := BuildSetvalSql(q.schema, q.name);
    if sql.None? {
      return Err(BadName);
    }
    var ok := target.ExecuteSetval(sql.value, q.value);
    return Ok(if ok then 1 else 0);
  }

  /** The whole sync. Whatever becomes of the batch, the target ends as if every advanced
      sequence had been set individually, and the count returned is the number of settable
      ones, at most the number collected. */
  method ApplySequences(target: Target, seqs: seq<SourceSequence>, fate: BatchFate)
    returns (r: Result<nat, SyncError>)
    requires target.settable <= target.values.Keys
    modifies target
    ensures (forall q :: q in Actionable(seqs) ==> Printable(q)) ==>
              && r == Ok(Settable(target.settable, Actionable(seqs)))
              && target.values == Synced(old(target.values), target.settable, Actionable(seqs))
              && r.value <= |seqs|
    // A name with NUL is the only error there is.
    ensures r.Err? <==> exists q :: q in Actionable(seqs) && !Printable(q)
    // On the source's sequences themselves: the ones that were advanced and can be set have
    // the source's value and are counted, and every other value is as it was.
    ensures r.Ok?
            && (forall i, j :: 0 <= i < j < |seqs| ==>
                  (seqs[i].schema, seqs[i].name) != (seqs[j].schema, seqs[j].name)) ==>
              && (forall i :: 0 <= i < |seqs| && seqs[i].lastValue.Some?
                              && (seqs[i].schema, seqs[i].name) in target.settable ==>
                    && (seqs[i].schema, seqs[i].name) in target.values
                    && target.values[(seqs[i].schema, seqs[i].name)] == seqs[i].lastValue.value)
              && target.values.Keys == old(target.values).Keys
              && (forall k :: k in target.values
                              && (k !in target.settable
                                  || forall i :: 0 <= i < |seqs| && seqs[i].lastValue.Some? ==>
                                       (seqs[i].schema, seqs[i].name) != k) ==>
                    target.values[k] == old(target.values)[k])
    ensures r.Ok? ==>
              r.value == |set i: nat | i < |seqs| && seqs[i].lastValue.Some?
                                       && (seqs[i].schema, seqs[i].name) in target.settable|
    ensures r.Err? <==> exists i :: 0 <= i < |seqs| && seqs[i].lastValue.Some?
                                    && (NUL in seqs[i].schema || NUL in seqs[i].name)
  {
    hide Actionable, Synced, Settable;
    var qs := Actionable(seqs);
    ActionableSize(seqs, target.settable);
    ActionableCount(seqs, target.settable);
    assert Reached(seqs, target.settable) ==
           set i: nat | i < |seqs| && seqs[i].lastValue.Some? && (seqs[i].schema, seqs[i].name) in target.settable;
    UnprintableIff(seqs);
    ListedMeans(old(target.values), target.settable, seqs);
    if qs == [] {
      NothingSynced(old(target.values), target.settable);
      return Ok(0);
    }
    if |qs| == 1 {
      assert qs == [qs[0]];
      r := ApplySingle(target, qs[0]);
      return;
    }
    ghost var before := target.values;
    r := ApplyBatch(target, qs, fate);
    if r.Err? {
      ghost var now := target.values;
      r := ApplyIndividually(target, qs);
      if forall q :: q in qs ==> Printable(q) {
        Converges(now, before, target.settable, qs);
      }
    }
  }

  lemma NothingSynced(before: map<Key, int>, settable: set<Key>)
    ensures Synced(before, settable, []) == before && Settable(settable, []) == 0
  {
  }

  lemma UnprintableIff(seqs: seq<SourceSequence>)
    ensures (exists q :: q in Actionable(seqs) && !Printable(q)) <==>
            exists i :: 0 <= i < |seqs| && seqs[i].lastValue.Some? && (NUL in seqs[i].schema || NUL in seqs[i].name)
  {
    hide Actionable;
    if q :| q in Actionable(seqs) && !Printable(q) {
      ActionableIff(seqs, q);
      var i :| 0 <= i < |seqs| && seqs[i] == SourceSequence(q.schema, q.name, Some(q.value));
      assert seqs[i].lastValue.Some?;
    }
    if i :| 0 <= i < |seqs| && seqs[i].lastValue.Some? && (NUL in seqs[i].schema || NUL in seqs[i].name) {
      var q := Advance(seqs[i].schema, seqs[i].name, seqs[i].lastValue.value);
      ActionableIff(seqs, q);
      assert q in Actionable(seqs) && !Printable(q);
    }
  }

  /** The specification on the source's sequences themselves. */
  lemma ListedMeans(before: map<Key, int>, settable: set<Key>, seqs: seq<SourceSequence>)
    requires settable <= before.Keys
    ensures DistinctNames(seqs) ==>
              var m := Synced(before, settable, Actionable(seqs));
              && (forall i :: 0 <= i < |seqs| && seqs[i].lastValue.Some?
                              && (seqs[i].schema, seqs[i].name) in settable ==>
                    && (seqs[i].schema, seqs[i].name) in m
                    && m[(seqs[i].schema, seqs[i].name)] == seqs[i].lastValue.value)
              && m.Keys == before.Keys
              && (forall k :: k in m
                              && (k !in settable
                                  || forall i :: 0 <= i < |seqs| && seqs[i].lastValue.Some? ==>
                                       (seqs[i].schema, seqs[i].name) != k) ==>
                    m[k] == before[k])
  {
    hide Actionable, Synced, Settable;
    var qs := Actionable(seqs);
    forall q ensures q in qs <==>
                       exists i :: 0 <= i < |seqs| && seqs[i] == SourceSequence(q.schema, q.name, Some(q.value))
    {
      ActionableIff(seqs, q);
    }
    forall i | 0 <= i < |seqs| && seqs[i].lastValue.Some?
      ensures Advance(seqs[i].schema, seqs[i].name, seqs[i].lastValue.value) in qs
    {
    }
    forall q | q in qs
      ensures exists i :: 0 <= i < |seqs| && seqs[i].lastValue.Some? && (seqs[i].schema, seqs[i].name) == KeyOf(q)
    {
      var i :| 0 <= i < |seqs| && seqs[i] == SourceSequence(q.schema, q.name, Some(q.value));
    }
    if DistinctNames(seqs) {
      ActionableDistinct(seqs);
      SyncedMeans(before, settable, qs);
    }
    SyncedIsPartial(before, settable, qs);
  }
}
