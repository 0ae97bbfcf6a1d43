/** The resume token: which stages are done, how it reaches the disk, and which
    configurations may pick it up again (`pg_dbmigrator/src/resume.rs`). */
module Resume {
  import opened Prelude
  import opened Config

  datatype Stage = SourceVacuum | PrepareSnapshot | Dump | Restore | Analyze

  // ---------------------------------------------------------------- config key

  /** What `config_hash` feeds to the hasher, as a value: two configurations get the
      same key exactly when they get the same hash input. */
  datatype ConfigKey = ConfigKey(
    mode: Mode,
    sourceHost: string, sourcePort: nat, sourceDatabase: string,
    targetHost: string, targetPort: nat, targetDatabase: string,
    schemas: seq<string>,
    tables: seq<string>,
    online: Option<OnlineKey>)

  datatype OnlineKey = OnlineKey(slotName: string, publication: string, subscriptionName: string)

  function KeyOf(c: MigrationConfig): ConfigKey {
    ConfigKey(c.mode,
              c.source.host, c.source.port, c.source.database,
              c.target.host, c.target.port, c.target.database,
              Sort(c.schemas), Sort(c.tables),
              if c.mode.Online?
              then Some(OnlineKey(c.online.slotName, c.online.publication, c.online.subscriptionName))
              else None)
  }

  predicate LexLe(a: string, b: string) {
    a == [] || (b != [] && (a[0] < b[0] || (a[0] == b[0] && LexLe(a[1..], b[1..]))))
  }

  predicate Sorted(s: seq<string>) {
    forall i, j :: 0 <= i < j < |s| ==> LexLe(s[i], s[j])
  }

  function Insert(x: string, s: seq<string>): seq<string> {
    if s == [] then [x]
    else if LexLe(x, s[0]) then [x] + s
    else [s[0]] + Insert(x, s[1..])
  }

  function Sort(s: seq<string>): seq<string> {
    if s == [] then [] else Insert(s[0], Sort(s[1..]))
  }

  lemma {:induction false} LexTotal(a: string, b: string)
    ensures LexLe(a, b) || LexLe(b, a)
  {
    if a == [] || b == [] || a[0] != b[0] {
    } else {
      LexTotal(a[1..], b[1..]);
    }
  }

  lemma {:induction false} LexAntisymmetric(a: string, b: string)
    requires LexLe(a, b) && LexLe(b, a)
    ensures a == b
  {
    if a == [] {
    } else {
      LexAntisymmetric(a[1..], b[1..]);
      assert a == [a[0]] + a[1..] && b == [b[0]] + b[1..];
    }
  }

  lemma {:induction false} LexTransitive(a: string, b: string, c: string)
    requires LexLe(a, b) && LexLe(b, c)
    ensures LexLe(a, c)
  {
    if a == [] || a[0] != b[0] || b[0] != c[0] {
    } else {
      LexTransitive(a[1..], b[1..], c[1..]);
    }
  }

  lemma {:induction false} InsertSorted(x: string, s: seq<string>)
    requires Sorted(s)
    ensures Sorted(Insert(x, s))
    ensures multiset(Insert(x, s)) == multiset(s) + multiset{x}
  {
    if s == [] {
    } else if LexLe(x, s[0]) {
      forall j | 0 <= j < |s| ensures LexLe(x, s[j]) {
        if j > 0 { LexTransitive(x, s[0], s[j]); }
      }
    } else {
      LexTotal(x, s[0]);
      InsertSorted(x, s[1..]);
      assert s == [s[0]] + s[1..];
      var rest := Insert(x, s[1..]);
      forall j | 0 <= j < |rest| ensures LexLe(s[0], rest[j]) {
        assert rest[j] in multiset(rest);
        assert rest[j] == x || rest[j] in s[1..];
      }
    }
  }

  lemma {:induction false} SortSorts(s: seq<string>)
    ensures Sorted(Sort(s)) && multiset(Sort(s)) == multiset(s)
  {
    if s == [] {
    } else {
      SortSorts(s[1..]);
      InsertSorted(s[0], Sort(s[1..]));
      assert s == [s[0]] + s[1..];
    }
  }

  lemma SameHead(a: seq<string>, b: seq<string>)
    requires Sorted(a) && Sorted(b) && a != [] && b != []
    requires multiset(a) == multiset(b)
    ensures a[0] == b[0]
  {
    assert a[0] in multiset(a) && b[0] in multiset(b);
    var i :| 0 <= i < |b| && b[i] == a[0];
    var j :| 0 <= j < |a| && a[j] == b[0];
    if a[0] != b[0] { LexAntisymmetric(a[0], b[0]); }
  }

  lemma {:induction false} SortedUnique(a: seq<string>, b: seq<string>)
    requires Sorted(a) && Sorted(b) && multiset(a) == multiset(b)
    ensures a == b
  {
    if a == [] || b == [] {
      assert |multiset(a)| == |a| && |multiset(b)| == |b|;
    } else {
      SameHead(a, b);
      assert a == [a[0]] + a[1..] && b == [b[0]] + b[1..];
      assert multiset(a[1..]) == multiset(a) - multiset{a[0]} == multiset(b[1..]);
      SortedUnique(a[1..], b[1..]);
    }
  }

  /** Sorting is canonical: the key sees which names were given, never their order. */
  lemma SortCanonical(a: seq<string>, b: seq<string>)
    ensures Sort(a) == Sort(b) <==> multiset(a) == multiset(b)
  {
    SortSorts(a);
    SortSorts(b);
    if multiset(a) == multiset(b) { SortedUnique(Sort(a), Sort(b)); }
  }

  // --------------------------------------------------------------------- token

  datatype TokenData = TokenData(
    key: ConfigKey,
    mode: Mode,
    completed: set<Stage>,
    snapshotName: Option<nat>,
    lastAppliedLsn: Option<nat>,
    pubAutoCreated: bool)
  {
    predicate Has(stage: Stage) { stage in completed }

    function Marked(stage: Stage): TokenData { this.(completed := completed + {stage}) }
  }

  function NewToken(c: MigrationConfig): TokenData {
    TokenData(KeyOf(c), c.mode, {}, None, None, false)
  }

  predicate Compatible(t: TokenData, c: MigrationConfig) {
    t.key == KeyOf(c) && t.mode == c.mode
  }

  /** Everything a resumed run may not change. */
  predicate SameIdentity(a: MigrationConfig, b: MigrationConfig) {
    && a.mode == b.mode
    && a.source.host == b.source.host && a.source.port == b.source.port
    && a.source.database == b.source.database
    && a.target.host == b.target.host && a.target.port == b.target.port
    && a.target.database == b.target.database
    && multiset(a.schemas) == multiset(b.schemas)
    && multiset(a.tables) == multiset(b.tables)
    && (a.mode.Online? ==>
          && a.online.slotName == b.online.slotName
          && a.online.publication == b.online.publication
          && a.online.subscriptionName == b.online.subscriptionName)
  }

  /** A token written under `a` (whatever has been marked on it since) is accepted
      under `b` exactly when the two name the same endpoints, include lists and
      replication objects. Nothing else in the configuration is looked at: see
      CompatibleIgnores. */
  lemma CompatibleIff(a: MigrationConfig, b: MigrationConfig, t: TokenData)
    requires t.key == NewToken(a).key && t.mode == NewToken(a).mode
    ensures Compatible(t, b) <==> SameIdentity(a, b)
  {
    SortCanonical(a.schemas, b.schemas);
    SortCanonical(a.tables, b.tables);
  }

  /** The dump scope, the exclusion lists, `--drop-target-first` and the split
      threshold are outside the hash: a token of a split run is accepted by a resumed
      run without the split, whose archive then lacks the split tables' rows. */
  lemma CompatibleIgnores(a: MigrationConfig, scope: DumpScope, drop: bool, excl: seq<string>, split: Option<nat>)
    ensures var b := a.(scope := scope, dropTargetFirst := drop, excludeTables := excl,
                        excludeSchemas := excl, splitTablesLargerThan := split, resume := true);
            Compatible(NewToken(a), b)
            && (split.None? && Valid(a) && a.dumpPath.Some? ==> Valid(b))
  {
  }

  /** A value held by the running process, updated in place as stages finish. */
  class ResumeToken {
    var data: TokenData

    constructor (c: MigrationConfig)
      ensures data == NewToken(c)
    {
      data := NewToken(c);
    }

    method Mark(stage: Stage)
      modifies this
      ensures data.Has(stage)
      ensures forall st :: st != stage ==> (data.Has(st) <==> old(data).Has(st))
      ensures data == old(data).Marked(stage)
    {
      data := data.(completed := data.completed + {stage});
    }
  }

  // ---------------------------------------------------------------------- disk

  /** A file is missing, cut short by a crash, or holds one whole token. */
  datatype FileContent = Missing | Torn | Whole(token: TokenData)

  datatype LoadError = Unreadable | NotJson | OtherVersion

  /** The version of the token's layout that this program writes and accepts. */
  const SCHEMA_VERSION: nat := 1

  /** How far one save gets. The write truncates the sibling file first, so a failure
      or a crash inside it leaves that file torn. */
  datatype SaveFault = NoFault | FailBeforeWrite | FailInWrite | FailBeforeRename

  class TokenFile {
    var file: FileContent
    var tmp: FileContent
    /** The layout version of a whole token in the file; another program may have left it. */
    var version: nat

    constructor (file: FileContent, version: nat)
      ensures this.file == file && this.version == version && tmp.Missing?
    {
      this.file, this.version, tmp := file, version, Missing;
    }

    /** Write the sibling, then rename it over the token. Whatever the fault, the token
        file is afterwards either untouched or the whole new token. */
    method Save(t: TokenData, fault: SaveFault) returns (ok: bool)
      modifies this
      ensures ok <==> fault.NoFault?
      ensures file == if fault.NoFault? then Whole(t) else old(file)
      ensures version == if fault.NoFault? then SCHEMA_VERSION else old(version)
      ensures tmp == match fault
                     case NoFault => Missing
                     case FailBeforeWrite => old(tmp)
                     case FailInWrite => Torn
                     case FailBeforeRename => Whole(t)
      ensures old(file) != Torn ==> file != Torn
    {
      if fault.FailBeforeWrite? { return false; }
      tmp := Torn;
      if fault.FailInWrite? { return false; }
      tmp := Whole(t);
      if fault.FailBeforeRename? { return false; }
      file, version := tmp, SCHEMA_VERSION;
      tmp := Missing;
      return true;
    }

    /** A missing file is no error; one that cannot be read, is not a token, or has another
        layout is. */
    method Load(readable: bool) returns (r: Result<Option<TokenData>, LoadError>)
      ensures r == Ok(None) <==> file.Missing?
      ensures forall t :: r == Ok(Some(t)) <==> file == Whole(t) && readable && version == SCHEMA_VERSION
      ensures r == Err(Unreadable) <==> !file.Missing? && !readable
      ensures r == Err(NotJson) <==> file.Torn? && readable
    {
      if file.Missing? { return Ok(None); }
      if !readable { return Err(Unreadable); }
      if file.Torn? { return Err(NotJson); }
      if version != SCHEMA_VERSION { return Err(OtherVersion); }
      return Ok(Some(file.token));
    }

    /** Any number of saves, each with any fault: the file never becomes torn, and what
        a later load returns is the token of the last save that got through, or what
        was there before if none did. */
    method SaveAll(ts: seq<(TokenData, SaveFault)>)
      requires file != Torn
      modifies this
      ensures file == LastSaved(old(file), ts)
      ensures file != Torn
    {
      var i := 0;
      while i < |ts|
        invariant 0 <= i <= |ts|
        invariant file == LastSaved(old(file), ts[..i]) && file != Torn
      {
        var _ := Save(ts[i].0, ts[i].1);
        assert ts[..i + 1][..i] == ts[..i];
        i := i + 1;
      }
      assert ts[..i] == ts;
    }
  }

  function LastSaved(before: FileContent, ts: seq<(TokenData, SaveFault)>): FileContent {
    if ts == [] then before
    else if ts[|ts| - 1].1.NoFault? then Whole(ts[|ts| - 1].0)
    else LastSaved(before, ts[..|ts| - 1])
  }
}
