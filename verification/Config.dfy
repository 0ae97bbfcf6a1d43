/** The configuration fields the migration logic branches on, and the cross-field
    checks that run before anything else does (`pg_dbmigrator/src/config.rs`). */
module Config {
  import opened Prelude

  datatype Mode = Offline | Online | VerifyOnly

  datatype DumpScope = All | SchemaOnly | DataOnly

  datatype VerifyMode = Off | Warn | Strict

  datatype Endpoint = Endpoint(connectionString: string, host: string, port: nat, database: string)

  /** Intervals are in milliseconds, the lag threshold in WAL bytes. */
  datatype CutoverConfig = CutoverConfig(pollInterval: nat, fastPollInterval: nat, lagThreshold: nat)

  datatype OnlineOptions = OnlineOptions(
    slotName: string,
    publication: string,
    subscriptionName: string,
    protocolVersion: nat,
    dropSubscriptionOnCutover: bool,
    syncSequencesOnCutover: bool,
    autoCreatePublication: bool,
    dropSlotOnCutover: bool,
    cutover: CutoverConfig)

  datatype MigrationConfig = MigrationConfig(
    mode: Mode,
    source: Endpoint,
    target: Endpoint,
    scope: DumpScope,
    dropTargetFirst: bool,
    jobs: nat,
    schemas: seq<string>,
    tables: seq<string>,
    excludeSchemas: seq<string>,
    excludeTables: seq<string>,
    online: OnlineOptions,
    splitSections: bool,
    splitTablesLargerThan: Option<nat>,
    splitMaxParts: nat,
    skipAnalyze: bool,
    skipSourceVacuum: bool,
    verify: VerifyMode,
    resume: bool,
    dumpPath: Option<string>)

  datatype ConfigError =
    | EmptySource | EmptyTarget | ZeroJobs | ResumeWithoutDumpPath
    | EmptySlotName | EmptyPublication | BadProtocolVersion | EmptySubscriptionName
    | ZeroPollInterval | ZeroFastPollInterval
    | ZeroSplitThreshold | ZeroSplitParts | SplitWithSchemaOnly | SplitWithFilters
    | SplitWithResume | SplitWithoutSections

  function ValidateOnline(o: OnlineOptions): Option<ConfigError> {
    if o.slotName == "" then Some(EmptySlotName)
    else if o.publication == "" then Some(EmptyPublication)
    else if o.protocolVersion == 0 || o.protocolVersion > 4 then Some(BadProtocolVersion)
    else if o.subscriptionName == "" then Some(EmptySubscriptionName)
    else if o.cutover.pollInterval == 0 then Some(ZeroPollInterval)
    else if o.cutover.fastPollInterval == 0 then Some(ZeroFastPollInterval)
    else None
  }

  function ValidateSplitCopy(c: MigrationConfig): Option<ConfigError> {
    if c.splitTablesLargerThan.None? then None
    else if c.splitTablesLargerThan.value == 0 then Some(ZeroSplitThreshold)
    else if c.splitMaxParts == 0 then Some(ZeroSplitParts)
    else if c.scope.SchemaOnly? then Some(SplitWithSchemaOnly)
    else if c.schemas != [] || c.tables != [] || c.excludeSchemas != [] || c.excludeTables != [] then
      Some(SplitWithFilters)
    else if c.resume then Some(SplitWithResume)
    else if !c.splitSections then Some(SplitWithoutSections)
    else None
  }

  /** The first failing check, in the order the checks are made. */
  function Validate(c: MigrationConfig): Option<ConfigError> {
    if c.source.connectionString == "" then Some(EmptySource)
    else if c.target.connectionString == "" then Some(EmptyTarget)
    else if c.jobs == 0 then Some(ZeroJobs)
    else if c.resume && c.dumpPath.None? then Some(ResumeWithoutDumpPath)
    else if c.mode.Online? && ValidateOnline(c.online).Some? then ValidateOnline(c.online)
    else ValidateSplitCopy(c)
  }

  predicate Valid(c: MigrationConfig) {
    Validate(c).None?
  }

  /** Which configurations are valid. */
  lemma ValidIff(c: MigrationConfig)
    ensures Valid(c) <==>
            && c.source.connectionString != "" && c.target.connectionString != "" && c.jobs >= 1
            && (c.resume ==> c.dumpPath.Some?)
            && (c.mode.Online? ==>
                  && c.online.slotName != "" && c.online.publication != "" && c.online.subscriptionName != ""
                  && 1 <= c.online.protocolVersion <= 4
                  && c.online.cutover.pollInterval > 0 && c.online.cutover.fastPollInterval > 0)
            && (c.splitTablesLargerThan.Some? ==>
                  && c.splitTablesLargerThan.value > 0 && c.splitMaxParts >= 1
                  && !c.scope.SchemaOnly? && !c.resume && c.splitSections
                  && c.schemas == c.tables == c.excludeSchemas == c.excludeTables == [])
  {
  }

  /** What is wrong with a configuration that is refused for a given reason. */
  predicate Blamed(c: MigrationConfig, e: ConfigError) {
    match e
    case EmptySource => c.source.connectionString == ""
    case EmptyTarget => c.target.connectionString == ""
    case ZeroJobs => c.jobs == 0
    case ResumeWithoutDumpPath => c.resume && c.dumpPath.None?
    case EmptySlotName => c.mode.Online? && c.online.slotName == ""
    case EmptyPublication => c.mode.Online? && c.online.publication == ""
    case BadProtocolVersion => c.mode.Online? && (c.online.protocolVersion < 1 || 4 < c.online.protocolVersion)
    case EmptySubscriptionName => c.mode.Online? && c.online.subscriptionName == ""
    case ZeroPollInterval => c.mode.Online? && c.online.cutover.pollInterval == 0
    case ZeroFastPollInterval => c.mode.Online? && c.online.cutover.fastPollInterval == 0
    case ZeroSplitThreshold => c.splitTablesLargerThan == Some(0)
    case ZeroSplitParts => c.splitTablesLargerThan.Some? && c.splitMaxParts == 0
    case SplitWithSchemaOnly => c.splitTablesLargerThan.Some? && c.scope.SchemaOnly?
    case SplitWithFilters =>
      && c.splitTablesLargerThan.Some?
      && (c.schemas != [] || c.tables != [] || c.excludeSchemas != [] || c.excludeTables != [])
    case SplitWithResume => c.splitTablesLargerThan.Some? && c.resume
    case SplitWithoutSections => c.splitTablesLargerThan.Some? && !c.splitSections
  }

  /** A refusal names something that is wrong. */
  lemma RefusalIsTrue(c: MigrationConfig)
    requires !Valid(c)
    ensures Blamed(c, Validate(c).value)
  {
  }
}
