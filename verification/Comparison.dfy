/** Suite comparison: distribution summaries, failure-mode changes, compatibility and the gate. */
module Comparison {
  import opened Wrappers
  import opened Statistics
  import opened Collections

  datatype Status = PASS | FAIL | ERROR
  datatype Severity = INFO | MEDIUM | HIGH | CRITICAL
  datatype Terminal =
    | COMPLETED | TIMEOUT | TOOL_ERROR | WORKER_ERROR | INFRASTRUCTURE_ERROR | CANCELLED | BUDGET_EXCEEDED | ADAPTER_ERROR
    | PROVIDER_ERROR | SCENARIO_ERROR | TOOL_TIMEOUT | TOOL_VALIDATION_ERROR | TOOL_EXECUTION_ERROR | AUTHORIZATION_REJECTION
    | INJECTION_ERROR | INJECTION_BUDGET_EXCEEDED

  datatype Verdict = Verdict(
    id: string, assertionId: string, policyName: Option<string>, status: Status, severity: Severity,
    required: bool, evaluatorVersion: string)
  {
    predicate Tolerated() {
      || status == PASS
      || (status == FAIL && severity in {MEDIUM, INFO})
      || (status == ERROR && !required)
    }
  }

  /** One run's evidence; `digest` is its outcome signature, `environment` its canonical JSON. */
  datatype RunRecord = RunRecord(
    id: string, scenarioId: string, adapter: string, worldVersion: Option<string>, scenarioHash: Option<string>,
    environment: string, tags: seq<string>, verdicts: seq<Verdict>, incompleteEvidence: bool, terminal: Terminal,
    digest: string, durationMs: nat, modelTokens: Option<nat>, costMinor: Option<nat>)
  {
    predicate Passed() {
      !incompleteEvidence && verdicts != [] && forall v :: v in verdicts ==> v.Tolerated()
    }
  }

  datatype Suite = Suite(world: string, worker: string, scenarios: seq<string>, runs: seq<RunRecord>)

  /** Truthiness of an optional text. */
  predicate HasText(text: Option<string>) {
    text.Some? && text.value != ""
  }

  function BeforeDot(version: string): string {
    if version == "" || version[0] == '.' then "" else [version[0]] + BeforeDot(version[1..])
  }

  function Major(version: Option<string>): Option<string> {
    if HasText(version) then Some(BeforeDot(version.value)) else None
  }

  // ---------- Configuration ----------

  type rate = x: real | 0.0 <= x <= 1.0
  type excess = x: real | 0.0 <= x
  type positive = x: int | 0 < x witness 1

  datatype Metric = LATENCY | TOKENS | COST

  /** The fields an override may replace. */
  datatype Thresholds = Thresholds(
    criticalAllowed: nat, highAllowed: nat, minimumPassRate: rate, maximumPassRateDecrease: rate,
    maximumFlakinessIncrease: excess, maximumInfrastructureRate: rate, maximumP50Increase: excess,
    maximumP95Increase: excess, maximumTokenIncrease: excess, maximumCostIncrease: excess,
    minimumRepetitions: positive, lowSampleFails: bool, allowHashMismatch: bool)

  datatype Patch = Patch(
    criticalAllowed: Option<nat>, highAllowed: Option<nat>, minimumPassRate: Option<rate>, maximumPassRateDecrease: Option<rate>,
    maximumFlakinessIncrease: Option<excess>, maximumInfrastructureRate: Option<rate>, maximumP50Increase: Option<excess>,
    maximumP95Increase: Option<excess>, maximumTokenIncrease: Option<excess>, maximumCostIncrease: Option<excess>,
    minimumRepetitions: Option<positive>, lowSampleFails: Option<bool>, allowHashMismatch: Option<bool>)

  datatype Config = Config(
    own: Thresholds, tagOverrides: map<string, Patch>, scenarioOverrides: map<string, Patch>, excluded: set<Metric>)

  function Or<T>(change: Option<T>, current: T): T {
    if change.Some? then change.value else current
  }

  function Patched(t: Thresholds, p: Patch): Thresholds {
    Thresholds(
      Or(p.criticalAllowed, t.criticalAllowed), Or(p.highAllowed, t.highAllowed), Or(p.minimumPassRate, t.minimumPassRate),
      Or(p.maximumPassRateDecrease, t.maximumPassRateDecrease), Or(p.maximumFlakinessIncrease, t.maximumFlakinessIncrease),
      Or(p.maximumInfrastructureRate, t.maximumInfrastructureRate), Or(p.maximumP50Increase, t.maximumP50Increase),
      Or(p.maximumP95Increase, t.maximumP95Increase), Or(p.maximumTokenIncrease, t.maximumTokenIncrease),
      Or(p.maximumCostIncrease, t.maximumCostIncrease), Or(p.minimumRepetitions, t.minimumRepetitions),
      Or(p.lowSampleFails, t.lowSampleFails), Or(p.allowHashMismatch, t.allowHashMismatch))
  }

  function Override(t: Thresholds, patches: map<string, Patch>, name: string): Thresholds {
    if name in patches then Patched(t, patches[name]) else t
  }

  function OverrideTags(t: Thresholds, patches: map<string, Patch>, tags: seq<string>): Thresholds {
    if tags == [] then t else Override(OverrideTags(t, patches, tags[..|tags| - 1]), patches, tags[|tags| - 1])
  }

  /** Tag overrides in sorted tag order, then the scenario's own. */
  function EffectiveConfig(config: Config, scenarioId: string, tags: seq<string>): Thresholds {
    Override(OverrideTags(config.own, config.tagOverrides, SortedUnique(tags)), config.scenarioOverrides, scenarioId)
  }

  // ---------- Summaries ----------

  datatype Summary = Summary(
    completed: nat, passed: int, failed: int, errors: int, passRate: real, variability: real, lowSample: bool,
    outcomes: multiset<string>, severities: multiset<Severity>, terminals: multiset<Terminal>, p50: real, p95: real,
    tokens: Option<int>, cost: Option<int>, infrastructureRate: real)

  function PassedOne(r: RunRecord): int { if r.Passed() then 1 else 0 }
  function ErrorOne(r: RunRecord): int { if r.incompleteEvidence then 1 else 0 }
  function InfrastructureOne(r: RunRecord): int { if r.terminal == INFRASTRUCTURE_ERROR then 1 else 0 }
  function TokensOf(r: RunRecord): int { Or(r.modelTokens, 0) }
  function CostOf(r: RunRecord): int { Or(r.costMinor, 0) }
  function DigestOf(r: RunRecord): string { r.digest }
  function TerminalOf(r: RunRecord): Terminal { r.terminal }
  function DurationOf(r: RunRecord): int { r.durationMs }
  function SeverityBag(v: Verdict): multiset<Severity> { if v.status == PASS then multiset{} else multiset{v.severity} }
  function SeveritiesOf(r: RunRecord): multiset<Severity> { BagBy(SeverityBag, r.verdicts) }

  function Share(part: int, total: nat): real {
    if total == 0 then 0.0 else part as real / total as real
  }

  /** The largest count among the named members of a counter. */
  function Peak(names: seq<string>, counter: multiset<string>): nat {
    if names == [] then 0
    else
      var rest, last := Peak(names[..|names| - 1], counter), counter[names[|names| - 1]];
      if last > rest then last else rest
  }

  function Variability(digests: seq<string>): real {
    if digests == [] then 0.0 else 1.0 - Share(Peak(digests, multiset(digests)), |digests|)
  }

  function Summarize(runs: seq<RunRecord>, minimum: int): Summary {
    var passed, errors := SumBy(PassedOne, runs), SumBy(ErrorOne, runs);
    var digests, durations := MapBy(DigestOf, runs), MapBy(DurationOf, runs);
    Summary(
      |runs|, passed, |runs| - passed - errors, errors, Share(passed, |runs|), Variability(digests), |runs| < minimum,
      multiset(digests), BagBy(SeveritiesOf, runs), multiset(MapBy(TerminalOf, runs)),
      Percentile(durations, 0.5), Percentile(durations, 0.95),
      if exists r :: r in runs && r.modelTokens.Some? then Some(SumBy(TokensOf, runs)) else None,
      if exists r :: r in runs && r.costMinor.Some? then Some(SumBy(CostOf, runs)) else None,
      Share(SumBy(InfrastructureOne, runs), |runs|))
  }

  // ---------- Failure modes ----------

  function KeyOf(v: Verdict): string {
    v.assertionId + "|" + Or(v.policyName, "")
  }

  function FailedKeys(verdicts: seq<Verdict>): seq<string> {
    if verdicts == [] then []
    else
      var last := verdicts[|verdicts| - 1];
      FailedKeys(verdicts[..|verdicts| - 1]) + (if last.status != PASS then [KeyOf(last)] else [])
  }

  /** A dictionary by failure identity: a later verdict with the same identity replaces an earlier. */
  function Failed(verdicts: seq<Verdict>): map<string, Verdict> {
    if verdicts == [] then map[]
    else
      var rest, last := Failed(verdicts[..|verdicts| - 1]), verdicts[|verdicts| - 1];
      if last.status != PASS then rest[KeyOf(last) := last] else rest
  }

  predicate Fails(r: RunRecord, identity: string) {
    identity in Failed(r.verdicts)
  }

  /** `sorted(set(baseline_modes) | set(candidate_modes))` before sorting. */
  function ModeKeys(runs: seq<RunRecord>): seq<string> {
    if runs == [] then [] else ModeKeys(runs[..|runs| - 1]) + FailedKeys(runs[|runs| - 1].verdicts)
  }

  function Identities(baseline: seq<RunRecord>, candidate: seq<RunRecord>): seq<string> {
    SortedUnique(ModeKeys(baseline) + ModeKeys(candidate))
  }

  function Examples(runs: seq<RunRecord>, identity: string): (r: seq<RunRecord>)
    ensures |r| <= |runs|
    ensures forall e :: e in r ==> Fails(e, identity)
  {
    if runs == [] then []
    else
      var last := runs[|runs| - 1];
      Examples(runs[..|runs| - 1], identity) + (if Fails(last, identity) then [last] else [])
  }

  function Count(runs: seq<RunRecord>, identity: string): nat {
    |Examples(runs, identity)|
  }

  function ModeVerdicts(examples: seq<RunRecord>, identity: string): (r: seq<Verdict>)
    requires forall e :: e in examples ==> Fails(e, identity)
    ensures |r| == |examples|
  {
    if examples == [] then []
    else
      var last := examples[|examples| - 1];
      assert Fails(last, identity);
      ModeVerdicts(examples[..|examples| - 1], identity) + [Failed(last.verdicts)[identity]]
  }

  function Rank(s: Severity): nat {
    match s
    case INFO => 0
    case MEDIUM => 1
    case HIGH => 2
    case CRITICAL => 3
  }

  function Worst(verdicts: seq<Verdict>): Option<Severity> {
    if verdicts == [] then None
    else
      var rest, last := Worst(verdicts[..|verdicts| - 1]), verdicts[|verdicts| - 1].severity;
      if rest.Some? && Rank(rest.value) >= Rank(last) then rest else Some(last)
  }

  datatype Kind = POLICY | ASSERTION
  datatype Change = NEW | REMOVED | RATE_CHANGED

  datatype FailureDelta = FailureDelta(
    kind: Kind, identity: string, change: Change, severity: Option<Severity>, baselineRate: real, candidateRate: real)

  /** The verdicts behind a failure mode: the candidate's, or the baseline's where it has none. */
  function Evidence(baseline: seq<RunRecord>, candidate: seq<RunRecord>, identity: string): (r: seq<Verdict>)
    ensures Count(baseline, identity) + Count(candidate, identity) > 0 ==> r != []
  {
    if Examples(candidate, identity) != [] then ModeVerdicts(Examples(candidate, identity), identity)
    else ModeVerdicts(Examples(baseline, identity), identity)
  }

  predicate NamesPolicy(verdicts: seq<Verdict>) {
    exists v :: v in verdicts && HasText(v.policyName)
  }

  function ChangeOf(before: nat, after: nat): Change {
    if before == 0 then NEW else if after == 0 then REMOVED else RATE_CHANGED
  }

  function DeltaOf(baseline: seq<RunRecord>, candidate: seq<RunRecord>, identity: string): FailureDelta {
    var before, after := Count(baseline, identity), Count(candidate, identity);
    var verdicts := Evidence(baseline, candidate, identity);
    FailureDelta(if NamesPolicy(verdicts) then POLICY else ASSERTION, identity, ChangeOf(before, after), Worst(verdicts),
                 Share(before, |baseline|), Share(after, |candidate|))
  }

  function DeltasOver(baseline: seq<RunRecord>, candidate: seq<RunRecord>, identities: seq<string>): seq<FailureDelta> {
    if identities == [] then []
    else
      var rest, last := DeltasOver(baseline, candidate, identities[..|identities| - 1]), identities[|identities| - 1];
      if Count(baseline, last) == Count(candidate, last) then rest else rest + [DeltaOf(baseline, candidate, last)]
  }

  function FailureDeltas(baseline: seq<RunRecord>, candidate: seq<RunRecord>): seq<FailureDelta> {
    DeltasOver(baseline, candidate, Identities(baseline, candidate))
  }

  // ---------- Compatibility ----------

  datatype Level = COMPATIBLE | WARNING | INCOMPATIBLE
  datatype CompatReason =
    | EvidenceIncomplete | WorldMajorsDiffer | HashesDiffer | AdaptersDiffer | WorldsDiffer | PolicyMajorsDiffer | PolicyMinorsDiffer
    | EvaluatorMajorsDiffer | EvaluatorMinorsDiffer | WorkersDiffer | EnvironmentsDiffer | ScenarioMissing

  function WorldMajors(runs: seq<RunRecord>): set<Option<string>> { set r | r in runs :: Major(r.worldVersion) }
  function Hashes(runs: seq<RunRecord>): set<string> { set r | r in runs && HasText(r.scenarioHash) :: r.scenarioHash.value }
  function Adapters(runs: seq<RunRecord>): set<string> { set r | r in runs :: r.adapter }

  predicate Complete(runs: seq<RunRecord>) {
    forall r :: r in runs ==> !r.incompleteEvidence
  }

  // ---------- Classification ----------

  datatype Classification =
    | NEW_FAILURE | FIXED | UNCHANGED_PASS | UNCHANGED_FAILURE | FAILURE_MODE_CHANGED | FLAKINESS_INCREASED | FLAKINESS_DECREASED
    | PERFORMANCE_REGRESSED | COST_REGRESSED | INFRASTRUCTURE_REGRESSED | INSUFFICIENT_EVIDENCE | NOT_COMPARABLE

  const PRIMARY_ORDER: seq<Classification> :=
    [NOT_COMPARABLE, NEW_FAILURE, INFRASTRUCTURE_REGRESSED, FAILURE_MODE_CHANGED, FLAKINESS_INCREASED, PERFORMANCE_REGRESSED,
     COST_REGRESSED, FIXED, FLAKINESS_DECREASED, INSUFFICIENT_EVIDENCE, UNCHANGED_FAILURE, UNCHANGED_PASS]

  function If(condition: bool, finding: Classification): seq<Classification> {
    if condition then [finding] else []
  }

  function OutcomeFinding(b: Summary, c: Summary, changed: bool): seq<Classification> {
    if b.passRate == 1.0 && c.passRate < 1.0 then [NEW_FAILURE]
    else if b.passRate < 1.0 && c.passRate == 1.0 then [FIXED]
    else if b.passRate == c.passRate == 1.0 then [UNCHANGED_PASS]
    else if b.passRate == c.passRate then [UNCHANGED_FAILURE]
    else If(changed, FAILURE_MODE_CHANGED)
  }

  function LevelFinding(level: Level, lowSample: bool): seq<Classification> {
    if level == INCOMPATIBLE then [NOT_COMPARABLE] else If(lowSample, INSUFFICIENT_EVIDENCE)
  }

  function FlakeFinding(flake: real, bound: excess): seq<Classification> {
    if flake > bound then [FLAKINESS_INCREASED] else If(flake < 0.0 - bound, FLAKINESS_DECREASED)
  }

  function OperationalFindings(b: Summary, c: Summary, t: Thresholds): seq<Classification> {
    If(c.p95 > b.p95 * (1.0 + t.maximumP95Increase), PERFORMANCE_REGRESSED)
    + If(Or(c.cost, 0) as real > Or(b.cost, 0) as real * (1.0 + t.maximumCostIncrease) && Or(c.cost, 0) > 0, COST_REGRESSED)
    + If(c.infrastructureRate > MaxReal(b.infrastructureRate, t.maximumInfrastructureRate), INFRASTRUCTURE_REGRESSED)
  }

  function Findings(b: Summary, c: Summary, level: Level, changed: bool, t: Thresholds): seq<Classification> {
    LevelFinding(level, c.lowSample || b.lowSample)
    + OutcomeFinding(b, c, changed)
    + FlakeFinding(c.variability - b.variability, t.maximumFlakinessIncrease)
    + OperationalFindings(b, c, t)
  }

  /** `next` over the order without a default: `None` is the `StopIteration` it raises. */
  function Primary(order: seq<Classification>, findings: seq<Classification>): (p: Option<Classification>)
    ensures p.None? <==> forall x :: x in order ==> x !in findings
    ensures p.Some? ==> p.value in findings && p.value in order
  {
    if order == [] then None else if order[0] in findings then Some(order[0]) else Primary(order[1..], findings)
  }

  // ---------- Suites ----------

  datatype ScenarioComparison = ScenarioComparison(
    scenarioId: string, level: Level, reasons: seq<CompatReason>, primary: Classification, findings: seq<Classification>,
    baseline: Summary, candidate: Summary, passRateDelta: real, flakinessDelta: real, deltas: seq<FailureDelta>, tags: seq<string>)

  function RunsOf(runs: seq<RunRecord>, scenarioId: string): (r: seq<RunRecord>)
    ensures forall x :: x in r <==> x in runs && x.scenarioId == scenarioId
  {
    if runs == [] then []
    else
      var last := runs[|runs| - 1];
      RunsOf(runs[..|runs| - 1], scenarioId) + (if last.scenarioId == scenarioId then [last] else [])
  }

  function TagsOf(runs: seq<RunRecord>): seq<string> {
    if runs == [] then [] else TagsOf(runs[..|runs| - 1]) + runs[|runs| - 1].tags
  }

  function PolicyVersions(runs: seq<RunRecord>): set<string> {
    set r, v | r in runs && v in r.verdicts && HasText(v.policyName) :: v.evaluatorVersion
  }

  function EvaluatorVersions(runs: seq<RunRecord>): set<string> {
    set r, v | r in runs && v in r.verdicts :: v.evaluatorVersion
  }

  function Majors(versions: set<string>): set<Option<string>> { set v | v in versions :: Major(Some(v)) }
  function Environments(runs: seq<RunRecord>): set<string> { set r | r in runs :: r.environment }

  function Note(condition: bool, reason: CompatReason): seq<CompatReason> {
    if condition then [reason] else []
  }

  function VersionReason(versions: set<string>, major: CompatReason, minor: CompatReason): seq<CompatReason> {
    if |Majors(versions)| > 1 then [major] else Note(|versions| > 1, minor)
  }

  function GlobalReasons(b: Suite, c: Suite): seq<CompatReason> {
    Note(b.world != c.world, WorldsDiffer)
    + VersionReason(PolicyVersions(b.runs + c.runs), PolicyMajorsDiffer, PolicyMinorsDiffer)
    + VersionReason(EvaluatorVersions(b.runs + c.runs), EvaluatorMajorsDiffer, EvaluatorMinorsDiffer)
    + Note(b.worker != c.worker, WorkersDiffer)
    + Note(|Environments(b.runs + c.runs)| > 1, EnvironmentsDiffer)
  }

  predicate GloballyIncompatible(b: Suite, c: Suite) {
    || b.world != c.world
    || |Majors(PolicyVersions(b.runs + c.runs))| > 1
    || |Majors(EvaluatorVersions(b.runs + c.runs))| > 1
  }

  function ScenarioIds(b: Suite, c: Suite): seq<string> {
    SortedUnique(b.scenarios + c.scenarios)
  }

  // ---------- The gate ----------

  datatype Reason =
    | IncompatibleArtifacts | CriticalExceeds(count: int, allowed: nat) | HighExceeds(count: int, allowed: nat)
    | PassRateBelow(scenario: string) | PassRateDecreased(scenario: string) | InfrastructureRateAbove(scenario: string)
    | VariabilityIncreased(scenario: string) | P50Increased(scenario: string) | P95Increased(scenario: string)
    | TokensIncreased(scenario: string) | CostIncreased(scenario: string) | LowSample(scenario: string)

  datatype GateVerdict = GateVerdict(passed: bool, reasons: seq<Reason>, warnings: seq<Reason>, newCritical: int, newHigh: int)
  datatype Report = Report(level: Level, reasons: seq<CompatReason>, scenarios: seq<ScenarioComparison>, verdict: GateVerdict)

  /** Python's `round`: to the nearest integer, ties to the even one. */
  function Round(x: real): int {
    var low, rest := x.Floor, x - x.Floor as real;
    if rest < 0.5 || (rest == 0.5 && low % 2 == 0) then low else low + 1
  }

  function Occurrences(delta: FailureDelta, completed: nat, severity: Severity): int {
    if delta.candidateRate > delta.baselineRate && delta.severity == Some(severity) then Round(delta.candidateRate * completed as real)
    else 0
  }

  function OccurrencesIn(deltas: seq<FailureDelta>, completed: nat, severity: Severity, kept: set<Change>): int {
    if deltas == [] then 0
    else
      var last := deltas[|deltas| - 1];
      OccurrencesIn(deltas[..|deltas| - 1], completed, severity, kept)
      + (if last.change in kept then Occurrences(last, completed, severity) else 0)
  }

  function Occurring(items: seq<ScenarioComparison>, severity: Severity, kept: set<Change>): int {
    if items == [] then 0
    else
      var last := items[|items| - 1];
      Occurring(items[..|items| - 1], severity, kept) + OccurrencesIn(last.deltas, last.candidate.completed, severity, kept)
  }

  function NewCritical(items: seq<ScenarioComparison>): int { Occurring(items, CRITICAL, {NEW, RATE_CHANGED}) }
  function NewHigh(items: seq<ScenarioComparison>): int { Occurring(items, HIGH, {NEW, REMOVED, RATE_CHANGED}) }

  predicate Exceeds(after: real, before: real, increase: excess) {
    after > before * (1.0 + increase)
  }

  function Say(condition: bool, reason: Reason): seq<Reason> {
    if condition then [reason] else []
  }

  function LowSampleAt(item: ScenarioComparison): bool {
    item.baseline.lowSample || item.candidate.lowSample
  }

  function RateReasons(item: ScenarioComparison, t: Thresholds): seq<Reason> {
    var c, id := item.candidate, item.scenarioId;
    Say(c.passRate < t.minimumPassRate, PassRateBelow(id))
    + Say(item.passRateDelta < 0.0 - t.maximumPassRateDecrease, PassRateDecreased(id))
    + Say(c.infrastructureRate > t.maximumInfrastructureRate, InfrastructureRateAbove(id))
  }

  function LatencyReasons(item: ScenarioComparison, t: Thresholds): seq<Reason> {
    var b, c, id := item.baseline, item.candidate, item.scenarioId;
    Say(Exceeds(c.p50, b.p50, t.maximumP50Increase), P50Increased(id))
    + Say(Exceeds(c.p95, b.p95, t.maximumP95Increase), P95Increased(id))
  }

  function TokenReasons(item: ScenarioComparison, t: Thresholds): seq<Reason> {
    Say(Exceeds(Or(item.candidate.tokens, 0) as real, Or(item.baseline.tokens, 0) as real, t.maximumTokenIncrease), TokensIncreased(item.scenarioId))
  }

  function CostReasons(item: ScenarioComparison, t: Thresholds): seq<Reason> {
    Say(Exceeds(Or(item.candidate.cost, 0) as real, Or(item.baseline.cost, 0) as real, t.maximumCostIncrease), CostIncreased(item.scenarioId))
  }

  function ReasonsAt(item: ScenarioComparison, t: Thresholds, excluded: set<Metric>): seq<Reason> {
    RateReasons(item, t)
    + (if LATENCY in excluded then [] else LatencyReasons(item, t))
    + (if TOKENS in excluded then [] else TokenReasons(item, t))
    + (if COST in excluded then [] else CostReasons(item, t))
    + Say(LowSampleAt(item) && t.lowSampleFails, LowSample(item.scenarioId))
  }

  function WarningsAt(item: ScenarioComparison, t: Thresholds): seq<Reason> {
    Say(item.flakinessDelta > t.maximumFlakinessIncrease, VariabilityIncreased(item.scenarioId))
    + Say(LowSampleAt(item) && !t.lowSampleFails, LowSample(item.scenarioId))
  }

  predicate AnyIncompatible(items: seq<ScenarioComparison>) {
    exists item :: item in items && item.level == INCOMPATIBLE
  }

  function SuiteReasons(config: Config, items: seq<ScenarioComparison>): seq<Reason> {
    Say(AnyIncompatible(items), IncompatibleArtifacts)
    + Say(NewCritical(items) > config.own.criticalAllowed, CriticalExceeds(NewCritical(items), config.own.criticalAllowed))
    + Say(NewHigh(items) > config.own.highAllowed, HighExceeds(NewHigh(items), config.own.highAllowed))
  }

  function EffectiveAt(config: Config, item: ScenarioComparison): Thresholds {
    EffectiveConfig(config, item.scenarioId, item.tags)
  }

  function ReasonsUnder(config: Config): ScenarioComparison -> seq<Reason> {
    (item: ScenarioComparison) => ReasonsAt(item, EffectiveAt(config, item), config.excluded)
  }

  function WarningsUnder(config: Config): ScenarioComparison -> seq<Reason> {
    (item: ScenarioComparison) => WarningsAt(item, EffectiveAt(config, item))
  }

  function CompatReasons(items: seq<ScenarioComparison>): seq<CompatReason> {
    if items == [] then [] else CompatReasons(items[..|items| - 1]) + items[|items| - 1].reasons
  }

  function ReportOf(config: Config, items: seq<ScenarioComparison>): Report {
    var reasons := SuiteReasons(config, items) + FlatBy(ReasonsUnder(config), items);
    Report(
      if AnyIncompatible(items) then INCOMPATIBLE else if CompatReasons(items) != [] then WARNING else COMPATIBLE,
      Dedup(CompatReasons(items)), items,
      GateVerdict(reasons == [], Dedup(reasons), Dedup(FlatBy(WarningsUnder(config), items)), NewCritical(items), NewHigh(items)))
  }

  // ---------- One scenario ----------

  predicate MixedWorlds(runs: seq<RunRecord>) { |WorldMajors(runs)| > 1 }
  predicate MixedAdapters(runs: seq<RunRecord>) { |Adapters(runs)| > 1 }
  predicate SameHashes(baseline: seq<RunRecord>, candidate: seq<RunRecord>) { Hashes(baseline) == Hashes(candidate) }

  /** The compatibility of two groups of runs, as a condition rather than a running level. */
  function Judge(complete: bool, mixedWorlds: bool, sameHashes: bool, mixedAdapters: bool, allowed: bool): Level {
    if !complete || mixedWorlds || (!sameHashes && !allowed) then INCOMPATIBLE
    else if !sameHashes || mixedAdapters then WARNING
    else COMPATIBLE
  }

  function Further(complete: bool, mixedWorlds: bool, sameHashes: bool, mixedAdapters: bool): seq<CompatReason> {
    Note(mixedWorlds, WorldMajorsDiffer) + Note(!sameHashes, HashesDiffer)
    + Note(complete && !mixedWorlds && sameHashes && mixedAdapters, AdaptersDiffer)
  }

  function Grounds(complete: bool, mixedWorlds: bool, sameHashes: bool, mixedAdapters: bool): seq<CompatReason> {
    Note(!complete, EvidenceIncomplete) + Further(complete, mixedWorlds, sameHashes, mixedAdapters)
  }

  function LevelOf(baseline: seq<RunRecord>, candidate: seq<RunRecord>, allowed: bool): Level {
    Judge(Complete(baseline + candidate), MixedWorlds(baseline + candidate), SameHashes(baseline, candidate),
          MixedAdapters(baseline + candidate), allowed)
  }

  function GroundsOf(baseline: seq<RunRecord>, candidate: seq<RunRecord>): seq<CompatReason> {
    Grounds(Complete(baseline + candidate), MixedWorlds(baseline + candidate), SameHashes(baseline, candidate),
            MixedAdapters(baseline + candidate))
  }

  /** What the whole suites say about every scenario of theirs. */
  datatype Global = Global(reasons: seq<CompatReason>, incompatible: bool)

  function GlobalOf(b: Suite, c: Suite): Global {
    Global(GlobalReasons(b, c), GloballyIncompatible(b, c))
  }

  /** The local level after the suite-wide differences and a missing side are taken into account. */
  function FinalLevel(local: Level, global: Global, missing: bool): Level {
    if missing || global.incompatible then INCOMPATIBLE
    else if global.reasons != [] && local == COMPATIBLE then WARNING
    else local
  }

  function FinalReasons(local: Level, grounds: seq<CompatReason>, global: Global, missing: bool): seq<CompatReason> {
    grounds
    + (if global.incompatible || (global.reasons != [] && local == COMPATIBLE) then global.reasons else [])
    + Note(missing, ScenarioMissing)
  }

  /** The tail of the loop body: findings, the primary one, and the record, if there is one. */
  function Conclude(id: string, level: Level, reasons: seq<CompatReason>, b: Summary, c: Summary, deltas: seq<FailureDelta>,
                    tags: seq<string>, t: Thresholds): Option<ScenarioComparison>
  {
    var findings := Findings(b, c, level, deltas != [], t);
    var primary := Primary(PRIMARY_ORDER, findings);
    if primary.None? then None
    else Some(ScenarioComparison(id, level, reasons, primary.value, Dedup(findings), b, c, c.passRate - b.passRate,
                                 c.variability - b.variability, deltas, tags))
  }

  function TagNames(before: seq<RunRecord>, after: seq<RunRecord>): seq<string> {
    SortedUnique(TagsOf(before + after))
  }

  function CompareGroups(global: Global, id: string, before: seq<RunRecord>, after: seq<RunRecord>, t: Thresholds): Option<ScenarioComparison> {
    var missing, local := before == [] || after == [], LevelOf(before, after, t.allowHashMismatch);
    Conclude(id, FinalLevel(local, global, missing), FinalReasons(local, GroundsOf(before, after), global, missing),
             Summarize(before, t.minimumRepetitions), Summarize(after, t.minimumRepetitions),
             FailureDeltas(before, after), TagNames(before, after), t)
  }

  function CompareScenario(global: Global, b: seq<RunRecord>, c: seq<RunRecord>, config: Config, id: string): Option<ScenarioComparison> {
    var before, after := RunsOf(b, id), RunsOf(c, id);
    CompareGroups(global, id, before, after, EffectiveConfig(config, id, TagNames(before, after)))
  }

  function ScenarioUnder(global: Global, b: seq<RunRecord>, c: seq<RunRecord>, config: Config): string -> Option<ScenarioComparison> {
    (id: string) => CompareScenario(global, b, c, config, id)
  }

  /** The report, or `None` where some scenario has no primary classification. */
  function CompareSuites(b: Suite, c: Suite, config: Config): Option<Report> {
    var items := TryMap(ScenarioUnder(GlobalOf(b, c), b.runs, c.runs, config), ScenarioIds(b, c));
    if items.None? then None else Some(ReportOf(config, items.value))
  }
}
