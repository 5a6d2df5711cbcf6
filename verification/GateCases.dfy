/** When a comparison has no report, what comparing a suite with itself gives, and the context gate. */
module GateCases {
  import opened Wrappers
  import opened Statistics
  import opened Collections
  import opened Comparison
  import opened ComparisonLaws
  import opened GateLaws

  // ---------- The missing primary classification ----------

  /** Pass rates differ below 1, mode counts agree, and no other finding fires. */
  predicate Silent(b: Summary, c: Summary, level: Level, changed: bool, t: Thresholds) {
    var flake := c.variability - b.variability;
    && level != INCOMPATIBLE && !b.lowSample && !c.lowSample
    && b.passRate != c.passRate && b.passRate < 1.0 && c.passRate < 1.0 && !changed
    && 0.0 - t.maximumFlakinessIncrease <= flake <= t.maximumFlakinessIncrease
    && c.p95 <= b.p95 * (1.0 + t.maximumP95Increase)
    && (Or(c.cost, 0) as real <= Or(b.cost, 0) as real * (1.0 + t.maximumCostIncrease) || Or(c.cost, 0) <= 0)
    && (c.infrastructureRate <= b.infrastructureRate || c.infrastructureRate <= t.maximumInfrastructureRate)
  }

  lemma OrderIsComplete(x: Classification)
    ensures x in PRIMARY_ORDER
  {
    match x {
      case NOT_COMPARABLE => assert PRIMARY_ORDER[0] == x;
      case NEW_FAILURE => assert PRIMARY_ORDER[1] == x;
      case INFRASTRUCTURE_REGRESSED => assert PRIMARY_ORDER[2] == x;
      case FAILURE_MODE_CHANGED => assert PRIMARY_ORDER[3] == x;
      case FLAKINESS_INCREASED => assert PRIMARY_ORDER[4] == x;
      case PERFORMANCE_REGRESSED => assert PRIMARY_ORDER[5] == x;
      case COST_REGRESSED => assert PRIMARY_ORDER[6] == x;
      case FIXED => assert PRIMARY_ORDER[7] == x;
      case FLAKINESS_DECREASED => assert PRIMARY_ORDER[8] == x;
      case INSUFFICIENT_EVIDENCE => assert PRIMARY_ORDER[9] == x;
      case UNCHANGED_FAILURE => assert PRIMARY_ORDER[10] == x;
      case UNCHANGED_PASS => assert PRIMARY_ORDER[11] == x;
    }
  }

  lemma PrimaryOfAny(findings: seq<Classification>)
    ensures Primary(PRIMARY_ORDER, findings).None? <==> findings == []
  {
    if findings != [] {
      OrderIsComplete(findings[0]);
      assert findings[0] in findings;
    }
  }

  lemma NoFindings(b: Summary, c: Summary, level: Level, changed: bool, t: Thresholds)
    requires b.passRate <= 1.0 && c.passRate <= 1.0
    ensures Findings(b, c, level, changed, t) == [] <==> Silent(b, c, level, changed, t)
  {
  }

  predicate SilentScenario(global: Global, b: seq<RunRecord>, c: seq<RunRecord>, config: Config, id: string) {
    var before, after := RunsOf(b, id), RunsOf(c, id);
    var t := EffectiveConfig(config, id, TagNames(before, after));
    Silent(Summarize(before, t.minimumRepetitions), Summarize(after, t.minimumRepetitions),
           FinalLevel(LevelOf(before, after, t.allowHashMismatch), global, before == [] || after == []),
           FailureDeltas(before, after) != [], t)
  }

  lemma ScenarioAbsentExactly(global: Global, b: seq<RunRecord>, c: seq<RunRecord>, config: Config, id: string)
    ensures CompareScenario(global, b, c, config, id).None? <==> SilentScenario(global, b, c, config, id)
  {
    var before, after := RunsOf(b, id), RunsOf(c, id);
    var t := EffectiveConfig(config, id, TagNames(before, after));
    var bsum, csum := Summarize(before, t.minimumRepetitions), Summarize(after, t.minimumRepetitions);
    SummarySane(before, t.minimumRepetitions);
    SummarySane(after, t.minimumRepetitions);
    ConcludeAbsentExactly(id, FinalLevel(LevelOf(before, after, t.allowHashMismatch), global, before == [] || after == []),
                          FinalReasons(LevelOf(before, after, t.allowHashMismatch), GroundsOf(before, after), global, before == [] || after == []),
                          bsum, csum, FailureDeltas(before, after), TagNames(before, after), t);
  }

  lemma ConcludeAbsentExactly(id: string, level: Level, reasons: seq<CompatReason>, b: Summary, c: Summary,
                              deltas: seq<FailureDelta>, tags: seq<string>, t: Thresholds)
    requires b.passRate <= 1.0 && c.passRate <= 1.0
    ensures Conclude(id, level, reasons, b, c, deltas, tags, t).None? <==> Silent(b, c, level, deltas != [], t)
  {
    PrimaryOfAny(Findings(b, c, level, deltas != [], t));
    NoFindings(b, c, level, deltas != [], t);
  }

  lemma JudgeAbsentExactly(global: Global, b: seq<RunRecord>, c: seq<RunRecord>, config: Config, id: string)
    ensures ScenarioUnder(global, b, c, config)(id).None? <==> SilentScenario(global, b, c, config, id)
  {
    ScenarioAbsentExactly(global, b, c, config, id);
  }

  lemma {:induction false} TryMapAbsent<T, U>(f: T -> Option<U>, items: seq<T>)
    ensures TryMap(f, items).None? <==> exists i :: 0 <= i < |items| && f(items[i]).None?
  {
    if i :| 0 <= i < |items| && f(items[i]).None? {
      TryMapStops(f, items, i);
    } else {
      TryMapTotal(f, items);
    }
  }

  /** A comparison has no report exactly when some listed scenario is silent: there the `next`
      over the primary order has nothing to give. */
  lemma ReportAbsentExactly(b: Suite, c: Suite, config: Config)
    ensures CompareSuites(b, c, config).None? <==>
      exists id :: id in ScenarioIds(b, c) && SilentScenario(GlobalOf(b, c), b.runs, c.runs, config, id)
  {
    var f, ids := ScenarioUnder(GlobalOf(b, c), b.runs, c.runs, config), ScenarioIds(b, c);
    forall id ensures f(id).None? <==> SilentScenario(GlobalOf(b, c), b.runs, c.runs, config, id) {
      JudgeAbsentExactly(GlobalOf(b, c), b.runs, c.runs, config, id);
    }
    TryMapAbsent(f, ids);
  }

  // A concrete pair of suites without a report: one of two runs fails, then one of three.

  const PASSING: Verdict := Verdict("v1", "a", None, PASS, HIGH, true, "1")
  const FAILING: Verdict := Verdict("v2", "a", None, FAIL, CRITICAL, true, "1")
  const GOOD: RunRecord := RunRecord("g", "s", "native", None, None, "{}", [], [PASSING], false, COMPLETED, "pass", 0, None, None)
  const BAD: RunRecord := RunRecord("b", "s", "native", None, None, "{}", [], [FAILING], false, COMPLETED, "fail", 0, None, None)
  const TWO: Suite := Suite("world", "worker", ["s"], [BAD, GOOD])
  const THREE: Suite := Suite("world", "worker", ["s"], [BAD, GOOD, GOOD])
  const LENIENT: Config := Config(Thresholds(0, 0, 0.0, 1.0, 0.5, 0.01, 1.0, 1.0, 1.0, 1.0, 2, false, false), map[], map[], {})

  predicate Sampled(runs: seq<RunRecord>) {
    forall i :: 0 <= i < |runs| ==> runs[i] == GOOD || runs[i] == BAD
  }

  lemma {:induction false} OneScenario(runs: seq<RunRecord>, id: string)
    requires forall i :: 0 <= i < |runs| ==> runs[i].scenarioId == id
    ensures RunsOf(runs, id) == runs
  {
    if runs != [] {
      OneScenario(runs[..|runs| - 1], id);
    }
  }

  lemma {:induction false} SumZero(f: RunRecord -> int, runs: seq<RunRecord>)
    requires forall i :: 0 <= i < |runs| ==> f(runs[i]) == 0
    ensures SumBy(f, runs) == 0
  {
    if runs != [] {
      SumZero(f, runs[..|runs| - 1]);
    }
  }

  lemma SumTwoThree(f: RunRecord -> int, x: RunRecord, y: RunRecord, z: RunRecord)
    ensures SumBy(f, [x, y]) == f(x) + f(y) && SumBy(f, [x, y, z]) == f(x) + f(y) + f(z)
  {
    assert [x, y, z][..2] == [x, y] && [x, y][..1] == [x] && [x][..0] == [];
    assert SumBy(f, [x]) == f(x);
  }

  lemma MapTwoThree(x: RunRecord, y: RunRecord, z: RunRecord)
    ensures MapBy(DigestOf, [x, y]) == [x.digest, y.digest] && MapBy(DigestOf, [x, y, z]) == [x.digest, y.digest, z.digest]
  {
    assert [x, y, z][..2] == [x, y] && [x, y][..1] == [x] && [x][..0] == [];
  }

  lemma SampledUniform(runs: seq<RunRecord>)
    requires Sampled(runs) && runs != []
    ensures |PolicyVersions(runs)| == 0 && |Majors(PolicyVersions(runs))| == 0
    ensures |EvaluatorVersions(runs)| == |Majors(EvaluatorVersions(runs))| == |Environments(runs)| == 1
    ensures |WorldMajors(runs)| == |Adapters(runs)| == 1 && Hashes(runs) == {} && Complete(runs)
  {
    assert runs[0] in runs && (runs[0].verdicts == [PASSING] || runs[0].verdicts == [FAILING]);
    assert PolicyVersions(runs) == {} && Majors({}) == {};
    assert runs[0].verdicts[0] in runs[0].verdicts;
    assert EvaluatorVersions(runs) == {"1"};
    assert Majors({"1"}) == {Major(Some("1"))};
    assert Environments(runs) == {"{}"} && WorldMajors(runs) == {None} && Adapters(runs) == {"native"};
  }

  lemma SampledFast(runs: seq<RunRecord>, fraction: real)
    requires Sampled(runs) && runs != [] && 0.0 <= fraction <= 1.0
    ensures Percentile(MapBy(DurationOf, runs), fraction) == 0.0
  {
    var durations := MapBy(DurationOf, runs);
    var lo, hi := PercentileWithin(durations, fraction);
    forall i | 0 <= i < |durations| ensures durations[i] == 0 {
      MapMember(DurationOf, runs, i);
    }
  }

  lemma FailedOne(v: Verdict)
    ensures Failed([v]) == if v.status != PASS then map[KeyOf(v) := v] else map[]
  {
    assert [v][..0] == [];
  }

  lemma CountTwoThree(x: RunRecord, y: RunRecord, k: string)
    requires !Fails(y, k)
    ensures Count([x, y], k) == Count([x, y, y], k)
  {
    assert [x, y, y][..2] == [x, y];
  }

  lemma SampledCounts(k: string)
    ensures Count(TWO.runs, k) == Count(THREE.runs, k)
  {
    FailedOne(PASSING);
    CountTwoThree(BAD, GOOD, k);
  }

  lemma {:induction false} SampledDeltas(ids: seq<string>)
    ensures DeltasOver(TWO.runs, THREE.runs, ids) == []
  {
    if ids != [] {
      SampledDeltas(ids[..|ids| - 1]);
      SampledCounts(ids[|ids| - 1]);
    }
  }

  lemma SampledRates()
    ensures Share(SumBy(PassedOne, TWO.runs), 2) == 0.5 && Share(SumBy(PassedOne, THREE.runs), 3) == 2.0 / 3.0
  {
    SumTwoThree(PassedOne, BAD, GOOD, GOOD);
    assert FAILING in BAD.verdicts && !FAILING.Tolerated() && GOOD.Passed();
  }

  lemma VariabilityTwoThree(x: string, y: string)
    requires x != y
    ensures Variability([x, y]) == 0.5 && Variability([x, y, y]) == 1.0 - 2.0 / 3.0
  {
    assert [x, y, y][..2] == [x, y] && [x, y][..1] == [x] && [x][..0] == [];
    var two, three := multiset([x, y]), multiset([x, y, y]);
    assert two[x] == 1 && two[y] == 1 && three[x] == 1 && three[y] == 2;
    assert Peak([x], two) == 1 && Peak([x], three) == 1;
    assert Peak([x, y], two) == 1 && Peak([x, y], three) == 2;
    assert Peak([x, y, y], three) == 2;
  }

  lemma SampledVariability()
    ensures Variability(MapBy(DigestOf, TWO.runs)) == 0.5 && Variability(MapBy(DigestOf, THREE.runs)) == 1.0 - 2.0 / 3.0
  {
    MapTwoThree(BAD, GOOD, GOOD);
    assert BAD.digest[0] != GOOD.digest[0];
    VariabilityTwoThree(BAD.digest, GOOD.digest);
  }

  /** The fields of a summary the findings look at. */
  lemma SummaryFields(runs: seq<RunRecord>, minimum: int)
    ensures var s := Summarize(runs, minimum);
      && s.lowSample == (|runs| < minimum) && s.p95 == Percentile(MapBy(DurationOf, runs), 0.95)
      && s.infrastructureRate == Share(SumBy(InfrastructureOne, runs), |runs|)
      && s.passRate == Share(SumBy(PassedOne, runs), |runs|) && s.variability == Variability(MapBy(DigestOf, runs))
      && (s.cost.Some? ==> s.cost.value == SumBy(CostOf, runs))
  {
  }

  predicate Measured(s: Summary, rate: real, variability: real) {
    && !s.lowSample && s.p95 == 0.0 && Or(s.cost, 0) == 0 && s.infrastructureRate == 0.0
    && s.passRate == rate && s.variability == variability
  }

  lemma SampledSums(runs: seq<RunRecord>)
    requires runs == TWO.runs || runs == THREE.runs
    ensures SumBy(InfrastructureOne, runs) == 0 && SumBy(CostOf, runs) == 0 && Sampled(runs)
  {
    SumZero(InfrastructureOne, runs);
    SumZero(CostOf, runs);
  }

  lemma MeasuredFrom(runs: seq<RunRecord>, minimum: int, rate: real, variability: real)
    requires |runs| >= minimum && Share(SumBy(PassedOne, runs), |runs|) == rate && Variability(MapBy(DigestOf, runs)) == variability
    requires Percentile(MapBy(DurationOf, runs), 0.95) == 0.0
    requires SumBy(InfrastructureOne, runs) == 0 && SumBy(CostOf, runs) == 0 && Share(0, |runs|) == 0.0
    ensures Measured(Summarize(runs, minimum), rate, variability)
  {
    SummaryFields(runs, minimum);
  }

  lemma SampledTwo()
    ensures Measured(Summarize(TWO.runs, 2), 0.5, 0.5)
  {
    SampledSums(TWO.runs);
    SampledFast(TWO.runs, 0.95);
    SampledRates();
    SampledVariability();
    MeasuredFrom(TWO.runs, 2, 0.5, 0.5);
  }

  lemma SampledThree()
    ensures Measured(Summarize(THREE.runs, 2), 2.0 / 3.0, 1.0 - 2.0 / 3.0)
  {
    SampledSums(THREE.runs);
    SampledFast(THREE.runs, 0.95);
    SampledRates();
    SampledVariability();
    MeasuredFrom(THREE.runs, 2, 2.0 / 3.0, 1.0 - 2.0 / 3.0);
  }

  lemma SampledLevel()
    ensures LevelOf(TWO.runs, THREE.runs, false) == COMPATIBLE && GlobalOf(TWO, THREE) == Global([], false)
  {
    SampledUniform(TWO.runs + THREE.runs);
    SampledUniform(TWO.runs);
    SampledUniform(THREE.runs);
  }

  lemma SilentPair()
    ensures SilentScenario(GlobalOf(TWO, THREE), TWO.runs, THREE.runs, LENIENT, "s")
  {
    OneScenario(TWO.runs, "s");
    OneScenario(THREE.runs, "s");
    SampledTwo();
    SampledThree();
    SampledLevel();
    SampledDeltas(Identities(TWO.runs, THREE.runs));
    NoTags(LENIENT.own, SortedUnique(TagNames(TWO.runs, THREE.runs)));
  }

  lemma {:induction false} NoTags(t: Thresholds, tags: seq<string>)
    ensures OverrideTags(t, map[], tags) == t
  {
    if tags != [] {
      NoTags(t, tags[..|tags| - 1]);
    }
  }

  /** The failing family is not empty: half of two runs passing, then two thirds of three, with the
      same failure in both, leaves no primary classification and so no report. */
  lemma ReportCanBeAbsent()
    ensures CompareSuites(TWO, THREE, LENIENT).None?
  {
    SilentPair();
    assert "s" in TWO.scenarios + THREE.scenarios;
    ReportAbsentExactly(TWO, THREE, LENIENT);
  }

  // ---------- Comparing a suite with itself ----------

  lemma {:induction false} NoOwnDeltas(runs: seq<RunRecord>, ids: seq<string>)
    ensures DeltasOver(runs, runs, ids) == []
  {
    if ids != [] {
      NoOwnDeltas(runs, ids[..|ids| - 1]);
    }
  }

  lemma {:induction false} NoOwnRise(runs: seq<RunRecord>, severity: Severity, ids: seq<string>)
    ensures RisenIn(runs, runs, severity, ids) == 0
  {
    if ids != [] {
      NoOwnRise(runs, severity, ids[..|ids| - 1]);
    }
  }

  lemma {:induction false} NoOwnRiseOver(runs: seq<RunRecord>, severity: Severity, ids: seq<string>)
    ensures RisenOver(runs, runs, severity, ids) == 0
  {
    if ids != [] {
      NoOwnRiseOver(runs, severity, ids[..|ids| - 1]);
      var own := RunsOf(runs, ids[|ids| - 1]);
      NoOwnRise(own, severity, Identities(own, own));
    }
  }

  lemma NoOwnExcess(x: real, increase: excess)
    requires x >= 0.0
    ensures Within(x, x, increase)
  {
    ProductNonNegative(x, increase);
    assert x * (1.0 + increase) == x + x * increase;
  }

  predicate SelfPasses(item: ScenarioComparison, t: Thresholds) {
    && item.candidate.passRate >= t.minimumPassRate
    && item.candidate.infrastructureRate <= t.maximumInfrastructureRate
    && !(item.candidate.lowSample && t.lowSampleFails)
  }

  lemma SelfItem(item: ScenarioComparison, global: Global, runs: seq<RunRecord>, t: Thresholds, excluded: set<Metric>)
    requires Describes(item, global, runs, runs, t)
    ensures item.deltas == []
    ensures ItemPasses(item, t, excluded) <==> SelfPasses(item, t)
  {
    NoOwnDeltas(runs, Identities(runs, runs));
    SummarySane(runs, t.minimumRepetitions);
    var c := item.candidate;
    NoOwnExcess(c.p50, t.maximumP50Increase);
    NoOwnExcess(c.p95, t.maximumP95Increase);
    NoOwnExcess(Counted(c.tokens) as real, t.maximumTokenIncrease);
    NoOwnExcess(Counted(c.cost) as real, t.maximumCostIncrease);
  }

  /** No failure changes, and nothing but the candidate's own rates and sample to judge. */
  predicate OwnItem(config: Config, item: ScenarioComparison) {
    item.deltas == [] && (ItemPasses(item, EffectiveAt(config, item), config.excluded) <==> SelfPasses(item, EffectiveAt(config, item)))
  }

  lemma SelfItemAt(s: Suite, config: Config, i: nat)
    requires ItemsOf(s, s, config).Some? && i < |ScenarioIds(s, s)|
    ensures OwnItem(config, ItemsOf(s, s, config).value[i])
  {
    var item := ItemsOf(s, s, config).value[i];
    ItemDescribed(s, s, config, i);
    SelfItem(item, GlobalOf(s, s), RunsOf(s.runs, ScenarioIds(s, s)[i]), EffectiveAt(config, item), config.excluded);
  }

  lemma OwnItemsPass(config: Config, items: seq<ScenarioComparison>)
    requires forall i :: 0 <= i < |items| ==> OwnItem(config, items[i])
    requires NewCritical(items) == 0 && NewHigh(items) == 0
    ensures ReportOf(config, items).verdict.passed <==>
      !AnyIncompatible(items) && forall i :: 0 <= i < |items| ==> SelfPasses(items[i], EffectiveAt(config, items[i]))
  {
    PassesExactly(config, items);
  }

  lemma OwnItems(s: Suite, config: Config, items: seq<ScenarioComparison>)
    requires ItemsOf(s, s, config) == Some(items)
    ensures forall i :: 0 <= i < |items| ==> OwnItem(config, items[i])
  {
    forall i | 0 <= i < |items| ensures OwnItem(config, items[i]) {
      SelfItemAt(s, config, i);
    }
  }

  lemma OwnCounts(s: Suite, config: Config, items: seq<ScenarioComparison>)
    requires ItemsOf(s, s, config) == Some(items)
    ensures NewCritical(items) == 0 && NewHigh(items) == 0
  {
    SelfReport(s, config);
    NewCountsExact(s, s, config);
    NoOwnRiseOver(s.runs, CRITICAL, ScenarioIds(s, s));
    NoOwnRiseOver(s.runs, HIGH, ScenarioIds(s, s));
  }

  /** Comparing any suite with itself, under any configuration, always gives a report. */
  lemma SelfReport(s: Suite, config: Config)
    ensures CompareSuites(s, s, config).Some?
  {
    ReportAbsentExactly(s, s, config);
  }

  /** That report has no failure changes and no new failures, and passes exactly when no scenario
      is incompatible, rates meet their bounds, and no low sample is configured to fail. */
  lemma SelfComparison(s: Suite, config: Config)
    ensures CompareSuites(s, s, config).Some?
    ensures var report := CompareSuites(s, s, config).value;
      && report.verdict.newCritical == 0 && report.verdict.newHigh == 0
      && (forall i :: 0 <= i < |report.scenarios| ==> report.scenarios[i].deltas == [])
      && (report.verdict.passed <==>
            !AnyIncompatible(report.scenarios)
            && forall i :: 0 <= i < |report.scenarios| ==> SelfPasses(report.scenarios[i], EffectiveAt(config, report.scenarios[i])))
  {
    SelfReport(s, config);
    var items := ItemsOf(s, s, config).value;
    OwnCounts(s, config, items);
    OwnItems(s, config, items);
    OwnItemsPass(config, items);
  }

  // ---------- The context gate ----------

  datatype Context = Context(
    catalogVersion: string, domainId: string, roleId: string, suiteId: Option<string>, suiteRevision: Option<string>,
    scenarioIds: seq<string>, scenarioHashes: map<string, string>, agentId: string, agentVersion: string,
    worldName: string, worldVersion: string, seeds: seq<int>, limits: string)

  datatype Field =
    | CATALOG_VERSION | DOMAIN_ID | ROLE_ID | SUITE_ID | SUITE_REVISION | SCENARIO_IDS | SCENARIO_HASHES | WORLD_NAME
    | WORLD_VERSION | SEEDS | LIMITS

  function Differing(differs: bool, field: Field): seq<Field> {
    if differs then [field] else []
  }

  /** The material fields that differ; the agent's own identity is not one of them. */
  function ContextReasons(b: Context, c: Context): seq<Field> {
    Differing(b.catalogVersion != c.catalogVersion, CATALOG_VERSION) + Differing(b.domainId != c.domainId, DOMAIN_ID)
    + Differing(b.roleId != c.roleId, ROLE_ID) + Differing(b.suiteId != c.suiteId, SUITE_ID)
    + Differing(b.suiteRevision != c.suiteRevision, SUITE_REVISION) + Differing(b.scenarioIds != c.scenarioIds, SCENARIO_IDS)
    + Differing(b.scenarioHashes != c.scenarioHashes, SCENARIO_HASHES) + Differing(b.worldName != c.worldName, WORLD_NAME)
    + Differing(b.worldVersion != c.worldVersion, WORLD_VERSION) + Differing(b.seeds != c.seeds, SEEDS)
    + Differing(b.limits != c.limits, LIMITS)
  }

  datatype Contextual = Contextual(compatible: bool, reasons: seq<Field>, report: Report, passed: bool)

  function CompareContextual(b: Suite, c: Suite, before: Context, after: Context, config: Config): Option<Contextual> {
    var reasons, report := ContextReasons(before, after), CompareSuites(b, c, config);
    if report.None? then None
    else Some(Contextual(reasons == [], reasons, report.value,
                         reasons == [] && report.value.verdict.passed && Complete(b.runs + c.runs)))
  }

  /** A contextual pass is a passing report on complete evidence in both suites, listed in a
      scenario or not, under contexts that differ at most in the agent. */
  lemma ContextualPassExactly(b: Suite, c: Suite, before: Context, after: Context, config: Config)
    requires CompareSuites(b, c, config).Some?
    ensures CompareContextual(b, c, before, after, config).Some?
    ensures CompareContextual(b, c, before, after, config).value.passed <==>
      && CompareSuites(b, c, config).value.verdict.passed
      && (forall r :: r in b.runs || r in c.runs ==> !r.incompleteEvidence)
      && after == before.(agentId := after.agentId, agentVersion := after.agentVersion)
  {
    assert ContextReasons(before, after) == [] <==> after == before.(agentId := after.agentId, agentVersion := after.agentVersion);
    forall r ensures r in b.runs + c.runs <==> r in b.runs || r in c.runs {
    }
  }
}
