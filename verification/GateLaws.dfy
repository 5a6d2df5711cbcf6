/** What a regression report promises: soundness, monotonicity and self-comparison of the gate. */
module GateLaws {
  import opened Wrappers
  import opened Statistics
  import opened Collections
  import opened Comparison
  import opened ComparisonLaws

  // ---------- The items of a report ----------

  function ItemsOf(b: Suite, c: Suite, config: Config): Option<seq<ScenarioComparison>> {
    TryMap(ScenarioUnder(GlobalOf(b, c), b.runs, c.runs, config), ScenarioIds(b, c))
  }

  /** What a comparison of one scenario records about the two groups of runs. */
  predicate Describes(item: ScenarioComparison, global: Global, before: seq<RunRecord>, after: seq<RunRecord>, t: Thresholds) {
    && item.level == FinalLevel(LevelOf(before, after, t.allowHashMismatch), global, before == [] || after == [])
    && item.reasons == FinalReasons(LevelOf(before, after, t.allowHashMismatch), GroundsOf(before, after), global, before == [] || after == [])
    && item.baseline == Summarize(before, t.minimumRepetitions) && item.candidate == Summarize(after, t.minimumRepetitions)
    && item.passRateDelta == item.candidate.passRate - item.baseline.passRate
    && item.flakinessDelta == item.candidate.variability - item.baseline.variability
    && item.deltas == FailureDeltas(before, after)
    && item.tags == TagNames(before, after)
  }

  lemma ScenarioDescribed(global: Global, id: string, before: seq<RunRecord>, after: seq<RunRecord>, t: Thresholds)
    requires CompareGroups(global, id, before, after, t).Some?
    ensures CompareGroups(global, id, before, after, t).value.scenarioId == id
    ensures Describes(CompareGroups(global, id, before, after, t).value, global, before, after, t)
  {
  }

  lemma ItemDescribed(b: Suite, c: Suite, config: Config, i: nat)
    requires ItemsOf(b, c, config).Some? && i < |ScenarioIds(b, c)|
    ensures var item, id := ItemsOf(b, c, config).value[i], ScenarioIds(b, c)[i];
      && item.scenarioId == id
      && Describes(item, GlobalOf(b, c), RunsOf(b.runs, id), RunsOf(c.runs, id), EffectiveAt(config, item))
  {
    TryMapAt(ScenarioUnder(GlobalOf(b, c), b.runs, c.runs, config), ScenarioIds(b, c), i);
    var id := ScenarioIds(b, c)[i];
    var before, after := RunsOf(b.runs, id), RunsOf(c.runs, id);
    ScenarioDescribed(GlobalOf(b, c), id, before, after, EffectiveConfig(config, id, TagNames(before, after)));
  }

  lemma {:induction false} FlatEmpty<T, U>(f: T -> seq<U>, items: seq<T>)
    ensures FlatBy(f, items) == [] <==> forall i :: 0 <= i < |items| ==> f(items[i]) == []
  {
    if items != [] {
      FlatEmpty(f, items[..|items| - 1]);
    }
  }

  predicate SuitePasses(config: Config, items: seq<ScenarioComparison>) {
    && !AnyIncompatible(items)
    && NewCritical(items) <= config.own.criticalAllowed
    && NewHigh(items) <= config.own.highAllowed
  }

  /** An optional total, none counting as 0. */
  function Counted(total: Option<int>): int {
    match total
    case None => 0
    case Some(n) => n
  }

  /** Growing from `before` to `after` stays within a relative increase. */
  predicate Within(after: real, before: real, increase: excess) {
    after <= before * (1.0 + increase)
  }

  lemma WithinExactly(after: real, before: real, increase: excess)
    ensures Within(after, before, increase) <==> !Exceeds(after, before, increase)
  {
  }

  /** The thresholds one scenario must meet. */
  predicate ItemPasses(item: ScenarioComparison, t: Thresholds, excluded: set<Metric>) {
    var b, c := item.baseline, item.candidate;
    && c.passRate >= t.minimumPassRate
    && item.passRateDelta >= 0.0 - t.maximumPassRateDecrease
    && c.infrastructureRate <= t.maximumInfrastructureRate
    && (LATENCY in excluded || Within(c.p50, b.p50, t.maximumP50Increase))
    && (LATENCY in excluded || Within(c.p95, b.p95, t.maximumP95Increase))
    && (TOKENS in excluded || Within(Counted(c.tokens) as real, Counted(b.tokens) as real, t.maximumTokenIncrease))
    && (COST in excluded || Within(Counted(c.cost) as real, Counted(b.cost) as real, t.maximumCostIncrease))
    && (t.lowSampleFails ==> !b.lowSample && !c.lowSample)
  }

  lemma ItemPassesExactly(item: ScenarioComparison, t: Thresholds, excluded: set<Metric>)
    ensures ReasonsAt(item, t, excluded) == [] <==> ItemPasses(item, t, excluded)
  {
    var b, c := item.baseline, item.candidate;
    WithinExactly(c.p50, b.p50, t.maximumP50Increase);
    WithinExactly(c.p95, b.p95, t.maximumP95Increase);
    WithinExactly(Counted(c.tokens) as real, Counted(b.tokens) as real, t.maximumTokenIncrease);
    WithinExactly(Counted(c.cost) as real, Counted(b.cost) as real, t.maximumCostIncrease);
  }

  /** A report passes exactly when the suite-wide checks and every scenario's thresholds hold. */
  lemma PassesExactly(config: Config, items: seq<ScenarioComparison>)
    ensures ReportOf(config, items).verdict.passed <==>
      && SuitePasses(config, items)
      && forall i :: 0 <= i < |items| ==> ItemPasses(items[i], EffectiveAt(config, items[i]), config.excluded)
    ensures ReportOf(config, items).verdict.passed <==> ReportOf(config, items).verdict.reasons == []
  {
    FlatEmpty(ReasonsUnder(config), items);
    forall i | 0 <= i < |items|
      ensures ReasonsUnder(config)(items[i]) == [] <==> ItemPasses(items[i], EffectiveAt(config, items[i]), config.excluded)
    {
      ItemPassesExactly(items[i], EffectiveAt(config, items[i]), config.excluded);
    }
    var reasons := SuiteReasons(config, items) + FlatBy(ReasonsUnder(config), items);
    assert reasons != [] ==> reasons[0] in Dedup(reasons);
  }

  // ---------- Soundness ----------

  /** The sum over the listed scenarios of the candidate's run counts of risen identities. */
  function RisenOver(b: seq<RunRecord>, c: seq<RunRecord>, severity: Severity, ids: seq<string>): nat {
    if ids == [] then 0
    else
      var id := ids[|ids| - 1];
      RisenOver(b, c, severity, ids[..|ids| - 1])
      + RisenIn(RunsOf(b, id), RunsOf(c, id), severity, Identities(RunsOf(b, id), RunsOf(c, id)))
  }

  lemma ItemRisen(b: Suite, c: Suite, config: Config, severity: Severity, kept: set<Change>, i: nat)
    requires NEW in kept && RATE_CHANGED in kept
    requires ItemsOf(b, c, config).Some? && i < |ScenarioIds(b, c)|
    ensures var item, id := ItemsOf(b, c, config).value[i], ScenarioIds(b, c)[i];
      var before, after := RunsOf(b.runs, id), RunsOf(c.runs, id);
      OccurrencesIn(item.deltas, item.candidate.completed, severity, kept)
        == RisenIn(before, after, severity, Identities(before, after))
  {
    ItemDescribed(b, c, config, i);
    var id := ScenarioIds(b, c)[i];
    OccurrencesInRisen(RunsOf(b.runs, id), RunsOf(c.runs, id), severity, kept, Identities(RunsOf(b.runs, id), RunsOf(c.runs, id)));
  }

  predicate CountedBy(items: seq<ScenarioComparison>, b: seq<RunRecord>, c: seq<RunRecord>, ids: seq<string>, severity: Severity,
                    kept: set<Change>)
  {
    && |items| == |ids|
    && forall i :: 0 <= i < |items| ==>
         OccurrencesIn(items[i].deltas, items[i].candidate.completed, severity, kept)
           == RisenIn(RunsOf(b, ids[i]), RunsOf(c, ids[i]), severity, Identities(RunsOf(b, ids[i]), RunsOf(c, ids[i])))
  }

  lemma {:induction false} OccurringCounted(items: seq<ScenarioComparison>, b: seq<RunRecord>, c: seq<RunRecord>, ids: seq<string>,
                                            severity: Severity, kept: set<Change>)
    requires CountedBy(items, b, c, ids, severity, kept)
    ensures Occurring(items, severity, kept) == RisenOver(b, c, severity, ids)
  {
    if items != [] {
      OccurringCounted(items[..|items| - 1], b, c, ids[..|ids| - 1], severity, kept);
    }
  }

  lemma OccurringRisen(b: Suite, c: Suite, config: Config, severity: Severity, kept: set<Change>)
    requires NEW in kept && RATE_CHANGED in kept && ItemsOf(b, c, config).Some?
    ensures Occurring(ItemsOf(b, c, config).value, severity, kept) == RisenOver(b.runs, c.runs, severity, ScenarioIds(b, c))
  {
    var items, ids := ItemsOf(b, c, config).value, ScenarioIds(b, c);
    forall i | 0 <= i < |items|
      ensures OccurrencesIn(items[i].deltas, items[i].candidate.completed, severity, kept)
        == RisenIn(RunsOf(b.runs, ids[i]), RunsOf(c.runs, ids[i]), severity, Identities(RunsOf(b.runs, ids[i]), RunsOf(c.runs, ids[i])))
    {
      ItemRisen(b, c, config, severity, kept, i);
    }
    OccurringCounted(items, b.runs, c.runs, ids, severity, kept);
  }

  /** New critical and high counts are the candidate's run counts of the identities of that
      severity whose rate rose and whose counts differ, over the listed scenarios. */
  lemma NewCountsExact(b: Suite, c: Suite, config: Config)
    requires CompareSuites(b, c, config).Some?
    ensures var verdict := CompareSuites(b, c, config).value.verdict;
      && verdict.newCritical == RisenOver(b.runs, c.runs, CRITICAL, ScenarioIds(b, c))
      && verdict.newHigh == RisenOver(b.runs, c.runs, HIGH, ScenarioIds(b, c))
  {
    OccurringRisen(b, c, config, CRITICAL, {NEW, RATE_CHANGED});
    OccurringRisen(b, c, config, HIGH, {NEW, REMOVED, RATE_CHANGED});
  }

  lemma {:induction false} RisenOverMember(b: seq<RunRecord>, c: seq<RunRecord>, severity: Severity, ids: seq<string>, id: string)
    requires id in ids
    ensures RisenOver(b, c, severity, ids) >= RisenIn(RunsOf(b, id), RunsOf(c, id), severity, Identities(RunsOf(b, id), RunsOf(c, id)))
  {
    if ids[|ids| - 1] != id {
      RisenOverMember(b, c, severity, ids[..|ids| - 1], id);
    }
  }

  lemma IncompleteGroup(item: ScenarioComparison, global: Global, before: seq<RunRecord>, after: seq<RunRecord>, t: Thresholds, r: RunRecord)
    requires Describes(item, global, before, after, t)
    requires (r in before || r in after) && r.incompleteEvidence
    ensures item.level == INCOMPATIBLE
  {
    assert r in before + after;
  }

  lemma IncompatibleItemFails(config: Config, items: seq<ScenarioComparison>, i: nat)
    requires i < |items| && items[i].level == INCOMPATIBLE
    ensures !ReportOf(config, items).verdict.passed && ReportOf(config, items).level == INCOMPATIBLE
  {
    assert items[i] in items;
    PassesExactly(config, items);
  }

  /** Incomplete evidence in any run of a listed scenario, on either side, fails the gate. */
  lemma IncompleteEvidenceFails(b: Suite, c: Suite, config: Config, r: RunRecord)
    requires CompareSuites(b, c, config).Some?
    requires (r in b.runs || r in c.runs) && r.incompleteEvidence
    requires r.scenarioId in b.scenarios || r.scenarioId in c.scenarios
    ensures !CompareSuites(b, c, config).value.verdict.passed
    ensures CompareSuites(b, c, config).value.level == INCOMPATIBLE
  {
    var items, ids := ItemsOf(b, c, config).value, ScenarioIds(b, c);
    assert r.scenarioId in b.scenarios + c.scenarios;
    var i :| 0 <= i < |ids| && ids[i] == r.scenarioId;
    ItemDescribed(b, c, config, i);
    IncompleteGroup(items[i], GlobalOf(b, c), RunsOf(b.runs, ids[i]), RunsOf(c.runs, ids[i]), EffectiveAt(config, items[i]), r);
    IncompatibleItemFails(config, items, i);
  }

  /** A critical failure in a listed scenario that the baseline never had fails the gate whenever
      its candidate run count exceeds the allowance, so always under the default of zero. */
  lemma NewCriticalFails(b: Suite, c: Suite, config: Config, r: RunRecord, k: string)
    requires CompareSuites(b, c, config).Some?
    requires r in c.runs && Fails(r, k) && Failed(r.verdicts)[k].severity == CRITICAL
    requires r.scenarioId in b.scenarios || r.scenarioId in c.scenarios
    requires forall x :: x in b.runs && x.scenarioId == r.scenarioId ==> !Fails(x, k)
    ensures CompareSuites(b, c, config).value.verdict.newCritical >= Count(RunsOf(c.runs, r.scenarioId), k) > 0
    ensures Count(RunsOf(c.runs, r.scenarioId), k) > config.own.criticalAllowed ==> !CompareSuites(b, c, config).value.verdict.passed
  {
    var before, after := RunsOf(b.runs, r.scenarioId), RunsOf(c.runs, r.scenarioId);
    assert r.scenarioId in b.scenarios + c.scenarios;
    NewCriticalRises(before, after, k, r);
    RisenMember(before, after, CRITICAL, Identities(before, after), k);
    RisenOverMember(b.runs, c.runs, CRITICAL, ScenarioIds(b, c), r.scenarioId);
    NewCountsExact(b, c, config);
    PassesExactly(config, ItemsOf(b, c, config).value);
  }

  /** What two summaries of n and m runs must show to be within every threshold in force. */
  predicate SummariesPass(b: Summary, c: Summary, n: nat, m: nat, t: Thresholds, excluded: set<Metric>) {
    && c.passRate >= t.minimumPassRate
    && b.passRate - c.passRate <= t.maximumPassRateDecrease
    && c.infrastructureRate <= t.maximumInfrastructureRate
    && (LATENCY in excluded || Within(c.p50, b.p50, t.maximumP50Increase))
    && (LATENCY in excluded || Within(c.p95, b.p95, t.maximumP95Increase))
    && (TOKENS in excluded || Within(Counted(c.tokens) as real, Counted(b.tokens) as real, t.maximumTokenIncrease))
    && (COST in excluded || Within(Counted(c.cost) as real, Counted(b.cost) as real, t.maximumCostIncrease))
    && (t.lowSampleFails ==> n >= t.minimumRepetitions && m >= t.minimumRepetitions)
  }

  /** What counts as a regression between two summaries of n and m runs. */
  predicate SummariesRegress(b: Summary, c: Summary, n: nat, m: nat, t: Thresholds, excluded: set<Metric>) {
    || c.passRate < t.minimumPassRate
    || b.passRate - c.passRate > t.maximumPassRateDecrease
    || c.infrastructureRate > t.maximumInfrastructureRate
    || (LATENCY !in excluded && c.p50 > b.p50 * (1.0 + t.maximumP50Increase))
    || (LATENCY !in excluded && c.p95 > b.p95 * (1.0 + t.maximumP95Increase))
    || (TOKENS !in excluded && Counted(c.tokens) as real > Counted(b.tokens) as real * (1.0 + t.maximumTokenIncrease))
    || (COST !in excluded && Counted(c.cost) as real > Counted(b.cost) as real * (1.0 + t.maximumCostIncrease))
    || (t.lowSampleFails && (n < t.minimumRepetitions || m < t.minimumRepetitions))
  }

  lemma BeyondExactly(after: real, before: real, increase: excess)
    ensures after > before * (1.0 + increase) <==> !Within(after, before, increase)
  {
  }

  lemma RegressExactly(b: Summary, c: Summary, n: nat, m: nat, t: Thresholds, excluded: set<Metric>)
    ensures SummariesRegress(b, c, n, m, t, excluded) <==> !SummariesPass(b, c, n, m, t, excluded)
  {
    BeyondExactly(c.p50, b.p50, t.maximumP50Increase);
    BeyondExactly(c.p95, b.p95, t.maximumP95Increase);
    BeyondExactly(Counted(c.tokens) as real, Counted(b.tokens) as real, t.maximumTokenIncrease);
    BeyondExactly(Counted(c.cost) as real, Counted(b.cost) as real, t.maximumCostIncrease);
  }

  predicate GroupsPass(before: seq<RunRecord>, after: seq<RunRecord>, t: Thresholds, excluded: set<Metric>) {
    SummariesPass(Summarize(before, t.minimumRepetitions), Summarize(after, t.minimumRepetitions), |before|, |after|, t, excluded)
  }

  lemma DescribedPasses(item: ScenarioComparison, global: Global, before: seq<RunRecord>, after: seq<RunRecord>, t: Thresholds, excluded: set<Metric>)
    requires Describes(item, global, before, after, t)
    ensures ItemPasses(item, t, excluded) <==> GroupsPass(before, after, t, excluded)
  {
  }

  lemma GroupsMustPass(b: Suite, c: Suite, config: Config, id: string)
    requires CompareSuites(b, c, config).Some? && CompareSuites(b, c, config).value.verdict.passed
    requires id in b.scenarios || id in c.scenarios
    ensures var before, after := RunsOf(b.runs, id), RunsOf(c.runs, id);
      GroupsPass(before, after, EffectiveConfig(config, id, TagNames(before, after)), config.excluded)
  {
    var items, ids := ItemsOf(b, c, config).value, ScenarioIds(b, c);
    assert id in b.scenarios + c.scenarios;
    var i :| 0 <= i < |ids| && ids[i] == id;
    ItemDescribed(b, c, config, i);
    PassesExactly(config, items);
    DescribedPasses(items[i], GlobalOf(b, c), RunsOf(b.runs, id), RunsOf(c.runs, id), EffectiveAt(config, items[i]), config.excluded);
  }

  /** A regression beyond any threshold in force for a listed scenario, in latency, tokens or cost where
      the metric is not excluded, in pass rate, infrastructure errors or sample size, fails the gate. */
  lemma RegressionFails(b: Suite, c: Suite, config: Config, id: string)
    requires CompareSuites(b, c, config).Some?
    requires id in b.scenarios || id in c.scenarios
    requires var before, after := RunsOf(b.runs, id), RunsOf(c.runs, id);
      var t := EffectiveConfig(config, id, TagNames(before, after));
      SummariesRegress(Summarize(before, t.minimumRepetitions), Summarize(after, t.minimumRepetitions), |before|, |after|, t, config.excluded)
    ensures !CompareSuites(b, c, config).value.verdict.passed
  {
    var before, after := RunsOf(b.runs, id), RunsOf(c.runs, id);
    var t := EffectiveConfig(config, id, TagNames(before, after));
    RegressExactly(Summarize(before, t.minimumRepetitions), Summarize(after, t.minimumRepetitions), |before|, |after|, t, config.excluded);
    if CompareSuites(b, c, config).value.verdict.passed {
      GroupsMustPass(b, c, config, id);
    }
  }

  // ---------- Monotonicity ----------

  /** Every threshold of `t'` is at least as lenient as that of `t`. */
  predicate Looser(t: Thresholds, t': Thresholds) {
    && t.criticalAllowed <= t'.criticalAllowed && t.highAllowed <= t'.highAllowed
    && t.minimumPassRate >= t'.minimumPassRate && t.maximumPassRateDecrease <= t'.maximumPassRateDecrease
    && t.maximumFlakinessIncrease <= t'.maximumFlakinessIncrease && t.maximumInfrastructureRate <= t'.maximumInfrastructureRate
    && t.maximumP50Increase <= t'.maximumP50Increase && t.maximumP95Increase <= t'.maximumP95Increase
    && t.maximumTokenIncrease <= t'.maximumTokenIncrease && t.maximumCostIncrease <= t'.maximumCostIncrease
    && t.minimumRepetitions >= t'.minimumRepetitions
    && (t'.lowSampleFails ==> t.lowSampleFails) && (t.allowHashMismatch ==> t'.allowHashMismatch)
  }

  /** The configuration is relaxed for every scenario and every set of tags. */
  ghost predicate Relaxed(config: Config, config': Config) {
    && Looser(config.own, config'.own) && config.excluded <= config'.excluded
    && forall id, tags :: Looser(EffectiveConfig(config, id, tags), EffectiveConfig(config', id, tags))
  }

  /** Relaxing the configuration's own thresholds while keeping its overrides relaxes it everywhere. */
  lemma OwnRelaxed(config: Config, own: Thresholds)
    requires Looser(config.own, own)
    ensures Relaxed(config, config.(own := own))
  {
    forall id, tags ensures Looser(EffectiveConfig(config, id, tags), EffectiveConfig(config.(own := own), id, tags)) {
      var names := SortedUnique(tags);
      TagsRelaxed(config.own, own, config.tagOverrides, names);
      OverrideRelaxed(OverrideTags(config.own, config.tagOverrides, names), OverrideTags(own, config.tagOverrides, names),
                      config.scenarioOverrides, id);
    }
  }

  lemma OverrideRelaxed(t: Thresholds, t': Thresholds, patches: map<string, Patch>, name: string)
    requires Looser(t, t')
    ensures Looser(Override(t, patches, name), Override(t', patches, name))
  {
  }

  lemma {:induction false} TagsRelaxed(t: Thresholds, t': Thresholds, patches: map<string, Patch>, tags: seq<string>)
    requires Looser(t, t')
    ensures Looser(OverrideTags(t, patches, tags), OverrideTags(t', patches, tags))
  {
    if tags != [] {
      var rest := tags[..|tags| - 1];
      TagsRelaxed(t, t', patches, rest);
      OverrideRelaxed(OverrideTags(t, patches, rest), OverrideTags(t', patches, rest), patches, tags[|tags| - 1]);
    }
  }

  lemma WithinMore(after: real, before: real, increase: excess, increase': excess)
    requires before >= 0.0 && increase <= increase' && Within(after, before, increase)
    ensures Within(after, before, increase')
  {
    ProductNonNegative(before, increase' - increase);
    assert before * (1.0 + increase') - before * (1.0 + increase) == before * (increase' - increase);
  }

  lemma SameGroupsPass(item: ScenarioComparison, item': ScenarioComparison, global: Global, before: seq<RunRecord>,
                       after: seq<RunRecord>, t: Thresholds, t': Thresholds, excluded: set<Metric>, excluded': set<Metric>)
    requires Describes(item, global, before, after, t) && Describes(item', global, before, after, t')
    requires Looser(t, t') && excluded <= excluded'
    requires item.level != INCOMPATIBLE && ItemPasses(item, t, excluded)
    ensures item'.level != INCOMPATIBLE && ItemPasses(item', t', excluded')
  {
    var b := item.baseline;
    SummarySane(before, t.minimumRepetitions);
    SameMeasures(before, t.minimumRepetitions, t'.minimumRepetitions);
    SameMeasures(after, t.minimumRepetitions, t'.minimumRepetitions);
    if LATENCY !in excluded' {
      WithinMore(item.candidate.p50, b.p50, t.maximumP50Increase, t'.maximumP50Increase);
      WithinMore(item.candidate.p95, b.p95, t.maximumP95Increase, t'.maximumP95Increase);
    }
    if TOKENS !in excluded' {
      WithinMore(Counted(item.candidate.tokens) as real, Counted(b.tokens) as real, t.maximumTokenIncrease, t'.maximumTokenIncrease);
    }
    if COST !in excluded' {
      WithinMore(Counted(item.candidate.cost) as real, Counted(b.cost) as real, t.maximumCostIncrease, t'.maximumCostIncrease);
    }
  }

  lemma SameMeasures(runs: seq<RunRecord>, minimum: int, minimum': int)
    requires minimum >= minimum'
    ensures Summarize(runs, minimum') == Summarize(runs, minimum).(lowSample := Summarize(runs, minimum').lowSample)
    ensures Summarize(runs, minimum').lowSample ==> Summarize(runs, minimum).lowSample
  {
  }

  /** Relaxing thresholds never turns a produced pass into a fail. */
  lemma GateMonotone(b: Suite, c: Suite, config: Config, config': Config)
    requires Relaxed(config, config')
    requires CompareSuites(b, c, config).Some? && CompareSuites(b, c, config').Some?
    requires CompareSuites(b, c, config).value.verdict.passed
    ensures CompareSuites(b, c, config').value.verdict.passed
  {
    var items, items', ids := ItemsOf(b, c, config).value, ItemsOf(b, c, config').value, ScenarioIds(b, c);
    PassesExactly(config, items);
    PassesExactly(config', items');
    NewCountsExact(b, c, config);
    NewCountsExact(b, c, config');
    forall i | 0 <= i < |items'|
      ensures items'[i].level != INCOMPATIBLE && ItemPasses(items'[i], EffectiveAt(config', items'[i]), config'.excluded)
    {
      ItemDescribed(b, c, config, i);
      ItemDescribed(b, c, config', i);
      assert items[i] in items;
      SameGroupsPass(items[i], items'[i], GlobalOf(b, c), RunsOf(b.runs, ids[i]), RunsOf(c.runs, ids[i]),
                     EffectiveAt(config, items[i]), EffectiveAt(config', items'[i]), config.excluded, config'.excluded);
    }
  }
}
