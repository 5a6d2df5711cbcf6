/** The two allowances for new failures are the suite's own: no override of them is ever read. */
module GateAllowances {
  import opened Wrappers
  import opened Statistics
  import opened Collections
  import opened Comparison
  import opened ComparisonLaws
  import opened GateLaws
  import opened GateCases

  // ---------- Overrides of the allowances have no effect ----------

  const NO_PATCH: Patch := Patch(None, None, None, None, None, None, None, None, None, None, None, None, None)

  function PatchAt(patches: map<string, Patch>, name: string): Patch {
    if name in patches then patches[name] else NO_PATCH
  }

  /** The same thresholds, except perhaps for the two allowances. */
  predicate SameButAllowances(t: Thresholds, t': Thresholds) {
    t' == t.(criticalAllowed := t'.criticalAllowed, highAllowed := t'.highAllowed)
  }

  /** The same overrides under every name, except perhaps for the two allowances. */
  ghost predicate SameButAllowanceOverrides(patches: map<string, Patch>, patches': map<string, Patch>) {
    forall name :: var p, p' := PatchAt(patches, name), PatchAt(patches', name);
      p' == p.(criticalAllowed := p'.criticalAllowed, highAllowed := p'.highAllowed)
  }

  lemma OverrideAgrees(t: Thresholds, t': Thresholds, patches: map<string, Patch>, patches': map<string, Patch>, name: string)
    requires SameButAllowances(t, t') && SameButAllowanceOverrides(patches, patches')
    ensures SameButAllowances(Override(t, patches, name), Override(t', patches', name))
  {
    var p, p' := PatchAt(patches, name), PatchAt(patches', name);
    assert p' == p.(criticalAllowed := p'.criticalAllowed, highAllowed := p'.highAllowed);
    assert Override(t, patches, name) == Patched(t, p) && Override(t', patches', name) == Patched(t', p');
  }

  lemma {:induction false} TagsAgree(t: Thresholds, patches: map<string, Patch>, patches': map<string, Patch>, tags: seq<string>)
    requires SameButAllowanceOverrides(patches, patches')
    ensures SameButAllowances(OverrideTags(t, patches, tags), OverrideTags(t, patches', tags))
  {
    if tags != [] {
      var n := |tags| - 1;
      TagsAgree(t, patches, patches', tags[..n]);
      OverrideAgrees(OverrideTags(t, patches, tags[..n]), OverrideTags(t, patches', tags[..n]), patches, patches', tags[n]);
    }
  }

  /** Two configurations that differ at most in the allowances their overrides set. */
  ghost predicate DifferInAllowanceOverrides(config: Config, config': Config) {
    && config'.own == config.own && config'.excluded == config.excluded
    && SameButAllowanceOverrides(config.tagOverrides, config'.tagOverrides)
    && SameButAllowanceOverrides(config.scenarioOverrides, config'.scenarioOverrides)
  }

  lemma EffectiveAgrees(config: Config, config': Config, id: string, tags: seq<string>)
    requires DifferInAllowanceOverrides(config, config')
    ensures SameButAllowances(EffectiveConfig(config, id, tags), EffectiveConfig(config', id, tags))
  {
    var names := SortedUnique(tags);
    TagsAgree(config.own, config.tagOverrides, config'.tagOverrides, names);
    OverrideAgrees(OverrideTags(config.own, config.tagOverrides, names), OverrideTags(config.own, config'.tagOverrides, names),
                   config.scenarioOverrides, config'.scenarioOverrides, id);
  }

  lemma OperationsAgree(b: Summary, c: Summary, t: Thresholds, t': Thresholds)
    requires SameButAllowances(t, t')
    ensures OperationalFindings(b, c, t) == OperationalFindings(b, c, t')
  {
  }

  lemma FindingsAgree(b: Summary, c: Summary, level: Level, changed: bool, t: Thresholds, t': Thresholds)
    requires SameButAllowances(t, t')
    ensures Findings(b, c, level, changed, t) == Findings(b, c, level, changed, t')
  {
    OperationsAgree(b, c, t, t');
  }

  lemma ConcludeAgrees(id: string, level: Level, reasons: seq<CompatReason>, b: Summary, c: Summary, deltas: seq<FailureDelta>,
                       tags: seq<string>, t: Thresholds, t': Thresholds)
    requires SameButAllowances(t, t')
    ensures Conclude(id, level, reasons, b, c, deltas, tags, t) == Conclude(id, level, reasons, b, c, deltas, tags, t')
  {
    FindingsAgree(b, c, level, deltas != [], t, t');
  }

  lemma GroupsAgree(global: Global, id: string, before: seq<RunRecord>, after: seq<RunRecord>, t: Thresholds, t': Thresholds)
    requires SameButAllowances(t, t')
    ensures CompareGroups(global, id, before, after, t) == CompareGroups(global, id, before, after, t')
  {
    var missing, local := before == [] || after == [], LevelOf(before, after, t.allowHashMismatch);
    ConcludeAgrees(id, FinalLevel(local, global, missing), FinalReasons(local, GroundsOf(before, after), global, missing),
                   Summarize(before, t.minimumRepetitions), Summarize(after, t.minimumRepetitions),
                   FailureDeltas(before, after), TagNames(before, after), t, t');
  }

  lemma ScenarioAgrees(global: Global, b: seq<RunRecord>, c: seq<RunRecord>, config: Config, config': Config, id: string)
    requires DifferInAllowanceOverrides(config, config')
    ensures ScenarioUnder(global, b, c, config)(id) == ScenarioUnder(global, b, c, config')(id)
  {
    var before, after := RunsOf(b, id), RunsOf(c, id);
    EffectiveAgrees(config, config', id, TagNames(before, after));
    GroupsAgree(global, id, before, after, EffectiveConfig(config, id, TagNames(before, after)),
                EffectiveConfig(config', id, TagNames(before, after)));
  }

  lemma ReasonsAgree(item: ScenarioComparison, t: Thresholds, t': Thresholds, excluded: set<Metric>)
    requires SameButAllowances(t, t')
    ensures ReasonsAt(item, t, excluded) == ReasonsAt(item, t', excluded) && WarningsAt(item, t) == WarningsAt(item, t')
  {
  }

  lemma ReportAgrees(config: Config, config': Config, items: seq<ScenarioComparison>)
    requires DifferInAllowanceOverrides(config, config')
    ensures ReportOf(config, items) == ReportOf(config', items)
  {
    forall i | 0 <= i < |items|
      ensures ReasonsUnder(config)(items[i]) == ReasonsUnder(config')(items[i])
      ensures WarningsUnder(config)(items[i]) == WarningsUnder(config')(items[i])
    {
      EffectiveAgrees(config, config', items[i].scenarioId, items[i].tags);
      ReasonsAgree(items[i], EffectiveAt(config, items[i]), EffectiveAt(config', items[i]), config.excluded);
    }
    FlatSame(ReasonsUnder(config), ReasonsUnder(config'), items);
    FlatSame(WarningsUnder(config), WarningsUnder(config'), items);
  }

  /** Overriding an allowance for a tag or a scenario changes nothing: the whole report, or its
      absence, is the same for every pair of suites. */
  lemma AllowanceOverridesIgnored(b: Suite, c: Suite, config: Config, config': Config)
    requires DifferInAllowanceOverrides(config, config')
    ensures CompareSuites(b, c, config) == CompareSuites(b, c, config')
  {
    var f, f' := ScenarioUnder(GlobalOf(b, c), b.runs, c.runs, config), ScenarioUnder(GlobalOf(b, c), b.runs, c.runs, config');
    var ids := ScenarioIds(b, c);
    forall i | 0 <= i < |ids| ensures f(ids[i]) == f'(ids[i]) {
      ScenarioAgrees(GlobalOf(b, c), b.runs, c.runs, config, config', ids[i]);
    }
    TryMapSame(f, f', ids);
    if TryMap(f, ids).Some? {
      ReportAgrees(config, config', TryMap(f, ids).value);
    }
  }

  // A pair of suites whose verdict an effective override would have changed: one run, critical and new.

  const CLEAN: Suite := Suite("world", "worker", ["s"], [GOOD])
  const BROKEN: Suite := Suite("world", "worker", ["s"], [BAD])
  const ONE_ALLOWED: Patch := NO_PATCH.(criticalAllowed := Some(1))
  const OVERRIDDEN: Config := LENIENT.(scenarioOverrides := map["s" := ONE_ALLOWED])
  const ALLOWING: Config := LENIENT.(own := LENIENT.own.(criticalAllowed := 1))

  lemma OnlyScenario(config: Config)
    ensures ScenarioIds(CLEAN, BROKEN) == ["s"]
    ensures RunsOf(CLEAN.runs, "s") == [GOOD] && RunsOf(BROKEN.runs, "s") == [BAD]
    ensures CompareSuites(CLEAN, BROKEN, config).Some?
  {
    assert ["s"] + ["s"] == ["s", "s"] && ["s", "s"][1..] == ["s"] && ["s"][1..] == [];
    assert SortedUnique(["s"]) == ["s"] && SortedUnique(["s", "s"]) == ["s"];
    OneScenario(CLEAN.runs, "s");
    OneScenario(BROKEN.runs, "s");
    OneRun(GOOD, EffectiveConfig(config, "s", TagNames([GOOD], [BAD])).minimumRepetitions);
    ReportAbsentExactly(CLEAN, BROKEN, config);
  }

  lemma OneRun(r: RunRecord, minimum: int)
    requires r == GOOD || r == BAD
    ensures var s := Summarize([r], minimum);
      && s.passRate == (if r == GOOD then 1.0 else 0.0) && s.infrastructureRate == 0.0
      && s.p50 == 0.0 && s.p95 == 0.0 && Or(s.tokens, 0) == 0 && Or(s.cost, 0) == 0
  {
    assert [r][..0] == [];
    assert FAILING in BAD.verdicts && !FAILING.Tolerated() && GOOD.Passed();
    SampledFast([r], 0.5);
    SampledFast([r], 0.95);
    SumZero(InfrastructureOne, [r]);
    SumZero(CostOf, [r]);
    SumZero(TokensOf, [r]);
    SummaryFields([r], minimum);
  }

  lemma KeysOfOne(r: RunRecord, v: Verdict)
    requires r.verdicts == [v]
    ensures ModeKeys([r]) == if v.status != PASS then [KeyOf(v)] else []
  {
    assert [r][..0] == [] && [v][..0] == [];
    assert ModeKeys([]) == [] && FailedKeys([]) == [];
    assert FailedKeys([v]) == if v.status != PASS then [KeyOf(v)] else [];
  }

  lemma OneIdentity()
    ensures Identities([GOOD], [BAD]) == [KeyOf(FAILING)]
  {
    var k := KeyOf(FAILING);
    KeysOfOne(GOOD, PASSING);
    KeysOfOne(BAD, FAILING);
    assert ModeKeys([GOOD]) + ModeKeys([BAD]) == [k];
    SortedOne(k);
  }

  lemma SortedOne(name: string)
    ensures SortedUnique([name]) == [name]
  {
    assert [name][1..] == [];
    assert SortedUnique([name][1..]) == [];
  }

  lemma OneRiser()
    ensures RisenIn([GOOD], [BAD], CRITICAL, Identities([GOOD], [BAD])) <= 1
    ensures RisenIn([GOOD], [BAD], HIGH, Identities([GOOD], [BAD])) == 0
  {
    var k := KeyOf(FAILING);
    OneIdentity();
    FailedOne(FAILING);
    CriticalEvidence([GOOD], [BAD], k, BAD);
    assert [k][..0] == [];
    assert RisenIn([GOOD], [BAD], CRITICAL, [k]) == Risen([GOOD], [BAD], CRITICAL, k);
    assert RisenIn([GOOD], [BAD], HIGH, [k]) == Risen([GOOD], [BAD], HIGH, k);
  }

  lemma PairLevel()
    ensures LevelOf([GOOD], [BAD], false) == COMPATIBLE && GlobalOf(CLEAN, BROKEN) == Global([], false)
  {
    SampledUniform([GOOD] + [BAD]);
    SampledUniform([GOOD]);
    SampledUniform([BAD]);
  }

  lemma IdlePasses(item: ScenarioComparison)
    requires var b, c := item.baseline, item.candidate;
      && c.passRate == 0.0 && b.passRate == 1.0 && item.passRateDelta == -1.0 && c.infrastructureRate == 0.0
      && c.p50 == 0.0 && b.p50 == 0.0 && c.p95 == 0.0 && b.p95 == 0.0
      && Or(c.tokens, 0) == 0 && Or(b.tokens, 0) == 0 && Or(c.cost, 0) == 0 && Or(b.cost, 0) == 0
    ensures ItemPasses(item, ALLOWING.own, {})
  {
    NoOwnExcess(0.0, 1.0);
  }

  lemma PairPasses(item: ScenarioComparison)
    requires Describes(item, Global([], false), [GOOD], [BAD], ALLOWING.own)
    ensures item.level == COMPATIBLE && ItemPasses(item, ALLOWING.own, {})
  {
    PairLevel();
    OneRun(GOOD, 2);
    OneRun(BAD, 2);
    IdlePasses(item);
  }

  lemma NewInPair(config: Config)
    requires CompareSuites(CLEAN, BROKEN, config).Some?
    ensures NewCritical(ItemsOf(CLEAN, BROKEN, config).value) <= 1 && NewHigh(ItemsOf(CLEAN, BROKEN, config).value) == 0
  {
    OnlyScenario(config);
    NewCountsExact(CLEAN, BROKEN, config);
    OneRiser();
    RisenOverOne(CLEAN.runs, BROKEN.runs, CRITICAL, "s");
    RisenOverOne(CLEAN.runs, BROKEN.runs, HIGH, "s");
  }

  lemma RisenOverOne(b: seq<RunRecord>, c: seq<RunRecord>, severity: Severity, id: string)
    ensures RisenOver(b, c, severity, [id]) == RisenIn(RunsOf(b, id), RunsOf(c, id), severity, Identities(RunsOf(b, id), RunsOf(c, id)))
  {
    assert [id][..0] == [];
    assert RisenOver(b, c, severity, [id][..0]) == 0;
  }

  lemma PairItem()
    ensures ItemsOf(CLEAN, BROKEN, ALLOWING).Some? && |ItemsOf(CLEAN, BROKEN, ALLOWING).value| == 1
    ensures var item := ItemsOf(CLEAN, BROKEN, ALLOWING).value[0];
      item.level == COMPATIBLE && ReasonsUnder(ALLOWING)(item) == []
  {
    OnlyScenario(ALLOWING);
    PairLevel();
    var item := ItemsOf(CLEAN, BROKEN, ALLOWING).value[0];
    ItemDescribed(CLEAN, BROKEN, ALLOWING, 0);
    NoTags(ALLOWING.own, SortedUnique(item.tags));
    PairPasses(item);
    ItemPassesExactly(item, ALLOWING.own, {});
  }

  lemma FlatOne<T, U>(f: T -> seq<U>, items: seq<T>)
    requires |items| == 1 && f(items[0]) == []
    ensures FlatBy(f, items) == []
  {
    assert items[..0] == [];
    assert FlatBy(f, items[..0]) == [];
  }

  lemma OneItemPasses(config: Config, items: seq<ScenarioComparison>)
    requires |items| == 1 && items[0].level == COMPATIBLE && ReasonsUnder(config)(items[0]) == []
    requires NewCritical(items) <= config.own.criticalAllowed && NewHigh(items) <= config.own.highAllowed
    ensures ReportOf(config, items).verdict.passed
  {
    FlatOne(ReasonsUnder(config), items);
    assert !AnyIncompatible(items);
  }

  /** Allowing one new critical failure suite-wide passes the pair. */
  lemma PairAllowed()
    ensures CompareSuites(CLEAN, BROKEN, ALLOWING).Some? && CompareSuites(CLEAN, BROKEN, ALLOWING).value.verdict.passed
  {
    PairItem();
    NewInPair(ALLOWING);
    OneItemPasses(ALLOWING, ItemsOf(CLEAN, BROKEN, ALLOWING).value);
  }

  /** Allowing it for the only scenario instead does not, although that is the scenario's effective
      allowance under every list of tags: the override is not read. */
  lemma OverrideWouldMatter()
    ensures forall tags :: EffectiveConfig(OVERRIDDEN, "s", tags).criticalAllowed == 1
    ensures CompareSuites(CLEAN, BROKEN, OVERRIDDEN).Some?
    ensures !CompareSuites(CLEAN, BROKEN, OVERRIDDEN).value.verdict.passed
    ensures CompareSuites(CLEAN, BROKEN, ALLOWING).Some?
    ensures CompareSuites(CLEAN, BROKEN, ALLOWING).value.verdict.passed
  {
    PairAllowed();
    OnlyScenario(OVERRIDDEN);
    FailedOne(PASSING);
    FailedOne(FAILING);
    NewCriticalFails(CLEAN, BROKEN, OVERRIDDEN, BAD, KeyOf(FAILING));
  }
}
