/** What the levels, reasons and warnings of a comparison say about the runs. */
module GateReasons {
  import opened Wrappers
  import opened Collections
  import opened Comparison
  import opened GateLaws
  import opened GateOrder

  // ---------- Versions ----------

  /** The part of a version before its first dot, or all of it. */
  lemma {:induction false} BeforeDotExactly(version: string)
    ensures BeforeDot(version) <= version && '.' !in BeforeDot(version)
    ensures |BeforeDot(version)| < |version| ==> version[|BeforeDot(version)|] == '.'
  {
    if version != "" && version[0] != '.' {
      BeforeDotExactly(version[1..]);
      assert version == [version[0]] + version[1..];
    }
  }

  lemma MajorExactly(version: Option<string>)
    ensures Major(version) == match version
      case None => None
      case Some(text) => if text == "" then None else Some(BeforeDot(text))
  {
  }

  lemma MoreThanOne<T>(s: set<T>)
    ensures |s| > 1 <==> exists x, y :: x in s && y in s && x != y
  {
    if x, y :| x in s && y in s && x != y {
      assert {x, y} <= s;
      assert |s - {x, y}| == |s| - |{x, y}|;
    } else if |s| > 0 {
      var x :| x in s;
      assert s == {x};
    }
  }

  lemma InFive<T>(a: seq<T>, b: seq<T>, c: seq<T>, d: seq<T>, e: seq<T>, x: T)
    ensures x in a + b + c + d + e <==> x in a || x in b || x in c || x in d || x in e
  {
  }

  // ---------- One scenario's groups ----------

  predicate NamesHash(runs: seq<RunRecord>, hash: string) {
    exists r :: r in runs && r.scenarioHash == Some(hash)
  }

  /** Some two of the runs disagree on the major version of their world. */
  predicate WorldsDisagree(runs: seq<RunRecord>) {
    exists r, r' :: r in runs && r' in runs && Major(r.worldVersion) != Major(r'.worldVersion)
  }

  predicate AdaptersDisagree(runs: seq<RunRecord>) {
    exists r, r' :: r in runs && r' in runs && r.adapter != r'.adapter
  }

  /** A non-empty content hash occurs on one side only. */
  ghost predicate HashesDisagree(before: seq<RunRecord>, after: seq<RunRecord>) {
    exists hash :: hash != "" && NamesHash(before, hash) != NamesHash(after, hash)
  }

  lemma WorldsExactly(runs: seq<RunRecord>)
    ensures MixedWorlds(runs) <==> WorldsDisagree(runs)
  {
    var majors := WorldMajors(runs);
    MoreThanOne(majors);
    if r, r' :| r in runs && r' in runs && Major(r.worldVersion) != Major(r'.worldVersion) {
      assert Major(r.worldVersion) in majors && Major(r'.worldVersion) in majors;
    }
  }

  lemma AdaptersExactly(runs: seq<RunRecord>)
    ensures MixedAdapters(runs) <==> AdaptersDisagree(runs)
  {
    var adapters := Adapters(runs);
    MoreThanOne(adapters);
    if r, r' :| r in runs && r' in runs && r.adapter != r'.adapter {
      assert r.adapter in adapters && r'.adapter in adapters;
    }
  }

  lemma HashListed(runs: seq<RunRecord>, hash: string)
    ensures hash in Hashes(runs) <==> hash != "" && NamesHash(runs, hash)
  {
  }

  lemma HashesExactly(before: seq<RunRecord>, after: seq<RunRecord>)
    ensures SameHashes(before, after) <==> !HashesDisagree(before, after)
  {
    forall hash ensures hash in Hashes(before) <==> hash != "" && NamesHash(before, hash) {
      HashListed(before, hash);
    }
    forall hash ensures hash in Hashes(after) <==> hash != "" && NamesHash(after, hash) {
      HashListed(after, hash);
    }
  }

  /** A verdict of either suite, one that names a policy where only those are asked for. */
  ghost predicate HasVersion(b: Suite, c: Suite, policyOnly: bool, version: string) {
    exists r, v :: (r in b.runs || r in c.runs) && v in r.verdicts && v.evaluatorVersion == version
                   && (policyOnly ==> v.policyName.Some? && v.policyName.value != "")
  }

  /** Two such verdicts were evaluated under different major versions. */
  ghost predicate MajorsDisagree(b: Suite, c: Suite, policyOnly: bool) {
    exists v, w :: HasVersion(b, c, policyOnly, v) && HasVersion(b, c, policyOnly, w) && Major(Some(v)) != Major(Some(w))
  }

  function VersionsOf(b: Suite, c: Suite, policyOnly: bool): set<string> {
    if policyOnly then PolicyVersions(b.runs + c.runs) else EvaluatorVersions(b.runs + c.runs)
  }

  lemma VersionListed(b: Suite, c: Suite, policyOnly: bool, version: string)
    ensures version in VersionsOf(b, c, policyOnly) <==> HasVersion(b, c, policyOnly, version)
  {
    var runs := b.runs + c.runs;
    assert forall r :: r in runs <==> r in b.runs || r in c.runs;
    if version in VersionsOf(b, c, policyOnly) {
      var r, v :| r in runs && v in r.verdicts && v.evaluatorVersion == version && (policyOnly ==> HasText(v.policyName));
      assert HasVersion(b, c, policyOnly, version);
    }
    if HasVersion(b, c, policyOnly, version) {
      var r, v :| (r in b.runs || r in c.runs) && v in r.verdicts && v.evaluatorVersion == version
                  && (policyOnly ==> v.policyName.Some? && v.policyName.value != "");
      assert r in runs;
    }
  }

  lemma MajorListed(versions: set<string>, major: Option<string>)
    ensures major in Majors(versions) <==> exists v :: v in versions && Major(Some(v)) == major
  {
  }

  lemma MajorsDiffer(versions: set<string>, has: string -> bool)
    requires forall v :: v in versions <==> has(v)
    ensures |Majors(versions)| > 1 <==> exists v, w :: has(v) && has(w) && Major(Some(v)) != Major(Some(w))
  {
    var majors := Majors(versions);
    MoreThanOne(majors);
    if x, y :| x in majors && y in majors && x != y {
      MajorListed(versions, x);
      MajorListed(versions, y);
      var v :| v in versions && Major(Some(v)) == x;
      var w :| w in versions && Major(Some(w)) == y;
      assert has(v) && has(w);
    }
    if v, w :| has(v) && has(w) && Major(Some(v)) != Major(Some(w)) {
      assert v in versions && w in versions;
      MajorListed(versions, Major(Some(v)));
      MajorListed(versions, Major(Some(w)));
    }
  }

  lemma MajorsExactly(b: Suite, c: Suite, policyOnly: bool)
    ensures |Majors(VersionsOf(b, c, policyOnly))| > 1 <==> MajorsDisagree(b, c, policyOnly)
  {
    var has := v => HasVersion(b, c, policyOnly, v);
    forall v ensures v in VersionsOf(b, c, policyOnly) <==> has(v) {
      VersionListed(b, c, policyOnly, v);
    }
    MajorsDiffer(VersionsOf(b, c, policyOnly), has);
  }

  /** Suites are globally incompatible exactly when their worlds differ, or two of their verdicts, or
      two of their policy verdicts, differ in major version. */
  lemma GlobalExactly(b: Suite, c: Suite)
    ensures GloballyIncompatible(b, c) <==> b.world != c.world || MajorsDisagree(b, c, true) || MajorsDisagree(b, c, false)
  {
    MajorsExactly(b, c, true);
    MajorsExactly(b, c, false);
  }

  /** Two such verdicts were evaluated under different versions of any kind. */
  ghost predicate VersionsDisagree(b: Suite, c: Suite, policyOnly: bool) {
    exists v, w :: HasVersion(b, c, policyOnly, v) && HasVersion(b, c, policyOnly, w) && v != w
  }

  lemma VersionsExactly(b: Suite, c: Suite, policyOnly: bool)
    ensures |VersionsOf(b, c, policyOnly)| > 1 <==> VersionsDisagree(b, c, policyOnly)
  {
    MoreThanOne(VersionsOf(b, c, policyOnly));
    forall v ensures v in VersionsOf(b, c, policyOnly) <==> HasVersion(b, c, policyOnly, v) {
      VersionListed(b, c, policyOnly, v);
    }
  }

  predicate EnvironmentsDisagree(runs: seq<RunRecord>) {
    exists r, r' :: r in runs && r' in runs && r.environment != r'.environment
  }

  lemma EnvironmentsExactly(runs: seq<RunRecord>)
    ensures |Environments(runs)| > 1 <==> EnvironmentsDisagree(runs)
  {
    MoreThanOne(Environments(runs));
    if r, r' :| r in runs && r' in runs && r.environment != r'.environment {
      assert r.environment in Environments(runs) && r'.environment in Environments(runs);
    }
  }

  lemma VersionReasonMeans(versions: set<string>, major: CompatReason, minor: CompatReason, reason: CompatReason)
    ensures reason in VersionReason(versions, major, minor) <==>
      (reason == major && |Majors(versions)| > 1) || (reason == minor && |Majors(versions)| <= 1 && |versions| > 1)
  {
  }

  /** Each reason that concerns the suites as a whole, exactly. */
  lemma GlobalReasonMeans(b: Suite, c: Suite, reason: CompatReason)
    ensures reason in GlobalReasons(b, c) <==> match reason
      case WorldsDiffer => b.world != c.world
      case PolicyMajorsDiffer => MajorsDisagree(b, c, true)
      case PolicyMinorsDiffer => VersionsDisagree(b, c, true) && !MajorsDisagree(b, c, true)
      case EvaluatorMajorsDiffer => MajorsDisagree(b, c, false)
      case EvaluatorMinorsDiffer => VersionsDisagree(b, c, false) && !MajorsDisagree(b, c, false)
      case WorkersDiffer => b.worker != c.worker
      case EnvironmentsDiffer => EnvironmentsDisagree(b.runs + c.runs)
      case _ => false
  {
    MajorsExactly(b, c, true);
    MajorsExactly(b, c, false);
    VersionsExactly(b, c, true);
    VersionsExactly(b, c, false);
    EnvironmentsExactly(b.runs + c.runs);
    VersionReasonMeans(PolicyVersions(b.runs + c.runs), PolicyMajorsDiffer, PolicyMinorsDiffer, reason);
    VersionReasonMeans(EvaluatorVersions(b.runs + c.runs), EvaluatorMajorsDiffer, EvaluatorMinorsDiffer, reason);
    InFive(Note(b.world != c.world, WorldsDiffer), VersionReason(PolicyVersions(b.runs + c.runs), PolicyMajorsDiffer, PolicyMinorsDiffer),
           VersionReason(EvaluatorVersions(b.runs + c.runs), EvaluatorMajorsDiffer, EvaluatorMinorsDiffer),
           Note(b.worker != c.worker, WorkersDiffer), Note(|Environments(b.runs + c.runs)| > 1, EnvironmentsDiffer), reason);
  }

  lemma GroundMembers(complete: bool, mixedWorlds: bool, sameHashes: bool, mixedAdapters: bool, reason: CompatReason)
    ensures reason in Grounds(complete, mixedWorlds, sameHashes, mixedAdapters) <==> match reason
      case EvidenceIncomplete => !complete
      case WorldMajorsDiffer => mixedWorlds
      case HashesDiffer => !sameHashes
      case AdaptersDiffer => complete && !mixedWorlds && sameHashes && mixedAdapters
      case _ => false
  {
  }

  /** Each reason that concerns one scenario's runs, exactly; differing adapters are reported only
      when nothing else about those runs is. */
  lemma GroundMeans(before: seq<RunRecord>, after: seq<RunRecord>, reason: CompatReason)
    ensures reason in GroundsOf(before, after) <==> match reason
      case EvidenceIncomplete => exists r :: r in before + after && r.incompleteEvidence
      case WorldMajorsDiffer => WorldsDisagree(before + after)
      case HashesDiffer => HashesDisagree(before, after)
      case AdaptersDiffer =>
        && (forall r :: r in before + after ==> !r.incompleteEvidence)
        && !WorldsDisagree(before + after) && !HashesDisagree(before, after) && AdaptersDisagree(before + after)
      case _ => false
  {
    GroundMembers(Complete(before + after), MixedWorlds(before + after), SameHashes(before, after), MixedAdapters(before + after), reason);
    WorldsExactly(before + after);
    HashesExactly(before, after);
    AdaptersExactly(before + after);
  }

  /** A scenario is incompatible exactly when one side has no runs, the suites are globally
      incompatible, some run's evidence is incomplete, two runs disagree on the world's major version,
      or a content hash is on one side only and that is not allowed. */
  lemma IncompatibleExactly(item: ScenarioComparison, b: Suite, c: Suite, before: seq<RunRecord>, after: seq<RunRecord>, t: Thresholds)
    requires Describes(item, GlobalOf(b, c), before, after, t)
    ensures item.level == INCOMPATIBLE <==>
      || before == [] || after == []
      || b.world != c.world || MajorsDisagree(b, c, true) || MajorsDisagree(b, c, false)
      || (exists r :: r in before + after && r.incompleteEvidence)
      || WorldsDisagree(before + after)
      || (HashesDisagree(before, after) && !t.allowHashMismatch)
  {
    GlobalExactly(b, c);
    if GloballyIncompatible(b, c) {
      GlobalIncompatibleSays(b, c);
    }
    WorldsExactly(before + after);
    HashesExactly(before, after);
    ReasonsExplainLevel(GlobalOf(b, c), before == [] || after == [], Complete(before + after), MixedWorlds(before + after),
                        SameHashes(before, after), MixedAdapters(before + after), t.allowHashMismatch);
  }

  lemma FinalReasonMeans(local: Level, grounds: seq<CompatReason>, global: Global, missing: bool, reason: CompatReason)
    requires global.incompatible ==> global.reasons != []
    ensures reason in FinalReasons(local, grounds, global, missing) <==>
      || reason in grounds || (reason in global.reasons && (global.incompatible || local == COMPATIBLE))
      || (reason == ScenarioMissing && missing)
  {
    InThree(grounds, if global.incompatible || (global.reasons != [] && local == COMPATIBLE) then global.reasons else [],
            Note(missing, ScenarioMissing), reason);
  }

  /** The reasons a scenario's comparison lists: its own, those of the suites where they decide its
      level, and a missing side. */
  lemma ScenarioReasonsExactly(item: ScenarioComparison, b: Suite, c: Suite, before: seq<RunRecord>, after: seq<RunRecord>,
                               t: Thresholds, reason: CompatReason)
    requires Describes(item, GlobalOf(b, c), before, after, t)
    ensures reason in item.reasons <==>
      || reason in GroundsOf(before, after)
      || (reason in GlobalReasons(b, c)
          && (b.world != c.world || MajorsDisagree(b, c, true) || MajorsDisagree(b, c, false)
              || LevelOf(before, after, t.allowHashMismatch) == COMPATIBLE))
      || (reason == ScenarioMissing && (before == [] || after == []))
  {
    GlobalExactly(b, c);
    if GloballyIncompatible(b, c) {
      GlobalIncompatibleSays(b, c);
    }
    FinalReasonMeans(LevelOf(before, after, t.allowHashMismatch), GroundsOf(before, after), GlobalOf(b, c), before == [] || after == [], reason);
  }

  lemma InThree<T>(a: seq<T>, b: seq<T>, c: seq<T>, x: T)
    ensures x in a + b + c <==> x in a || x in b || x in c
  {
  }

  // ---------- Reasons and warnings of the verdict ----------

  lemma {:induction false} FlatMember<T, U>(f: T -> seq<U>, items: seq<T>, x: U)
    ensures x in FlatBy(f, items) <==> exists i :: 0 <= i < |items| && x in f(items[i])
  {
    if items != [] {
      FlatMember(f, items[..|items| - 1], x);
    }
  }

  /** The condition under which a scenario's verdict gives a warning. */
  predicate Warns(item: ScenarioComparison, t: Thresholds, warning: Reason) {
    || (warning == VariabilityIncreased(item.scenarioId) && item.flakinessDelta > t.maximumFlakinessIncrease)
    || (warning == LowSample(item.scenarioId) && (item.baseline.lowSample || item.candidate.lowSample) && !t.lowSampleFails)
  }

  lemma WarningMeans(item: ScenarioComparison, t: Thresholds, warning: Reason)
    ensures warning in WarningsAt(item, t) <==> Warns(item, t, warning)
  {
  }

  /** Each warning of the verdict, exactly by the scenario it is about. */
  lemma WarningsExactly(config: Config, items: seq<ScenarioComparison>, warning: Reason)
    ensures warning in ReportOf(config, items).verdict.warnings <==>
      exists i :: 0 <= i < |items| && Warns(items[i], EffectiveAt(config, items[i]), warning)
  {
    forall i | 0 <= i < |items|
      ensures warning in WarningsUnder(config)(items[i]) <==> Warns(items[i], EffectiveAt(config, items[i]), warning)
    {
      WarningMeans(items[i], EffectiveAt(config, items[i]), warning);
    }
    FlatMember(WarningsUnder(config), items, warning);
  }

  lemma SuiteReasonMembers(config: Config, items: seq<ScenarioComparison>, reason: Reason)
    ensures reason in SuiteReasons(config, items) <==>
      || (reason == IncompatibleArtifacts && exists item :: item in items && item.level == INCOMPATIBLE)
      || (reason == CriticalExceeds(NewCritical(items), config.own.criticalAllowed) && NewCritical(items) > config.own.criticalAllowed)
      || (reason == HighExceeds(NewHigh(items), config.own.highAllowed) && NewHigh(items) > config.own.highAllowed)
  {
    SaidThree(AnyIncompatible(items), IncompatibleArtifacts,
              NewCritical(items) > config.own.criticalAllowed, CriticalExceeds(NewCritical(items), config.own.criticalAllowed),
              NewHigh(items) > config.own.highAllowed, HighExceeds(NewHigh(items), config.own.highAllowed), reason);
  }

  lemma SaidThree(first: bool, a: Reason, second: bool, b: Reason, third: bool, c: Reason, x: Reason)
    ensures x in Say(first, a) + Say(second, b) + Say(third, c) <==>
      (first && x == a) || (second && x == b) || (third && x == c)
  {
  }

  /** The condition under which a scenario's verdict gives a reason. */
  predicate Fires(item: ScenarioComparison, t: Thresholds, excluded: set<Metric>, reason: Reason) {
    var b, c := item.baseline, item.candidate;
    match reason
    case PassRateBelow(id) => id == item.scenarioId && c.passRate < t.minimumPassRate
    case PassRateDecreased(id) => id == item.scenarioId && item.passRateDelta + t.maximumPassRateDecrease < 0.0
    case InfrastructureRateAbove(id) => id == item.scenarioId && c.infrastructureRate > t.maximumInfrastructureRate
    case P50Increased(id) => id == item.scenarioId && LATENCY !in excluded && !Within(c.p50, b.p50, t.maximumP50Increase)
    case P95Increased(id) => id == item.scenarioId && LATENCY !in excluded && !Within(c.p95, b.p95, t.maximumP95Increase)
    case TokensIncreased(id) =>
      id == item.scenarioId && TOKENS !in excluded && !Within(Counted(c.tokens) as real, Counted(b.tokens) as real, t.maximumTokenIncrease)
    case CostIncreased(id) =>
      id == item.scenarioId && COST !in excluded && !Within(Counted(c.cost) as real, Counted(b.cost) as real, t.maximumCostIncrease)
    case LowSample(id) => id == item.scenarioId && (b.lowSample || c.lowSample) && t.lowSampleFails
    case _ => false
  }

  lemma LatencyMeans(item: ScenarioComparison, t: Thresholds, excluded: set<Metric>, reason: Reason)
    ensures LATENCY !in excluded && reason in LatencyReasons(item, t) <==>
      (reason.P50Increased? || reason.P95Increased?) && Fires(item, t, excluded, reason)
  {
    var b, c := item.baseline, item.candidate;
    WithinExactly(c.p50, b.p50, t.maximumP50Increase);
    WithinExactly(c.p95, b.p95, t.maximumP95Increase);
  }

  lemma TokensMean(item: ScenarioComparison, t: Thresholds, excluded: set<Metric>, reason: Reason)
    ensures TOKENS !in excluded && reason in TokenReasons(item, t) <==> reason.TokensIncreased? && Fires(item, t, excluded, reason)
  {
    WithinExactly(Counted(item.candidate.tokens) as real, Counted(item.baseline.tokens) as real, t.maximumTokenIncrease);
  }

  lemma CostMeans(item: ScenarioComparison, t: Thresholds, excluded: set<Metric>, reason: Reason)
    ensures COST !in excluded && reason in CostReasons(item, t) <==> reason.CostIncreased? && Fires(item, t, excluded, reason)
  {
    WithinExactly(Counted(item.candidate.cost) as real, Counted(item.baseline.cost) as real, t.maximumCostIncrease);
  }

  lemma RatesMean(item: ScenarioComparison, t: Thresholds, excluded: set<Metric>, reason: Reason)
    ensures reason in RateReasons(item, t) <==>
      (reason.PassRateBelow? || reason.PassRateDecreased? || reason.InfrastructureRateAbove?) && Fires(item, t, excluded, reason)
  {
  }

  lemma SampleMeans(item: ScenarioComparison, t: Thresholds, excluded: set<Metric>, reason: Reason)
    ensures reason in Say(LowSampleAt(item) && t.lowSampleFails, LowSample(item.scenarioId)) <==>
      reason.LowSample? && Fires(item, t, excluded, reason)
  {
  }

  lemma FiresSome(item: ScenarioComparison, t: Thresholds, excluded: set<Metric>, reason: Reason)
    requires Fires(item, t, excluded, reason)
    ensures reason.PassRateBelow? || reason.PassRateDecreased? || reason.InfrastructureRateAbove? || reason.P50Increased?
      || reason.P95Increased? || reason.TokensIncreased? || reason.CostIncreased? || reason.LowSample?
  {
  }

  /** A scenario gives a reason exactly when the reason's condition holds of it. */
  lemma ReasonMeans(item: ScenarioComparison, t: Thresholds, excluded: set<Metric>, reason: Reason)
    ensures reason in ReasonsAt(item, t, excluded) <==> Fires(item, t, excluded, reason)
  {
    RatesMean(item, t, excluded, reason);
    LatencyMeans(item, t, excluded, reason);
    TokensMean(item, t, excluded, reason);
    CostMeans(item, t, excluded, reason);
    SampleMeans(item, t, excluded, reason);
    InFive(RateReasons(item, t), if LATENCY in excluded then [] else LatencyReasons(item, t),
           if TOKENS in excluded then [] else TokenReasons(item, t), if COST in excluded then [] else CostReasons(item, t),
           Say(LowSampleAt(item) && t.lowSampleFails, LowSample(item.scenarioId)), reason);
    if Fires(item, t, excluded, reason) {
      FiresSome(item, t, excluded, reason);
    }
  }

  /** Each reason of the verdict, exactly by the suite-wide check or the scenario it is about. */
  lemma ReasonsExactly(config: Config, items: seq<ScenarioComparison>, reason: Reason)
    ensures reason in ReportOf(config, items).verdict.reasons <==>
      || (reason == IncompatibleArtifacts && exists item :: item in items && item.level == INCOMPATIBLE)
      || (reason == CriticalExceeds(NewCritical(items), config.own.criticalAllowed) && NewCritical(items) > config.own.criticalAllowed)
      || (reason == HighExceeds(NewHigh(items), config.own.highAllowed) && NewHigh(items) > config.own.highAllowed)
      || exists i :: 0 <= i < |items| && Fires(items[i], EffectiveAt(config, items[i]), config.excluded, reason)
  {
    var own, each := SuiteReasons(config, items), FlatBy(ReasonsUnder(config), items);
    assert reason in Dedup(own + each) <==> reason in own || reason in each;
    SuiteReasonMembers(config, items, reason);
    FlatMember(ReasonsUnder(config), items, reason);
    forall i | 0 <= i < |items|
      ensures reason in ReasonsUnder(config)(items[i]) <==> Fires(items[i], EffectiveAt(config, items[i]), config.excluded, reason)
    {
      ReasonMeans(items[i], EffectiveAt(config, items[i]), config.excluded, reason);
    }
  }
}
