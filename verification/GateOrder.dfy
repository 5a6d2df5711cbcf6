/** Precedence in the gate: which override wins, which finding comes first, what a level means. */
module GateOrder {
  import opened Wrappers
  import opened Collections
  import opened Comparison
  import opened GateLaws

  // ---------- Overrides ----------

  /** `read` and `pick` name the same field of a configuration and of a patch. */
  ghost predicate SameField<T(!new)>(read: Thresholds -> T, pick: Patch -> Option<T>) {
    forall t, p :: read(Patched(t, p)) == match pick(p) case Some(value) => value case None => read(t)
  }

  predicate Sets<T>(patches: map<string, Patch>, name: string, pick: Patch -> Option<T>) {
    name in patches && pick(patches[name]).Some?
  }

  lemma OverrideReads<T(!new)>(t: Thresholds, patches: map<string, Patch>, name: string, read: Thresholds -> T, pick: Patch -> Option<T>)
    requires SameField(read, pick)
    ensures read(Override(t, patches, name)) == if Sets(patches, name, pick) then pick(patches[name]).value else read(t)
  {
  }

  lemma {:induction false} LastTagWins<T(!new)>(t: Thresholds, patches: map<string, Patch>, tags: seq<string>, k: nat,
                                               read: Thresholds -> T, pick: Patch -> Option<T>)
    requires SameField(read, pick) && k < |tags| && Sets(patches, tags[k], pick)
    requires forall j :: k < j < |tags| ==> !Sets(patches, tags[j], pick)
    ensures read(OverrideTags(t, patches, tags)) == pick(patches[tags[k]]).value
  {
    var n := |tags| - 1;
    OverrideReads(OverrideTags(t, patches, tags[..n]), patches, tags[n], read, pick);
    if k < n {
      LastTagWins(t, patches, tags[..n], k, read, pick);
    }
  }

  lemma {:induction false} NoTagSets<T(!new)>(t: Thresholds, patches: map<string, Patch>, tags: seq<string>,
                                             read: Thresholds -> T, pick: Patch -> Option<T>)
    requires SameField(read, pick) && forall j :: 0 <= j < |tags| ==> !Sets(patches, tags[j], pick)
    ensures read(OverrideTags(t, patches, tags)) == read(t)
  {
    if tags != [] {
      var n := |tags| - 1;
      NoTagSets(t, patches, tags[..n], read, pick);
      OverrideReads(OverrideTags(t, patches, tags[..n]), patches, tags[n], read, pick);
    }
  }

  /** For every field: the scenario's override wins, then that of the last tag in sorted order that
      sets the field, then the configuration's own value. */
  lemma OverridePrecedence<T(!new)>(config: Config, id: string, tags: seq<string>, read: Thresholds -> T, pick: Patch -> Option<T>)
    requires SameField(read, pick)
    ensures var effective, names := read(EffectiveConfig(config, id, tags)), SortedUnique(tags);
      && Increasing(names)
      && (Sets(config.scenarioOverrides, id, pick) ==> effective == pick(config.scenarioOverrides[id]).value)
      && (!Sets(config.scenarioOverrides, id, pick) ==>
            && (forall k :: 0 <= k < |names| && Sets(config.tagOverrides, names[k], pick)
                  && (forall j :: k < j < |names| ==> !Sets(config.tagOverrides, names[j], pick))
                  ==> effective == pick(config.tagOverrides[names[k]]).value)
            && ((forall name :: name in tags ==> !Sets(config.tagOverrides, name, pick)) ==> effective == read(config.own)))
  {
    var names := SortedUnique(tags);
    SortedIncreasing(tags);
    OverrideReads(OverrideTags(config.own, config.tagOverrides, names), config.scenarioOverrides, id, read, pick);
    forall k | 0 <= k < |names| && Sets(config.tagOverrides, names[k], pick)
               && (forall j :: k < j < |names| ==> !Sets(config.tagOverrides, names[j], pick))
      ensures read(OverrideTags(config.own, config.tagOverrides, names)) == pick(config.tagOverrides[names[k]]).value
    {
      LastTagWins(config.own, config.tagOverrides, names, k, read, pick);
    }
    if forall name :: name in tags ==> !Sets(config.tagOverrides, name, pick) {
      forall j | 0 <= j < |names| ensures !Sets(config.tagOverrides, names[j], pick) {
        assert names[j] in names;
      }
      NoTagSets(config.own, config.tagOverrides, names, read, pick);
    }
  }

  /** The thirteen fields an override can set, to each of which `OverridePrecedence` applies. */
  lemma SameFields()
    ensures SameField((t: Thresholds) => t.criticalAllowed, (p: Patch) => p.criticalAllowed)
    ensures SameField((t: Thresholds) => t.highAllowed, (p: Patch) => p.highAllowed)
    ensures SameField((t: Thresholds) => t.minimumPassRate, (p: Patch) => p.minimumPassRate)
    ensures SameField((t: Thresholds) => t.maximumPassRateDecrease, (p: Patch) => p.maximumPassRateDecrease)
    ensures SameField((t: Thresholds) => t.maximumFlakinessIncrease, (p: Patch) => p.maximumFlakinessIncrease)
    ensures SameField((t: Thresholds) => t.maximumInfrastructureRate, (p: Patch) => p.maximumInfrastructureRate)
    ensures SameField((t: Thresholds) => t.maximumP50Increase, (p: Patch) => p.maximumP50Increase)
    ensures SameField((t: Thresholds) => t.maximumP95Increase, (p: Patch) => p.maximumP95Increase)
    ensures SameField((t: Thresholds) => t.maximumTokenIncrease, (p: Patch) => p.maximumTokenIncrease)
    ensures SameField((t: Thresholds) => t.maximumCostIncrease, (p: Patch) => p.maximumCostIncrease)
    ensures SameField((t: Thresholds) => t.minimumRepetitions, (p: Patch) => p.minimumRepetitions)
    ensures SameField((t: Thresholds) => t.lowSampleFails, (p: Patch) => p.lowSampleFails)
    ensures SameField((t: Thresholds) => t.allowHashMismatch, (p: Patch) => p.allowHashMismatch)
  {
  }

  // ---------- The primary classification ----------

  /** The primary classification is the first of the order that was found. */
  lemma {:induction false} PrimaryFirst(order: seq<Classification>, findings: seq<Classification>) returns (i: nat)
    requires Primary(order, findings).Some?
    ensures i < |order| && Primary(order, findings) == Some(order[i])
    ensures forall j :: 0 <= j < i ==> order[j] !in findings
  {
    if order[0] in findings {
      i := 0;
    } else {
      var rest := PrimaryFirst(order[1..], findings);
      i := rest + 1;
      forall j | 0 <= j < i ensures order[j] !in findings {
        assert j > 0 ==> order[j] == order[1..][j - 1];
      }
    }
  }

  /** The precedence between findings, most serious first. */
  lemma PrimaryExactly(findings: seq<Classification>)
    ensures Primary(PRIMARY_ORDER, findings) ==
      if NOT_COMPARABLE in findings then Some(NOT_COMPARABLE)
      else if NEW_FAILURE in findings then Some(NEW_FAILURE)
      else if INFRASTRUCTURE_REGRESSED in findings then Some(INFRASTRUCTURE_REGRESSED)
      else if FAILURE_MODE_CHANGED in findings then Some(FAILURE_MODE_CHANGED)
      else if FLAKINESS_INCREASED in findings then Some(FLAKINESS_INCREASED)
      else if PERFORMANCE_REGRESSED in findings then Some(PERFORMANCE_REGRESSED)
      else if COST_REGRESSED in findings then Some(COST_REGRESSED)
      else if FIXED in findings then Some(FIXED)
      else if FLAKINESS_DECREASED in findings then Some(FLAKINESS_DECREASED)
      else if INSUFFICIENT_EVIDENCE in findings then Some(INSUFFICIENT_EVIDENCE)
      else if UNCHANGED_FAILURE in findings then Some(UNCHANGED_FAILURE)
      else if UNCHANGED_PASS in findings then Some(UNCHANGED_PASS)
      else None
  {
    var order := PRIMARY_ORDER;
    assert order[0] == NOT_COMPARABLE && order[1] == NEW_FAILURE && order[2] == INFRASTRUCTURE_REGRESSED;
    assert order[3] == FAILURE_MODE_CHANGED && order[4] == FLAKINESS_INCREASED && order[5] == PERFORMANCE_REGRESSED;
    assert order[6] == COST_REGRESSED && order[7] == FIXED && order[8] == FLAKINESS_DECREASED;
    assert order[9] == INSUFFICIENT_EVIDENCE && order[10] == UNCHANGED_FAILURE && order[11] == UNCHANGED_PASS;
    if Primary(order, findings).Some? {
      var i := PrimaryFirst(order, findings);
    }
  }

  /** What a reader may conclude from a primary classification: incomparable groups are never
      reported as anything else, and otherwise a lost perfect pass rate always is. */
  lemma PrimaryMeans(b: Summary, c: Summary, level: Level, changed: bool, t: Thresholds)
    requires b.passRate <= 1.0 && c.passRate <= 1.0
    requires Primary(PRIMARY_ORDER, Findings(b, c, level, changed, t)).Some?
    ensures var primary := Primary(PRIMARY_ORDER, Findings(b, c, level, changed, t)).value;
      && (primary == NOT_COMPARABLE <==> level == INCOMPATIBLE)
      && (primary == NEW_FAILURE <==> level != INCOMPATIBLE && b.passRate == 1.0 && c.passRate < 1.0)
      && (primary == UNCHANGED_PASS ==> level != INCOMPATIBLE && b.passRate == 1.0 && c.passRate == 1.0 && !b.lowSample && !c.lowSample)
  {
    var findings := Findings(b, c, level, changed, t);
    var i := PrimaryFirst(PRIMARY_ORDER, findings);
    assert PRIMARY_ORDER[0] == NOT_COMPARABLE && PRIMARY_ORDER[1] == NEW_FAILURE && PRIMARY_ORDER[9] == INSUFFICIENT_EVIDENCE;
    assert PRIMARY_ORDER[11] == UNCHANGED_PASS;
    FindingsExactly(b, c, level, changed, t, NOT_COMPARABLE);
    FindingsExactly(b, c, level, changed, t, NEW_FAILURE);
    FindingsExactly(b, c, level, changed, t, INSUFFICIENT_EVIDENCE);
    FindingsExactly(b, c, level, changed, t, UNCHANGED_PASS);
    assert i < 2 || (NOT_COMPARABLE !in findings && NEW_FAILURE !in findings);
    assert i < 10 || INSUFFICIENT_EVIDENCE !in findings;
  }

  lemma InFour<T>(a: seq<T>, b: seq<T>, c: seq<T>, d: seq<T>, x: T)
    ensures x in a + b + c + d <==> x in a || x in b || x in c || x in d
  {
  }

  lemma LevelMembers(level: Level, low: bool, x: Classification)
    ensures x in LevelFinding(level, low) <==>
      (x == NOT_COMPARABLE && level == INCOMPATIBLE) || (x == INSUFFICIENT_EVIDENCE && level != INCOMPATIBLE && low)
  {
  }

  lemma OutcomeMembers(b: Summary, c: Summary, changed: bool, x: Classification)
    requires b.passRate <= 1.0 && c.passRate <= 1.0
    ensures x in OutcomeFinding(b, c, changed) <==>
      || (x == NEW_FAILURE && b.passRate == 1.0 && c.passRate < 1.0)
      || (x == FIXED && b.passRate < 1.0 && c.passRate == 1.0)
      || (x == UNCHANGED_PASS && b.passRate == 1.0 && c.passRate == 1.0)
      || (x == UNCHANGED_FAILURE && b.passRate < 1.0 && b.passRate == c.passRate)
      || (x == FAILURE_MODE_CHANGED && b.passRate < 1.0 && c.passRate < 1.0 && b.passRate != c.passRate && changed)
  {
  }

  lemma FlakeMembers(flake: real, bound: excess, x: Classification)
    ensures x in FlakeFinding(flake, bound) <==>
      (x == FLAKINESS_INCREASED && flake > bound) || (x == FLAKINESS_DECREASED && flake + bound < 0.0)
  {
  }

  lemma OperationalMembers(b: Summary, c: Summary, t: Thresholds, x: Classification)
    ensures x in OperationalFindings(b, c, t) <==>
      || (x == PERFORMANCE_REGRESSED && c.p95 > b.p95 * (1.0 + t.maximumP95Increase))
      || (x == COST_REGRESSED && Counted(c.cost) > 0 && Counted(c.cost) as real > Counted(b.cost) as real * (1.0 + t.maximumCostIncrease))
      || (x == INFRASTRUCTURE_REGRESSED && c.infrastructureRate > b.infrastructureRate && c.infrastructureRate > t.maximumInfrastructureRate)
  {
  }

  /** Each finding, exactly by what the two summaries show. */
  lemma FindingsExactly(b: Summary, c: Summary, level: Level, changed: bool, t: Thresholds, x: Classification)
    requires b.passRate <= 1.0 && c.passRate <= 1.0
    ensures x in Findings(b, c, level, changed, t) <==>
      match x
      case NOT_COMPARABLE => level == INCOMPATIBLE
      case INSUFFICIENT_EVIDENCE => level != INCOMPATIBLE && (b.lowSample || c.lowSample)
      case NEW_FAILURE => b.passRate == 1.0 && c.passRate < 1.0
      case FIXED => b.passRate < 1.0 && c.passRate == 1.0
      case UNCHANGED_PASS => b.passRate == 1.0 && c.passRate == 1.0
      case UNCHANGED_FAILURE => b.passRate < 1.0 && b.passRate == c.passRate
      case FAILURE_MODE_CHANGED => b.passRate < 1.0 && c.passRate < 1.0 && b.passRate != c.passRate && changed
      case FLAKINESS_INCREASED => c.variability - b.variability > t.maximumFlakinessIncrease
      case FLAKINESS_DECREASED => b.variability - c.variability > t.maximumFlakinessIncrease
      case PERFORMANCE_REGRESSED => c.p95 > b.p95 * (1.0 + t.maximumP95Increase)
      case COST_REGRESSED => Counted(c.cost) > 0 && Counted(c.cost) as real > Counted(b.cost) as real * (1.0 + t.maximumCostIncrease)
      case INFRASTRUCTURE_REGRESSED => c.infrastructureRate > b.infrastructureRate && c.infrastructureRate > t.maximumInfrastructureRate
  {
    LevelMembers(level, c.lowSample || b.lowSample, x);
    OutcomeMembers(b, c, changed, x);
    FlakeMembers(c.variability - b.variability, t.maximumFlakinessIncrease, x);
    OperationalMembers(b, c, t, x);
    InFour(LevelFinding(level, c.lowSample || b.lowSample), OutcomeFinding(b, c, changed),
           FlakeFinding(c.variability - b.variability, t.maximumFlakinessIncrease), OperationalFindings(b, c, t), x);
  }

  // ---------- Levels and reasons ----------

  lemma GlobalIncompatibleSays(b: Suite, c: Suite)
    requires GloballyIncompatible(b, c)
    ensures GlobalReasons(b, c) != []
  {
  }

  /** A scenario is compatible exactly when it has no compatibility reason. */
  lemma ReasonsExplainLevel(global: Global, missing: bool, complete: bool, mixedWorlds: bool, sameHashes: bool, mixedAdapters: bool, allowed: bool)
    requires global.incompatible ==> global.reasons != []
    ensures var local := Judge(complete, mixedWorlds, sameHashes, mixedAdapters, allowed);
      && (FinalLevel(local, global, missing) == COMPATIBLE <==>
            FinalReasons(local, Grounds(complete, mixedWorlds, sameHashes, mixedAdapters), global, missing) == [])
      && (FinalLevel(local, global, missing) == INCOMPATIBLE <==>
            missing || global.incompatible || !complete || mixedWorlds || (!sameHashes && !allowed))
  {
  }

  lemma {:induction false} NoCompatReasons(items: seq<ScenarioComparison>)
    ensures CompatReasons(items) == [] <==> forall i :: 0 <= i < |items| ==> items[i].reasons == []
  {
    if items != [] {
      NoCompatReasons(items[..|items| - 1]);
    }
  }

  lemma GroupsExplained(item: ScenarioComparison, b: Suite, c: Suite, before: seq<RunRecord>, after: seq<RunRecord>, t: Thresholds)
    requires Describes(item, GlobalOf(b, c), before, after, t)
    ensures item.level == COMPATIBLE <==> item.reasons == []
  {
    if GloballyIncompatible(b, c) {
      GlobalIncompatibleSays(b, c);
    }
    ReasonsExplainLevel(GlobalOf(b, c), before == [] || after == [], Complete(before + after), MixedWorlds(before + after),
                        SameHashes(before, after), MixedAdapters(before + after), t.allowHashMismatch);
  }

  lemma ItemExplained(b: Suite, c: Suite, config: Config, i: nat)
    requires ItemsOf(b, c, config).Some? && i < |ScenarioIds(b, c)|
    ensures var item := ItemsOf(b, c, config).value[i]; item.level == COMPATIBLE <==> item.reasons == []
  {
    ItemDescribed(b, c, config, i);
    var item, id := ItemsOf(b, c, config).value[i], ScenarioIds(b, c)[i];
    GroupsExplained(item, b, c, RunsOf(b.runs, id), RunsOf(c.runs, id), EffectiveAt(config, item));
  }

  lemma LevelOfItems(config: Config, items: seq<ScenarioComparison>)
    requires forall i :: 0 <= i < |items| ==> (items[i].level == COMPATIBLE <==> items[i].reasons == [])
    ensures var report := ReportOf(config, items);
      && (report.level == INCOMPATIBLE <==> AnyIncompatible(items))
      && (report.level == COMPATIBLE <==> forall i :: 0 <= i < |items| ==> items[i].level == COMPATIBLE)
  {
    NoCompatReasons(items);
    assert AnyIncompatible(items) ==> exists i :: 0 <= i < |items| && items[i].level == INCOMPATIBLE;
  }

  /** The report is as compatible as its least compatible scenario. */
  lemma ReportLevelExactly(b: Suite, c: Suite, config: Config)
    requires ItemsOf(b, c, config).Some?
    ensures var items := ItemsOf(b, c, config).value; var report := ReportOf(config, items);
      && CompareSuites(b, c, config) == Some(report)
      && (report.level == INCOMPATIBLE <==> AnyIncompatible(items))
      && (report.level == COMPATIBLE <==> forall i :: 0 <= i < |items| ==> items[i].level == COMPATIBLE)
  {
    var items := ItemsOf(b, c, config).value;
    forall i | 0 <= i < |items| ensures items[i].level == COMPATIBLE <==> items[i].reasons == [] {
      ItemExplained(b, c, config, i);
    }
    LevelOfItems(config, items);
  }
}
