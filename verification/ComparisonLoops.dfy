/** The comparison's loops as the code runs them: lists appended to and a level raised. */
module ComparisonLoops {
  import opened Wrappers
  import opened Collections
  import opened Comparison

  lemma DedupAppend<T(!new)>(items: seq<T>, x: T)
    ensures Dedup(items + [x]) == if x in items then Dedup(items) else Dedup(items) + [x]
  {
    assert (items + [x])[..|items|] == items;
  }

  lemma {:induction false} DedupConstant<T(!new)>(items: seq<T>, x: T)
    requires forall i :: 0 <= i < |items| ==> items[i] == x
    ensures Dedup(items) == if items == [] then [] else [x]
  {
    if items != [] {
      DedupConstant(items[..|items| - 1], x);
      assert Dedup(items[..|items| - 1]) == [] || Dedup(items[..|items| - 1]) == [x];
    }
  }

  method FailureModes(baseline: seq<RunRecord>, candidate: seq<RunRecord>) returns (deltas: seq<FailureDelta>)
    ensures deltas == FailureDeltas(baseline, candidate)
  {
    var identities := Identities(baseline, candidate);
    deltas := [];
    for i := 0 to |identities|
      invariant deltas == DeltasOver(baseline, candidate, identities[..i])
    {
      assert identities[..i + 1][..i] == identities[..i];
      var before, after := Count(baseline, identities[i]), Count(candidate, identities[i]);
      if before == after {
        continue;
      }
      deltas := deltas + [DeltaOf(baseline, candidate, identities[i])];
    }
    assert identities[..|identities|] == identities;
  }

  method ScanEvidence(records: seq<RunRecord>) returns (level: Level, reasons: seq<CompatReason>)
    ensures Dedup(reasons) == Note(!Complete(records), EvidenceIncomplete)
    ensures forall i :: 0 <= i < |reasons| ==> reasons[i] == EvidenceIncomplete
    ensures level == if Complete(records) then COMPATIBLE else INCOMPATIBLE
  {
    level, reasons := COMPATIBLE, [];
    for i := 0 to |records|
      invariant forall j :: 0 <= j < |reasons| ==> reasons[j] == EvidenceIncomplete
      invariant Complete(records[..i]) <==> reasons == []
      invariant level == if reasons == [] then COMPATIBLE else INCOMPATIBLE
    {
      assert records[..i + 1] == records[..i] + [records[i]];
      if records[i].incompleteEvidence {
        reasons := reasons + [EvidenceIncomplete];
        level := INCOMPATIBLE;
      }
    }
    assert records[..|records|] == records;
    DedupConstant(reasons, EvidenceIncomplete);
  }

  /** The level only ever rises; the closing adapter check fires on a still compatible pair. */
  method Compatibility(baseline: seq<RunRecord>, candidate: seq<RunRecord>, allowed: bool)
    returns (level: Level, reasons: seq<CompatReason>)
    ensures level == LevelOf(baseline, candidate, allowed)
    ensures reasons == GroundsOf(baseline, candidate)
  {
    var start, found := ScanEvidence(baseline + candidate);
    var more;
    level, more := RaiseLevel(start, MixedWorlds(baseline + candidate), SameHashes(baseline, candidate),
                              MixedAdapters(baseline + candidate), allowed);
    DedupFurther(found, Complete(baseline + candidate), MixedWorlds(baseline + candidate), SameHashes(baseline, candidate),
                 MixedAdapters(baseline + candidate));
    reasons := Dedup(found + more);
  }

  lemma DedupFurther(found: seq<CompatReason>, complete: bool, mixedWorlds: bool, sameHashes: bool, mixedAdapters: bool)
    requires forall i :: 0 <= i < |found| ==> found[i] == EvidenceIncomplete
    ensures Dedup(found + Further(complete, mixedWorlds, sameHashes, mixedAdapters))
      == Dedup(found) + Further(complete, mixedWorlds, sameHashes, mixedAdapters)
  {
    DedupDistinct(found, Further(complete, mixedWorlds, sameHashes, mixedAdapters));
  }

  lemma {:induction false} DedupDistinct<T(!new)>(items: seq<T>, more: seq<T>)
    requires forall i :: 0 <= i < |more| ==> more[i] !in items
    requires forall i, j :: 0 <= i < j < |more| ==> more[i] != more[j]
    ensures Dedup(items + more) == Dedup(items) + more
  {
    if more == [] {
      assert items + more == items;
    } else {
      var n := |more| - 1;
      DedupDistinct(items, more[..n]);
      DedupAppend(items + more[..n], more[n]);
      assert items + more == items + more[..n] + [more[n]];
      assert Dedup(items) + more == Dedup(items) + more[..n] + [more[n]];
    }
  }

  method RaiseLevel(start: Level, mixedWorlds: bool, sameHashes: bool, mixedAdapters: bool, allowed: bool)
    returns (level: Level, reasons: seq<CompatReason>)
    requires start != WARNING
    ensures level == Judge(start == COMPATIBLE, mixedWorlds, sameHashes, mixedAdapters, allowed)
    ensures reasons == Further(start == COMPATIBLE, mixedWorlds, sameHashes, mixedAdapters)
  {
    level, reasons := start, [];
    if mixedWorlds {
      reasons := reasons + [WorldMajorsDiffer];
      level := INCOMPATIBLE;
    }
    if !sameHashes {
      reasons := reasons + [HashesDiffer];
      if !allowed {
        level := INCOMPATIBLE;
      } else if level == COMPATIBLE {
        level := WARNING;
      }
    }
    if mixedAdapters && level == COMPATIBLE {
      reasons := reasons + [AdaptersDiffer];
      level := WARNING;
    }
  }

  method Occurrence(items: seq<ScenarioComparison>, severity: Severity, kept: set<Change>) returns (total: int)
    ensures total == Occurring(items, severity, kept)
  {
    total := 0;
    for i := 0 to |items|
      invariant total == Occurring(items[..i], severity, kept)
    {
      assert items[..i + 1][..i] == items[..i];
      total := total + OccurrencesIn(items[i].deltas, items[i].candidate.completed, severity, kept);
    }
    assert items[..|items|] == items;
  }

  /** The loop over scenarios: each adds its reasons to the suite's and its warnings to a second list. */
  method Gather(reasonsAt: ScenarioComparison -> seq<Reason>, warningsAt: ScenarioComparison -> seq<Reason>,
                items: seq<ScenarioComparison>, start: seq<Reason>)
    returns (reasons: seq<Reason>, warnings: seq<Reason>)
    ensures reasons == start + FlatBy(reasonsAt, items)
    ensures warnings == FlatBy(warningsAt, items)
  {
    reasons, warnings := start, [];
    for i := 0 to |items|
      invariant reasons == start + FlatBy(reasonsAt, items[..i])
      invariant warnings == FlatBy(warningsAt, items[..i])
    {
      assert items[..i + 1][..i] == items[..i];
      reasons := reasons + reasonsAt(items[i]);
      warnings := warnings + warningsAt(items[i]);
    }
    assert items[..|items|] == items;
  }

  method SuiteChecks(config: Config, incompatible: bool, critical: int, high: int) returns (reasons: seq<Reason>)
    ensures reasons == Say(incompatible, IncompatibleArtifacts)
      + Say(critical > config.own.criticalAllowed, CriticalExceeds(critical, config.own.criticalAllowed))
      + Say(high > config.own.highAllowed, HighExceeds(high, config.own.highAllowed))
  {
    reasons := [];
    if incompatible {
      reasons := reasons + [IncompatibleArtifacts];
    }
    if critical > config.own.criticalAllowed {
      reasons := reasons + [CriticalExceeds(critical, config.own.criticalAllowed)];
    }
    if high > config.own.highAllowed {
      reasons := reasons + [HighExceeds(high, config.own.highAllowed)];
    }
  }

  method BuildReport(config: Config, items: seq<ScenarioComparison>, compatReasons: seq<CompatReason>) returns (report: Report)
    requires compatReasons == CompatReasons(items)
    ensures report == ReportOf(config, items)
  {
    var incompatible := AnyIncompatible(items);
    var critical := Occurrence(items, CRITICAL, {NEW, RATE_CHANGED});
    var high := Occurrence(items, HIGH, {NEW, REMOVED, RATE_CHANGED});
    var start := SuiteChecks(config, incompatible, critical, high);
    var reasons, warnings := Gather(ReasonsUnder(config), WarningsUnder(config), items, start);
    var overall := if incompatible then INCOMPATIBLE else if compatReasons != [] then WARNING else COMPATIBLE;
    report := Report(overall, Dedup(compatReasons), items,
                     GateVerdict(reasons == [], Dedup(reasons), Dedup(warnings), critical, high));
  }

  method Settle(local: Level, grounds: seq<CompatReason>, global: Global, missing: bool) returns (level: Level, reasons: seq<CompatReason>)
    ensures level == FinalLevel(local, global, missing)
    ensures reasons == FinalReasons(local, grounds, global, missing)
  {
    level, reasons := local, grounds;
    if global.incompatible {
      level, reasons := INCOMPATIBLE, reasons + global.reasons;
    } else if global.reasons != [] && level == COMPATIBLE {
      level, reasons := WARNING, reasons + global.reasons;
    }
    if missing {
      level, reasons := INCOMPATIBLE, reasons + [ScenarioMissing];
    }
  }

  method CompareOne(global: Global, id: string, before: seq<RunRecord>, after: seq<RunRecord>, t: Thresholds)
    returns (item: Option<ScenarioComparison>)
    ensures item == CompareGroups(global, id, before, after, t)
  {
    var level, reasons := Compatibility(before, after, t.allowHashMismatch);
    level, reasons := Settle(level, reasons, global, before == [] || after == []);
    var bsum, csum := Summarize(before, t.minimumRepetitions), Summarize(after, t.minimumRepetitions);
    var deltas := FailureModes(before, after);
    item := Conclude(id, level, reasons, bsum, csum, deltas, TagNames(before, after), t);
  }

  method CompareAt(global: Global, b: seq<RunRecord>, c: seq<RunRecord>, config: Config, id: string)
    returns (item: Option<ScenarioComparison>)
    ensures item == CompareScenario(global, b, c, config, id)
  {
    var before, after := RunsOf(b, id), RunsOf(c, id);
    item := CompareOne(global, id, before, after, EffectiveConfig(config, id, TagNames(before, after)));
  }

  method CompareEach(global: Global, b: seq<RunRecord>, c: seq<RunRecord>, config: Config, ids: seq<string>)
    returns (items: Option<seq<ScenarioComparison>>, reasons: seq<CompatReason>)
    ensures items == TryMap(ScenarioUnder(global, b, c, config), ids)
    ensures items.Some? ==> reasons == CompatReasons(items.value)
  {
    ghost var f := ScenarioUnder(global, b, c, config);
    var done: seq<ScenarioComparison> := [];
    reasons := [];
    for i := 0 to |ids|
      invariant TryMap(f, ids[..i]) == Some(done)
      invariant reasons == CompatReasons(done)
    {
      var item := CompareAt(global, b, c, config, ids[i]);
      if item.None? {
        TryMapStops(f, ids, i);
        return None, [];
      }
      TryMapOneMore(f, ids, i);
      ReasonsOneMore(done, item.value);
      done := done + [item.value];
      reasons := reasons + item.value.reasons;
    }
    assert ids[..|ids|] == ids;
    items := Some(done);
  }

  lemma ReasonsOneMore(done: seq<ScenarioComparison>, item: ScenarioComparison)
    ensures CompatReasons(done + [item]) == CompatReasons(done) + item.reasons
  {
    assert (done + [item])[..|done|] == done;
  }

  method Compare(b: Suite, c: Suite, config: Config) returns (report: Option<Report>)
    ensures report == CompareSuites(b, c, config)
  {
    var items, compatReasons := CompareEach(GlobalOf(b, c), b.runs, c.runs, config, ScenarioIds(b, c));
    if items.None? {
      return None;
    }
    var built := BuildReport(config, items.value, compatReasons);
    report := Some(built);
  }
}
