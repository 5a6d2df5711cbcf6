/** What every field of a summary counts, and what every field of a failure change says of the runs. */
module SummaryLaws {
  import opened Wrappers
  import opened Statistics
  import opened Collections
  import opened Comparison
  import opened ComparisonLaws

  // ---------- Counts ----------

  /** Where in a list a condition holds. */
  function Where<T>(items: seq<T>, holds: T -> bool): set<nat> {
    set i: nat | i < |items| && holds(items[i])
  }

  lemma WhereOneMore<T>(items: seq<T>, holds: T -> bool)
    requires items != []
    ensures var n := |items| - 1; |Where(items, holds)| == |Where(items[..n], holds)| + (if holds(items[n]) then 1 else 0)
  {
    var n := |items| - 1;
    assert Where(items, holds) == Where(items[..n], holds) + (if holds(items[n]) then {n} else {});
  }

  /** `share` is `part` in `total`, or 0 of none. */
  predicate IsShare(share: real, part: int, total: nat) {
    share * total as real == part as real && (total == 0 ==> share == 0.0)
  }

  lemma ShareBack(part: int, total: nat)
    requires 0 <= part <= total
    ensures IsShare(Share(part, total), part, total)
  {
    if total > 0 {
      ShareLaws(part, total);
    }
  }

  function HasDigest(digest: string): RunRecord -> bool { (r: RunRecord) => r.digest == digest }
  function EndsIn(terminal: Terminal): RunRecord -> bool { (r: RunRecord) => r.terminal == terminal }
  predicate Incomplete(r: RunRecord) { r.incompleteEvidence }

  /** A run passes with complete evidence, at least one verdict, and none that is a failure above
      medium severity or an error of a required check. */
  predicate RunPasses(r: RunRecord) {
    && !r.incompleteEvidence && |r.verdicts| > 0
    && forall i :: 0 <= i < |r.verdicts| ==>
         var v := r.verdicts[i];
         && (v.status == FAIL ==> v.severity != HIGH && v.severity != CRITICAL)
         && (v.status == ERROR ==> !v.required)
  }

  lemma PassesExactly(r: RunRecord)
    ensures r.Passed() <==> RunPasses(r)
  {
    if RunPasses(r) {
      forall v | v in r.verdicts ensures v.Tolerated() {
        var i :| 0 <= i < |r.verdicts| && r.verdicts[i] == v;
      }
    }
    if r.Passed() {
      forall i | 0 <= i < |r.verdicts|
        ensures r.verdicts[i].status == FAIL ==> r.verdicts[i].severity != HIGH && r.verdicts[i].severity != CRITICAL
        ensures r.verdicts[i].status == ERROR ==> !r.verdicts[i].required
      {
        assert r.verdicts[i] in r.verdicts;
      }
    }
  }

  lemma {:induction false} SumCounts<T>(f: T -> int, holds: T -> bool, items: seq<T>)
    requires forall x :: f(x) == if holds(x) then 1 else 0
    ensures SumBy(f, items) == |Where(items, holds)|
  {
    if items != [] {
      SumCounts(f, holds, items[..|items| - 1]);
      WhereOneMore(items, holds);
    }
  }

  lemma {:induction false} MapCounts<T, U>(f: T -> U, u: U, holds: T -> bool, items: seq<T>)
    requires forall x :: holds(x) <==> f(x) == u
    ensures multiset(MapBy(f, items))[u] == |Where(items, holds)|
  {
    if items != [] {
      MapCounts(f, u, holds, items[..|items| - 1]);
      WhereOneMore(items, holds);
    }
  }

  /** The counts of a summary, by the runs they count. */
  lemma SummaryCounts(runs: seq<RunRecord>, minimum: int, digest: string, terminal: Terminal)
    ensures var s := Summarize(runs, minimum);
      && s.completed == |runs| && (s.lowSample <==> |runs| < minimum)
      && s.passed == |Where(runs, RunPasses)| && s.errors == |Where(runs, Incomplete)|
      && s.passed + s.failed + s.errors == |runs|
      && s.outcomes[digest] == |Where(runs, HasDigest(digest))|
      && s.terminals[terminal] == |Where(runs, EndsIn(terminal))|
  {
    forall r: RunRecord ensures PassedOne(r) == if RunPasses(r) then 1 else 0 {
      PassesExactly(r);
    }
    SumCounts(PassedOne, RunPasses, runs);
    SumCounts(ErrorOne, Incomplete, runs);
    MapCounts(DigestOf, digest, HasDigest(digest), runs);
    MapCounts(TerminalOf, terminal, EndsIn(terminal), runs);
  }

  /** The rates of a summary: passing runs, and runs that ended in an infrastructure error, of all. */
  lemma SummaryRates(runs: seq<RunRecord>, minimum: int)
    ensures IsShare(Summarize(runs, minimum).passRate, Summarize(runs, minimum).passed, |runs|)
    ensures IsShare(Summarize(runs, minimum).infrastructureRate, |Where(runs, EndsIn(INFRASTRUCTURE_ERROR))|, |runs|)
  {
    PassedAndErrorsApart(runs);
    SumCounts(InfrastructureOne, EndsIn(INFRASTRUCTURE_ERROR), runs);
    Tally(InfrastructureOne, runs);
    ShareBack(SumBy(PassedOne, runs), |runs|);
    ShareBack(SumBy(InfrastructureOne, runs), |runs|);
  }

  // ---------- Totals ----------

  function Amount(usage: Option<nat>): int {
    match usage
    case None => 0
    case Some(n) => n
  }

  function AmountIn(total: Option<int>): int {
    match total
    case None => 0
    case Some(n) => n
  }

  lemma {:induction false} SilentTotals(runs: seq<RunRecord>)
    ensures (forall r :: r in runs ==> r.modelTokens.None?) ==> SumBy(TokensOf, runs) == 0
    ensures (forall r :: r in runs ==> r.costMinor.None?) ==> SumBy(CostOf, runs) == 0
  {
    if runs != [] {
      SilentTotals(runs[..|runs| - 1]);
      assert runs[|runs| - 1] in runs;
    }
  }

  lemma SumOneMore<T>(f: T -> int, items: seq<T>, x: T)
    ensures SumBy(f, items + [x]) == SumBy(f, items) + f(x)
  {
    assert (items + [x])[..|items|] == items;
  }

  predicate SomeTokens(runs: seq<RunRecord>) { exists r :: r in runs && r.modelTokens.Some? }
  predicate SomeCost(runs: seq<RunRecord>) { exists r :: r in runs && r.costMinor.Some? }

  lemma SomeOneMore(runs: seq<RunRecord>, r: RunRecord)
    ensures SomeTokens(runs + [r]) <==> SomeTokens(runs) || r.modelTokens.Some?
    ensures SomeCost(runs + [r]) <==> SomeCost(runs) || r.costMinor.Some?
  {
    assert forall x :: x in runs + [r] <==> x in runs || x == r;
  }

  lemma TotalsExactly(runs: seq<RunRecord>, minimum: int)
    ensures var s := Summarize(runs, minimum);
      && AmountIn(s.tokens) == SumBy(TokensOf, runs) && AmountIn(s.cost) == SumBy(CostOf, runs)
      && (s.tokens.Some? <==> SomeTokens(runs)) && (s.cost.Some? <==> SomeCost(runs))
  {
    SilentTotals(runs);
  }

  /** One more run adds its own usage, from nothing; a total is there once some run reports one. */
  lemma TotalsGrow(runs: seq<RunRecord>, r: RunRecord, minimum: int)
    ensures var s, s' := Summarize(runs, minimum), Summarize(runs + [r], minimum);
      && AmountIn(s'.tokens) == AmountIn(s.tokens) + Amount(r.modelTokens) && (s'.tokens.Some? <==> s.tokens.Some? || r.modelTokens.Some?)
      && AmountIn(s'.cost) == AmountIn(s.cost) + Amount(r.costMinor) && (s'.cost.Some? <==> s.cost.Some? || r.costMinor.Some?)
    ensures Summarize([], minimum).tokens.None? && Summarize([], minimum).cost.None?
  {
    TotalsExactly(runs, minimum);
    TotalsExactly(runs + [r], minimum);
    TotalsExactly([], minimum);
    SomeOneMore(runs, r);
    SumOneMore(TokensOf, runs, r);
    SumOneMore(CostOf, runs, r);
  }

  /** A verdict of this severity that did not pass. */
  function Misses(severity: Severity): Verdict -> bool { (v: Verdict) => v.status != PASS && v.severity == severity }

  lemma {:induction false} SeveritiesExactly(verdicts: seq<Verdict>, severity: Severity)
    ensures BagBy(SeverityBag, verdicts)[severity] == |Where(verdicts, Misses(severity))|
  {
    if verdicts != [] {
      SeveritiesExactly(verdicts[..|verdicts| - 1], severity);
      WhereOneMore(verdicts, Misses(severity));
    }
  }

  lemma BagOneMore<T, U>(f: T -> multiset<U>, items: seq<T>, x: T)
    ensures BagBy(f, items + [x]) == BagBy(f, items) + f(x)
  {
    assert (items + [x])[..|items|] == items;
  }

  /** One more run adds its verdicts that did not pass to the counts by severity, from nothing. */
  lemma SeveritiesGrow(runs: seq<RunRecord>, r: RunRecord, minimum: int, severity: Severity)
    ensures Summarize(runs + [r], minimum).severities[severity] ==
      Summarize(runs, minimum).severities[severity] + |Where(r.verdicts, Misses(severity))|
    ensures Summarize([], minimum).severities[severity] == 0
  {
    BagOneMore(SeveritiesOf, runs, r);
    SeveritiesExactly(r.verdicts, severity);
  }

  ghost predicate MostCommon(outcomes: multiset<string>, common: string) {
    forall digest :: outcomes[digest] <= outcomes[common]
  }

  lemma CommonDigest(digests: seq<string>) returns (common: string)
    requires digests != []
    ensures MostCommon(multiset(digests), common)
    ensures IsShare(1.0 - Variability(digests), multiset(digests)[common], |digests|)
  {
    PeakBounds(digests, multiset(digests));
    common :| common in digests && multiset(digests)[common] == Peak(digests, multiset(digests));
    forall digest ensures multiset(digests)[digest] <= multiset(digests)[common] {
      assert digest !in digests ==> digest !in multiset(digests);
    }
    CountBound(digests, common);
    ShareBack(Peak(digests, multiset(digests)), |digests|);
  }

  lemma SummaryOutcomes(runs: seq<RunRecord>, minimum: int)
    ensures Summarize(runs, minimum).outcomes == multiset(MapBy(DigestOf, runs))
    ensures Summarize(runs, minimum).variability == Variability(MapBy(DigestOf, runs))
  {
  }

  lemma NoVariability(minimum: int)
    ensures Summarize([], minimum).variability == 0.0
  {
  }

  /** Variability is the share of runs outside the most common outcome. */
  lemma VariabilityExactly(runs: seq<RunRecord>, minimum: int) returns (common: string)
    requires runs != []
    ensures MostCommon(Summarize(runs, minimum).outcomes, common)
    ensures IsShare(1.0 - Summarize(runs, minimum).variability, Summarize(runs, minimum).outcomes[common], |runs|)
    ensures Summarize([], minimum).variability == 0.0
  {
    SummaryOutcomes(runs, minimum);
    NoVariability(minimum);
    common := CommonDigest(MapBy(DigestOf, runs));
  }

  /** The two percentiles are those of the runs' durations. */
  lemma SummaryPercentiles(runs: seq<RunRecord>, minimum: int, durations: seq<int>)
    requires |durations| == |runs| && forall i :: 0 <= i < |runs| ==> durations[i] == runs[i].durationMs
    ensures Summarize(runs, minimum).p50 == Percentile(durations, 0.5) && Summarize(runs, minimum).p95 == Percentile(durations, 0.95)
  {
    forall i | 0 <= i < |runs| ensures MapBy(DurationOf, runs)[i] == durations[i] {
      MapMember(DurationOf, runs, i);
    }
    assert MapBy(DurationOf, runs) == durations;
  }

  // ---------- Groups ----------

  /** A scenario's group holds its own runs, each as often as the suite does. */
  lemma {:induction false} GroupExactly(runs: seq<RunRecord>, scenarioId: string, r: RunRecord)
    ensures multiset(RunsOf(runs, scenarioId))[r] == if r.scenarioId == scenarioId then multiset(runs)[r] else 0
  {
    if runs != [] {
      GroupExactly(runs[..|runs| - 1], scenarioId, r);
      assert runs == runs[..|runs| - 1] + [runs[|runs| - 1]];
    }
  }

  lemma {:induction false} TagsExactly(runs: seq<RunRecord>, tag: string)
    ensures tag in TagsOf(runs) <==> exists r :: r in runs && tag in r.tags
  {
    if runs != [] {
      TagsExactly(runs[..|runs| - 1], tag);
      assert runs == runs[..|runs| - 1] + [runs[|runs| - 1]];
    }
  }

  /** The scenarios compared are those either suite lists, in increasing order. */
  lemma ScenariosExactly(b: Suite, c: Suite, scenarioId: string)
    ensures scenarioId in ScenarioIds(b, c) <==> scenarioId in b.scenarios || scenarioId in c.scenarios
    ensures Increasing(ScenarioIds(b, c))
  {
    SortedIncreasing(b.scenarios + c.scenarios);
  }

  // ---------- Failure changes ----------

  /** A verdict is about an identity: its assertion and its policy, if any, joined by a bar. */
  predicate About(v: Verdict, identity: string) {
    identity == v.assertionId + "|" + (match v.policyName case None => "" case Some(name) => name)
  }

  /** A run's failures keep, for each identity, the last verdict about it that did not pass. */
  lemma {:induction false} LastFailureKept(verdicts: seq<Verdict>, identity: string) returns (i: nat)
    ensures identity in Failed(verdicts) <==> exists v :: v in verdicts && v.status != PASS && About(v, identity)
    ensures identity in Failed(verdicts) ==>
      && i < |verdicts| && Failed(verdicts)[identity] == verdicts[i] && verdicts[i].status != PASS && About(verdicts[i], identity)
      && forall j :: i < j < |verdicts| ==> verdicts[j].status == PASS || !About(verdicts[j], identity)
  {
    i := 0;
    if verdicts != [] {
      var n := |verdicts| - 1;
      i := LastFailureKept(verdicts[..n], identity);
      assert verdicts == verdicts[..n] + [verdicts[n]];
      assert About(verdicts[n], identity) <==> KeyOf(verdicts[n]) == identity;
      if verdicts[n].status != PASS && About(verdicts[n], identity) {
        i := n;
      }
    }
  }

  /** A run shows a failure when some verdict of its about that identity did not pass. */
  predicate Shows(r: RunRecord, identity: string) {
    exists v :: v in r.verdicts && v.status != PASS && About(v, identity)
  }

  lemma FailsExactly(r: RunRecord, identity: string)
    ensures Fails(r, identity) <==> Shows(r, identity)
  {
    var _ := LastFailureKept(r.verdicts, identity);
  }

  function Showing(identity: string): RunRecord -> bool { (r: RunRecord) => Shows(r, identity) }

  lemma {:induction false} CountExactly(runs: seq<RunRecord>, identity: string)
    ensures Count(runs, identity) == |Where(runs, Showing(identity))|
  {
    if runs != [] {
      CountExactly(runs[..|runs| - 1], identity);
      FailsExactly(runs[|runs| - 1], identity);
      WhereOneMore(runs, Showing(identity));
    }
  }

  /** Severities from informational to critical. */
  predicate AtMost(a: Severity, b: Severity) {
    a == b || a == INFO || b == CRITICAL || (a == MEDIUM && b == HIGH)
  }

  /** The severity of a change is the greatest among its verdicts. */
  lemma {:induction false} WorstExactly(verdicts: seq<Verdict>)
    ensures Worst(verdicts).None? <==> verdicts == []
    ensures Worst(verdicts).Some? ==>
      && (exists v :: v in verdicts && v.severity == Worst(verdicts).value)
      && forall v :: v in verdicts ==> AtMost(v.severity, Worst(verdicts).value)
  {
    if verdicts != [] {
      var n := |verdicts| - 1;
      WorstExactly(verdicts[..n]);
      assert verdicts == verdicts[..n] + [verdicts[n]];
      assert verdicts[n] in verdicts;
    }
  }

  /** The verdict a run keeps about an identity. */
  predicate Keeps(r: RunRecord, identity: string, v: Verdict) {
    identity in Failed(r.verdicts) && Failed(r.verdicts)[identity] == v
  }

  lemma {:induction false} ModeVerdictsExactly(examples: seq<RunRecord>, identity: string, v: Verdict)
    requires forall e :: e in examples ==> Fails(e, identity)
    ensures v in ModeVerdicts(examples, identity) <==> exists r :: r in examples && Keeps(r, identity, v)
  {
    if examples != [] {
      var n := |examples| - 1;
      assert examples == examples[..n] + [examples[n]];
      assert Fails(examples[n], identity);
      ModeVerdictsExactly(examples[..n], identity, v);
      assert examples[n] in examples;
    }
  }

  /** A change is judged by the candidate's failing runs, or by the baseline's where the candidate has none. */
  lemma EvidenceExactly(b: seq<RunRecord>, c: seq<RunRecord>, identity: string, v: Verdict)
    ensures var judged := if exists r :: r in c && Shows(r, identity) then c else b;
      v in Evidence(b, c, identity) <==> exists r :: r in judged && Keeps(r, identity, v)
  {
    ModeCounted(b, identity);
    ModeCounted(c, identity);
    ModeVerdictsExactly(Examples(b, identity), identity, v);
    ModeVerdictsExactly(Examples(c, identity), identity, v);
    forall r: RunRecord ensures Fails(r, identity) <==> Shows(r, identity) {
      FailsExactly(r, identity);
    }
    if Examples(c, identity) != [] {
      assert Examples(c, identity)[0] in Examples(c, identity);
    }
  }

  /** A reported change's rates are the shares of runs that show it. */
  predicate Reports(d: FailureDelta, b: seq<RunRecord>, c: seq<RunRecord>) {
    && IsShare(d.baselineRate, |Where(b, Showing(d.identity))|, |b|)
    && IsShare(d.candidateRate, |Where(c, Showing(d.identity))|, |c|)
  }

  lemma DeltaRates(b: seq<RunRecord>, c: seq<RunRecord>, identity: string)
    ensures Reports(DeltaOf(b, c, identity), b, c)
  {
    CountExactly(b, identity);
    CountExactly(c, identity);
    ShareBack(Count(b, identity), |b|);
    ShareBack(Count(c, identity), |c|);
  }

  /** Every reported change: the rates are the shares of runs that show it; it is a policy change
      exactly when a verdict it is judged by names a policy; its severity is the greatest among them. */
  lemma DeltaMeans(b: seq<RunRecord>, c: seq<RunRecord>, i: nat)
    requires i < |FailureDeltas(b, c)|
    ensures var d := FailureDeltas(b, c)[i]; var judged := if exists r :: r in c && Shows(r, d.identity) then c else b;
      && Reports(d, b, c)
      && (d.kind == POLICY <==> exists r, v :: r in judged && Keeps(r, d.identity, v) && v.policyName.Some? && v.policyName.value != "")
      && d.severity.Some?
      && (exists r, v :: r in judged && Keeps(r, d.identity, v) && v.severity == d.severity.value)
      && (forall r, v :: r in judged && Keeps(r, d.identity, v) ==> AtMost(v.severity, d.severity.value))
  {
    DeltasExact(b, c, i);
    DeltasFollow(b, c, Identities(b, c), i);
    var d := FailureDeltas(b, c)[i];
    DeltaRates(b, c, d.identity);
    WorstExactly(Evidence(b, c, d.identity));
    forall v: Verdict ensures var judged := if exists r :: r in c && Shows(r, d.identity) then c else b;
      v in Evidence(b, c, d.identity) <==> exists r :: r in judged && Keeps(r, d.identity, v)
    {
      EvidenceExactly(b, c, d.identity, v);
    }
  }
}
