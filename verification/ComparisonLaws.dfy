/** What the summaries and failure-mode changes of a comparison mean. */
module ComparisonLaws {
  import opened Wrappers
  import opened Statistics
  import opened Collections
  import opened Comparison

  // ---------- Shares ----------

  lemma ShareLaws(part: int, total: nat)
    requires 0 <= part <= total && total > 0
    ensures 0.0 <= Share(part, total) <= 1.0
    ensures Share(part, total) == 1.0 <==> part == total
    ensures Share(part, total) > 0.0 <==> part > 0
    ensures Share(part, total) * total as real == part as real
  {
    var n := total as real;
    Quotient(part as real, n);
    DivBounds(part as real, 0.0, 1.0, n);
    if part > 0 {
      DivBounds(part as real, 1.0 / n, 1.0, n) by {
        Quotient(1.0, n);
      }
      DivBounds(1.0, 0.0, 1.0, n);
      Quotient(1.0, n);
    }
  }

  lemma {:induction false} Tally(f: RunRecord -> int, runs: seq<RunRecord>)
    requires forall r :: 0 <= f(r) <= 1
    ensures 0 <= SumBy(f, runs) <= |runs|
  {
    if runs != [] {
      Tally(f, runs[..|runs| - 1]);
    }
  }

  lemma {:induction false} PassedAndErrorsApart(runs: seq<RunRecord>)
    ensures 0 <= SumBy(PassedOne, runs) && 0 <= SumBy(ErrorOne, runs)
    ensures SumBy(PassedOne, runs) + SumBy(ErrorOne, runs) <= |runs|
  {
    if runs != [] {
      PassedAndErrorsApart(runs[..|runs| - 1]);
    }
  }

  // ---------- Variability ----------

  lemma {:induction false} PeakBounds(names: seq<string>, counter: multiset<string>)
    ensures forall d :: d in names ==> counter[d] <= Peak(names, counter)
    ensures names != [] ==> exists d :: d in names && counter[d] == Peak(names, counter)
  {
    if names != [] {
      var rest, last := names[..|names| - 1], names[|names| - 1];
      PeakBounds(rest, counter);
      assert names == rest + [last];
      assert last in names;
    }
  }

  predicate Constant(names: seq<string>, d: string) {
    forall i :: 0 <= i < |names| ==> names[i] == d
  }

  lemma {:induction false} CountBound(names: seq<string>, d: string)
    ensures multiset(names)[d] <= |names|
    ensures multiset(names)[d] == |names| <==> Constant(names, d)
  {
    if names != [] {
      var rest, last := names[..|names| - 1], names[|names| - 1];
      CountBound(rest, d);
      assert names == rest + [last];
      assert Constant(names, d) <==> Constant(rest, d) && last == d;
    }
  }

  lemma PeakRange(names: seq<string>)
    requires names != []
    ensures 1 <= Peak(names, multiset(names)) <= |names|
    ensures Peak(names, multiset(names)) == |names| <==> Constant(names, names[0])
  {
    PeakBounds(names, multiset(names));
    var d :| d in names && multiset(names)[d] == Peak(names, multiset(names));
    CountBound(names, d);
    assert names[0] in multiset(names) && names[0] in names;
    CountBound(names, names[0]);
    assert Constant(names, d) ==> names[0] == d;
  }

  /** Variability lies in [0, 1 - 1/n] and is 0 exactly when all signatures agree. */
  lemma VariabilityLaws(digests: seq<string>)
    requires digests != []
    ensures 0.0 <= Variability(digests) <= 1.0 - Share(1, |digests|)
    ensures Variability(digests) == 0.0 <==> Constant(digests, digests[0])
  {
    PeakRange(digests);
    var peak, n := Peak(digests, multiset(digests)), |digests|;
    ShareLaws(peak, n);
    DivLe(1.0, peak as real, n as real);
  }

  lemma {:induction false} MapMember<T, U>(f: T -> U, items: seq<T>, i: nat)
    requires i < |items|
    ensures MapBy(f, items)[i] == f(items[i])
  {
    if i < |items| - 1 {
      MapMember(f, items[..|items| - 1], i);
    }
  }

  predicate SameDigests(runs: seq<RunRecord>) {
    forall i :: 0 <= i < |runs| ==> runs[i].digest == runs[0].digest
  }

  lemma SameDigestsMapped(runs: seq<RunRecord>)
    requires runs != []
    ensures SameDigests(runs) <==> Constant(MapBy(DigestOf, runs), MapBy(DigestOf, runs)[0])
  {
    var digests := MapBy(DigestOf, runs);
    forall i | 0 <= i < |runs| ensures digests[i] == runs[i].digest {
      MapMember(DigestOf, runs, i);
    }
  }

  lemma DurationsNonNegative(runs: seq<RunRecord>, fraction: real)
    requires 0.0 <= fraction <= 1.0
    ensures Percentile(MapBy(DurationOf, runs), fraction) >= 0.0
  {
    var durations := MapBy(DurationOf, runs);
    if durations != [] {
      var lo, hi := PercentileWithin(durations, fraction);
      var i :| 0 <= i < |durations| && durations[i] == lo;
      MapMember(DurationOf, runs, i);
    }
  }

  lemma {:induction false} SumNonNegative(f: RunRecord -> int, runs: seq<RunRecord>)
    requires forall r :: 0 <= f(r)
    ensures 0 <= SumBy(f, runs)
  {
    if runs != [] {
      SumNonNegative(f, runs[..|runs| - 1]);
    }
  }

  predicate Sane(s: Summary) {
    && s.completed == s.passed + s.failed + s.errors && 0 <= s.passed && 0 <= s.failed && 0 <= s.errors
    && |s.outcomes| == |s.terminals| == s.completed
    && 0.0 <= s.passRate <= 1.0 && 0.0 <= s.infrastructureRate <= 1.0
    && 0.0 <= s.p50 <= s.p95
    && 0 <= Or(s.tokens, 0) && 0 <= Or(s.cost, 0)
  }

  lemma RatesSane(runs: seq<RunRecord>)
    ensures 0.0 <= Share(SumBy(PassedOne, runs), |runs|) <= 1.0
    ensures 0.0 <= Share(SumBy(InfrastructureOne, runs), |runs|) <= 1.0
  {
    PassedAndErrorsApart(runs);
    Tally(InfrastructureOne, runs);
    if runs != [] {
      ShareLaws(SumBy(PassedOne, runs), |runs|);
      ShareLaws(SumBy(InfrastructureOne, runs), |runs|);
    }
  }

  lemma TotalsSane(runs: seq<RunRecord>)
    ensures 0 <= SumBy(TokensOf, runs) && 0 <= SumBy(CostOf, runs)
    ensures 0.0 <= Percentile(MapBy(DurationOf, runs), 0.5) <= Percentile(MapBy(DurationOf, runs), 0.95)
  {
    SumNonNegative(TokensOf, runs);
    SumNonNegative(CostOf, runs);
    DurationsNonNegative(runs, 0.5);
    PercentileMonotone(MapBy(DurationOf, runs), 0.5, 0.95);
  }

  /** The parts of a summary add up, its rates are rates and its percentiles are ordered. */
  lemma SummarySane(runs: seq<RunRecord>, minimum: int)
    ensures Sane(Summarize(runs, minimum))
  {
    PassedAndErrorsApart(runs);
    RatesSane(runs);
    TotalsSane(runs);
  }

  /** The interval reported with a summary is a sub-interval of [0, 1] around its pass rate. */
  lemma SummaryInterval(runs: seq<RunRecord>, minimum: int, root: real)
    requires runs != [] && IsRoot(root, Radicand(PassCount(runs), |runs|))
    ensures var s := Summarize(runs, minimum); var (low, high) := WilsonInterval(PassCount(runs), s.completed, root);
      s.passed == PassCount(runs) && 0.0 <= low <= s.passRate <= high <= 1.0
  {
    WilsonBounds(PassCount(runs), |runs|, root);
  }

  function PassCount(runs: seq<RunRecord>): (n: nat)
    ensures n <= |runs|
  {
    PassedAndErrorsApart(runs);
    SumBy(PassedOne, runs)
  }

  /** Variability measures disagreement between outcome signatures. */
  lemma SummaryVariability(runs: seq<RunRecord>, minimum: int)
    ensures var v := Summarize(runs, minimum).variability;
      && (runs != [] ==> 0.0 <= v <= 1.0 - Share(1, |runs|))
      && (v == 0.0 <==> SameDigests(runs))
  {
    if runs != [] {
      VariabilityLaws(MapBy(DigestOf, runs));
      SameDigestsMapped(runs);
    }
  }

  lemma PeakPermuted(a: seq<string>, b: seq<string>)
    requires multiset(a) == multiset(b)
    ensures Variability(a) == Variability(b)
  {
    SameLength(a, b);
    if a != [] {
      PeakBounds(a, multiset(a));
      PeakBounds(b, multiset(b));
      var d :| d in a && multiset(a)[d] == Peak(a, multiset(a));
      var e :| e in b && multiset(b)[e] == Peak(b, multiset(b));
      assert d in multiset(b) && e in multiset(a);
    }
  }

  lemma SameMembers(a: seq<RunRecord>, b: seq<RunRecord>)
    requires multiset(a) == multiset(b)
    ensures forall r :: r in a <==> r in b
  {
    forall r ensures r in a <==> r in b {
      assert r in a <==> r in multiset(a);
    }
  }

  /** A summary depends only on the multiset of runs. */
  lemma SummaryPermuted(a: seq<RunRecord>, b: seq<RunRecord>, minimum: int)
    requires multiset(a) == multiset(b)
    ensures Summarize(a, minimum) == Summarize(b, minimum)
  {
    SameLength(a, b);
    SameMembers(a, b);
    SumPermuted(PassedOne, a, b);
    SumPermuted(ErrorOne, a, b);
    SumPermuted(InfrastructureOne, a, b);
    SumPermuted(TokensOf, a, b);
    SumPermuted(CostOf, a, b);
    BagPermuted(SeveritiesOf, a, b);
    MapPermuted(TerminalOf, a, b);
    MapPermuted(DigestOf, a, b);
    PeakPermuted(MapBy(DigestOf, a), MapBy(DigestOf, b));
    MapPermuted(DurationOf, a, b);
    PercentileLaws(MapBy(DurationOf, a), MapBy(DurationOf, b), 0.5, 0.95);
    PercentileLaws(MapBy(DurationOf, a), MapBy(DurationOf, b), 0.95, 0.95);
  }

  // ---------- Failure modes ----------

  lemma {:induction false} FailedExact(verdicts: seq<Verdict>, k: string)
    ensures k in Failed(verdicts) <==> k in FailedKeys(verdicts)
    ensures k in Failed(verdicts) ==> Failed(verdicts)[k] in verdicts && Failed(verdicts)[k].status != PASS && KeyOf(Failed(verdicts)[k]) == k
  {
    if verdicts != [] {
      FailedExact(verdicts[..|verdicts| - 1], k);
    }
  }

  lemma {:induction false} ModeCounted(runs: seq<RunRecord>, k: string)
    ensures Count(runs, k) > 0 <==> k in ModeKeys(runs)
    ensures forall r :: r in Examples(runs, k) <==> r in runs && Fails(r, k)
  {
    if runs != [] {
      var rest, last := runs[..|runs| - 1], runs[|runs| - 1];
      ModeCounted(rest, k);
      FailedExact(last.verdicts, k);
      assert runs == rest + [last];
    }
  }

  lemma NoneFails(runs: seq<RunRecord>, k: string)
    ensures Count(runs, k) == 0 <==> forall r :: r in runs ==> !Fails(r, k)
  {
    ModeCounted(runs, k);
    if Count(runs, k) > 0 {
      assert Examples(runs, k)[0] in Examples(runs, k);
    }
  }

  /** The identities whose run counts differ. */
  function Changed(b: seq<RunRecord>, c: seq<RunRecord>, ids: seq<string>): seq<string> {
    if ids == [] then []
    else
      var last := ids[|ids| - 1];
      Changed(b, c, ids[..|ids| - 1]) + (if Count(b, last) == Count(c, last) then [] else [last])
  }

  lemma {:induction false} ChangedMember(b: seq<RunRecord>, c: seq<RunRecord>, ids: seq<string>, k: string)
    ensures k in Changed(b, c, ids) <==> k in ids && Count(b, k) != Count(c, k)
  {
    if ids != [] {
      ChangedMember(b, c, ids[..|ids| - 1], k);
      assert ids == ids[..|ids| - 1] + [ids[|ids| - 1]];
    }
  }

  lemma {:induction false} DeltasFollow(b: seq<RunRecord>, c: seq<RunRecord>, ids: seq<string>, i: nat)
    ensures |DeltasOver(b, c, ids)| == |Changed(b, c, ids)|
    ensures i < |Changed(b, c, ids)| ==> DeltasOver(b, c, ids)[i] == DeltaOf(b, c, Changed(b, c, ids)[i])
  {
    if ids != [] {
      DeltasFollow(b, c, ids[..|ids| - 1], i);
    }
  }

  /** The i-th reported change is the i-th identity, in order, whose run counts differ: equal counts
      are skipped even when the rates differ. It is new or removed by which side has no such run. */
  lemma DeltasExact(b: seq<RunRecord>, c: seq<RunRecord>, i: nat)
    ensures |FailureDeltas(b, c)| == |Changed(b, c, Identities(b, c))|
    ensures i < |FailureDeltas(b, c)| ==>
      var d := FailureDeltas(b, c)[i];
      && d.identity == Changed(b, c, Identities(b, c))[i] && Count(b, d.identity) != Count(c, d.identity)
      && (d.change == NEW <==> forall r :: r in b ==> !Fails(r, d.identity))
      && (d.change == REMOVED <==> forall r :: r in c ==> !Fails(r, d.identity))
      && d.severity.Some?
  {
    DeltasFollow(b, c, Identities(b, c), i);
    if i < |FailureDeltas(b, c)| {
      var k := Changed(b, c, Identities(b, c))[i];
      ChangedMember(b, c, Identities(b, c), k);
      NoneFails(b, k);
      NoneFails(c, k);
    }
  }

  /** No identity is missed: one is reported exactly when its run counts differ. */
  lemma ChangedIdentity(b: seq<RunRecord>, c: seq<RunRecord>, k: string)
    ensures k in Changed(b, c, Identities(b, c)) <==> Count(b, k) != Count(c, k)
  {
    ChangedMember(b, c, Identities(b, c), k);
    ModeCounted(b, k);
    ModeCounted(c, k);
  }

  // ---------- Counting new failures ----------

  /** The candidate's run count of an identity of this severity whose rate rose and count differs. */
  function Risen(b: seq<RunRecord>, c: seq<RunRecord>, severity: Severity, k: string): nat {
    if Count(b, k) != Count(c, k) && Share(Count(c, k), |c|) > Share(Count(b, k), |b|) && Worst(Evidence(b, c, k)) == Some(severity)
    then Count(c, k) else 0
  }

  function RisenIn(b: seq<RunRecord>, c: seq<RunRecord>, severity: Severity, ids: seq<string>): nat {
    if ids == [] then 0 else RisenIn(b, c, severity, ids[..|ids| - 1]) + Risen(b, c, severity, ids[|ids| - 1])
  }

  lemma RoundWhole(n: int)
    ensures Round(n as real) == n
  {
  }

  lemma RoundedShare(part: int, total: nat)
    requires 0 <= part <= total && total > 0
    ensures Round(Share(part, total) * total as real) == part
  {
    ShareLaws(part, total);
    RoundWhole(part);
  }

  lemma OccurrencesOf(d: FailureDelta, before: nat, total: nat, after: nat, completed: nat, severity: Severity)
    requires d.baselineRate == Share(before, total) && d.candidateRate == Share(after, completed)
    requires before <= total && after <= completed && d.change == ChangeOf(before, after)
    ensures Occurrences(d, completed, severity) ==
      if Share(after, completed) > Share(before, total) && d.severity == Some(severity) then after else 0
    ensures d.change == REMOVED ==> Occurrences(d, completed, severity) == 0
  {
    if completed > 0 {
      RoundedShare(after, completed);
    }
    if total > 0 {
      ShareLaws(before, total);
    }
  }

  lemma OccurrencesRisen(b: seq<RunRecord>, c: seq<RunRecord>, severity: Severity, k: string)
    requires Count(b, k) != Count(c, k)
    ensures Occurrences(DeltaOf(b, c, k), |c|, severity) == Risen(b, c, severity, k)
    ensures DeltaOf(b, c, k).change == REMOVED ==> Risen(b, c, severity, k) == 0
  {
    OccurrencesOf(DeltaOf(b, c, k), Count(b, k), |b|, Count(c, k), |c|, severity);
  }

  lemma OccurrencesAppend(deltas: seq<FailureDelta>, d: FailureDelta, completed: nat, severity: Severity, kept: set<Change>)
    ensures OccurrencesIn(deltas + [d], completed, severity, kept)
      == OccurrencesIn(deltas, completed, severity, kept) + (if d.change in kept then Occurrences(d, completed, severity) else 0)
  {
    assert (deltas + [d])[..|deltas|] == deltas;
  }

  lemma {:induction false} OccurrencesInRisen(b: seq<RunRecord>, c: seq<RunRecord>, severity: Severity, kept: set<Change>, ids: seq<string>)
    requires NEW in kept && RATE_CHANGED in kept
    ensures OccurrencesIn(DeltasOver(b, c, ids), |c|, severity, kept) == RisenIn(b, c, severity, ids)
  {
    if ids != [] {
      var last := ids[|ids| - 1];
      OccurrencesInRisen(b, c, severity, kept, ids[..|ids| - 1]);
      if Count(b, last) != Count(c, last) {
        OccurrencesRisen(b, c, severity, last);
        OccurrencesAppend(DeltasOver(b, c, ids[..|ids| - 1]), DeltaOf(b, c, last), |c|, severity, kept);
      }
    }
  }

  lemma {:induction false} RisenMember(b: seq<RunRecord>, c: seq<RunRecord>, severity: Severity, ids: seq<string>, k: string)
    requires k in ids
    ensures Risen(b, c, severity, k) <= RisenIn(b, c, severity, ids)
  {
    if ids[|ids| - 1] != k {
      RisenMember(b, c, severity, ids[..|ids| - 1], k);
    }
  }

  lemma {:induction false} WorstAtLeast(verdicts: seq<Verdict>, v: Verdict)
    requires v in verdicts
    ensures Worst(verdicts).Some? && Rank(v.severity) <= Rank(Worst(verdicts).value)
  {
    if verdicts[|verdicts| - 1] != v {
      WorstAtLeast(verdicts[..|verdicts| - 1], v);
    }
  }

  lemma {:induction false} VerdictListed(examples: seq<RunRecord>, k: string, r: RunRecord)
    requires forall e :: e in examples ==> Fails(e, k)
    requires r in examples && Fails(r, k)
    ensures Failed(r.verdicts)[k] in ModeVerdicts(examples, k)
  {
    if examples[|examples| - 1] != r {
      VerdictListed(examples[..|examples| - 1], k, r);
    }
  }

  /** A failure mode with a critical verdict in the candidate is critical. */
  lemma CriticalEvidence(b: seq<RunRecord>, c: seq<RunRecord>, k: string, r: RunRecord)
    requires r in c && Fails(r, k) && Failed(r.verdicts)[k].severity == CRITICAL
    ensures Count(c, k) > 0 && Worst(Evidence(b, c, k)) == Some(CRITICAL)
  {
    ModeCounted(c, k);
    NoneFails(c, k);
    VerdictListed(Examples(c, k), k, r);
    WorstAtLeast(Evidence(b, c, k), Failed(r.verdicts)[k]);
  }

  lemma RisesFromNothing(before: nat, total: nat, after: nat, completed: nat)
    requires before == 0 && 0 < after <= completed
    ensures Share(after, completed) > Share(before, total)
  {
    ShareLaws(after, completed);
    if total > 0 {
      ShareLaws(before, total);
    }
  }

  /** A critical failure the baseline never had counts once for each candidate run that has it. */
  lemma NewCriticalRises(b: seq<RunRecord>, c: seq<RunRecord>, k: string, r: RunRecord)
    requires forall x :: x in b ==> !Fails(x, k)
    requires r in c && Fails(r, k) && Failed(r.verdicts)[k].severity == CRITICAL
    ensures k in Identities(b, c) && Risen(b, c, CRITICAL, k) == Count(c, k) > 0
  {
    NoneFails(b, k);
    CriticalEvidence(b, c, k, r);
    ModeCounted(c, k);
    RisesFromNothing(Count(b, k), |b|, Count(c, k), |c|);
  }
}
