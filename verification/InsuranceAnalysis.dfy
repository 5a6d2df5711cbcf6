/** How the coverage analysis agrees with the decision it prepares, and with the seed bands. */
module InsuranceAnalysis {
  import opened Wrappers
  import opened World
  import opened Histories
  import opened Insurance
  import opened InsuranceSeeds
  import opened InsuranceRuns
  import opened InsuranceInvariants

  lemma PayableMonotone(r1: int, r2: int, limit: int, sublimit: Option<pos>, deductible: int)
    requires r1 <= r2
    ensures 0 <= Payable(r1, limit, sublimit, deductible) <= Payable(r2, limit, sublimit, deductible)
    ensures deductible >= 0 && r1 >= 0 && limit >= 0 ==> Payable(r1, limit, sublimit, deductible) <= Min(r1, limit)
  {
  }

  predicate Analyzable(s: State, claimId: string) {
    var i := ClaimIndex(s.claims, claimId);
    i < |s.claims| && FindCoverage(s.coverages, s.claims[i].coverageId).Some? && FindPolicy(s.policies, s.claims[i].policyId).Some?
  }

  function AnalysisOf(s: State, claimId: string): CoverageAnalysis
    requires Analyzable(s, claimId)
  {
    var claim := s.claims[ClaimIndex(s.claims, claimId)];
    Analyze(claim, FindCoverage(s.coverages, claim.coverageId).value, FindPolicy(s.policies, claim.policyId).value)
  }

  /** An analysis is answered exactly on a claim with its coverage and policy, to whoever may read it,
      and then it is that claim's analysis and changes nothing. */
  lemma AnalysisAnswered(auth: Authorization, mint: Mint, s: State, claimId: string)
    ensures var applied := Apply(auth, CalculateCoverageAnalysis(claimId), mint, s);
      && (applied.Accepted? <==> Analyzable(s, claimId) && MayRead(auth, s.claims[ClaimIndex(s.claims, claimId)].customerId))
      && (applied.Accepted? ==> applied == Accepted(s, AnalysisView(AnalysisOf(s, claimId)), None))
  {
  }

  /** Approving exactly the payable amount of an undecided claim is always accepted by the
      decision, and any approval the decision accepts stays within request and limit. */
  lemma DecisionAcceptsPayable(auth: Authorization, mint: Mint, s: State, claimId: string, amount: nat, key: string, fail: bool)
    requires Analyzable(s, claimId)
    requires var claim := s.claims[ClaimIndex(s.claims, claimId)];
      Undecided(claim.status) && MayMutate(auth, claim.customerId) && "claim:decide" in auth.scopes
    ensures var applied := Apply(auth, DecideClaim(claimId, ToApprove, amount, key, fail), mint, s);
      && (0 < amount <= AnalysisOf(s, claimId).payableMinor ==> applied.Accepted?)
      && (applied.Accepted? <==> 0 < amount <= Min(AnalysisOf(s, claimId).requestedMinor, AnalysisOf(s, claimId).limitMinor))
      && (applied.Accepted? ==>
            && applied.event.Some?
            && applied.state.claims[ClaimIndex(s.claims, claimId)].approvedMinor == amount
            && applied.state.claims[ClaimIndex(s.claims, claimId)].status == APPROVED)
  {
    var claim := s.claims[ClaimIndex(s.claims, claimId)];
    var coverage := FindCoverage(s.coverages, claim.coverageId).value;
    PayableMonotone(claim.requestedMinor, claim.requestedMinor, coverage.limitMinor,
                    AnalysisOf(s, claimId).sublimitMinor, coverage.deductibleMinor);
  }

  /** On any database, approving a positive payable under a fresh key, without fault injection,
      commits and answers success. */
  lemma ApprovalCommits(env: Env, db: Db<State, Tool, Answer, Event>, call: Call<Tool>, claimId: string, key: string)
    requires Analyzable(db.state, claimId) && AnalysisOf(db.state, claimId).payableMinor > 0
    requires var claim := db.state.claims[ClaimIndex(db.state.claims, claimId)];
      Undecided(claim.status) && MayMutate(call.auth, claim.customerId) && "claim:decide" in call.auth.scopes
    requires call.runId == env.runId && key !in db.table && call.envelopeKey in {None, Some(key)}
    requires call.request == Valid(DecideClaim(claimId, ToApprove, AnalysisOf(db.state, claimId).payableMinor, key, false))
    ensures CommitOf(InsuranceDomain(), env, db, Submit(call)).Some?
    ensures InvokeStep(InsuranceDomain(), env, db, call).1.Success?
    ensures InvokeStep(InsuranceDomain(), env, db, call).0.state.claims[ClaimIndex(db.state.claims, claimId)].approvedMinor
      == AnalysisOf(db.state, claimId).payableMinor
  {
    var tool := call.request.data;
    DecisionAcceptsPayable(call.auth, MintAt(env, db.clock), db.state, claimId, tool.approvedMinor, key, false);
    StepEffect(InsuranceDomain(), env, db, Submit(call));
  }

  lemma AnalyzeIgnoresSettlement(claim: Claim, status: ClaimStatus, approved: int, paid: int, coverage: Coverage, policy: Policy)
    ensures Analyze(claim.(status := status, approvedMinor := approved, paidMinor := paid), coverage, policy)
      == Analyze(claim, coverage, policy)
  {
  }

  /** An analysis reads nothing a run can change. */
  lemma AnalysisAgrees(a: State, b: State, claimId: string)
    requires SameButSettled(a.claims, b.claims) && b.coverages == a.coverages && b.policies == a.policies
    requires Analyzable(a, claimId)
    ensures Analyzable(b, claimId) && AnalysisOf(b, claimId) == AnalysisOf(a, claimId)
  {
    SameIndex(a.claims, b.claims, claimId);
    var c, d := a.claims[ClaimIndex(a.claims, claimId)], b.claims[ClaimIndex(a.claims, claimId)];
    assert d == c.(status := d.status, approvedMinor := d.approvedMinor, paidMinor := d.paidMinor);
    AnalyzeIgnoresSettlement(c, d.status, d.approvedMinor, d.paidMinor,
                             FindCoverage(a.coverages, c.coverageId).value, FindPolicy(a.policies, c.policyId).value);
  }

  /** No event moves an analysis: it depends on nothing a run can change. */
  lemma AnalysisIsStable(start: State, events: seq<Event>, claimId: string)
    requires Analyzable(start, claimId)
    ensures Analyzable(FoldEvents(start, events), claimId)
    ensures AnalysisOf(FoldEvents(start, events), claimId) == AnalysisOf(start, claimId)
  {
    FrameKept(start, events);
    AnalysisAgrees(start, FoldEvents(start, events), claimId);
  }

  lemma AnsweredCall(env: Env, db: Db<State, Tool, Answer, Event>, call: Call<Tool>, claimId: string)
    requires call.request == Valid(CalculateCoverageAnalysis(claimId)) && InvokeStep(InsuranceDomain(), env, db, call).1.Success?
    ensures Analyzable(db.state, claimId)
    ensures InvokeStep(InsuranceDomain(), env, db, call).1.output == AnalysisView(AnalysisOf(db.state, claimId))
  {
    AnalysisAnswered(call.auth, MintAt(env, db.clock), db.state, claimId);
  }

  lemma SettledBoth(start: seq<Claim>, a: seq<Claim>, b: seq<Claim>)
    requires SameButSettled(start, a) && SameButSettled(start, b)
    ensures SameButSettled(a, b)
  {
    forall i | 0 <= i < |a|
      ensures b[i] == a[i].(status := b[i].status, approvedMinor := b[i].approvedMinor, paidMinor := b[i].paidMinor)
    {
      assert a[i] == start[i].(status := a[i].status, approvedMinor := a[i].approvedMinor, paidMinor := a[i].paidMinor);
    }
  }

  lemma RunsAgree(env: Env, start: State, seed: int, steps: seq<Step<Tool>>, more: seq<Step<Tool>>, claimId: string)
    requires Analyzable(Reached(env, start, seed, steps).state, claimId)
    ensures Analyzable(Reached(env, start, seed, steps + more).state, claimId)
    ensures AnalysisOf(Reached(env, start, seed, steps + more).state, claimId) == AnalysisOf(Reached(env, start, seed, steps).state, claimId)
  {
    var a, b := Reached(env, start, seed, steps), Reached(env, start, seed, steps + more);
    EventSourcing(env, start, seed, steps);
    EventSourcing(env, start, seed, steps + more);
    FrameKept(start, RowEvents(a.events));
    FrameKept(start, RowEvents(b.events));
    SettledBoth(start.claims, a.state.claims, b.state.claims);
    AnalysisAgrees(a.state, b.state, claimId);
  }

  /** What an analysis is worth to its caller: whenever in a run one is answered with a positive
      payable, then however the run goes on, approving exactly that amount under a fresh key, by
      someone entitled to decide while the claim is undecided, commits and is what gets approved. */
  lemma AnalysisGuidesDecision(env: Env, start: State, seed: int, steps: seq<Step<Tool>>, more: seq<Step<Tool>>,
                               asked: Call<Tool>, approve: Call<Tool>, claimId: string, analysis: CoverageAnalysis, key: string)
    requires asked.request == Valid(CalculateCoverageAnalysis(claimId)) && analysis.payableMinor > 0
    requires var reply := InvokeStep(InsuranceDomain(), env, Reached(env, start, seed, steps), asked).1;
      reply.Success? && reply.output == AnalysisView(analysis)
    requires var later := Reached(env, start, seed, steps + more); var i := ClaimIndex(later.state.claims, claimId);
      && i < |later.state.claims| && Undecided(later.state.claims[i].status)
      && MayMutate(approve.auth, later.state.claims[i].customerId) && "claim:decide" in approve.auth.scopes
      && key !in later.table
    requires approve.runId == env.runId && approve.envelopeKey in {None, Some(key)}
    requires approve.request == Valid(DecideClaim(claimId, ToApprove, analysis.payableMinor, key, false))
    ensures var later := Reached(env, start, seed, steps + more);
      && CommitOf(InsuranceDomain(), env, later, Submit(approve)).Some?
      && InvokeStep(InsuranceDomain(), env, later, approve).1.Success?
      && InvokeStep(InsuranceDomain(), env, later, approve).0.state.claims[ClaimIndex(later.state.claims, claimId)].approvedMinor
           == analysis.payableMinor
  {
    AnsweredCall(env, Reached(env, start, seed, steps), asked, claimId);
    RunsAgree(env, start, seed, steps, more, claimId);
    ApprovalCommits(env, Reached(env, start, seed, steps + more), approve, claimId, key);
  }

  /** Over all integer seeds the primary claim is eligible exactly outside the boundary bands. */
  lemma SeedEligibility(seed: int, name: Namer)
    ensures Analyzable(BuildState(seed, name), "clm_100")
    ensures AnalysisOf(BuildState(seed, name), "clm_100").eligible <==>
      !(8500 <= seed < 8600 || 9200 <= seed < 9400 || 9500 <= seed < 9600)
  {
    var s := BuildState(seed, name);
    assert ClaimIndex(s.claims, "clm_100") == 0;
    assert FindCoverage(s.coverages, "cov_collision") == Some(s.coverages[0]);
    assert FindPolicy(s.policies, "pol_900") == Some(s.policies[0]);
  }
}
