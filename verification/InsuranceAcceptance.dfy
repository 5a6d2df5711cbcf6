/** When each Insurance tool is accepted, why it is refused, and what it then leaves behind. */
module InsuranceAcceptance {
  import opened Wrappers
  import opened World
  import opened Insurance

  /** The claim exists, the caller acts for its holder or for nobody, and holds the scope. */
  predicate Entitled(auth: Authorization, s: State, claimId: string, scope: string) {
    var i := ClaimIndex(s.claims, claimId);
    i < |s.claims| && auth.customerId in {None, Some(s.claims[i].customerId)} && scope in auth.scopes
  }

  predicate Listed(s: State, claimId: string) { ClaimIndex(s.claims, claimId) < |s.claims| }

  function ClaimOf(s: State, claimId: string): Claim
    requires Listed(s, claimId)
  {
    s.claims[ClaimIndex(s.claims, claimId)]
  }

  function ClaimsWith(s: State, claimId: string, c: Claim): seq<Claim>
    requires Listed(s, claimId)
  {
    s.claims[ClaimIndex(s.claims, claimId) := c]
  }

  // ---------- The tools that only append ----------

  /** An analyst tool asks for its scope before it looks the claim up. */
  lemma AnalystToolsExactly(auth: Authorization, tool: Tool, mint: Mint, s: State, scope: string)
    requires tool.AddAnalystNote? || tool.RecordClaimRecommendation? || tool.FlagClaimForReview?
    requires scope == (if tool.AddAnalystNote? then "claim:analyst-note" else if tool.FlagClaimForReview? then "claim:flag" else "claim:recommend")
    ensures var r := Apply(auth, tool, mint, s);
      && (r.Accepted? <==> Entitled(auth, s, tool.claimId, scope))
      && (r == Rejected(EntityNotFound) <==> scope in auth.scopes && !Listed(s, tool.claimId))
      && (r == Rejected(AuthorizationDenied) <==>
            scope !in auth.scopes
            || (Listed(s, tool.claimId) && auth.customerId !in {None, Some(ClaimOf(s, tool.claimId).customerId)}))
  {
  }

  /** What an accepted appending tool leaves: one new row, named after the rows before it. */
  lemma AppendedNote(auth: Authorization, tool: Tool, mint: Mint, s: State)
    requires (tool.AddAnalystNote? || tool.AddAdjusterNote?) && Apply(auth, tool, mint, s).Accepted?
    ensures Apply(auth, tool, mint, s).state ==
      if tool.AddAnalystNote?
      then s.(analystNotes := s.analystNotes + [Note(mint("anote", |s.analystNotes| + 1), tool.claimId, tool.note)])
      else s.(notes := s.notes + [Note(mint("note", |s.notes| + 1), tool.claimId, tool.note)])
  {
  }

  lemma AppendedRecommendation(auth: Authorization, tool: Tool, mint: Mint, s: State)
    requires tool.RecordClaimRecommendation? && Apply(auth, tool, mint, s).Accepted?
    ensures Apply(auth, tool, mint, s).state == s.(recommendations := s.recommendations +
      [Recommendation(mint("rec", |s.recommendations| + 1), tool.claimId, tool.recommendation, tool.reasonCode, tool.recommendedMinor, false)])
  {
  }

  lemma AppendedFlag(auth: Authorization, tool: Tool, mint: Mint, s: State)
    requires tool.FlagClaimForReview? && Apply(auth, tool, mint, s).Accepted?
    ensures Apply(auth, tool, mint, s).state == s.(riskFlags := s.riskFlags +
      [RiskFlag(mint("flag", |s.riskFlags| + 1), tool.claimId, tool.reasonCode, tool.severity)])
  {
  }

  lemma AdjusterNoteExactly(auth: Authorization, mint: Mint, s: State, claimId: string, note: string, key: string, fail: bool)
    ensures var r := Apply(auth, AddAdjusterNote(claimId, note, key, fail), mint, s);
      && (r.Accepted? <==> Entitled(auth, s, claimId, "claim:note"))
      && (r == Rejected(EntityNotFound) <==> !Listed(s, claimId))
      && (r == Rejected(AuthorizationDenied) <==> Listed(s, claimId) && !Entitled(auth, s, claimId, "claim:note"))
  {
  }

  // ---------- The tools that move a claim ----------

  /** Evidence is requested exactly from an open or investigated claim, which then waits for it. */
  lemma EvidenceExactly(auth: Authorization, mint: Mint, s: State, claimId: string, documentType: string, key: string, fail: bool)
    ensures var r := Apply(auth, RequestEvidence(claimId, documentType, key, fail), mint, s);
      var entitled := Entitled(auth, s, claimId, "claim:evidence");
      && (r.Accepted? <==> entitled && ClaimOf(s, claimId).status in {OPEN, INVESTIGATING})
      && (r == Rejected(IllegalClaimTransition) <==> entitled && ClaimOf(s, claimId).status !in {OPEN, INVESTIGATING})
      && (r == Rejected(EntityNotFound) <==> !Listed(s, claimId))
      && (r == Rejected(AuthorizationDenied) <==> Listed(s, claimId) && !entitled)
      && (r.Accepted? ==>
            r.state == s.(claims := ClaimsWith(s, claimId, ClaimOf(s, claimId).(status := EVIDENCE_REQUESTED)),
                          documents := s.documents + [Document(mint("doc", |s.documents| + 1), claimId, documentType, REQUESTED,
                                                               "customer", PENDING, "untrusted")]))
  {
  }

  /** An investigation is opened exactly on a claim that is not decided yet. */
  lemma EscalationExactly(auth: Authorization, mint: Mint, s: State, claimId: string, reason: string, key: string, fail: bool)
    ensures var r := Apply(auth, EscalateInvestigation(claimId, reason, key, fail), mint, s);
      var entitled := Entitled(auth, s, claimId, "claim:investigate");
      && (r.Accepted? <==> entitled && ClaimOf(s, claimId).status !in {APPROVED, REJECTED, PAID})
      && (r == Rejected(IllegalClaimTransition) <==> entitled && ClaimOf(s, claimId).status in {APPROVED, REJECTED, PAID})
      && (r == Rejected(EntityNotFound) <==> !Listed(s, claimId))
      && (r == Rejected(AuthorizationDenied) <==> Listed(s, claimId) && !entitled)
      && (r.Accepted? ==>
            r.state == s.(claims := ClaimsWith(s, claimId, ClaimOf(s, claimId).(status := INVESTIGATING)),
                          investigations := s.investigations + [Investigation(mint("inv", |s.investigations| + 1), claimId, reason)]))
  {
  }

  function CoverageFor(s: State, claimId: string): Option<Coverage>
    requires Listed(s, claimId)
  {
    FindCoverage(s.coverages, ClaimOf(s, claimId).coverageId)
  }

  function PolicyFor(s: State, claimId: string): Option<Policy>
    requires Listed(s, claimId)
  {
    FindPolicy(s.policies, ClaimOf(s, claimId).policyId)
  }

  predicate Deciding(auth: Authorization, s: State, claimId: string) {
    Entitled(auth, s, claimId, "claim:decide") && ClaimOf(s, claimId).status !in {APPROVED, REJECTED, PAID}
  }

  /** A claim is approved exactly while undecided and covered, for a positive amount within both the
      request and the coverage's limit. */
  lemma ApprovalExactly(auth: Authorization, mint: Mint, s: State, claimId: string, amount: nat, key: string, fail: bool)
    ensures var r := Apply(auth, DecideClaim(claimId, ToApprove, amount, key, fail), mint, s);
      var deciding := Deciding(auth, s, claimId);
      && (r.Accepted? <==>
            && deciding && CoverageFor(s, claimId).Some?
            && 0 < amount <= ClaimOf(s, claimId).requestedMinor && amount <= CoverageFor(s, claimId).value.limitMinor)
      && (r == Rejected(ApprovalExceedsCoverage) <==>
            && deciding && CoverageFor(s, claimId).Some?
            && (amount == 0 || amount > ClaimOf(s, claimId).requestedMinor || amount > CoverageFor(s, claimId).value.limitMinor))
      && (r == Rejected(EntityNotFound) <==> !Listed(s, claimId) || (deciding && CoverageFor(s, claimId).None?))
      && (r == Rejected(IllegalClaimTransition) <==> Entitled(auth, s, claimId, "claim:decide") && !deciding)
      && (r == Rejected(AuthorizationDenied) <==> Listed(s, claimId) && !Entitled(auth, s, claimId, "claim:decide"))
      && (r.Accepted? ==> r.state == s.(claims := ClaimsWith(s, claimId, ClaimOf(s, claimId).(status := APPROVED, approvedMinor := amount))))
  {
  }

  /** A claim is rejected exactly while undecided and covered, and only with a zero amount. */
  lemma RejectionExactly(auth: Authorization, mint: Mint, s: State, claimId: string, amount: nat, key: string, fail: bool)
    ensures var r := Apply(auth, DecideClaim(claimId, ToReject, amount, key, fail), mint, s);
      var deciding := Deciding(auth, s, claimId);
      && (r.Accepted? <==> deciding && CoverageFor(s, claimId).Some? && amount == 0)
      && (r == Rejected(InvalidDecisionAmount) <==> deciding && CoverageFor(s, claimId).Some? && amount != 0)
      && (r == Rejected(EntityNotFound) <==> !Listed(s, claimId) || (deciding && CoverageFor(s, claimId).None?))
      && (r == Rejected(IllegalClaimTransition) <==> Entitled(auth, s, claimId, "claim:decide") && !deciding)
      && (r == Rejected(AuthorizationDenied) <==> Listed(s, claimId) && !Entitled(auth, s, claimId, "claim:decide"))
      && (r.Accepted? ==> r.state == s.(claims := ClaimsWith(s, claimId, ClaimOf(s, claimId).(status := REJECTED))))
  {
  }

  // ---------- Payment ----------

  /** The caller may pay this claim, it is approved, and both its policy and its coverage are known. */
  predicate Settling(auth: Authorization, s: State, claimId: string) {
    && Entitled(auth, s, claimId, "claim:pay") && ClaimOf(s, claimId).status == APPROVED
    && PolicyFor(s, claimId).Some? && CoverageFor(s, claimId).Some?
  }

  predicate SameCurrency(s: State, claimId: string, currency: string)
    requires Listed(s, claimId) && CoverageFor(s, claimId).Some?
  {
    currency == ClaimOf(s, claimId).currency && currency == CoverageFor(s, claimId).value.currency
  }

  /** What is approved and not paid yet. */
  function Balance(s: State, claimId: string): int
    requires Listed(s, claimId)
  {
    ClaimOf(s, claimId).approvedMinor - ClaimOf(s, claimId).paidMinor
  }

  /** A payment is accepted exactly on an approved claim under an active policy, in the currency of
      both claim and coverage, and within the balance; each refusal names its own condition. */
  lemma PaymentExactly(auth: Authorization, mint: Mint, s: State, claimId: string, amount: pos, currency: string, key: string, fail: bool)
    ensures var r := Apply(auth, IssueClaimPayment(claimId, amount, currency, key, fail), mint, s);
      var entitled, settling := Entitled(auth, s, claimId, "claim:pay"), Settling(auth, s, claimId);
      && (r.Accepted? <==>
            && settling && PolicyFor(s, claimId).value.status == ACTIVE
            && SameCurrency(s, claimId, currency) && amount <= Balance(s, claimId))
      && (r == Rejected(PaymentExceedsApproved) <==>
            && settling && PolicyFor(s, claimId).value.status == ACTIVE
            && SameCurrency(s, claimId, currency) && amount > Balance(s, claimId))
      && (r == Rejected(CurrencyMismatch) <==>
            settling && PolicyFor(s, claimId).value.status == ACTIVE && !SameCurrency(s, claimId, currency))
      && (r == Rejected(PolicyIneligible) <==> settling && PolicyFor(s, claimId).value.status in {LAPSED, CANCELLED})
      && (r == Rejected(EntityNotFound) <==>
            !Listed(s, claimId) || (entitled && ClaimOf(s, claimId).status == APPROVED && !settling))
      && (r == Rejected(IllegalClaimTransition) <==> entitled && ClaimOf(s, claimId).status != APPROVED)
      && (r == Rejected(AuthorizationDenied) <==> Listed(s, claimId) && !entitled)
  {
  }

  /** What an accepted payment leaves: the amount on the claim, which closes when the balance is
      used up, and one payment row. */
  predicate PaidBy(s: State, s': State, mint: Mint, claimId: string, amount: int, currency: string)
    requires Listed(s, claimId)
  {
    var claim := ClaimOf(s, claimId);
    var total := claim.paidMinor + amount;
    var status := if amount == Balance(s, claimId) then PAID else APPROVED;
    s' == s.(claims := ClaimsWith(s, claimId, claim.(paidMinor := total, status := status)),
             payments := s.payments + [Payment(mint("pay", |s.payments| + 1), claimId, amount, currency, total, status)])
  }

  lemma PaymentDispatched(auth: Authorization, tool: Tool, mint: Mint, s: State)
    requires tool.IssueClaimPayment? && Apply(auth, tool, mint, s).Accepted?
    ensures Listed(s, tool.claimId) && Apply(auth, tool, mint, s) == ApplyPayment(tool, mint, s, ClaimIndex(s.claims, tool.claimId))
  {
  }

  lemma PaymentApplied(tool: Tool, mint: Mint, s: State)
    requires tool.IssueClaimPayment? && Listed(s, tool.claimId)
    requires ApplyPayment(tool, mint, s, ClaimIndex(s.claims, tool.claimId)).Accepted?
    ensures var r := ApplyPayment(tool, mint, s, ClaimIndex(s.claims, tool.claimId));
      r.event.Some? && PaidBy(s, r.state, mint, tool.claimId, tool.amountMinor, tool.currency)
  {
  }

  lemma PaymentEffect(auth: Authorization, mint: Mint, s: State, claimId: string, amount: pos, currency: string, key: string, fail: bool)
    requires Apply(auth, IssueClaimPayment(claimId, amount, currency, key, fail), mint, s).Accepted?
    ensures Listed(s, claimId) && PaidBy(s, Apply(auth, IssueClaimPayment(claimId, amount, currency, key, fail), mint, s).state, mint,
                                         claimId, amount, currency)
    ensures Apply(auth, IssueClaimPayment(claimId, amount, currency, key, fail), mint, s).event.Some?
  {
    var tool := IssueClaimPayment(claimId, amount, currency, key, fail);
    PaymentDispatched(auth, tool, mint, s);
    PaymentApplied(tool, mint, s);
  }

  type Database = Db<State, Tool, Answer, Event>

  /** A call of this run under a key nobody used, with the same key or none in its envelope. */
  predicate FreshCall(env: Env, db: Database, call: Call<Tool>, key: string) {
    call.runId == env.runId && key !in db.table && call.envelopeKey in {None, Some(key)}
  }

  predicate PaymentDue(auth: Authorization, s: State, claimId: string, amount: int, currency: string) {
    && Settling(auth, s, claimId) && PolicyFor(s, claimId).value.status == ACTIVE
    && SameCurrency(s, claimId, currency) && amount <= Balance(s, claimId)
  }

  /** On any database a payment under a fresh key commits exactly when it is due, and is then what is
      paid; otherwise it is refused and only the clock moves. */
  lemma PaymentCommitsExactly(env: Env, db: Database, call: Call<Tool>, claimId: string, amount: pos, currency: string, key: string)
    requires FreshCall(env, db, call, key)
    requires call.request == Valid(IssueClaimPayment(claimId, amount, currency, key, false))
    ensures var (db', reply) := InvokeStep(InsuranceDomain(), env, db, call);
      && (CommitOf(InsuranceDomain(), env, db, Submit(call)).Some? <==> PaymentDue(call.auth, db.state, claimId, amount, currency))
      && (PaymentDue(call.auth, db.state, claimId, amount, currency) ==>
            && reply.Success? && PaidBy(db.state, db'.state, MintAt(env, db.clock), claimId, amount, currency)
            && db'.table.Keys == db.table.Keys + {key})
      && (!PaymentDue(call.auth, db.state, claimId, amount, currency) ==> reply.Failure? && db' == db.(clock := db'.clock))
  {
    PaymentExactly(call.auth, MintAt(env, db.clock), db.state, claimId, amount, currency, key, false);
    if PaymentDue(call.auth, db.state, claimId, amount, currency) {
      PaymentEffect(call.auth, MintAt(env, db.clock), db.state, claimId, amount, currency, key, false);
    }
    StepEffect(InsuranceDomain(), env, db, Submit(call));
  }

  // ---------- Approval, then payment ----------

  lemma IndexKept(claims: seq<Claim>, i: nat, c: Claim)
    requires i < |claims| && c.id == claims[i].id && ClaimIndex(claims, claims[i].id) == i
    ensures ClaimIndex(claims[i := c], c.id) == i
  {
    var claims' := claims[i := c];
    assert claims'[i].id == c.id;
  }

  predicate ApprovalDue(auth: Authorization, s: State, claimId: string, amount: int) {
    && Deciding(auth, s, claimId) && CoverageFor(s, claimId).Some?
    && 0 < amount <= ClaimOf(s, claimId).requestedMinor && amount <= CoverageFor(s, claimId).value.limitMinor
  }

  predicate ApprovedBy(s: State, s': State, claimId: string, amount: int)
    requires Listed(s, claimId)
  {
    s' == s.(claims := ClaimsWith(s, claimId, ClaimOf(s, claimId).(status := APPROVED, approvedMinor := amount)))
  }

  lemma ApprovalSucceeds(env: Env, db: Database, call: Call<Tool>, claimId: string, amount: nat, key: string)
    requires FreshCall(env, db, call, key) && ApprovalDue(call.auth, db.state, claimId, amount)
    requires call.request == Valid(DecideClaim(claimId, ToApprove, amount, key, false))
    ensures var (db', reply) := InvokeStep(InsuranceDomain(), env, db, call);
      reply.Success? && ApprovedBy(db.state, db'.state, claimId, amount) && db'.table.Keys == db.table.Keys + {key}
  {
    ApprovalExactly(call.auth, MintAt(env, db.clock), db.state, claimId, amount, key, false);
  }

  /** An approved claim is as payable as its policy, its currency and the approved amount make it. */
  lemma ApprovedIsPayable(auth: Authorization, s: State, s': State, claimId: string, amount: int, currency: string)
    requires Listed(s, claimId) && ApprovedBy(s, s', claimId, amount)
    requires Entitled(auth, s, claimId, "claim:pay") && CoverageFor(s, claimId).Some? && SameCurrency(s, claimId, currency)
    requires PolicyFor(s, claimId).Some? && PolicyFor(s, claimId).value.status == ACTIVE
    ensures PaymentDue(auth, s', claimId, amount - ClaimOf(s, claimId).paidMinor, currency)
    ensures Balance(s', claimId) == amount - ClaimOf(s, claimId).paidMinor
    ensures ClaimOf(s', claimId) == ClaimOf(s, claimId).(status := APPROVED, approvedMinor := amount)
  {
    IndexKept(s.claims, ClaimIndex(s.claims, claimId), ClaimOf(s, claimId).(status := APPROVED, approvedMinor := amount));
  }

  lemma PaidInFull(s: State, s': State, mint: Mint, claimId: string, amount: int, currency: string)
    requires Listed(s, claimId) && PaidBy(s, s', mint, claimId, amount, currency) && amount == Balance(s, claimId)
    ensures Listed(s', claimId)
    ensures ClaimOf(s', claimId) == ClaimOf(s, claimId).(paidMinor := ClaimOf(s, claimId).approvedMinor, status := PAID)
  {
    var claim := ClaimOf(s, claimId);
    IndexKept(s.claims, ClaimIndex(s.claims, claimId), claim.(paidMinor := claim.paidMinor + amount, status := PAID));
  }

  /** Settling a claim: approving an amount within request and limit, then paying its whole balance,
      under two fresh keys and an active policy, succeeds twice and leaves the claim paid and closed. */
  lemma ApprovedThenPaid(env: Env, db: Database, approve: Call<Tool>, pay: Call<Tool>, claimId: string, amount: nat, rest: pos,
                         currency: string, first: string, second: string)
    requires FreshCall(env, db, approve, first) && FreshCall(env, db, pay, second) && first != second
    requires ApprovalDue(approve.auth, db.state, claimId, amount) && Entitled(pay.auth, db.state, claimId, "claim:pay")
    requires PolicyFor(db.state, claimId).Some? && PolicyFor(db.state, claimId).value.status == ACTIVE
    requires SameCurrency(db.state, claimId, currency) && rest == amount - ClaimOf(db.state, claimId).paidMinor
    requires approve.request == Valid(DecideClaim(claimId, ToApprove, amount, first, false))
    requires pay.request == Valid(IssueClaimPayment(claimId, rest, currency, second, false))
    ensures var (db1, decided) := InvokeStep(InsuranceDomain(), env, db, approve);
      var (db2, paid) := InvokeStep(InsuranceDomain(), env, db1, pay);
      && decided.Success? && paid.Success? && Listed(db2.state, claimId)
      && ClaimOf(db2.state, claimId) == ClaimOf(db.state, claimId).(status := PAID, approvedMinor := amount, paidMinor := amount)
  {
    ApprovalSucceeds(env, db, approve, claimId, amount, first);
    var db1 := InvokeStep(InsuranceDomain(), env, db, approve).0;
    ApprovedIsPayable(pay.auth, db.state, db1.state, claimId, amount, currency);
    PaymentCommitsExactly(env, db1, pay, claimId, rest, currency, second);
    var db2 := InvokeStep(InsuranceDomain(), env, db1, pay).0;
    PaidInFull(db1.state, db2.state, MintAt(env, db1.clock), claimId, rest, currency);
  }

  // ---------- Reading ----------

  /** A reader acts for the customer or holds the reading scope. */
  predicate Reads(auth: Authorization, customerId: string) {
    auth.customerId == Some(customerId) || "claim:read" in auth.scopes
  }

  /** The claims in the list that a search asks for. */
  predicate Sought(c: Claim, customerId: Option<string>, status: Option<string>) {
    (customerId.Some? ==> c.customerId == customerId.value) && (status.Some? ==> StatusText(c.status) == status.value)
  }

  lemma {:induction false} MatchingExactly(claims: seq<Claim>, customerId: Option<string>, status: Option<string>, c: Claim)
    ensures c in MatchingClaims(claims, customerId, status) <==> c in claims && Sought(c, customerId, status)
  {
    if claims != [] {
      MatchingExactly(claims[1..], customerId, status, c);
    }
  }

  /** A search lists exactly the sought claims of the customer asked for, or else of the caller; a
      caller who acts for nobody must hold the reading scope. */
  lemma SearchExactly(auth: Authorization, mint: Mint, s: State, customerId: Option<string>, status: Option<string>, c: Claim)
    ensures var r := Apply(auth, SearchClaims(customerId, status), mint, s);
      var whose := if customerId.Some? && customerId.value != "" then customerId else auth.customerId;
      && (r.Accepted? <==> if customerId.Some? then Reads(auth, customerId.value) else auth.customerId.Some? || "claim:read" in auth.scopes)
      && (!r.Accepted? ==> r == Rejected(AuthorizationDenied))
      && (r.Accepted? ==>
            && r.state == s && r.output.ClaimList?
            && (c in r.output.claims <==> c in s.claims && Sought(c, whose, status)))
  {
    MatchingExactly(s.claims, if customerId.Some? && customerId.value != "" then customerId else auth.customerId, status, c);
  }

  lemma {:induction false} RelatedExactly(claims: seq<Claim>, ids: seq<string>, c: Claim)
    ensures c in RelatedClaims(claims, ids) <==> c in claims && c.id in ids
  {
    if claims != [] {
      RelatedExactly(claims[1..], ids, c);
    }
  }

  lemma {:induction false} AttachedExactly(records: seq<Record>, claimId: string, r: Record)
    ensures r in Attached(records, claimId) <==> r in records && r.claimId == claimId
  {
    if records != [] {
      AttachedExactly(records[..|records| - 1], claimId, r);
    }
  }

  /** The tools that read about one claim answer exactly its readers. */
  lemma ClaimReadExactly(auth: Authorization, tool: Tool, mint: Mint, s: State, c: Claim, row: Record)
    requires tool.InspectClaim? || tool.InspectIncident? || tool.ListClaimEvidence? || tool.GetRelatedClaims?
    ensures var r := Apply(auth, tool, mint, s); var incident := FindIncident(s.incidents, tool.claimId);
      var needed := tool.InspectClaim? || tool.InspectIncident?;
      && (r.Accepted? <==>
            && Listed(s, tool.claimId) && Reads(auth, ClaimOf(s, tool.claimId).customerId) && (needed ==> incident.Some?))
      && (r == Rejected(AuthorizationDenied) <==> Listed(s, tool.claimId) && !Reads(auth, ClaimOf(s, tool.claimId).customerId))
      && (r.Rejected? ==> r.error in {AuthorizationDenied, EntityNotFound})
      && (r.Accepted? && tool.InspectClaim? ==> r == Accepted(s, ClaimView(ClaimOf(s, tool.claimId), incident.value), None))
      && (r.Accepted? && tool.InspectIncident? ==> r == Accepted(s, IncidentView(incident.value), None))
      && (r.Accepted? && tool.ListClaimEvidence? ==>
            && r.state == s && r.output.DocumentList?
            && (row in r.output.documents <==> row in s.documents && row.claimId == tool.claimId))
      && (r.Accepted? && tool.GetRelatedClaims? ==>
            && r.state == s && r.output.ClaimList?
            && (c in r.output.claims <==> c in s.claims && c.id in ClaimOf(s, tool.claimId).relatedClaimIds))
  {
    AttachedExactly(s.documents, tool.claimId, row);
    if Listed(s, tool.claimId) {
      RelatedExactly(s.claims, ClaimOf(s, tool.claimId).relatedClaimIds, c);
    }
  }

  lemma {:induction false} CoveragesExactly(coverages: seq<Coverage>, policyId: string, c: Coverage)
    ensures c in CoveragesOf(coverages, policyId) <==> c in coverages && c.policyId == policyId
  {
    if coverages != [] {
      CoveragesExactly(coverages[1..], policyId, c);
    }
  }

  /** A policy is shown, with exactly its coverages, to its holder or a reader. */
  lemma PolicyReadExactly(auth: Authorization, mint: Mint, s: State, policyId: string, c: Coverage)
    ensures var r := Apply(auth, GetPolicy(policyId), mint, s); var policy := FindPolicy(s.policies, policyId);
      && (r.Accepted? <==> policy.Some? && Reads(auth, policy.value.customerId))
      && (r.Accepted? ==>
            && r.state == s && r.output.PolicyView? && r.output.policy == policy.value
            && (c in r.output.coverages <==> c in s.coverages && c.policyId == policyId))
      && (r == Rejected(EntityNotFound) <==> policy.None?)
      && (r.Rejected? ==> r.error in {AuthorizationDenied, EntityNotFound})
  {
    CoveragesExactly(s.coverages, policyId, c);
  }

  // ---------- The coverage analysis ----------

  /** Nothing is payable when the deductible swallows the request, the limit or the sublimit; otherwise
      payable and deductible together are the least of the three. */
  lemma PayableExactly(requested: pos, limit: pos, sublimit: Option<pos>, deductible: nat)
    ensures var payable := Payable(requested, limit, sublimit, deductible);
      if requested <= deductible || limit <= deductible || (sublimit.Some? && sublimit.value <= deductible) then payable == 0
      else
        && payable > 0 && payable + deductible <= requested && payable + deductible <= limit
        && (sublimit.Some? ==> payable + deductible <= sublimit.value)
        && (payable + deductible == requested || payable + deductible == limit || sublimit == Some(payable + deductible))
  {
  }

  /** The sublimit of the claim's own type, where the coverage has one. */
  predicate SublimitFor(claim: Claim, coverage: Coverage, sublimit: Option<pos>) {
    if sublimit.Some? then
      claim.claimType.Some? && claim.claimType.value in coverage.sublimits && coverage.sublimits[claim.claimType.value] == sublimit.value
    else claim.claimType.None? || claim.claimType.value !in coverage.sublimits
  }

  /** An analysis is eligible exactly on an active policy, for a claim opened within its period, whose
      known dates are in order, and above the deductible. */
  lemma AnalysisMeans(claim: Claim, coverage: Coverage, policy: Policy)
    ensures var a := Analyze(claim, coverage, policy);
      && (a.eligible <==>
            && policy.status == ACTIVE && policy.effectiveAt <= claim.openedAt <= policy.expiresAt
            && (claim.lossDate.Some? && claim.reportDate.Some? ==>
                  claim.lossDate.value <= claim.reportDate.value && claim.reportDate.value <= claim.openedAt)
            && claim.requestedMinor > coverage.deductibleMinor)
      && SublimitFor(claim, coverage, a.sublimitMinor)
      && (a.exceedsLimit <==> claim.requestedMinor > coverage.limitMinor)
      && (a.exceedsSublimit <==> a.sublimitMinor.Some? && claim.requestedMinor > a.sublimitMinor.value)
      && (a.withinDeductible <==> claim.requestedMinor <= coverage.deductibleMinor)
      && a.requestedMinor == claim.requestedMinor && a.limitMinor == coverage.limitMinor && a.deductibleMinor == coverage.deductibleMinor
      && a.payableMinor == Payable(claim.requestedMinor, coverage.limitMinor, a.sublimitMinor, coverage.deductibleMinor)
  {
  }

  /** On any database an answered analysis is of the claim as it stands: it pays out exactly when limit
      and sublimit, like the request, exceed the deductible, and always does so for an eligible claim
      whose limit and sublimit do. */
  lemma AnalysisAnswered(env: Env, db: Database, call: Call<Tool>, claimId: string, analysis: CoverageAnalysis)
    requires call.request == Valid(CalculateCoverageAnalysis(claimId))
    requires var reply := InvokeStep(InsuranceDomain(), env, db, call).1; reply.Success? && reply.output == AnalysisView(analysis)
    ensures Listed(db.state, claimId) && Reads(call.auth, ClaimOf(db.state, claimId).customerId)
    ensures CoverageFor(db.state, claimId).Some? && PolicyFor(db.state, claimId).Some?
    ensures var claim, coverage := ClaimOf(db.state, claimId), CoverageFor(db.state, claimId).value;
      var deductible := coverage.deductibleMinor;
      && SublimitFor(claim, coverage, analysis.sublimitMinor)
      && (analysis.payableMinor > 0 <==>
            && claim.requestedMinor > deductible && coverage.limitMinor > deductible
            && (analysis.sublimitMinor.Some? ==> analysis.sublimitMinor.value > deductible))
      && (analysis.eligible ==> claim.requestedMinor > deductible && PolicyFor(db.state, claimId).value.status == ACTIVE)
  {
    AnalysisReply(env, db, call, claimId, analysis);
    var claim, coverage := ClaimOf(db.state, claimId), CoverageFor(db.state, claimId).value;
    AnalysisMeans(claim, coverage, PolicyFor(db.state, claimId).value);
    PayableExactly(claim.requestedMinor, coverage.limitMinor, analysis.sublimitMinor, coverage.deductibleMinor);
  }

  lemma AnalysisReply(env: Env, db: Database, call: Call<Tool>, claimId: string, analysis: CoverageAnalysis)
    requires call.request == Valid(CalculateCoverageAnalysis(claimId))
    requires var reply := InvokeStep(InsuranceDomain(), env, db, call).1; reply.Success? && reply.output == AnalysisView(analysis)
    ensures Listed(db.state, claimId) && Reads(call.auth, ClaimOf(db.state, claimId).customerId)
    ensures CoverageFor(db.state, claimId).Some? && PolicyFor(db.state, claimId).Some?
    ensures analysis == Analyze(ClaimOf(db.state, claimId), CoverageFor(db.state, claimId).value, PolicyFor(db.state, claimId).value)
  {
  }
}
