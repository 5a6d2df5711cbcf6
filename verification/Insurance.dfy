/** The Insurance world's entities, tools, and the behaviour of each tool on a copied state. */
module Insurance {
  import opened Wrappers
  import opened World

  datatype PolicyStatus = ACTIVE | LAPSED | CANCELLED
  datatype ClaimStatus = OPEN | EVIDENCE_REQUESTED | INVESTIGATING | APPROVED | REJECTED | PAID
  datatype DocumentStatus = REQUESTED | RECEIVED
  datatype Verification = PENDING | VERIFIED | VERIFICATION_REJECTED
  datatype RecommendationKind = APPROVE | PARTIAL_APPROVE | DENY | INVESTIGATE | MORE_INFORMATION
  datatype Severity = LOW | MEDIUM | HIGH
  datatype Decision = ToApprove | ToReject

  type pos = x: int | x > 0 witness 1

  datatype Customer = Customer(id: string, name: string)
  datatype Policy = Policy(id: string, customerId: string, status: PolicyStatus, currency: string, effectiveAt: int, expiresAt: int)
  datatype Coverage = Coverage(
    id: string, policyId: string, kind: string, limitMinor: pos, deductibleMinor: nat, currency: string,
    exclusions: seq<string>, waitingPeriodDays: nat, sublimits: map<string, pos>)
  datatype Claim = Claim(
    id: string, policyId: string, customerId: string, coverageId: string, status: ClaimStatus,
    requestedMinor: pos, approvedMinor: int, paidMinor: int, currency: string, openedAt: int,
    claimType: Option<string>, lossDate: Option<int>, reportDate: Option<int>, location: Option<string>,
    cause: Option<string>, claimedMinor: Option<nat>, assignedAnalystId: Option<string>, relatedClaimIds: seq<string>)
  datatype Incident = Incident(id: string, claimId: string, occurredAt: int, description: string)

  /** The rows of the append-only collections. */
  datatype Record =
    | Note(id: string, claimId: string, text: string)
    | Recommendation(id: string, claimId: string, kind: RecommendationKind, reasonCode: string, recommendedMinor: int, binding: bool)
    | RiskFlag(id: string, claimId: string, reasonCode: string, severity: Severity)
    | Document(id: string, claimId: string, documentType: string, docStatus: DocumentStatus, source: string,
               verification: Verification, trust: string)
    | Investigation(id: string, claimId: string, text: string)
    | Payment(id: string, claimId: string, amountMinor: int, currency: string, paidMinor: int, status: ClaimStatus)

  datatype Collection = DOCUMENTS | PAYMENTS | INVESTIGATIONS | NOTES | ANALYST_NOTES | RECOMMENDATIONS | RISK_FLAGS

  datatype State = State(
    customers: seq<Customer>, policies: seq<Policy>, coverages: seq<Coverage>, claims: seq<Claim>, incidents: seq<Incident>,
    documents: seq<Record>, payments: seq<Record>, investigations: seq<Record>, notes: seq<Record>,
    analystNotes: seq<Record>, recommendations: seq<Record>, riskFlags: seq<Record>)
  {
    function Rows(c: Collection): seq<Record> {
      match c
      case DOCUMENTS => documents
      case PAYMENTS => payments
      case INVESTIGATIONS => investigations
      case NOTES => notes
      case ANALYST_NOTES => analystNotes
      case RECOMMENDATIONS => recommendations
      case RISK_FLAGS => riskFlags
    }

    function Append(c: Collection, r: Record): State {
      match c
      case DOCUMENTS => this.(documents := documents + [r])
      case PAYMENTS => this.(payments := payments + [r])
      case INVESTIGATIONS => this.(investigations := investigations + [r])
      case NOTES => this.(notes := notes + [r])
      case ANALYST_NOTES => this.(analystNotes := analystNotes + [r])
      case RECOMMENDATIONS => this.(recommendations := recommendations + [r])
      case RISK_FLAGS => this.(riskFlags := riskFlags + [r])
    }

    function WithClaim(i: nat, c: Claim): State
      requires i < |claims|
    {
      this.(claims := claims[i := c])
    }
  }

  // ---------- JSON evidence ----------

  /** The keys the event and result dictionaries use; their spelling does not matter here. */
  datatype Key =
    | ID | CLAIM_ID | STATUS | APPROVED_MINOR | PAID_MINOR | AMOUNT_MINOR | CURRENCY | NOTE | REASON | REASON_CODE
    | RECOMMENDATION | RECOMMENDED_MINOR | BINDING | SEVERITY | DOCUMENT_TYPE | SOURCE | VERIFICATION_STATE | TRUST_CLASSIFICATION

  datatype Json =
    | Text(text: string) | Amount(amount: int) | Truth(truth: bool)
    | ClaimState(state: ClaimStatus) | DocumentState(docState: DocumentStatus) | VerificationState(ver: Verification)
    | KindName(kind: RecommendationKind) | SeverityName(sev: Severity)

  type Fields = map<Key, Json>

  function RecordFields(r: Record): Fields {
    match r
    case Note(id, claimId, text) => map[ID := Text(id), CLAIM_ID := Text(claimId), NOTE := Text(text)]
    case Recommendation(id, claimId, kind, reasonCode, recommendedMinor, binding) =>
      map[ID := Text(id), CLAIM_ID := Text(claimId), RECOMMENDATION := KindName(kind), REASON_CODE := Text(reasonCode),
          RECOMMENDED_MINOR := Amount(recommendedMinor), BINDING := Truth(binding)]
    case RiskFlag(id, claimId, reasonCode, severity) =>
      map[ID := Text(id), CLAIM_ID := Text(claimId), REASON_CODE := Text(reasonCode), SEVERITY := SeverityName(severity)]
    case Document(id, claimId, documentType, docStatus, source, verification, trust) =>
      map[ID := Text(id), CLAIM_ID := Text(claimId), DOCUMENT_TYPE := Text(documentType), STATUS := DocumentState(docStatus),
          SOURCE := Text(source), VERIFICATION_STATE := VerificationState(verification), TRUST_CLASSIFICATION := Text(trust)]
    case Investigation(id, claimId, text) => map[ID := Text(id), CLAIM_ID := Text(claimId), REASON := Text(text)]
    case Payment(id, claimId, amountMinor, currency, paidMinor, status) =>
      map[ID := Text(id), CLAIM_ID := Text(claimId), AMOUNT_MINOR := Amount(amountMinor), CURRENCY := Text(currency),
          PAID_MINOR := Amount(paidMinor), STATUS := ClaimState(status)]
  }

  datatype EventType =
    | ANALYST_NOTE_ADDED | RECOMMENDATION_RECORDED | RISK_FLAGGED | EVIDENCE_ASKED
    | NOTE_ADDED | DECIDED | INVESTIGATION_ESCALATED | PAYMENT_ISSUED

  datatype EntityType = CLAIM | CLAIM_PAYMENT

  datatype Event = Event(eventType: EventType, entityType: EntityType, entityId: string, before: Option<Fields>, after: Fields)

  // ---------- Tools ----------

  datatype Tool =
    | GetPolicy(policyId: string)
    | InspectClaim(claimId: string)
    | InspectIncident(claimId: string)
    | SearchClaims(customerId: Option<string>, status: Option<string>)
    | GetCoverage(coverageId: string)
    | ListClaimEvidence(claimId: string)
    | GetEvidence(documentId: string)
    | GetRelatedClaims(claimId: string)
    | CalculateCoverageAnalysis(claimId: string)
    | AddAnalystNote(claimId: string, note: string, key: string, injectFailure: bool)
    | RecordClaimRecommendation(claimId: string, recommendation: RecommendationKind, reasonCode: string,
                                recommendedMinor: nat, key: string, injectFailure: bool)
    | FlagClaimForReview(claimId: string, reasonCode: string, severity: Severity, key: string, injectFailure: bool)
    | RequestEvidence(claimId: string, documentType: string, key: string, injectFailure: bool)
    | AddAdjusterNote(claimId: string, note: string, key: string, injectFailure: bool)
    | DecideClaim(claimId: string, decision: Decision, approvedMinor: nat, key: string, injectFailure: bool)
    | EscalateInvestigation(claimId: string, reason: string, key: string, injectFailure: bool)
    | IssueClaimPayment(claimId: string, amountMinor: pos, currency: string, key: string, injectFailure: bool)
  {
    predicate Mutates() {
      AddAnalystNote? || RecordClaimRecommendation? || FlagClaimForReview? || RequestEvidence? ||
      AddAdjusterNote? || DecideClaim? || EscalateInvestigation? || IssueClaimPayment?
    }
  }

  datatype CoverageAnalysis = CoverageAnalysis(
    claimId: string, coverageId: string, requestedMinor: int, limitMinor: int, deductibleMinor: int, sublimitMinor: Option<pos>,
    payableMinor: int, exceedsLimit: bool, exceedsSublimit: bool, withinDeductible: bool, policyActive: bool,
    withinPolicyPeriod: bool, chronologyValid: bool, eligible: bool)

  datatype Answer =
    | PolicyView(policy: Policy, coverages: seq<Coverage>)
    | ClaimView(claim: Claim, incident: Incident)
    | IncidentView(incident: Incident)
    | ClaimList(claims: seq<Claim>)
    | CoverageView(coverage: Coverage)
    | DocumentList(documents: seq<Record>)
    | DocumentView(document: Record)
    | AnalysisView(analysis: CoverageAnalysis)
    | Written(fields: Fields)

  type Result = Applied<State, Answer, Event>

  // ---------- Lookups and guards ----------

  function ClaimIndex(claims: seq<Claim>, id: string): (i: nat)
    ensures i <= |claims| && (i < |claims| ==> claims[i].id == id)
    ensures forall j :: 0 <= j < i ==> claims[j].id != id
  {
    if claims == [] then 0
    else if claims[0].id == id then 0
    else
      var rest := ClaimIndex(claims[1..], id);
      assert forall j :: 1 <= j < 1 + rest ==> claims[j] == claims[1..][j - 1];
      1 + rest
  }

  function FindCoverage(coverages: seq<Coverage>, id: string): (c: Option<Coverage>)
    ensures c.Some? ==> c.value in coverages && c.value.id == id
    ensures c.None? ==> forall k :: k in coverages ==> k.id != id
  {
    if coverages == [] then None
    else if coverages[0].id == id then Some(coverages[0])
    else FindCoverage(coverages[1..], id)
  }

  function FindPolicy(policies: seq<Policy>, id: string): (p: Option<Policy>)
    ensures p.Some? ==> p.value in policies && p.value.id == id
    ensures p.None? ==> forall k :: k in policies ==> k.id != id
  {
    if policies == [] then None
    else if policies[0].id == id then Some(policies[0])
    else FindPolicy(policies[1..], id)
  }

  function FindRecord(records: seq<Record>, id: string): (r: Option<Record>)
    ensures r.Some? ==> r.value in records && r.value.id == id
    ensures r.None? ==> forall k :: k in records ==> k.id != id
  {
    if records == [] then None
    else if records[0].id == id then Some(records[0])
    else FindRecord(records[1..], id)
  }

  function FindIncident(incidents: seq<Incident>, claimId: string): (r: Option<Incident>)
    ensures r.Some? ==> r.value in incidents && r.value.claimId == claimId
    ensures r.None? ==> forall k :: k in incidents ==> k.claimId != claimId
  {
    if incidents == [] then None
    else if incidents[0].claimId == claimId then Some(incidents[0])
    else FindIncident(incidents[1..], claimId)
  }

  /** The records attached to one claim, in order. */
  function Attached(records: seq<Record>, claimId: string): seq<Record> {
    if records == [] then []
    else
      var last := records[|records| - 1];
      Attached(records[..|records| - 1], claimId) + (if last.claimId == claimId then [last] else [])
  }

  predicate MayRead(auth: Authorization, customerId: string) {
    auth.customerId == Some(customerId) || "claim:read" in auth.scopes
  }

  predicate MayMutate(auth: Authorization, customerId: string) {
    auth.customerId.None? || auth.customerId == Some(customerId)
  }

  // ---------- Read tools ----------

  function CoveragesOf(coverages: seq<Coverage>, policyId: string): seq<Coverage> {
    if coverages == [] then []
    else (if coverages[0].policyId == policyId then [coverages[0]] else []) + CoveragesOf(coverages[1..], policyId)
  }

  function StatusText(status: ClaimStatus): string {
    match status
    case OPEN => "open"
    case EVIDENCE_REQUESTED => "evidence_requested"
    case INVESTIGATING => "investigating"
    case APPROVED => "approved"
    case REJECTED => "rejected"
    case PAID => "paid"
  }

  function MatchingClaims(claims: seq<Claim>, customerId: Option<string>, status: Option<string>): seq<Claim> {
    if claims == [] then []
    else
      var keep := (customerId.None? || claims[0].customerId == customerId.value)
                  && (status.None? || StatusText(claims[0].status) == status.value);
      (if keep then [claims[0]] else []) + MatchingClaims(claims[1..], customerId, status)
  }

  function RelatedClaims(claims: seq<Claim>, ids: seq<string>): seq<Claim> {
    if claims == [] then []
    else (if claims[0].id in ids then [claims[0]] else []) + RelatedClaims(claims[1..], ids)
  }

  function Min(a: int, b: int): int { if a <= b then a else b }
  function Max(a: int, b: int): int { if a >= b then a else b }

  function Payable(requested: int, limit: int, sublimit: Option<pos>, deductible: int): int {
    var capped := Min(requested, limit);
    Max(0, (if sublimit.Some? then Min(capped, sublimit.value) else capped) - deductible)
  }

  function Analyze(claim: Claim, coverage: Coverage, policy: Policy): CoverageAnalysis {
    var sublimit := if claim.claimType.Some? && claim.claimType.value in coverage.sublimits
                    then Some(coverage.sublimits[claim.claimType.value]) else None;
    var active := policy.status == ACTIVE;
    var inPeriod := policy.effectiveAt <= claim.openedAt <= policy.expiresAt;
    var chronology := claim.lossDate.Some? && claim.reportDate.Some?
                      ==> claim.lossDate.value <= claim.reportDate.value <= claim.openedAt;
    CoverageAnalysis(
      claim.id, coverage.id, claim.requestedMinor, coverage.limitMinor, coverage.deductibleMinor, sublimit,
      Payable(claim.requestedMinor, coverage.limitMinor, sublimit, coverage.deductibleMinor),
      claim.requestedMinor > coverage.limitMinor,
      sublimit.Some? && claim.requestedMinor > sublimit.value,
      claim.requestedMinor <= coverage.deductibleMinor,
      active, inPeriod, chronology,
      active && inPeriod && chronology && claim.requestedMinor > coverage.deductibleMinor)
  }

  function Read(auth: Authorization, s: State, customerId: string, answer: Answer): Result {
    if MayRead(auth, customerId) then Accepted(s, answer, None) else Rejected(AuthorizationDenied)
  }

  function ApplyRead(auth: Authorization, tool: Tool, s: State): Result
    requires !tool.Mutates()
  {
    match tool
    case GetPolicy(id) =>
      var policy := FindPolicy(s.policies, id);
      if policy.None? then Rejected(EntityNotFound)
      else Read(auth, s, policy.value.customerId, PolicyView(policy.value, CoveragesOf(s.coverages, id)))
    case SearchClaims(customerId, status) =>
      if customerId.Some? && !MayRead(auth, customerId.value) then Rejected(AuthorizationDenied)
      else if customerId.None? && auth.customerId.None? && "claim:read" !in auth.scopes then Rejected(AuthorizationDenied)
      else
        // `or`: an empty customer id falls through to the caller's own.
        var effective := if customerId.Some? && customerId.value != "" then customerId else auth.customerId;
        Accepted(s, ClaimList(MatchingClaims(s.claims, effective, status)), None)
    case GetCoverage(id) =>
      var coverage := FindCoverage(s.coverages, id);
      if coverage.None? then Rejected(EntityNotFound)
      else
        var policy := FindPolicy(s.policies, coverage.value.policyId);
        if policy.None? then Rejected(EntityNotFound)
        else Read(auth, s, policy.value.customerId, CoverageView(coverage.value))
    case GetEvidence(id) =>
      var document := FindRecord(s.documents, id);
      if document.None? then Rejected(EntityNotFound)
      else
        var i := ClaimIndex(s.claims, document.value.claimId);
        if i == |s.claims| then Rejected(EntityNotFound)
        else Read(auth, s, s.claims[i].customerId, DocumentView(document.value))
    case InspectClaim(id) =>
      var i := ClaimIndex(s.claims, id);
      if i == |s.claims| then Rejected(EntityNotFound)
      else if !MayRead(auth, s.claims[i].customerId) then Rejected(AuthorizationDenied)
      else
        var incident := FindIncident(s.incidents, id);
        if incident.None? then Rejected(EntityNotFound) else Accepted(s, ClaimView(s.claims[i], incident.value), None)
    case InspectIncident(id) =>
      var i := ClaimIndex(s.claims, id);
      if i == |s.claims| then Rejected(EntityNotFound)
      else if !MayRead(auth, s.claims[i].customerId) then Rejected(AuthorizationDenied)
      else
        var incident := FindIncident(s.incidents, id);
        if incident.None? then Rejected(EntityNotFound) else Accepted(s, IncidentView(incident.value), None)
    case ListClaimEvidence(id) =>
      var i := ClaimIndex(s.claims, id);
      if i == |s.claims| then Rejected(EntityNotFound)
      else Read(auth, s, s.claims[i].customerId, DocumentList(Attached(s.documents, id)))
    case GetRelatedClaims(id) =>
      var i := ClaimIndex(s.claims, id);
      if i == |s.claims| then Rejected(EntityNotFound)
      else Read(auth, s, s.claims[i].customerId, ClaimList(RelatedClaims(s.claims, s.claims[i].relatedClaimIds)))
    case CalculateCoverageAnalysis(id) =>
      var i := ClaimIndex(s.claims, id);
      if i == |s.claims| then Rejected(EntityNotFound)
      else if !MayRead(auth, s.claims[i].customerId) then Rejected(AuthorizationDenied)
      else
        var coverage, policy := FindCoverage(s.coverages, s.claims[i].coverageId), FindPolicy(s.policies, s.claims[i].policyId);
        if coverage.None? || policy.None? then Rejected(EntityNotFound)
        else Accepted(s, AnalysisView(Analyze(s.claims[i], coverage.value, policy.value)), None)
  }

  // ---------- Mutation tools ----------

  function Scope(tool: Tool): string
    requires tool.Mutates()
  {
    match tool
    case AddAnalystNote(_, _, _, _) => "claim:analyst-note"
    case RecordClaimRecommendation(_, _, _, _, _, _) => "claim:recommend"
    case FlagClaimForReview(_, _, _, _, _) => "claim:flag"
    case RequestEvidence(_, _, _, _) => "claim:evidence"
    case AddAdjusterNote(_, _, _, _) => "claim:note"
    case DecideClaim(_, _, _, _, _) => "claim:decide"
    case EscalateInvestigation(_, _, _, _) => "claim:investigate"
    case IssueClaimPayment(_, _, _, _, _) => "claim:pay"
  }

  /** The analyst tools check their scope before looking the claim up, the others after. */
  predicate ScopeFirst(tool: Tool) {
    tool.AddAnalystNote? || tool.RecordClaimRecommendation? || tool.FlagClaimForReview?
  }

  function Guard(auth: Authorization, tool: Tool, s: State): Option<ErrorType>
    requires tool.Mutates()
  {
    var i := ClaimIndex(s.claims, tool.claimId);
    if ScopeFirst(tool) && Scope(tool) !in auth.scopes then Some(AuthorizationDenied)
    else if i == |s.claims| then Some(EntityNotFound)
    else if !MayMutate(auth, s.claims[i].customerId) then Some(AuthorizationDenied)
    else if Scope(tool) !in auth.scopes then Some(AuthorizationDenied)
    else None
  }

  function ApplyNote(tool: Tool, mint: Mint, s: State): Result
    requires tool.AddAnalystNote? || tool.AddAdjusterNote?
  {
    var analyst := tool.AddAnalystNote?;
    var collection := if analyst then ANALYST_NOTES else NOTES;
    var row := Note(mint(if analyst then "anote" else "note", |s.Rows(collection)| + 1), tool.claimId, tool.note);
    Accepted(s.Append(collection, row), Written(RecordFields(row)),
             Some(Event(if analyst then ANALYST_NOTE_ADDED else NOTE_ADDED, CLAIM, tool.claimId, None, RecordFields(row))))
  }

  function ApplyRecommendation(tool: Tool, mint: Mint, s: State): Result
    requires tool.RecordClaimRecommendation?
  {
    var row := Recommendation(mint("rec", |s.recommendations| + 1), tool.claimId, tool.recommendation,
                              tool.reasonCode, tool.recommendedMinor, false);
    Accepted(s.Append(RECOMMENDATIONS, row), Written(RecordFields(row)),
             Some(Event(RECOMMENDATION_RECORDED, CLAIM, tool.claimId, None, RecordFields(row))))
  }

  function ApplyFlag(tool: Tool, mint: Mint, s: State): Result
    requires tool.FlagClaimForReview?
  {
    var row := RiskFlag(mint("flag", |s.riskFlags| + 1), tool.claimId, tool.reasonCode, tool.severity);
    Accepted(s.Append(RISK_FLAGS, row), Written(RecordFields(row)),
             Some(Event(RISK_FLAGGED, CLAIM, tool.claimId, None, RecordFields(row))))
  }

  function ApplyEvidence(tool: Tool, mint: Mint, s: State, i: nat): Result
    requires tool.RequestEvidence? && i < |s.claims|
  {
    var claim := s.claims[i];
    if claim.status != OPEN && claim.status != INVESTIGATING then Rejected(IllegalClaimTransition)
    else
      var row := Document(mint("doc", |s.documents| + 1), tool.claimId, tool.documentType, REQUESTED, "customer", PENDING, "untrusted");
      Accepted(s.WithClaim(i, claim.(status := EVIDENCE_REQUESTED)).Append(DOCUMENTS, row), Written(RecordFields(row)),
               Some(Event(EVIDENCE_ASKED, CLAIM, tool.claimId, Some(map[STATUS := ClaimState(claim.status)]),
                          // the document's own status overwrites the claim's
                          map[STATUS := ClaimState(EVIDENCE_REQUESTED)] + RecordFields(row))))
  }

  predicate Undecided(status: ClaimStatus) {
    status == OPEN || status == EVIDENCE_REQUESTED || status == INVESTIGATING
  }

  function DecisionFields(claim: Claim): Fields {
    map[STATUS := ClaimState(claim.status), APPROVED_MINOR := Amount(claim.approvedMinor)]
  }

  function ApplyDecision(tool: Tool, s: State, i: nat): Result
    requires tool.DecideClaim? && i < |s.claims|
  {
    var claim := s.claims[i];
    var coverage := FindCoverage(s.coverages, claim.coverageId);
    if !Undecided(claim.status) then Rejected(IllegalClaimTransition)
    else if coverage.None? then Rejected(EntityNotFound)
    else if tool.decision == ToApprove
            && (tool.approvedMinor <= 0 || tool.approvedMinor > Min(claim.requestedMinor, coverage.value.limitMinor)) then
      Rejected(ApprovalExceedsCoverage)
    else if tool.decision == ToReject && tool.approvedMinor != 0 then Rejected(InvalidDecisionAmount)
    else
      var decided := if tool.decision == ToApprove then claim.(status := APPROVED, approvedMinor := tool.approvedMinor)
                     else claim.(status := REJECTED);
      Accepted(s.WithClaim(i, decided), Written(DecisionFields(decided)),
               Some(Event(DECIDED, CLAIM, tool.claimId, Some(DecisionFields(claim)), DecisionFields(decided))))
  }

  function ApplyEscalation(tool: Tool, mint: Mint, s: State, i: nat): Result
    requires tool.EscalateInvestigation? && i < |s.claims|
  {
    var claim := s.claims[i];
    if !Undecided(claim.status) then Rejected(IllegalClaimTransition)
    else
      var row := Investigation(mint("inv", |s.investigations| + 1), tool.claimId, tool.reason);
      Accepted(s.WithClaim(i, claim.(status := INVESTIGATING)).Append(INVESTIGATIONS, row), Written(RecordFields(row)),
               Some(Event(INVESTIGATION_ESCALATED, CLAIM, tool.claimId, Some(map[STATUS := ClaimState(claim.status)]),
                          map[STATUS := ClaimState(INVESTIGATING)] + RecordFields(row))))
  }

  function ApplyPayment(tool: Tool, mint: Mint, s: State, i: nat): Result
    requires tool.IssueClaimPayment? && i < |s.claims|
  {
    var claim := s.claims[i];
    var policy, coverage := FindPolicy(s.policies, claim.policyId), FindCoverage(s.coverages, claim.coverageId);
    if claim.status != APPROVED then Rejected(IllegalClaimTransition)
    else if policy.None? || coverage.None? then Rejected(EntityNotFound)
    else if policy.value.status != ACTIVE then Rejected(PolicyIneligible)
    else if tool.currency != claim.currency || tool.currency != coverage.value.currency then Rejected(CurrencyMismatch)
    else if tool.amountMinor > claim.approvedMinor - claim.paidMinor then Rejected(PaymentExceedsApproved)
    else
      var total := claim.paidMinor + tool.amountMinor;
      var paid := claim.(paidMinor := total, status := if total == claim.approvedMinor then PAID else APPROVED);
      var row := Payment(mint("pay", |s.payments| + 1), tool.claimId, tool.amountMinor, tool.currency, total, paid.status);
      Accepted(s.WithClaim(i, paid).Append(PAYMENTS, row), Written(RecordFields(row)),
               Some(Event(PAYMENT_ISSUED, CLAIM_PAYMENT, row.id,
                          Some(map[PAID_MINOR := Amount(claim.paidMinor), STATUS := ClaimState(claim.status)]), RecordFields(row))))
  }

  function ApplyMutation(auth: Authorization, tool: Tool, mint: Mint, s: State): Result
    requires tool.Mutates()
  {
    var refused := Guard(auth, tool, s);
    if refused.Some? then Rejected(refused.value)
    else
      var i := ClaimIndex(s.claims, tool.claimId);
      match tool
      case AddAnalystNote(_, _, _, _) => ApplyNote(tool, mint, s)
      case AddAdjusterNote(_, _, _, _) => ApplyNote(tool, mint, s)
      case RecordClaimRecommendation(_, _, _, _, _, _) => ApplyRecommendation(tool, mint, s)
      case FlagClaimForReview(_, _, _, _, _) => ApplyFlag(tool, mint, s)
      case RequestEvidence(_, _, _, _) => ApplyEvidence(tool, mint, s, i)
      case DecideClaim(_, _, _, _, _) => ApplyDecision(tool, s, i)
      case EscalateInvestigation(_, _, _, _) => ApplyEscalation(tool, mint, s, i)
      case IssueClaimPayment(_, _, _, _, _) => ApplyPayment(tool, mint, s, i)
  }

  function Apply(auth: Authorization, tool: Tool, mint: Mint, s: State): Result {
    if tool.Mutates() then ApplyMutation(auth, tool, mint, s) else ApplyRead(auth, tool, s)
  }

  function ToolName(tool: Tool): string {
    match tool
    case GetPolicy(_) => "get_policy"
    case InspectClaim(_) => "inspect_claim"
    case InspectIncident(_) => "inspect_incident"
    case SearchClaims(_, _) => "search_claims"
    case GetCoverage(_) => "get_coverage"
    case ListClaimEvidence(_) => "list_claim_evidence"
    case GetEvidence(_) => "get_evidence"
    case GetRelatedClaims(_) => "get_related_claims"
    case CalculateCoverageAnalysis(_) => "calculate_coverage_analysis"
    case AddAnalystNote(_, _, _, _) => "add_analyst_note"
    case RecordClaimRecommendation(_, _, _, _, _, _) => "record_claim_recommendation"
    case FlagClaimForReview(_, _, _, _, _) => "flag_claim_for_review"
    case RequestEvidence(_, _, _, _) => "request_evidence"
    case AddAdjusterNote(_, _, _, _) => "add_adjuster_note"
    case DecideClaim(_, _, _, _, _) => "decide_claim"
    case EscalateInvestigation(_, _, _, _) => "escalate_investigation"
    case IssueClaimPayment(_, _, _, _, _) => "issue_claim_payment"
  }

  function InsuranceDomain(): Domain<State, Tool, Answer, Event> {
    Domain(
      (tool: Tool) => ToolName(tool),
      (tool: Tool) => tool.Mutates(),
      (tool: Tool) => if tool.Mutates() then Some(tool.key) else None,
      (tool: Tool) => tool.Mutates() && tool.injectFailure,
      (auth: Authorization, tool: Tool, mint: Mint, s: State) => Apply(auth, tool, mint, s))
  }
}
