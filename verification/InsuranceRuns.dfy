/** What the Insurance world keeps from every seed over every run. */
module InsuranceRuns {
  import opened Wrappers
  import opened World
  import opened WorldRuns
  import opened Histories
  import opened Insurance
  import opened InsuranceSeeds

  type Log = seq<Commit<Tool, Answer, Event>>

  // ---------- Event sourcing ----------

  function TextAt(f: Fields, k: Key): string { if k in f && f[k].Text? then f[k].text else "" }
  function AmountAt(f: Fields, k: Key): int { if k in f && f[k].Amount? then f[k].amount else 0 }
  function StateAt(f: Fields, k: Key): ClaimStatus { if k in f && f[k].ClaimState? then f[k].state else OPEN }

  function RecordFrom(eventType: EventType, f: Fields): Record {
    match eventType
    case RECOMMENDATION_RECORDED =>
      Recommendation(TextAt(f, ID), TextAt(f, CLAIM_ID),
                     if RECOMMENDATION in f && f[RECOMMENDATION].KindName? then f[RECOMMENDATION].kind else APPROVE,
                     TextAt(f, REASON_CODE), AmountAt(f, RECOMMENDED_MINOR),
                     BINDING in f && f[BINDING].Truth? && f[BINDING].truth)
    case RISK_FLAGGED =>
      RiskFlag(TextAt(f, ID), TextAt(f, CLAIM_ID), TextAt(f, REASON_CODE),
               if SEVERITY in f && f[SEVERITY].SeverityName? then f[SEVERITY].sev else LOW)
    case EVIDENCE_ASKED =>
      Document(TextAt(f, ID), TextAt(f, CLAIM_ID), TextAt(f, DOCUMENT_TYPE),
               if STATUS in f && f[STATUS].DocumentState? then f[STATUS].docState else RECEIVED, TextAt(f, SOURCE),
               if VERIFICATION_STATE in f && f[VERIFICATION_STATE].VerificationState? then f[VERIFICATION_STATE].ver else VERIFIED,
               TextAt(f, TRUST_CLASSIFICATION))
    case INVESTIGATION_ESCALATED => Investigation(TextAt(f, ID), TextAt(f, CLAIM_ID), TextAt(f, REASON))
    case PAYMENT_ISSUED =>
      Payment(TextAt(f, ID), TextAt(f, CLAIM_ID), AmountAt(f, AMOUNT_MINOR), TextAt(f, CURRENCY),
              AmountAt(f, PAID_MINOR), StateAt(f, STATUS))
    case _ => Note(TextAt(f, ID), TextAt(f, CLAIM_ID), TextAt(f, NOTE))
  }

  function CollectionOf(eventType: EventType): Option<Collection> {
    match eventType
    case ANALYST_NOTE_ADDED => Some(ANALYST_NOTES)
    case RECOMMENDATION_RECORDED => Some(RECOMMENDATIONS)
    case RISK_FLAGGED => Some(RISK_FLAGS)
    case EVIDENCE_ASKED => Some(DOCUMENTS)
    case NOTE_ADDED => Some(NOTES)
    case DECIDED => None
    case INVESTIGATION_ESCALATED => Some(INVESTIGATIONS)
    case PAYMENT_ISSUED => Some(PAYMENTS)
  }

  /** The claim an event is about: a payment names it in `after`, every other event as its entity. */
  function ClaimOf(event: Event): string {
    if event.eventType == PAYMENT_ISSUED then TextAt(event.after, CLAIM_ID) else event.entityId
  }

  /** The event's effect on its claim. A status change is read from the event type where the
      recorded `after` holds a document's status instead. */
  function Settled(claim: Claim, event: Event): Claim {
    match event.eventType
    case EVIDENCE_ASKED => claim.(status := EVIDENCE_REQUESTED)
    case INVESTIGATION_ESCALATED => claim.(status := INVESTIGATING)
    case DECIDED => claim.(status := StateAt(event.after, STATUS), approvedMinor := AmountAt(event.after, APPROVED_MINOR))
    case PAYMENT_ISSUED => claim.(status := StateAt(event.after, STATUS), paidMinor := AmountAt(event.after, PAID_MINOR))
    case _ => claim
  }

  function FoldEvent(s: State, event: Event): State {
    var i := ClaimIndex(s.claims, ClaimOf(event));
    var settled := if i < |s.claims| then s.WithClaim(i, Settled(s.claims[i], event)) else s;
    var collection := CollectionOf(event.eventType);
    if collection.None? then settled else settled.Append(collection.value, RecordFrom(event.eventType, event.after))
  }

  function FoldEvents(s: State, events: seq<Event>): State {
    if events == [] then s else FoldEvent(FoldEvents(s, events[..|events| - 1]), events[|events| - 1])
  }

  /** What a state says an event's `before` must be. */
  function Foregoing(s: State, event: Event): Option<Fields> {
    var i := ClaimIndex(s.claims, ClaimOf(event));
    if i == |s.claims| then None
    else match event.eventType
      case EVIDENCE_ASKED => Some(map[STATUS := ClaimState(s.claims[i].status)])
      case INVESTIGATION_ESCALATED => Some(map[STATUS := ClaimState(s.claims[i].status)])
      case DECIDED => Some(map[STATUS := ClaimState(s.claims[i].status), APPROVED_MINOR := Amount(s.claims[i].approvedMinor)])
      case PAYMENT_ISSUED => Some(map[PAID_MINOR := Amount(s.claims[i].paidMinor), STATUS := ClaimState(s.claims[i].status)])
      case _ => None
  }

  lemma RecordRoundTrip(eventType: EventType, r: Record)
    requires r.Note? <==> eventType in {ANALYST_NOTE_ADDED, NOTE_ADDED, DECIDED}
    requires r.Recommendation? <==> eventType == RECOMMENDATION_RECORDED
    requires r.RiskFlag? <==> eventType == RISK_FLAGGED
    requires r.Document? <==> eventType == EVIDENCE_ASKED
    requires r.Investigation? <==> eventType == INVESTIGATION_ESCALATED
    ensures RecordFrom(eventType, RecordFields(r)) == r
    ensures TextAt(RecordFields(r), CLAIM_ID) == r.claimId
  {
  }

  lemma StatusOverwritten(status: ClaimStatus, r: Record)
    ensures r.Document? ==> map[STATUS := ClaimState(status)] + RecordFields(r) == RecordFields(r)
    ensures r.Investigation? ==> RecordFrom(INVESTIGATION_ESCALATED, map[STATUS := ClaimState(status)] + RecordFields(r)) == r
  {
  }

  function EventTypeOf(tool: Tool): EventType
    requires tool.Mutates()
  {
    match tool
    case AddAnalystNote(_, _, _, _) => ANALYST_NOTE_ADDED
    case RecordClaimRecommendation(_, _, _, _, _, _) => RECOMMENDATION_RECORDED
    case FlagClaimForReview(_, _, _, _, _) => RISK_FLAGGED
    case RequestEvidence(_, _, _, _) => EVIDENCE_ASKED
    case AddAdjusterNote(_, _, _, _) => NOTE_ADDED
    case DecideClaim(_, _, _, _, _) => DECIDED
    case EscalateInvestigation(_, _, _, _) => INVESTIGATION_ESCALATED
    case IssueClaimPayment(_, _, _, _, _) => PAYMENT_ISSUED
  }

  /** What an event may do to the claim it is about: its lifecycle and money rules. */
  predicate LawfulFor(claim: Claim, coverages: seq<Coverage>, event: Event) {
    var settled := Settled(claim, event);
    && (event.eventType == EVIDENCE_ASKED ==> claim.status == OPEN || claim.status == INVESTIGATING)
    && (event.eventType == INVESTIGATION_ESCALATED ==> Undecided(claim.status))
    && (event.eventType == DECIDED ==>
          var coverage := FindCoverage(coverages, claim.coverageId);
          && Undecided(claim.status) && coverage.Some?
          && (|| (settled.status == APPROVED && 0 < settled.approvedMinor <= Min(claim.requestedMinor, coverage.value.limitMinor))
              || (settled.status == REJECTED && settled.approvedMinor == claim.approvedMinor)))
    && (event.eventType == PAYMENT_ISSUED ==>
          var amount := AmountAt(event.after, AMOUNT_MINOR);
          && claim.status == APPROVED && 0 < amount <= claim.approvedMinor - claim.paidMinor
          && settled.paidMinor == claim.paidMinor + amount
          && settled.status == (if settled.paidMinor == claim.approvedMinor then PAID else APPROVED))
  }

  predicate Lawful(s: State, event: Event) {
    var i := ClaimIndex(s.claims, ClaimOf(event));
    && i < |s.claims| && LawfulFor(s.claims[i], s.coverages, event)
    && (CollectionOf(event.eventType).Some? ==> RecordFrom(event.eventType, event.after).claimId == ClaimOf(event))
  }

  /** The event alone rebuilds the new state, its `before` is what the old state held, and it
      keeps the lifecycle and money rules. */
  ghost predicate Tells(s: State, tool: Tool, applied: Result)
    requires tool.Mutates()
  {
    && applied.Accepted? && applied.event.Some?
    && ClaimOf(applied.event.value) == tool.claimId
    && applied.event.value.eventType == EventTypeOf(tool)
    && applied.state == FoldEvent(s, applied.event.value)
    && applied.event.value.before == Foregoing(s, applied.event.value)
    && Lawful(s, applied.event.value)
  }

  lemma AppendTells(s: State, tool: Tool, c: Collection, r: Record)
    requires tool.Mutates() && EventTypeOf(tool) in {ANALYST_NOTE_ADDED, NOTE_ADDED, RECOMMENDATION_RECORDED, RISK_FLAGGED}
    requires r.claimId == tool.claimId && ClaimIndex(s.claims, tool.claimId) < |s.claims|
    requires CollectionOf(EventTypeOf(tool)) == Some(c) && RecordFrom(EventTypeOf(tool), RecordFields(r)) == r
    ensures Tells(s, tool, Accepted(s.Append(c, r), Written(RecordFields(r)),
                                    Some(Event(EventTypeOf(tool), CLAIM, tool.claimId, None, RecordFields(r)))))
  {
    var i := ClaimIndex(s.claims, tool.claimId);
    assert s.WithClaim(i, s.claims[i]) == s;
  }

  lemma NoteTells(tool: Tool, mint: Mint, s: State)
    requires (tool.AddAnalystNote? || tool.AddAdjusterNote?) && ClaimIndex(s.claims, tool.claimId) < |s.claims|
    ensures Tells(s, tool, ApplyNote(tool, mint, s))
  {
    if tool.AddAnalystNote? {
      AppendTells(s, tool, ANALYST_NOTES, ApplyNote(tool, mint, s).state.analystNotes[|s.analystNotes|]);
    } else {
      AppendTells(s, tool, NOTES, ApplyNote(tool, mint, s).state.notes[|s.notes|]);
    }
  }

  lemma RecommendationTells(tool: Tool, mint: Mint, s: State)
    requires tool.RecordClaimRecommendation? && ClaimIndex(s.claims, tool.claimId) < |s.claims|
    ensures Tells(s, tool, ApplyRecommendation(tool, mint, s))
  {
    AppendTells(s, tool, RECOMMENDATIONS, ApplyRecommendation(tool, mint, s).state.recommendations[|s.recommendations|]);
  }

  lemma FlagTells(tool: Tool, mint: Mint, s: State)
    requires tool.FlagClaimForReview? && ClaimIndex(s.claims, tool.claimId) < |s.claims|
    ensures Tells(s, tool, ApplyFlag(tool, mint, s))
  {
    AppendTells(s, tool, RISK_FLAGS, ApplyFlag(tool, mint, s).state.riskFlags[|s.riskFlags|]);
  }

  lemma EvidenceTells(tool: Tool, mint: Mint, s: State, i: nat)
    requires tool.RequestEvidence? && i == ClaimIndex(s.claims, tool.claimId) < |s.claims|
    requires ApplyEvidence(tool, mint, s, i).Accepted?
    ensures Tells(s, tool, ApplyEvidence(tool, mint, s, i))
  {
    var row := ApplyEvidence(tool, mint, s, i).state.documents[|s.documents|];
    StatusOverwritten(EVIDENCE_REQUESTED, row);
    RecordRoundTrip(EVIDENCE_ASKED, row);
  }

  lemma DecisionTells(tool: Tool, s: State, i: nat)
    requires tool.DecideClaim? && i == ClaimIndex(s.claims, tool.claimId) < |s.claims|
    requires ApplyDecision(tool, s, i).Accepted?
    ensures Tells(s, tool, ApplyDecision(tool, s, i))
  {
  }

  lemma EscalationTells(tool: Tool, mint: Mint, s: State, i: nat)
    requires tool.EscalateInvestigation? && i == ClaimIndex(s.claims, tool.claimId) < |s.claims|
    requires ApplyEscalation(tool, mint, s, i).Accepted?
    ensures Tells(s, tool, ApplyEscalation(tool, mint, s, i))
  {
    StatusOverwritten(INVESTIGATING, ApplyEscalation(tool, mint, s, i).state.investigations[|s.investigations|]);
  }

  lemma PaymentTells(tool: Tool, mint: Mint, s: State, i: nat)
    requires tool.IssueClaimPayment? && i == ClaimIndex(s.claims, tool.claimId) < |s.claims|
    requires ApplyPayment(tool, mint, s, i).Accepted?
    ensures Tells(s, tool, ApplyPayment(tool, mint, s, i))
  {
    RecordRoundTrip(PAYMENT_ISSUED, ApplyPayment(tool, mint, s, i).state.payments[|s.payments|]);
  }

  /** A tool call is accepted with an event exactly when it is a mutation, and then the event
      rebuilds the new state; an accepted read changes nothing. */
  lemma EventTellsAll(auth: Authorization, tool: Tool, mint: Mint, s: State)
    requires Apply(auth, tool, mint, s).Accepted?
    ensures tool.Mutates() ==> Tells(s, tool, Apply(auth, tool, mint, s))
    ensures !tool.Mutates() ==> Apply(auth, tool, mint, s).event.None? && Apply(auth, tool, mint, s).state == s
  {
    if tool.Mutates() {
      var i := ClaimIndex(s.claims, tool.claimId);
      match tool {
        case AddAnalystNote(_, _, _, _) => NoteTells(tool, mint, s);
        case AddAdjusterNote(_, _, _, _) => NoteTells(tool, mint, s);
        case RecordClaimRecommendation(_, _, _, _, _, _) => RecommendationTells(tool, mint, s);
        case FlagClaimForReview(_, _, _, _, _) => FlagTells(tool, mint, s);
        case RequestEvidence(_, _, _, _) => EvidenceTells(tool, mint, s, i);
        case DecideClaim(_, _, _, _, _) => DecisionTells(tool, s, i);
        case EscalateInvestigation(_, _, _, _) => EscalationTells(tool, mint, s, i);
        case IssueClaimPayment(_, _, _, _, _) => PaymentTells(tool, mint, s, i);
      }
    }
  }

  /** What a committed call was entitled to. */
  lemma Entitled(auth: Authorization, tool: Tool, mint: Mint, s: State)
    requires tool.Mutates() && Apply(auth, tool, mint, s).Accepted?
    ensures var i := ClaimIndex(s.claims, tool.claimId);
      i < |s.claims| && MayMutate(auth, s.claims[i].customerId) && Scope(tool) in auth.scopes
  {
  }

  /** An event that an entitled call committed on a state: its `before` is what the state held. */
  ghost predicate Fits(past: State, event: Event, tool: Tool, auth: Authorization) {
    && tool.Mutates()
    && event.eventType == EventTypeOf(tool) && ClaimOf(event) == tool.claimId
    && event.before == Foregoing(past, event)
    && Lawful(past, event)
    && MayMutate(auth, past.claims[ClaimIndex(past.claims, ClaimOf(event))].customerId)
    && Scope(tool) in auth.scopes
  }

  lemma AppliedFits(auth: Authorization, tool: Tool, mint: Mint, s: State)
    requires Apply(auth, tool, mint, s).Accepted? && tool.Mutates()
    ensures var applied := Apply(auth, tool, mint, s);
      applied.event.Some? && Fits(s, applied.event.value, tool, auth) && applied.state == FoldEvent(s, applied.event.value)
  {
    EventTellsAll(auth, tool, mint, s);
    Entitled(auth, tool, mint, s);
  }

  lemma LastCommit(env: Env, start: State, log: Log)
    requires log != [] && Faithful(InsuranceDomain(), env, start, log)
    ensures var n := |log| - 1; var past := Replay(InsuranceDomain(), env, start, log[..n]);
      && Faithful(InsuranceDomain(), env, start, log[..n])
      && Fits(past, log[n].event, log[n].data, log[n].call.auth)
      && Replay(InsuranceDomain(), env, start, log) == FoldEvent(past, log[n].event)
  {
    var n := |log| - 1;
    var past := Replay(InsuranceDomain(), env, start, log[..n]);
    AppliedFits(log[n].call.auth, log[n].data, MintAt(env, log[n].clock), past);
  }

  /** Folding the event log over the initial state rebuilds the current state exactly. */
  lemma {:induction false} LogRebuilds(env: Env, start: State, log: Log)
    requires Faithful(InsuranceDomain(), env, start, log)
    ensures Replay(InsuranceDomain(), env, start, log) == FoldEvents(start, Events(log))
  {
    if log != [] {
      var n := |log| - 1;
      LastCommit(env, start, log);
      LogRebuilds(env, start, log[..n]);
      assert Events(log)[..n] == Events(log[..n]);
    }
  }

  /** The i-th commit fits the replay of the commits before it. */
  lemma CommitAt(env: Env, start: State, log: Log, i: nat)
    requires Faithful(InsuranceDomain(), env, start, log) && i < |log|
    ensures Fits(Replay(InsuranceDomain(), env, start, log[..i]), log[i].event, log[i].data, log[i].call.auth)
  {
    FaithfulPrefix(InsuranceDomain(), env, start, log, i + 1);
    var prefix := log[..i + 1];
    assert prefix[..|prefix| - 1] == log[..i] && prefix[|prefix| - 1] == log[i];
    LastCommit(env, start, prefix);
  }

  /** Each event's `before` is what folding the earlier events gives, and its call was entitled. */
  lemma EventFits(env: Env, start: State, log: Log, i: nat)
    requires Faithful(InsuranceDomain(), env, start, log) && i < |log|
    ensures Fits(FoldEvents(start, Events(log)[..i]), Events(log)[i], log[i].data, log[i].call.auth)
  {
    CommitAt(env, start, log, i);
    FaithfulPrefix(InsuranceDomain(), env, start, log, i);
    LogRebuilds(env, start, log[..i]);
    EventsPrefix(log, i);
  }
}
