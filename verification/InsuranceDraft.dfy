/** The mutation tools as the code runs them: assignments to, and appends on, a copied state. */
module InsuranceDraft {
  import opened Wrappers
  import opened World
  import opened Insurance

  /** Either the tool's return value or the rejection it raised. */
  datatype Outcome = Done(output: Answer, event: Option<Event>) | Thrown(error: ErrorType)

  class Draft {
    const original: State
    var claims: seq<Claim>
    var documents: seq<Record>
    var payments: seq<Record>
    var investigations: seq<Record>
    var notes: seq<Record>
    var analystNotes: seq<Record>
    var recommendations: seq<Record>
    var riskFlags: seq<Record>

    ghost function Contents(): State
      reads this
    {
      State(original.customers, original.policies, original.coverages, claims, original.incidents, documents,
            payments, investigations, notes, analystNotes, recommendations, riskFlags)
    }

    constructor (copied: State)
      ensures Contents() == copied
    {
      original := copied;
      claims, documents, payments, investigations := copied.claims, copied.documents, copied.payments, copied.investigations;
      notes, analystNotes, recommendations, riskFlags := copied.notes, copied.analystNotes, copied.recommendations, copied.riskFlags;
    }

    /** The draft after a tool is what the tool's function gives, or untouched when it raises. */
    twostate predicate Follows(expected: Result, outcome: Outcome)
      reads this
    {
      match expected
      case Accepted(state, output, event) => Contents() == state && outcome == Done(output, event)
      case Rejected(error) => Contents() == old(Contents()) && outcome == Thrown(error)
    }

    method AddNote(tool: Tool, mint: Mint) returns (outcome: Outcome)
      requires tool.AddAnalystNote? || tool.AddAdjusterNote?
      modifies this
      ensures Follows(ApplyNote(tool, mint, old(Contents())), outcome)
    {
      if tool.AddAnalystNote? {
        var row := Note(mint("anote", |analystNotes| + 1), tool.claimId, tool.note);
        analystNotes := analystNotes + [row];
        outcome := Done(Written(RecordFields(row)), Some(Event(ANALYST_NOTE_ADDED, CLAIM, tool.claimId, None, RecordFields(row))));
      } else {
        var row := Note(mint("note", |notes| + 1), tool.claimId, tool.note);
        notes := notes + [row];
        outcome := Done(Written(RecordFields(row)), Some(Event(NOTE_ADDED, CLAIM, tool.claimId, None, RecordFields(row))));
      }
    }

    method RecordRecommendation(tool: Tool, mint: Mint) returns (outcome: Outcome)
      requires tool.RecordClaimRecommendation?
      modifies this
      ensures Follows(ApplyRecommendation(tool, mint, old(Contents())), outcome)
    {
      var row := Recommendation(mint("rec", |recommendations| + 1), tool.claimId, tool.recommendation,
                                tool.reasonCode, tool.recommendedMinor, false);
      recommendations := recommendations + [row];
      outcome := Done(Written(RecordFields(row)), Some(Event(RECOMMENDATION_RECORDED, CLAIM, tool.claimId, None, RecordFields(row))));
    }

    method Flag(tool: Tool, mint: Mint) returns (outcome: Outcome)
      requires tool.FlagClaimForReview?
      modifies this
      ensures Follows(ApplyFlag(tool, mint, old(Contents())), outcome)
    {
      var row := RiskFlag(mint("flag", |riskFlags| + 1), tool.claimId, tool.reasonCode, tool.severity);
      riskFlags := riskFlags + [row];
      outcome := Done(Written(RecordFields(row)), Some(Event(RISK_FLAGGED, CLAIM, tool.claimId, None, RecordFields(row))));
    }

    method AskForEvidence(tool: Tool, mint: Mint, i: nat) returns (outcome: Outcome)
      requires tool.RequestEvidence? && i < |claims|
      modifies this
      ensures Follows(ApplyEvidence(tool, mint, old(Contents()), i), outcome)
    {
      if claims[i].status != OPEN && claims[i].status != INVESTIGATING {
        return Thrown(IllegalClaimTransition);
      }
      var before := map[STATUS := ClaimState(claims[i].status)];
      claims := claims[i := claims[i].(status := EVIDENCE_REQUESTED)];
      var row := Document(mint("doc", |documents| + 1), tool.claimId, tool.documentType, REQUESTED, "customer", PENDING, "untrusted");
      documents := documents + [row];
      var after := map[STATUS := ClaimState(claims[i].status)] + RecordFields(row);
      outcome := Done(Written(RecordFields(row)), Some(Event(EVIDENCE_ASKED, CLAIM, tool.claimId, Some(before), after)));
    }

    method Decide(tool: Tool, i: nat) returns (outcome: Outcome)
      requires tool.DecideClaim? && i < |claims|
      modifies this
      ensures Follows(ApplyDecision(tool, old(Contents()), i), outcome)
    {
      if !Undecided(claims[i].status) {
        return Thrown(IllegalClaimTransition);
      }
      var coverage := FindCoverage(original.coverages, claims[i].coverageId);
      if coverage.None? {
        return Thrown(EntityNotFound);
      }
      var before := DecisionFields(claims[i]);
      if tool.decision == ToApprove {
        var maximum := Min(claims[i].requestedMinor, coverage.value.limitMinor);
        if tool.approvedMinor <= 0 || tool.approvedMinor > maximum {
          return Thrown(ApprovalExceedsCoverage);
        }
        claims := claims[i := claims[i].(status := APPROVED)];
        claims := claims[i := claims[i].(approvedMinor := tool.approvedMinor)];
      } else {
        if tool.approvedMinor != 0 {
          return Thrown(InvalidDecisionAmount);
        }
        claims := claims[i := claims[i].(status := REJECTED)];
      }
      var after := DecisionFields(claims[i]);
      outcome := Done(Written(after), Some(Event(DECIDED, CLAIM, tool.claimId, Some(before), after)));
    }

    method Escalate(tool: Tool, mint: Mint, i: nat) returns (outcome: Outcome)
      requires tool.EscalateInvestigation? && i < |claims|
      modifies this
      ensures Follows(ApplyEscalation(tool, mint, old(Contents()), i), outcome)
    {
      if !Undecided(claims[i].status) {
        return Thrown(IllegalClaimTransition);
      }
      var before := map[STATUS := ClaimState(claims[i].status)];
      claims := claims[i := claims[i].(status := INVESTIGATING)];
      var row := Investigation(mint("inv", |investigations| + 1), tool.claimId, tool.reason);
      investigations := investigations + [row];
      var after := map[STATUS := ClaimState(claims[i].status)] + RecordFields(row);
      outcome := Done(Written(RecordFields(row)), Some(Event(INVESTIGATION_ESCALATED, CLAIM, tool.claimId, Some(before), after)));
    }

    method Pay(tool: Tool, mint: Mint, i: nat) returns (outcome: Outcome)
      requires tool.IssueClaimPayment? && i < |claims|
      modifies this
      ensures Follows(ApplyPayment(tool, mint, old(Contents()), i), outcome)
    {
      if claims[i].status != APPROVED {
        return Thrown(IllegalClaimTransition);
      }
      var policy := FindPolicy(original.policies, claims[i].policyId);
      var coverage := FindCoverage(original.coverages, claims[i].coverageId);
      if policy.None? || coverage.None? {
        return Thrown(EntityNotFound);
      }
      if policy.value.status != ACTIVE {
        return Thrown(PolicyIneligible);
      }
      if tool.currency != claims[i].currency || tool.currency != coverage.value.currency {
        return Thrown(CurrencyMismatch);
      }
      var remaining := claims[i].approvedMinor - claims[i].paidMinor;
      if tool.amountMinor > remaining {
        return Thrown(PaymentExceedsApproved);
      }
      var before := map[PAID_MINOR := Amount(claims[i].paidMinor), STATUS := ClaimState(claims[i].status)];
      claims := claims[i := claims[i].(paidMinor := claims[i].paidMinor + tool.amountMinor)];
      if claims[i].paidMinor == claims[i].approvedMinor {
        claims := claims[i := claims[i].(status := PAID)];
      }
      var row := Payment(mint("pay", |payments| + 1), tool.claimId, tool.amountMinor, tool.currency, claims[i].paidMinor, claims[i].status);
      payments := payments + [row];
      outcome := Done(Written(RecordFields(row)), Some(Event(PAYMENT_ISSUED, CLAIM_PAYMENT, row.id, Some(before), RecordFields(row))));
    }

    method ApplyTool(auth: Authorization, tool: Tool, mint: Mint) returns (outcome: Outcome)
      requires tool.Mutates()
      modifies this
      ensures Follows(Apply(auth, tool, mint, old(Contents())), outcome)
    {
      var refused := Guard(auth, tool, State(original.customers, original.policies, original.coverages, claims, original.incidents,
                                            documents, payments, investigations, notes, analystNotes, recommendations, riskFlags));
      if refused.Some? {
        return Thrown(refused.value);
      }
      var i := ClaimIndex(claims, tool.claimId);
      match tool {
        case AddAnalystNote(_, _, _, _) => outcome := AddNote(tool, mint);
        case AddAdjusterNote(_, _, _, _) => outcome := AddNote(tool, mint);
        case RecordClaimRecommendation(_, _, _, _, _, _) => outcome := RecordRecommendation(tool, mint);
        case FlagClaimForReview(_, _, _, _, _) => outcome := Flag(tool, mint);
        case RequestEvidence(_, _, _, _) => outcome := AskForEvidence(tool, mint, i);
        case DecideClaim(_, _, _, _, _) => outcome := Decide(tool, i);
        case EscalateInvestigation(_, _, _, _) => outcome := Escalate(tool, mint, i);
        case IssueClaimPayment(_, _, _, _, _) => outcome := Pay(tool, mint, i);
      }
    }
  }
}
