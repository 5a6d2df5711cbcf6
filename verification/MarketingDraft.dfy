/** The Marketing mutations as the code runs them: assignments to, and appends on, a copied state. */
module MarketingDraft {
  import opened Wrappers
  import opened World
  import opened Marketing

  /** Either the tool's return value or the rejection it raised. */
  datatype Outcome = Done(output: Answer, event: Option<Event>) | Thrown(error: ErrorType)

  class Draft {
    const original: State
    var campaigns: seq<Campaign>
    var documents: seq<Record>
    var launches: seq<Record>
    var communications: seq<Record>
    var allocations: seq<Record>
    var reviews: seq<Record>
    var notes: seq<Record>
    var recommendations: seq<Record>
    var riskFlags: seq<Record>

    function Contents(): State
      reads this
    {
      State(original.advertisers, original.segments, campaigns, original.briefs, documents, launches, communications,
            allocations, reviews, notes, recommendations, riskFlags)
    }

    constructor (copied: State)
      ensures Contents() == copied
    {
      original := copied;
      campaigns, documents, launches, communications := copied.campaigns, copied.documents, copied.launches, copied.communications;
      allocations, reviews, notes, recommendations := copied.allocations, copied.reviews, copied.notes, copied.recommendations;
      riskFlags := copied.riskFlags;
    }

    /** The draft after a tool is what the tool's function gives, or untouched when it raises. */
    twostate predicate Follows(expected: Result, outcome: Outcome)
      reads this
    {
      match expected
      case Accepted(state, output, event) => Contents() == state && outcome == Done(output, event)
      case Rejected(error) => Contents() == old(Contents()) && outcome == Thrown(error)
    }

    method AddRow(tool: Tool, mint: Mint) returns (outcome: Outcome)
      requires ScopeFirst(tool)
      modifies this
      ensures Follows(ApplyPlain(tool, mint, old(Contents())), outcome)
    {
      var row, eventType;
      match tool {
        case AddCampaignNote(_, _, _, _) =>
          row, eventType := Note(mint("note", |notes| + 1), tool.campaignId, tool.note), NOTE_ADDED;
          notes := notes + [row];
        case RecordLaunchRecommendation(_, _, _, _, _, _) =>
          row, eventType := Recommendation(mint("rec", |recommendations| + 1), tool.campaignId, tool.recommendation,
                                           tool.reasonCode, tool.recommendedMinor, false), RECOMMENDATION_RECORDED;
          recommendations := recommendations + [row];
        case FlagCampaignForReview(_, _, _, _, _) =>
          row, eventType := RiskFlag(mint("flag", |riskFlags| + 1), tool.campaignId, tool.reasonCode, tool.severity), RISK_FLAGGED;
          riskFlags := riskFlags + [row];
      }
      outcome := Done(Written(RecordFields(row)), Some(Event(eventType, CAMPAIGN, tool.campaignId, None, RecordFields(row))));
    }

    method RequestData(tool: Tool, mint: Mint, i: nat) returns (outcome: Outcome)
      requires tool.RequestSuppressionUpdate? && i < |campaigns|
      modifies this
      ensures Follows(ApplyRequest(tool, mint, old(Contents()), i), outcome)
    {
      if campaigns[i].status != DRAFT && campaigns[i].status != UNDER_REVIEW {
        return Thrown(IllegalCampaignTransition);
      }
      var before := map[STATUS := CampaignState(campaigns[i].status)];
      campaigns := campaigns[i := campaigns[i].(status := DATA_REQUESTED)];
      var row := Asset(mint("doc", |documents| + 1), tool.campaignId, tool.documentType, REQUESTED, "advertiser", PENDING, "untrusted");
      documents := documents + [row];
      var after := map[STATUS := CampaignState(campaigns[i].status)] + RecordFields(row);
      outcome := Done(Written(RecordFields(row)), Some(Event(DATA_ASKED, CAMPAIGN, tool.campaignId, Some(before), after)));
    }

    method Escalate(tool: Tool, mint: Mint, i: nat) returns (outcome: Outcome)
      requires tool.EscalateComplianceReview? && i < |campaigns|
      modifies this
      ensures Follows(ApplyEscalation(tool, mint, old(Contents()), i), outcome)
    {
      if !Unlaunched(campaigns[i].status) {
        return Thrown(IllegalCampaignTransition);
      }
      var before := map[STATUS := CampaignState(campaigns[i].status)];
      campaigns := campaigns[i := campaigns[i].(status := UNDER_REVIEW)];
      var row := Review(mint("rev", |reviews| + 1), tool.campaignId, tool.reason);
      reviews := reviews + [row];
      var after := map[STATUS := CampaignState(campaigns[i].status)] + RecordFields(row);
      outcome := Done(Written(RecordFields(row)), Some(Event(REVIEW_ESCALATED, CAMPAIGN, tool.campaignId, Some(before), after)));
    }

    method GoLive(tool: Tool, mint: Mint, i: nat) returns (outcome: Outcome)
      requires tool.LaunchCampaign? && i < |campaigns|
      modifies this
      ensures Follows(ApplyLaunch(tool, mint, old(Contents()), i), outcome)
    {
      if !Unlaunched(campaigns[i].status) {
        return Thrown(IllegalCampaignTransition);
      }
      var before := map[STATUS := CampaignState(campaigns[i].status)];
      campaigns := campaigns[i := campaigns[i].(status := LIVE)];
      var row := Launch(mint("launch", |launches| + 1), tool.campaignId, campaigns[i].status);
      launches := launches + [row];
      outcome := Done(Written(RecordFields(row)), Some(Event(LAUNCHED, CAMPAIGN, tool.campaignId, Some(before), RecordFields(row))));
    }

    method Send(tool: Tool, mint: Mint, i: nat) returns (outcome: Outcome)
      requires tool.SendCampaignCommunication? && i < |campaigns|
      modifies this
      ensures Follows(ApplySend(tool, mint, old(Contents()), i), outcome)
    {
      if campaigns[i].status != LIVE {
        return Thrown(IllegalCampaignTransition);
      }
      var row := Communication(mint("comm", |communications| + 1), tool.campaignId, tool.channel);
      communications := communications + [row];
      outcome := Done(Written(RecordFields(row)), Some(Event(COMMUNICATION_SENT, CAMPAIGN, tool.campaignId, None, RecordFields(row))));
    }

    method CheckAllocation(tool: Tool, i: nat) returns (refused: Option<ErrorType>)
      requires tool.AllocateCampaignBudget? && i < |campaigns|
      ensures refused == AllocationRefusal(tool, Contents(), i)
    {
      if !Unlaunched(campaigns[i].status) && campaigns[i].status != LIVE {
        return Some(IllegalCampaignTransition);
      }
      var segment := FindSegment(original.segments, campaigns[i].segmentId);
      var advertiser := FindAdvertiser(original.advertisers, campaigns[i].advertiserId);
      if segment.None? || advertiser.None? {
        return Some(EntityNotFound);
      }
      if advertiser.value.status != ACTIVE {
        return Some(AdvertiserIneligible);
      }
      if tool.currency != campaigns[i].currency || tool.currency != segment.value.currency {
        return Some(CurrencyMismatch);
      }
      var remaining := campaigns[i].approvedMinor - campaigns[i].spentMinor;
      if tool.amountMinor > Max(remaining, campaigns[i].proposedMinor) {
        return Some(AllocationExceedsBudget);
      }
      refused := None;
    }

    method Charge(i: nat, amount: int)
      requires i < |campaigns|
      modifies this`campaigns
      ensures campaigns == old(campaigns)[i := Charged(old(campaigns)[i], amount)]
    {
      campaigns := campaigns[i := campaigns[i].(spentMinor := campaigns[i].spentMinor + amount)];
      if campaigns[i].spentMinor >= campaigns[i].approvedMinor > 0 {
        campaigns := campaigns[i := campaigns[i].(status := COMPLETED)];
      }
    }

    method Allocate(tool: Tool, mint: Mint, i: nat) returns (outcome: Outcome)
      requires tool.AllocateCampaignBudget? && i < |campaigns|
      modifies this
      ensures Follows(ApplyAllocation(tool, mint, old(Contents()), i), outcome)
    {
      var refused := CheckAllocation(tool, i);
      if refused.Some? {
        return Thrown(refused.value);
      }
      var before := map[SPENT_MINOR := Amount(campaigns[i].spentMinor), STATUS := CampaignState(campaigns[i].status)];
      Charge(i, tool.amountMinor);
      var row := Allocation(mint("alloc", |allocations| + 1), tool.campaignId, tool.amountMinor, tool.currency,
                            campaigns[i].spentMinor, campaigns[i].status);
      allocations := allocations + [row];
      outcome := Done(Written(RecordFields(row)), Some(Event(BUDGET_ALLOCATED, CAMPAIGN_BUDGET, row.id, Some(before), RecordFields(row))));
    }

    method ApplyTool(auth: Authorization, tool: Tool, mint: Mint) returns (outcome: Outcome)
      requires tool.Mutates()
      modifies this
      ensures Follows(Apply(auth, tool, mint, old(Contents())), outcome)
    {
      var refused := Guard(auth, tool, Contents());
      if refused.Some? {
        return Thrown(refused.value);
      }
      var i := CampaignIndex(campaigns, tool.campaignId);
      if tool.RequestSuppressionUpdate? {
        outcome := RequestData(tool, mint, i);
      } else if tool.EscalateComplianceReview? {
        outcome := Escalate(tool, mint, i);
      } else if tool.LaunchCampaign? {
        outcome := GoLive(tool, mint, i);
      } else if tool.SendCampaignCommunication? {
        outcome := Send(tool, mint, i);
      } else if tool.AllocateCampaignBudget? {
        outcome := Allocate(tool, mint, i);
      } else {
        outcome := AddRow(tool, mint);
      }
    }
  }
}
