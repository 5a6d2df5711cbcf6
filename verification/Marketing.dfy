/** The Marketing world's entities, tools, and the behaviour of each tool on a copied state. */
module Marketing {
  import opened Wrappers
  import opened World

  datatype AdvertiserStatus = ACTIVE | SUSPENDED | CLOSED
  datatype CampaignStatus = DRAFT | DATA_REQUESTED | UNDER_REVIEW | LIVE | COMPLETED | REJECTED
  datatype DocumentStatus = REQUESTED | RECEIVED
  datatype Verification = PENDING | VERIFIED | VERIFICATION_REJECTED
  datatype RecommendationKind = APPROVE_LAUNCH | PARTIAL_BUDGET_APPROVE | REJECT | HOLD_FOR_REVIEW | REQUEST_MORE_DATA
  datatype Severity = LOW | MEDIUM | HIGH

  type pos = x: int | x > 0 witness 1

  datatype Advertiser = Advertiser(id: string, name: string, status: AdvertiserStatus, activatedAt: int)
  datatype Segment = Segment(
    id: string, advertiserId: string, channel: string, totalCapMinor: pos, platformFeeMinor: nat, currency: string,
    exclusions: seq<string>, consentRefreshDays: nat, channelSubCaps: map<string, pos>)
  datatype Campaign = Campaign(
    id: string, advertiserId: string, segmentId: string, status: CampaignStatus, proposedMinor: pos, approvedMinor: nat,
    spentMinor: int, currency: string, submittedAt: int, campaignType: Option<string>, flightStart: Option<int>,
    briefSubmittedAt: Option<int>, targetMarket: Option<string>, objective: Option<string>, claimedMinor: Option<nat>,
    assignedAnalystId: Option<string>, relatedCampaignIds: seq<string>)
  datatype Brief = Brief(id: string, campaignId: string, occurredAt: int, description: string)

  /** The rows of the append-only collections. */
  datatype Record =
    | Note(id: string, campaignId: string, text: string)
    | Recommendation(id: string, campaignId: string, kind: RecommendationKind, reasonCode: string, recommendedMinor: int, binding: bool)
    | RiskFlag(id: string, campaignId: string, reasonCode: string, severity: Severity)
    | Asset(id: string, campaignId: string, documentType: string, docStatus: DocumentStatus, source: string,
            verification: Verification, trust: string)
    | Review(id: string, campaignId: string, text: string)
    | Launch(id: string, campaignId: string, status: CampaignStatus)
    | Communication(id: string, campaignId: string, channel: string)
    | Allocation(id: string, campaignId: string, amountMinor: int, currency: string, spentMinor: int, status: CampaignStatus)

  datatype Collection = DOCUMENTS | LAUNCHES | COMMUNICATIONS | ALLOCATIONS | REVIEWS | NOTES | RECOMMENDATIONS | RISK_FLAGS

  datatype State = State(
    advertisers: seq<Advertiser>, segments: seq<Segment>, campaigns: seq<Campaign>, briefs: seq<Brief>,
    documents: seq<Record>, launches: seq<Record>, communications: seq<Record>, allocations: seq<Record>,
    reviews: seq<Record>, notes: seq<Record>, recommendations: seq<Record>, riskFlags: seq<Record>)
  {
    function Rows(c: Collection): seq<Record> {
      match c
      case DOCUMENTS => documents
      case LAUNCHES => launches
      case COMMUNICATIONS => communications
      case ALLOCATIONS => allocations
      case REVIEWS => reviews
      case NOTES => notes
      case RECOMMENDATIONS => recommendations
      case RISK_FLAGS => riskFlags
    }

    function Append(c: Collection, r: Record): State {
      match c
      case DOCUMENTS => this.(documents := documents + [r])
      case LAUNCHES => this.(launches := launches + [r])
      case COMMUNICATIONS => this.(communications := communications + [r])
      case ALLOCATIONS => this.(allocations := allocations + [r])
      case REVIEWS => this.(reviews := reviews + [r])
      case NOTES => this.(notes := notes + [r])
      case RECOMMENDATIONS => this.(recommendations := recommendations + [r])
      case RISK_FLAGS => this.(riskFlags := riskFlags + [r])
    }

    function WithCampaign(i: nat, c: Campaign): State
      requires i < |campaigns|
    {
      this.(campaigns := campaigns[i := c])
    }
  }

  // ---------- JSON evidence ----------

  datatype Key =
    | ID | CAMPAIGN_ID | STATUS | SPENT_MINOR | AMOUNT_MINOR | CURRENCY | CHANNEL | NOTE | REASON | REASON_CODE
    | RECOMMENDATION | RECOMMENDED_MINOR | BINDING | SEVERITY | DOCUMENT_TYPE | SOURCE | VERIFICATION_STATE | TRUST_CLASSIFICATION

  datatype Json =
    | Text(text: string) | Amount(amount: int) | Truth(truth: bool)
    | CampaignState(state: CampaignStatus) | DocumentState(docState: DocumentStatus) | VerificationState(ver: Verification)
    | KindName(kind: RecommendationKind) | SeverityName(sev: Severity)

  type Fields = map<Key, Json>

  function RecordFields(r: Record): Fields {
    match r
    case Note(id, campaignId, text) => map[ID := Text(id), CAMPAIGN_ID := Text(campaignId), NOTE := Text(text)]
    case Recommendation(id, campaignId, kind, reasonCode, recommendedMinor, binding) =>
      map[ID := Text(id), CAMPAIGN_ID := Text(campaignId), RECOMMENDATION := KindName(kind), REASON_CODE := Text(reasonCode),
          RECOMMENDED_MINOR := Amount(recommendedMinor), BINDING := Truth(binding)]
    case RiskFlag(id, campaignId, reasonCode, severity) =>
      map[ID := Text(id), CAMPAIGN_ID := Text(campaignId), REASON_CODE := Text(reasonCode), SEVERITY := SeverityName(severity)]
    case Asset(id, campaignId, documentType, docStatus, source, verification, trust) =>
      map[ID := Text(id), CAMPAIGN_ID := Text(campaignId), DOCUMENT_TYPE := Text(documentType), STATUS := DocumentState(docStatus),
          SOURCE := Text(source), VERIFICATION_STATE := VerificationState(verification), TRUST_CLASSIFICATION := Text(trust)]
    case Review(id, campaignId, text) => map[ID := Text(id), CAMPAIGN_ID := Text(campaignId), REASON := Text(text)]
    case Launch(id, campaignId, status) => map[ID := Text(id), CAMPAIGN_ID := Text(campaignId), STATUS := CampaignState(status)]
    case Communication(id, campaignId, channel) => map[ID := Text(id), CAMPAIGN_ID := Text(campaignId), CHANNEL := Text(channel)]
    case Allocation(id, campaignId, amountMinor, currency, spentMinor, status) =>
      map[ID := Text(id), CAMPAIGN_ID := Text(campaignId), AMOUNT_MINOR := Amount(amountMinor), CURRENCY := Text(currency),
          SPENT_MINOR := Amount(spentMinor), STATUS := CampaignState(status)]
  }

  datatype EventType =
    | NOTE_ADDED | RECOMMENDATION_RECORDED | RISK_FLAGGED | DATA_ASKED | REVIEW_ESCALATED | LAUNCHED
    | COMMUNICATION_SENT | BUDGET_ALLOCATED

  datatype EntityType = CAMPAIGN | CAMPAIGN_BUDGET

  datatype Event = Event(eventType: EventType, entityType: EntityType, entityId: string, before: Option<Fields>, after: Fields)

  // ---------- Tools ----------

  datatype Tool =
    | SearchCampaigns(advertiserId: Option<string>, status: Option<string>)
    | GetAudienceSegment(segmentId: string)
    | InspectCampaignBrief(campaignId: string)
    | ListCreativeAssets(campaignId: string)
    | GetCreativeAsset(documentId: string)
    | GetRelatedCampaigns(campaignId: string)
    | CalculateBudgetExposure(campaignId: string)
    | AddCampaignNote(campaignId: string, note: string, key: string, injectFailure: bool)
    | RecordLaunchRecommendation(campaignId: string, recommendation: RecommendationKind, reasonCode: string,
                                 recommendedMinor: nat, key: string, injectFailure: bool)
    | FlagCampaignForReview(campaignId: string, reasonCode: string, severity: Severity, key: string, injectFailure: bool)
    | RequestSuppressionUpdate(campaignId: string, documentType: string, key: string, injectFailure: bool)
    | EscalateComplianceReview(campaignId: string, reason: string, key: string, injectFailure: bool)
    | LaunchCampaign(campaignId: string, key: string, injectFailure: bool)
    | SendCampaignCommunication(campaignId: string, channel: string, key: string, injectFailure: bool)
    | AllocateCampaignBudget(campaignId: string, amountMinor: pos, currency: string, key: string, injectFailure: bool)
  {
    predicate Mutates() {
      AddCampaignNote? || RecordLaunchRecommendation? || FlagCampaignForReview? || RequestSuppressionUpdate? ||
      EscalateComplianceReview? || LaunchCampaign? || SendCampaignCommunication? || AllocateCampaignBudget?
    }
  }

  datatype Exposure = Exposure(
    campaignId: string, segmentId: string, proposedMinor: int, totalCapMinor: int, platformFeeMinor: int, subCapMinor: Option<pos>,
    netDeployableMinor: int, exceedsTotalCap: bool, exceedsChannelCap: bool, withinPlatformFee: bool, advertiserActive: bool,
    withinFlightWindow: bool, chronologyValid: bool, eligible: bool)

  datatype Answer =
    | CampaignList(campaigns: seq<Campaign>)
    | SegmentView(segment: Segment)
    | BriefView(campaign: Campaign, brief: Brief)
    | DocumentList(documents: seq<Record>)
    | DocumentView(document: Record)
    | ExposureView(exposure: Exposure)
    | Written(fields: Fields)

  type Result = Applied<State, Answer, Event>

  // ---------- Lookups and guards ----------

  function CampaignIndex(campaigns: seq<Campaign>, id: string): (i: nat)
    ensures i <= |campaigns| && (i < |campaigns| ==> campaigns[i].id == id)
    ensures forall j :: 0 <= j < i ==> campaigns[j].id != id
  {
    if campaigns == [] then 0
    else if campaigns[0].id == id then 0
    else
      var rest := CampaignIndex(campaigns[1..], id);
      assert forall j :: 1 <= j < 1 + rest ==> campaigns[j] == campaigns[1..][j - 1];
      1 + rest
  }

  function FindSegment(segments: seq<Segment>, id: string): (r: Option<Segment>)
    ensures r.Some? ==> r.value in segments && r.value.id == id
    ensures r.None? ==> forall k :: k in segments ==> k.id != id
  {
    if segments == [] then None
    else if segments[0].id == id then Some(segments[0])
    else FindSegment(segments[1..], id)
  }

  function FindAdvertiser(advertisers: seq<Advertiser>, id: string): (r: Option<Advertiser>)
    ensures r.Some? ==> r.value in advertisers && r.value.id == id
    ensures r.None? ==> forall k :: k in advertisers ==> k.id != id
  {
    if advertisers == [] then None
    else if advertisers[0].id == id then Some(advertisers[0])
    else FindAdvertiser(advertisers[1..], id)
  }

  function FindBrief(briefs: seq<Brief>, campaignId: string): (r: Option<Brief>)
    ensures r.Some? ==> r.value in briefs && r.value.campaignId == campaignId
    ensures r.None? ==> forall k :: k in briefs ==> k.campaignId != campaignId
  {
    if briefs == [] then None
    else if briefs[0].campaignId == campaignId then Some(briefs[0])
    else FindBrief(briefs[1..], campaignId)
  }

  function FindRecord(records: seq<Record>, id: string): (r: Option<Record>)
    ensures r.Some? ==> r.value in records && r.value.id == id
    ensures r.None? ==> forall k :: k in records ==> k.id != id
  {
    if records == [] then None
    else if records[0].id == id then Some(records[0])
    else FindRecord(records[1..], id)
  }

  /** The records attached to one campaign, in order. */
  function Attached(records: seq<Record>, campaignId: string): seq<Record> {
    if records == [] then []
    else
      var last := records[|records| - 1];
      Attached(records[..|records| - 1], campaignId) + (if last.campaignId == campaignId then [last] else [])
  }

  predicate MayRead(auth: Authorization, advertiserId: string) {
    auth.customerId == Some(advertiserId) || "campaign:read" in auth.scopes
  }

  predicate MayMutate(auth: Authorization, advertiserId: string) {
    auth.customerId.None? || auth.customerId == Some(advertiserId)
  }

  // ---------- Read tools ----------

  function StatusText(status: CampaignStatus): string {
    match status
    case DRAFT => "draft"
    case DATA_REQUESTED => "data_requested"
    case UNDER_REVIEW => "under_review"
    case LIVE => "live"
    case COMPLETED => "completed"
    case REJECTED => "rejected"
  }

  function MatchingCampaigns(campaigns: seq<Campaign>, advertiserId: Option<string>, status: Option<string>): seq<Campaign> {
    if campaigns == [] then []
    else
      var keep := (advertiserId.None? || campaigns[0].advertiserId == advertiserId.value)
                  && (status.None? || StatusText(campaigns[0].status) == status.value);
      (if keep then [campaigns[0]] else []) + MatchingCampaigns(campaigns[1..], advertiserId, status)
  }

  function RelatedCampaigns(campaigns: seq<Campaign>, ids: seq<string>): seq<Campaign> {
    if campaigns == [] then []
    else (if campaigns[0].id in ids then [campaigns[0]] else []) + RelatedCampaigns(campaigns[1..], ids)
  }

  function Min(a: int, b: int): int { if a <= b then a else b }
  function Max(a: int, b: int): int { if a >= b then a else b }

  function NetDeployable(proposed: int, cap: int, subCap: Option<pos>, fee: int): int {
    var capped := Min(proposed, cap);
    Max(0, (if subCap.Some? then Min(capped, subCap.value) else capped) - fee)
  }

  function Expose(campaign: Campaign, segment: Segment, advertiser: Advertiser): Exposure {
    var proposed, cap, fee := campaign.proposedMinor, segment.totalCapMinor, segment.platformFeeMinor;
    var subCap := if campaign.campaignType.Some? && campaign.campaignType.value in segment.channelSubCaps
                  then Some(segment.channelSubCaps[campaign.campaignType.value]) else None;
    var overChannel := subCap.Some? && proposed > subCap.value;
    var active, inWindow := advertiser.status == ACTIVE, advertiser.activatedAt <= campaign.submittedAt;
    var chronology := campaign.flightStart.Some? && campaign.briefSubmittedAt.Some?
                      ==> campaign.flightStart.value <= campaign.briefSubmittedAt.value <= campaign.submittedAt;
    Exposure(campaign.id, segment.id, proposed, cap, fee, subCap, NetDeployable(proposed, cap, subCap, fee), proposed > cap,
             overChannel, proposed <= fee, active, inWindow, chronology,
             active && inWindow && chronology && proposed > fee && proposed <= cap && !overChannel)
  }

  function Read(auth: Authorization, s: State, advertiserId: string, answer: Answer): Result {
    if MayRead(auth, advertiserId) then Accepted(s, answer, None) else Rejected(AuthorizationDenied)
  }

  function ApplyRead(auth: Authorization, tool: Tool, s: State): Result
    requires !tool.Mutates()
  {
    match tool
    case SearchCampaigns(advertiserId, status) =>
      if advertiserId.Some? && !MayRead(auth, advertiserId.value) then Rejected(AuthorizationDenied)
      else if advertiserId.None? && auth.customerId.None? && "campaign:read" !in auth.scopes then Rejected(AuthorizationDenied)
      else
        // `or`: an empty advertiser id falls through to the caller's own.
        var effective := if advertiserId.Some? && advertiserId.value != "" then advertiserId else auth.customerId;
        Accepted(s, CampaignList(MatchingCampaigns(s.campaigns, effective, status)), None)
    case GetAudienceSegment(id) =>
      var segment := FindSegment(s.segments, id);
      if segment.None? then Rejected(EntityNotFound) else Read(auth, s, segment.value.advertiserId, SegmentView(segment.value))
    case InspectCampaignBrief(id) =>
      var i := CampaignIndex(s.campaigns, id);
      if i == |s.campaigns| then Rejected(EntityNotFound)
      else if !MayRead(auth, s.campaigns[i].advertiserId) then Rejected(AuthorizationDenied)
      else
        var brief := FindBrief(s.briefs, id);
        if brief.None? then Rejected(EntityNotFound) else Accepted(s, BriefView(s.campaigns[i], brief.value), None)
    case ListCreativeAssets(id) =>
      var i := CampaignIndex(s.campaigns, id);
      if i == |s.campaigns| then Rejected(EntityNotFound)
      else Read(auth, s, s.campaigns[i].advertiserId, DocumentList(Attached(s.documents, id)))
    case GetCreativeAsset(id) =>
      var document := FindRecord(s.documents, id);
      if document.None? then Rejected(EntityNotFound)
      else
        var i := CampaignIndex(s.campaigns, document.value.campaignId);
        if i == |s.campaigns| then Rejected(EntityNotFound)
        else Read(auth, s, s.campaigns[i].advertiserId, DocumentView(document.value))
    case GetRelatedCampaigns(id) =>
      var i := CampaignIndex(s.campaigns, id);
      if i == |s.campaigns| then Rejected(EntityNotFound)
      else Read(auth, s, s.campaigns[i].advertiserId, CampaignList(RelatedCampaigns(s.campaigns, s.campaigns[i].relatedCampaignIds)))
    case CalculateBudgetExposure(id) =>
      var i := CampaignIndex(s.campaigns, id);
      if i == |s.campaigns| then Rejected(EntityNotFound)
      else if !MayRead(auth, s.campaigns[i].advertiserId) then Rejected(AuthorizationDenied)
      else
        var segment := FindSegment(s.segments, s.campaigns[i].segmentId);
        var advertiser := FindAdvertiser(s.advertisers, s.campaigns[i].advertiserId);
        if segment.None? || advertiser.None? then Rejected(EntityNotFound)
        else Accepted(s, ExposureView(Expose(s.campaigns[i], segment.value, advertiser.value)), None)
  }

  // ---------- Mutation tools ----------

  function Scope(tool: Tool): string
    requires tool.Mutates()
  {
    match tool
    case AddCampaignNote(_, _, _, _) => "campaign:analyst-note"
    case RecordLaunchRecommendation(_, _, _, _, _, _) => "campaign:recommend"
    case FlagCampaignForReview(_, _, _, _, _) => "campaign:flag"
    case RequestSuppressionUpdate(_, _, _, _) => "campaign:request"
    case EscalateComplianceReview(_, _, _, _) => "campaign:escalate"
    case LaunchCampaign(_, _, _) => "campaign:launch"
    case SendCampaignCommunication(_, _, _, _) => "campaign:send"
    case AllocateCampaignBudget(_, _, _, _, _) => "campaign:budget-commit"
  }

  /** The analyst tools check their scope before looking the campaign up, the others after. */
  predicate ScopeFirst(tool: Tool) {
    tool.AddCampaignNote? || tool.RecordLaunchRecommendation? || tool.FlagCampaignForReview?
  }

  function Guard(auth: Authorization, tool: Tool, s: State): Option<ErrorType>
    requires tool.Mutates()
  {
    var i := CampaignIndex(s.campaigns, tool.campaignId);
    if ScopeFirst(tool) && Scope(tool) !in auth.scopes then Some(AuthorizationDenied)
    else if i == |s.campaigns| then Some(EntityNotFound)
    else if !MayMutate(auth, s.campaigns[i].advertiserId) then Some(AuthorizationDenied)
    else if Scope(tool) !in auth.scopes then Some(AuthorizationDenied)
    else None
  }

  /** The record a tool appends without touching its campaign. */
  function PlainRow(tool: Tool, mint: Mint, s: State): (Collection, EventType, Record)
    requires ScopeFirst(tool)
  {
    match tool
    case AddCampaignNote(_, _, _, _) => (NOTES, NOTE_ADDED, Note(mint("note", |s.notes| + 1), tool.campaignId, tool.note))
    case RecordLaunchRecommendation(_, _, _, _, _, _) =>
      (RECOMMENDATIONS, RECOMMENDATION_RECORDED,
       Recommendation(mint("rec", |s.recommendations| + 1), tool.campaignId, tool.recommendation, tool.reasonCode,
                      tool.recommendedMinor, false))
    case FlagCampaignForReview(_, _, _, _, _) =>
      (RISK_FLAGS, RISK_FLAGGED, RiskFlag(mint("flag", |s.riskFlags| + 1), tool.campaignId, tool.reasonCode, tool.severity))
  }

  function ApplyPlain(tool: Tool, mint: Mint, s: State): Result
    requires ScopeFirst(tool)
  {
    var (collection, eventType, row) := PlainRow(tool, mint, s);
    Accepted(s.Append(collection, row), Written(RecordFields(row)),
             Some(Event(eventType, CAMPAIGN, tool.campaignId, None, RecordFields(row))))
  }

  function ApplyRequest(tool: Tool, mint: Mint, s: State, i: nat): Result
    requires tool.RequestSuppressionUpdate? && i < |s.campaigns|
  {
    var campaign := s.campaigns[i];
    if campaign.status != DRAFT && campaign.status != UNDER_REVIEW then Rejected(IllegalCampaignTransition)
    else
      var row := Asset(mint("doc", |s.documents| + 1), tool.campaignId, tool.documentType, REQUESTED, "advertiser", PENDING, "untrusted");
      Accepted(s.WithCampaign(i, campaign.(status := DATA_REQUESTED)).Append(DOCUMENTS, row), Written(RecordFields(row)),
               Some(Event(DATA_ASKED, CAMPAIGN, tool.campaignId, Some(map[STATUS := CampaignState(campaign.status)]),
                          // the document's own status overwrites the campaign's
                          map[STATUS := CampaignState(DATA_REQUESTED)] + RecordFields(row))))
  }

  predicate Unlaunched(status: CampaignStatus) {
    status == DRAFT || status == DATA_REQUESTED || status == UNDER_REVIEW
  }

  function ApplyEscalation(tool: Tool, mint: Mint, s: State, i: nat): Result
    requires tool.EscalateComplianceReview? && i < |s.campaigns|
  {
    var campaign := s.campaigns[i];
    if !Unlaunched(campaign.status) then Rejected(IllegalCampaignTransition)
    else
      var row := Review(mint("rev", |s.reviews| + 1), tool.campaignId, tool.reason);
      Accepted(s.WithCampaign(i, campaign.(status := UNDER_REVIEW)).Append(REVIEWS, row), Written(RecordFields(row)),
               Some(Event(REVIEW_ESCALATED, CAMPAIGN, tool.campaignId, Some(map[STATUS := CampaignState(campaign.status)]),
                          map[STATUS := CampaignState(UNDER_REVIEW)] + RecordFields(row))))
  }

  function ApplyLaunch(tool: Tool, mint: Mint, s: State, i: nat): Result
    requires tool.LaunchCampaign? && i < |s.campaigns|
  {
    var campaign := s.campaigns[i];
    if !Unlaunched(campaign.status) then Rejected(IllegalCampaignTransition)
    else
      var row := Launch(mint("launch", |s.launches| + 1), tool.campaignId, LIVE);
      Accepted(s.WithCampaign(i, campaign.(status := LIVE)).Append(LAUNCHES, row), Written(RecordFields(row)),
               Some(Event(LAUNCHED, CAMPAIGN, tool.campaignId, Some(map[STATUS := CampaignState(campaign.status)]), RecordFields(row))))
  }

  function ApplySend(tool: Tool, mint: Mint, s: State, i: nat): Result
    requires tool.SendCampaignCommunication? && i < |s.campaigns|
  {
    if s.campaigns[i].status != LIVE then Rejected(IllegalCampaignTransition)
    else
      var row := Communication(mint("comm", |s.communications| + 1), tool.campaignId, tool.channel);
      Accepted(s.Append(COMMUNICATIONS, row), Written(RecordFields(row)),
               Some(Event(COMMUNICATION_SENT, CAMPAIGN, tool.campaignId, None, RecordFields(row))))
  }

  function AllocationRefusal(tool: Tool, s: State, i: nat): Option<ErrorType>
    requires tool.AllocateCampaignBudget? && i < |s.campaigns|
  {
    var campaign := s.campaigns[i];
    var segment, advertiser := FindSegment(s.segments, campaign.segmentId), FindAdvertiser(s.advertisers, campaign.advertiserId);
    if !Unlaunched(campaign.status) && campaign.status != LIVE then Some(IllegalCampaignTransition)
    else if segment.None? || advertiser.None? then Some(EntityNotFound)
    else if advertiser.value.status != ACTIVE then Some(AdvertiserIneligible)
    else if tool.currency != campaign.currency || tool.currency != segment.value.currency then Some(CurrencyMismatch)
    else if tool.amountMinor > Max(campaign.approvedMinor - campaign.spentMinor, campaign.proposedMinor) then Some(AllocationExceedsBudget)
    else None
  }

  /** The campaign after an allocation: spending that reaches an approved budget completes it. */
  function Charged(campaign: Campaign, amount: int): Campaign {
    var total := campaign.spentMinor + amount;
    campaign.(spentMinor := total, status := if total >= campaign.approvedMinor > 0 then COMPLETED else campaign.status)
  }

  function ApplyAllocation(tool: Tool, mint: Mint, s: State, i: nat): Result
    requires tool.AllocateCampaignBudget? && i < |s.campaigns|
  {
    var refused := AllocationRefusal(tool, s, i);
    if refused.Some? then Rejected(refused.value)
    else
      var campaign := s.campaigns[i];
      var charged := Charged(campaign, tool.amountMinor);
      var row := Allocation(mint("alloc", |s.allocations| + 1), tool.campaignId, tool.amountMinor, tool.currency,
                            charged.spentMinor, charged.status);
      Accepted(s.WithCampaign(i, charged).Append(ALLOCATIONS, row), Written(RecordFields(row)),
               Some(Event(BUDGET_ALLOCATED, CAMPAIGN_BUDGET, row.id,
                          Some(map[SPENT_MINOR := Amount(campaign.spentMinor), STATUS := CampaignState(campaign.status)]),
                          RecordFields(row))))
  }

  function ApplyMutation(auth: Authorization, tool: Tool, mint: Mint, s: State): Result
    requires tool.Mutates()
  {
    var refused := Guard(auth, tool, s);
    if refused.Some? then Rejected(refused.value)
    else
      var i := CampaignIndex(s.campaigns, tool.campaignId);
      match tool
      case RequestSuppressionUpdate(_, _, _, _) => ApplyRequest(tool, mint, s, i)
      case EscalateComplianceReview(_, _, _, _) => ApplyEscalation(tool, mint, s, i)
      case LaunchCampaign(_, _, _) => ApplyLaunch(tool, mint, s, i)
      case SendCampaignCommunication(_, _, _, _) => ApplySend(tool, mint, s, i)
      case AllocateCampaignBudget(_, _, _, _, _) => ApplyAllocation(tool, mint, s, i)
      case _ => ApplyPlain(tool, mint, s)
  }

  function Apply(auth: Authorization, tool: Tool, mint: Mint, s: State): Result {
    if tool.Mutates() then ApplyMutation(auth, tool, mint, s) else ApplyRead(auth, tool, s)
  }

  function ToolName(tool: Tool): string {
    match tool
    case SearchCampaigns(_, _) => "search_campaigns"
    case GetAudienceSegment(_) => "get_audience_segment"
    case InspectCampaignBrief(_) => "inspect_campaign_brief"
    case ListCreativeAssets(_) => "list_creative_assets"
    case GetCreativeAsset(_) => "get_creative_asset"
    case GetRelatedCampaigns(_) => "get_related_campaigns"
    case CalculateBudgetExposure(_) => "calculate_budget_exposure"
    case AddCampaignNote(_, _, _, _) => "add_campaign_note"
    case RecordLaunchRecommendation(_, _, _, _, _, _) => "record_launch_recommendation"
    case FlagCampaignForReview(_, _, _, _, _) => "flag_campaign_for_review"
    case RequestSuppressionUpdate(_, _, _, _) => "request_suppression_update"
    case EscalateComplianceReview(_, _, _, _) => "escalate_compliance_review"
    case LaunchCampaign(_, _, _) => "launch_campaign"
    case SendCampaignCommunication(_, _, _, _) => "send_campaign_communication"
    case AllocateCampaignBudget(_, _, _, _, _) => "allocate_campaign_budget"
  }

  function MarketingDomain(): Domain<State, Tool, Answer, Event> {
    Domain(
      (tool: Tool) => ToolName(tool),
      (tool: Tool) => tool.Mutates(),
      (tool: Tool) => if tool.Mutates() then Some(tool.key) else None,
      (tool: Tool) => tool.Mutates() && tool.injectFailure,
      (auth: Authorization, tool: Tool, mint: Mint, s: State) => Apply(auth, tool, mint, s))
  }
}
