/** When each Marketing tool is accepted, why it is refused, and what it then leaves behind. */
module MarketingAcceptance {
  import opened Wrappers
  import opened World
  import opened Marketing

  predicate Listed(s: State, campaignId: string) { CampaignIndex(s.campaigns, campaignId) < |s.campaigns| }

  function CampaignIn(s: State, campaignId: string): Campaign
    requires Listed(s, campaignId)
  {
    s.campaigns[CampaignIndex(s.campaigns, campaignId)]
  }

  function CampaignsWith(s: State, campaignId: string, c: Campaign): seq<Campaign>
    requires Listed(s, campaignId)
  {
    s.campaigns[CampaignIndex(s.campaigns, campaignId) := c]
  }

  /** The campaign exists, the caller acts for its advertiser or for nobody, and holds the scope. */
  predicate Entitled(auth: Authorization, s: State, campaignId: string, scope: string) {
    Listed(s, campaignId) && auth.customerId in {None, Some(CampaignIn(s, campaignId).advertiserId)} && scope in auth.scopes
  }

  // ---------- The analyst tools ----------

  /** An analyst tool asks for its scope before it looks the campaign up. */
  lemma AnalystToolsExactly(auth: Authorization, tool: Tool, mint: Mint, s: State, scope: string)
    requires tool.AddCampaignNote? || tool.RecordLaunchRecommendation? || tool.FlagCampaignForReview?
    requires scope == (if tool.AddCampaignNote? then "campaign:analyst-note" else if tool.FlagCampaignForReview? then "campaign:flag"
                       else "campaign:recommend")
    ensures var r := Apply(auth, tool, mint, s);
      && (r.Accepted? <==> Entitled(auth, s, tool.campaignId, scope))
      && (r == Rejected(EntityNotFound) <==> scope in auth.scopes && !Listed(s, tool.campaignId))
      && (r == Rejected(AuthorizationDenied) <==>
            scope !in auth.scopes
            || (Listed(s, tool.campaignId) && auth.customerId !in {None, Some(CampaignIn(s, tool.campaignId).advertiserId)}))
  {
  }

  /** What an accepted analyst tool leaves: one new row, named after the rows before it. */
  lemma AppendedNote(auth: Authorization, tool: Tool, mint: Mint, s: State)
    requires tool.AddCampaignNote? && Apply(auth, tool, mint, s).Accepted?
    ensures Apply(auth, tool, mint, s).state == s.(notes := s.notes + [Note(mint("note", |s.notes| + 1), tool.campaignId, tool.note)])
  {
  }

  lemma AppendedRecommendation(auth: Authorization, tool: Tool, mint: Mint, s: State)
    requires tool.RecordLaunchRecommendation? && Apply(auth, tool, mint, s).Accepted?
    ensures Apply(auth, tool, mint, s).state == s.(recommendations := s.recommendations +
      [Recommendation(mint("rec", |s.recommendations| + 1), tool.campaignId, tool.recommendation, tool.reasonCode, tool.recommendedMinor, false)])
  {
  }

  lemma AppendedFlag(auth: Authorization, tool: Tool, mint: Mint, s: State)
    requires tool.FlagCampaignForReview? && Apply(auth, tool, mint, s).Accepted?
    ensures Apply(auth, tool, mint, s).state == s.(riskFlags := s.riskFlags +
      [RiskFlag(mint("flag", |s.riskFlags| + 1), tool.campaignId, tool.reasonCode, tool.severity)])
  {
  }

  // ---------- The lifecycle tools ----------

  /** Data is requested exactly from a draft or a campaign under review, which then waits for it. */
  lemma RequestExactly(auth: Authorization, mint: Mint, s: State, campaignId: string, documentType: string, key: string, fail: bool)
    ensures var r := Apply(auth, RequestSuppressionUpdate(campaignId, documentType, key, fail), mint, s);
      var entitled := Entitled(auth, s, campaignId, "campaign:request");
      && (r.Accepted? <==> entitled && CampaignIn(s, campaignId).status in {DRAFT, UNDER_REVIEW})
      && (r == Rejected(IllegalCampaignTransition) <==> entitled && CampaignIn(s, campaignId).status !in {DRAFT, UNDER_REVIEW})
      && (r == Rejected(EntityNotFound) <==> !Listed(s, campaignId))
      && (r == Rejected(AuthorizationDenied) <==> Listed(s, campaignId) && !entitled)
      && (r.Accepted? ==>
            r.state == s.(campaigns := CampaignsWith(s, campaignId, CampaignIn(s, campaignId).(status := DATA_REQUESTED)),
                          documents := s.documents + [Asset(mint("doc", |s.documents| + 1), campaignId, documentType, REQUESTED,
                                                            "advertiser", PENDING, "untrusted")]))
  {
  }

  /** A review is opened exactly on a campaign not launched yet. */
  lemma EscalationExactly(auth: Authorization, mint: Mint, s: State, campaignId: string, reason: string, key: string, fail: bool)
    ensures var r := Apply(auth, EscalateComplianceReview(campaignId, reason, key, fail), mint, s);
      var entitled := Entitled(auth, s, campaignId, "campaign:escalate");
      && (r.Accepted? <==> entitled && CampaignIn(s, campaignId).status !in {LIVE, COMPLETED, REJECTED})
      && (r == Rejected(IllegalCampaignTransition) <==> entitled && CampaignIn(s, campaignId).status in {LIVE, COMPLETED, REJECTED})
      && (r == Rejected(EntityNotFound) <==> !Listed(s, campaignId))
      && (r == Rejected(AuthorizationDenied) <==> Listed(s, campaignId) && !entitled)
      && (r.Accepted? ==>
            r.state == s.(campaigns := CampaignsWith(s, campaignId, CampaignIn(s, campaignId).(status := UNDER_REVIEW)),
                          reviews := s.reviews + [Review(mint("rev", |s.reviews| + 1), campaignId, reason)]))
  {
  }

  /** A campaign goes live exactly once it is entitled to and not launched, completed or rejected. */
  lemma LaunchExactly(auth: Authorization, mint: Mint, s: State, campaignId: string, key: string, fail: bool)
    ensures var r := Apply(auth, LaunchCampaign(campaignId, key, fail), mint, s);
      var entitled := Entitled(auth, s, campaignId, "campaign:launch");
      && (r.Accepted? <==> entitled && CampaignIn(s, campaignId).status !in {LIVE, COMPLETED, REJECTED})
      && (r == Rejected(IllegalCampaignTransition) <==> entitled && CampaignIn(s, campaignId).status in {LIVE, COMPLETED, REJECTED})
      && (r == Rejected(EntityNotFound) <==> !Listed(s, campaignId))
      && (r == Rejected(AuthorizationDenied) <==> Listed(s, campaignId) && !entitled)
      && (r.Accepted? ==> LaunchedBy(s, r.state, mint, campaignId) && r.event.Some?)
  {
  }

  predicate LaunchedBy(s: State, s': State, mint: Mint, campaignId: string)
    requires Listed(s, campaignId)
  {
    s' == s.(campaigns := CampaignsWith(s, campaignId, CampaignIn(s, campaignId).(status := LIVE)),
             launches := s.launches + [Launch(mint("launch", |s.launches| + 1), campaignId, LIVE)])
  }

  /** A communication is sent exactly for a live campaign and changes nothing but the list of them. */
  lemma SendExactly(auth: Authorization, mint: Mint, s: State, campaignId: string, channel: string, key: string, fail: bool)
    ensures var r := Apply(auth, SendCampaignCommunication(campaignId, channel, key, fail), mint, s);
      var entitled := Entitled(auth, s, campaignId, "campaign:send");
      && (r.Accepted? <==> entitled && CampaignIn(s, campaignId).status == LIVE)
      && (r == Rejected(IllegalCampaignTransition) <==> entitled && CampaignIn(s, campaignId).status != LIVE)
      && (r == Rejected(EntityNotFound) <==> !Listed(s, campaignId))
      && (r == Rejected(AuthorizationDenied) <==> Listed(s, campaignId) && !entitled)
      && (r.Accepted? ==> SentBy(s, r.state, mint, campaignId, channel) && r.event.Some?)
  {
  }

  predicate SentBy(s: State, s': State, mint: Mint, campaignId: string, channel: string) {
    s' == s.(communications := s.communications + [Communication(mint("comm", |s.communications| + 1), campaignId, channel)])
  }

  // ---------- Allocation ----------

  function SegmentFor(s: State, campaignId: string): Option<Segment>
    requires Listed(s, campaignId)
  {
    FindSegment(s.segments, CampaignIn(s, campaignId).segmentId)
  }

  function AdvertiserFor(s: State, campaignId: string): Option<Advertiser>
    requires Listed(s, campaignId)
  {
    FindAdvertiser(s.advertisers, CampaignIn(s, campaignId).advertiserId)
  }

  /** The caller may fund this open campaign, and both its segment and its advertiser are known. */
  predicate Funding(auth: Authorization, s: State, campaignId: string) {
    && Entitled(auth, s, campaignId, "campaign:budget-commit") && CampaignIn(s, campaignId).status !in {COMPLETED, REJECTED}
    && SegmentFor(s, campaignId).Some? && AdvertiserFor(s, campaignId).Some?
  }

  predicate SameCurrency(s: State, campaignId: string, currency: string)
    requires Listed(s, campaignId) && SegmentFor(s, campaignId).Some?
  {
    currency == CampaignIn(s, campaignId).currency && currency == SegmentFor(s, campaignId).value.currency
  }

  /** The amount is within what is left of the approved budget, or within the proposed budget. */
  predicate Fits(s: State, campaignId: string, amount: int)
    requires Listed(s, campaignId)
  {
    var c := CampaignIn(s, campaignId);
    c.spentMinor + amount <= c.approvedMinor || amount <= c.proposedMinor
  }

  /** An allocation is accepted exactly on an open campaign of an active advertiser, in the currency
      of both campaign and segment, and fitting; each refusal names its own condition. */
  lemma AllocationExactly(auth: Authorization, mint: Mint, s: State, campaignId: string, amount: pos, currency: string, key: string, fail: bool)
    ensures var r := Apply(auth, AllocateCampaignBudget(campaignId, amount, currency, key, fail), mint, s);
      var entitled, funding := Entitled(auth, s, campaignId, "campaign:budget-commit"), Funding(auth, s, campaignId);
      && (r.Accepted? <==>
            && funding && AdvertiserFor(s, campaignId).value.status == ACTIVE
            && SameCurrency(s, campaignId, currency) && Fits(s, campaignId, amount))
      && (r == Rejected(AllocationExceedsBudget) <==>
            && funding && AdvertiserFor(s, campaignId).value.status == ACTIVE
            && SameCurrency(s, campaignId, currency) && !Fits(s, campaignId, amount))
      && (r == Rejected(CurrencyMismatch) <==>
            funding && AdvertiserFor(s, campaignId).value.status == ACTIVE && !SameCurrency(s, campaignId, currency))
      && (r == Rejected(AdvertiserIneligible) <==> funding && AdvertiserFor(s, campaignId).value.status in {SUSPENDED, CLOSED})
      && (r == Rejected(EntityNotFound) <==>
            !Listed(s, campaignId) || (entitled && CampaignIn(s, campaignId).status !in {COMPLETED, REJECTED} && !funding))
      && (r == Rejected(IllegalCampaignTransition) <==> entitled && CampaignIn(s, campaignId).status in {COMPLETED, REJECTED})
      && (r == Rejected(AuthorizationDenied) <==> Listed(s, campaignId) && !entitled)
  {
  }

  /** What an accepted allocation leaves: the amount on the campaign, which completes when an approved
      budget is used up, and one allocation row. */
  predicate FundedBy(s: State, s': State, mint: Mint, campaignId: string, amount: int, currency: string)
    requires Listed(s, campaignId)
  {
    var c := CampaignIn(s, campaignId);
    var total := c.spentMinor + amount;
    var status := if c.approvedMinor > 0 && total >= c.approvedMinor then COMPLETED else c.status;
    s' == s.(campaigns := CampaignsWith(s, campaignId, c.(spentMinor := total, status := status)),
             allocations := s.allocations + [Allocation(mint("alloc", |s.allocations| + 1), campaignId, amount, currency, total, status)])
  }

  lemma AllocationDispatched(auth: Authorization, tool: Tool, mint: Mint, s: State)
    requires tool.AllocateCampaignBudget? && Apply(auth, tool, mint, s).Accepted?
    ensures Listed(s, tool.campaignId)
    ensures Apply(auth, tool, mint, s) == ApplyAllocation(tool, mint, s, CampaignIndex(s.campaigns, tool.campaignId))
  {
  }

  lemma ChargedExactly(c: Campaign, amount: int)
    ensures Charged(c, amount) ==
      c.(spentMinor := c.spentMinor + amount,
         status := if c.approvedMinor > 0 && c.spentMinor + amount >= c.approvedMinor then COMPLETED else c.status)
  {
  }

  lemma AllocationApplied(tool: Tool, mint: Mint, s: State)
    requires tool.AllocateCampaignBudget? && Listed(s, tool.campaignId)
    requires ApplyAllocation(tool, mint, s, CampaignIndex(s.campaigns, tool.campaignId)).Accepted?
    ensures var r := ApplyAllocation(tool, mint, s, CampaignIndex(s.campaigns, tool.campaignId));
      r.event.Some? && FundedBy(s, r.state, mint, tool.campaignId, tool.amountMinor, tool.currency)
  {
    ChargedExactly(CampaignIn(s, tool.campaignId), tool.amountMinor);
  }

  lemma AllocationEffect(auth: Authorization, mint: Mint, s: State, campaignId: string, amount: pos, currency: string, key: string, fail: bool)
    requires Apply(auth, AllocateCampaignBudget(campaignId, amount, currency, key, fail), mint, s).Accepted?
    ensures Listed(s, campaignId)
      && FundedBy(s, Apply(auth, AllocateCampaignBudget(campaignId, amount, currency, key, fail), mint, s).state, mint, campaignId, amount, currency)
    ensures Apply(auth, AllocateCampaignBudget(campaignId, amount, currency, key, fail), mint, s).event.Some?
  {
    var tool := AllocateCampaignBudget(campaignId, amount, currency, key, fail);
    AllocationDispatched(auth, tool, mint, s);
    AllocationApplied(tool, mint, s);
  }

  // ---------- On any database ----------

  type Database = Db<State, Tool, Answer, Event>

  /** A call of this run under a key nobody used, with the same key or none in its envelope. */
  predicate FreshCall(env: Env, db: Database, call: Call<Tool>, key: string) {
    call.runId == env.runId && key !in db.table && call.envelopeKey in {None, Some(key)}
  }

  predicate AllocationDue(auth: Authorization, s: State, campaignId: string, amount: int, currency: string) {
    && Funding(auth, s, campaignId) && AdvertiserFor(s, campaignId).value.status == ACTIVE
    && SameCurrency(s, campaignId, currency) && Fits(s, campaignId, amount)
  }

  /** On any database an allocation under a fresh key commits exactly when it is due, and is then what
      is spent; otherwise it is refused and only the clock moves. */
  lemma AllocationCommitsExactly(env: Env, db: Database, call: Call<Tool>, campaignId: string, amount: pos, currency: string, key: string)
    requires FreshCall(env, db, call, key)
    requires call.request == Valid(AllocateCampaignBudget(campaignId, amount, currency, key, false))
    ensures var (db', reply) := InvokeStep(MarketingDomain(), env, db, call); var due := AllocationDue(call.auth, db.state, campaignId, amount, currency);
      && (CommitOf(MarketingDomain(), env, db, Submit(call)).Some? <==> due)
      && (due ==> reply.Success? && FundedBy(db.state, db'.state, MintAt(env, db.clock), campaignId, amount, currency)
                  && db'.table.Keys == db.table.Keys + {key})
      && (!due ==> reply.Failure? && db' == db.(clock := db'.clock))
  {
    AllocationExactly(call.auth, MintAt(env, db.clock), db.state, campaignId, amount, currency, key, false);
    if AllocationDue(call.auth, db.state, campaignId, amount, currency) {
      AllocationEffect(call.auth, MintAt(env, db.clock), db.state, campaignId, amount, currency, key, false);
    }
    StepEffect(MarketingDomain(), env, db, Submit(call));
  }

  lemma LaunchCommits(env: Env, db: Database, call: Call<Tool>, campaignId: string, key: string)
    requires FreshCall(env, db, call, key) && call.request == Valid(LaunchCampaign(campaignId, key, false))
    requires Entitled(call.auth, db.state, campaignId, "campaign:launch")
    requires CampaignIn(db.state, campaignId).status !in {LIVE, COMPLETED, REJECTED}
    ensures var (db', reply) := InvokeStep(MarketingDomain(), env, db, call);
      reply.Success? && LaunchedBy(db.state, db'.state, MintAt(env, db.clock), campaignId) && db'.table.Keys == db.table.Keys + {key}
  {
    LaunchExactly(call.auth, MintAt(env, db.clock), db.state, campaignId, key, false);
  }

  lemma SendAnswered(env: Env, db: Database, call: Call<Tool>, campaignId: string, channel: string, key: string)
    requires FreshCall(env, db, call, key) && call.request == Valid(SendCampaignCommunication(campaignId, channel, key, false))
    requires Entitled(call.auth, db.state, campaignId, "campaign:send")
    ensures var (db', reply) := InvokeStep(MarketingDomain(), env, db, call);
      if CampaignIn(db.state, campaignId).status == LIVE
      then reply.Success? && SentBy(db.state, db'.state, MintAt(env, db.clock), campaignId, channel)
      else reply.Failure? && reply.error == IllegalCampaignTransition && db' == db.(clock := db'.clock)
  {
    SendExactly(call.auth, MintAt(env, db.clock), db.state, campaignId, channel, key, false);
  }

  lemma StillListed(s: State, s': State, mint: Mint, campaignId: string)
    requires Listed(s, campaignId) && LaunchedBy(s, s', mint, campaignId)
    ensures Listed(s', campaignId) && CampaignIn(s', campaignId) == CampaignIn(s, campaignId).(status := LIVE)
  {
    var i := CampaignIndex(s.campaigns, campaignId);
    assert s'.campaigns[i].id == campaignId;
  }

  /** Launching makes the difference to sending: before it a communication is refused, after it the
      same communication succeeds and is listed. */
  lemma LaunchedThenSent(env: Env, db: Database, launch: Call<Tool>, send: Call<Tool>, campaignId: string, channel: string,
                         first: string, second: string)
    requires FreshCall(env, db, launch, first) && FreshCall(env, db, send, second) && first != second
    requires launch.request == Valid(LaunchCampaign(campaignId, first, false))
    requires send.request == Valid(SendCampaignCommunication(campaignId, channel, second, false))
    requires Entitled(launch.auth, db.state, campaignId, "campaign:launch") && Entitled(send.auth, db.state, campaignId, "campaign:send")
    requires CampaignIn(db.state, campaignId).status !in {LIVE, COMPLETED, REJECTED}
    ensures InvokeStep(MarketingDomain(), env, db, send).1.Failure?
    ensures var (db1, launched) := InvokeStep(MarketingDomain(), env, db, launch);
      var (db2, sent) := InvokeStep(MarketingDomain(), env, db1, send);
      && launched.Success? && sent.Success? && Listed(db2.state, campaignId) && CampaignIn(db2.state, campaignId).status == LIVE
      && SentBy(db1.state, db2.state, MintAt(env, db1.clock), campaignId, channel)
  {
    SendAnswered(env, db, send, campaignId, channel, second);
    LaunchCommits(env, db, launch, campaignId, first);
    var db1 := InvokeStep(MarketingDomain(), env, db, launch).0;
    StillListed(db.state, db1.state, MintAt(env, db.clock), campaignId);
    SendAnswered(env, db1, send, campaignId, channel, second);
  }

  // ---------- Reading ----------

  /** A reader acts for the advertiser or holds the reading scope. */
  predicate Reads(auth: Authorization, advertiserId: string) {
    auth.customerId == Some(advertiserId) || "campaign:read" in auth.scopes
  }

  predicate Sought(c: Campaign, advertiserId: Option<string>, status: Option<string>) {
    (advertiserId.Some? ==> c.advertiserId == advertiserId.value) && (status.Some? ==> StatusText(c.status) == status.value)
  }

  lemma {:induction false} MatchingExactly(campaigns: seq<Campaign>, advertiserId: Option<string>, status: Option<string>, c: Campaign)
    ensures c in MatchingCampaigns(campaigns, advertiserId, status) <==> c in campaigns && Sought(c, advertiserId, status)
  {
    if campaigns != [] {
      MatchingExactly(campaigns[1..], advertiserId, status, c);
    }
  }

  /** A search lists exactly the sought campaigns of the advertiser asked for, or else of the caller; a
      caller who acts for nobody must hold the reading scope. */
  lemma SearchExactly(auth: Authorization, mint: Mint, s: State, advertiserId: Option<string>, status: Option<string>, c: Campaign)
    ensures var r := Apply(auth, SearchCampaigns(advertiserId, status), mint, s);
      var whose := if advertiserId.Some? && advertiserId.value != "" then advertiserId else auth.customerId;
      && (r.Accepted? <==> if advertiserId.Some? then Reads(auth, advertiserId.value) else auth.customerId.Some? || "campaign:read" in auth.scopes)
      && (!r.Accepted? ==> r == Rejected(AuthorizationDenied))
      && (r.Accepted? ==>
            && r.state == s && r.output.CampaignList?
            && (c in r.output.campaigns <==> c in s.campaigns && Sought(c, whose, status)))
  {
    MatchingExactly(s.campaigns, if advertiserId.Some? && advertiserId.value != "" then advertiserId else auth.customerId, status, c);
  }

  lemma {:induction false} RelatedExactly(campaigns: seq<Campaign>, ids: seq<string>, c: Campaign)
    ensures c in RelatedCampaigns(campaigns, ids) <==> c in campaigns && c.id in ids
  {
    if campaigns != [] {
      RelatedExactly(campaigns[1..], ids, c);
    }
  }

  lemma {:induction false} AttachedExactly(records: seq<Record>, campaignId: string, r: Record)
    ensures r in Attached(records, campaignId) <==> r in records && r.campaignId == campaignId
  {
    if records != [] {
      AttachedExactly(records[..|records| - 1], campaignId, r);
    }
  }

  /** The tools that read about one campaign answer exactly its readers. */
  lemma CampaignReadExactly(auth: Authorization, tool: Tool, mint: Mint, s: State, c: Campaign, row: Record)
    requires tool.InspectCampaignBrief? || tool.ListCreativeAssets? || tool.GetRelatedCampaigns?
    ensures var r := Apply(auth, tool, mint, s); var brief := FindBrief(s.briefs, tool.campaignId);
      && (r.Accepted? <==>
            && Listed(s, tool.campaignId) && Reads(auth, CampaignIn(s, tool.campaignId).advertiserId)
            && (tool.InspectCampaignBrief? ==> brief.Some?))
      && (r == Rejected(AuthorizationDenied) <==> Listed(s, tool.campaignId) && !Reads(auth, CampaignIn(s, tool.campaignId).advertiserId))
      && (r.Rejected? ==> r.error in {AuthorizationDenied, EntityNotFound})
      && (r.Accepted? && tool.InspectCampaignBrief? ==> r == Accepted(s, BriefView(CampaignIn(s, tool.campaignId), brief.value), None))
      && (r.Accepted? && tool.ListCreativeAssets? ==>
            && r.state == s && r.output.DocumentList?
            && (row in r.output.documents <==> row in s.documents && row.campaignId == tool.campaignId))
      && (r.Accepted? && tool.GetRelatedCampaigns? ==>
            && r.state == s && r.output.CampaignList?
            && (c in r.output.campaigns <==> c in s.campaigns && c.id in CampaignIn(s, tool.campaignId).relatedCampaignIds))
  {
    AttachedExactly(s.documents, tool.campaignId, row);
    if Listed(s, tool.campaignId) {
      RelatedExactly(s.campaigns, CampaignIn(s, tool.campaignId).relatedCampaignIds, c);
    }
  }

  // ---------- The budget exposure ----------

  /** Nothing is deployable when the fee swallows the proposal, the cap or the channel's own cap;
      otherwise deployable budget and fee together are the least of the three. */
  lemma DeployableExactly(proposed: pos, cap: pos, subCap: Option<pos>, fee: nat)
    ensures var net := NetDeployable(proposed, cap, subCap, fee);
      if proposed <= fee || cap <= fee || (subCap.Some? && subCap.value <= fee) then net == 0
      else
        && net > 0 && net + fee <= proposed && net + fee <= cap && (subCap.Some? ==> net + fee <= subCap.value)
        && (net + fee == proposed || net + fee == cap || subCap == Some(net + fee))
  {
  }

  /** The cap of the campaign's own channel, where the segment has one. */
  predicate SubCapFor(campaign: Campaign, segment: Segment, subCap: Option<pos>) {
    if subCap.Some? then
      && campaign.campaignType.Some? && campaign.campaignType.value in segment.channelSubCaps
      && segment.channelSubCaps[campaign.campaignType.value] == subCap.value
    else campaign.campaignType.None? || campaign.campaignType.value !in segment.channelSubCaps
  }

  /** An exposure is eligible exactly for an active advertiser, activated by the submission, whose known
      dates are in order, and a proposal above the fee and within both caps. */
  lemma ExposureMeans(campaign: Campaign, segment: Segment, advertiser: Advertiser)
    ensures var e := Expose(campaign, segment, advertiser);
      && (e.eligible <==>
            && advertiser.status == ACTIVE && advertiser.activatedAt <= campaign.submittedAt
            && (campaign.flightStart.Some? && campaign.briefSubmittedAt.Some? ==>
                  campaign.flightStart.value <= campaign.briefSubmittedAt.value && campaign.briefSubmittedAt.value <= campaign.submittedAt)
            && segment.platformFeeMinor < campaign.proposedMinor <= segment.totalCapMinor
            && (e.subCapMinor.Some? ==> campaign.proposedMinor <= e.subCapMinor.value))
      && SubCapFor(campaign, segment, e.subCapMinor)
      && (e.exceedsTotalCap <==> campaign.proposedMinor > segment.totalCapMinor)
      && (e.exceedsChannelCap <==> e.subCapMinor.Some? && campaign.proposedMinor > e.subCapMinor.value)
      && (e.withinPlatformFee <==> campaign.proposedMinor <= segment.platformFeeMinor)
      && e.netDeployableMinor == NetDeployable(campaign.proposedMinor, segment.totalCapMinor, e.subCapMinor, segment.platformFeeMinor)
  {
  }

  lemma ExposureReply(env: Env, db: Database, call: Call<Tool>, campaignId: string, exposure: Exposure)
    requires call.request == Valid(CalculateBudgetExposure(campaignId))
    requires var reply := InvokeStep(MarketingDomain(), env, db, call).1; reply.Success? && reply.output == ExposureView(exposure)
    ensures Listed(db.state, campaignId) && Reads(call.auth, CampaignIn(db.state, campaignId).advertiserId)
    ensures SegmentFor(db.state, campaignId).Some? && AdvertiserFor(db.state, campaignId).Some?
    ensures exposure == Expose(CampaignIn(db.state, campaignId), SegmentFor(db.state, campaignId).value, AdvertiserFor(db.state, campaignId).value)
  {
  }

  /** On any database an answered exposure is of the campaign as it stands; an eligible one deploys
      exactly the proposal less the platform fee. */
  lemma ExposureAnswered(env: Env, db: Database, call: Call<Tool>, campaignId: string, exposure: Exposure)
    requires call.request == Valid(CalculateBudgetExposure(campaignId))
    requires var reply := InvokeStep(MarketingDomain(), env, db, call).1; reply.Success? && reply.output == ExposureView(exposure)
    ensures Listed(db.state, campaignId) && Reads(call.auth, CampaignIn(db.state, campaignId).advertiserId)
    ensures SegmentFor(db.state, campaignId).Some? && AdvertiserFor(db.state, campaignId).Some?
    ensures var campaign, segment := CampaignIn(db.state, campaignId), SegmentFor(db.state, campaignId).value;
      && SubCapFor(campaign, segment, exposure.subCapMinor)
      && (exposure.netDeployableMinor > 0 <==>
            && campaign.proposedMinor > segment.platformFeeMinor && segment.totalCapMinor > segment.platformFeeMinor
            && (exposure.subCapMinor.Some? ==> exposure.subCapMinor.value > segment.platformFeeMinor))
      && (exposure.eligible ==> exposure.netDeployableMinor == campaign.proposedMinor - segment.platformFeeMinor > 0)
  {
    ExposureReply(env, db, call, campaignId, exposure);
    var campaign, segment := CampaignIn(db.state, campaignId), SegmentFor(db.state, campaignId).value;
    ExposureMeans(campaign, segment, AdvertiserFor(db.state, campaignId).value);
    DeployableExactly(campaign.proposedMinor, segment.totalCapMinor, exposure.subCapMinor, segment.platformFeeMinor);
  }
}
