/** How the Marketing world's event log rebuilds its state, from any start over any run. */
module MarketingRuns {
  import opened Wrappers
  import opened World
  import opened WorldRuns
  import opened Histories
  import opened Marketing

  type Log = seq<Commit<Tool, Answer, Event>>

  // ---------- Reading events back ----------

  function TextAt(f: Fields, k: Key): string { if k in f && f[k].Text? then f[k].text else "" }
  function AmountAt(f: Fields, k: Key): int { if k in f && f[k].Amount? then f[k].amount else 0 }
  function StateAt(f: Fields, k: Key): CampaignStatus { if k in f && f[k].CampaignState? then f[k].state else DRAFT }

  function RecordFrom(eventType: EventType, f: Fields): Record {
    match eventType
    case NOTE_ADDED => Note(TextAt(f, ID), TextAt(f, CAMPAIGN_ID), TextAt(f, NOTE))
    case RECOMMENDATION_RECORDED =>
      Recommendation(TextAt(f, ID), TextAt(f, CAMPAIGN_ID),
                     if RECOMMENDATION in f && f[RECOMMENDATION].KindName? then f[RECOMMENDATION].kind else REJECT,
                     TextAt(f, REASON_CODE), AmountAt(f, RECOMMENDED_MINOR),
                     BINDING in f && f[BINDING].Truth? && f[BINDING].truth)
    case RISK_FLAGGED =>
      RiskFlag(TextAt(f, ID), TextAt(f, CAMPAIGN_ID), TextAt(f, REASON_CODE),
               if SEVERITY in f && f[SEVERITY].SeverityName? then f[SEVERITY].sev else LOW)
    case DATA_ASKED =>
      Asset(TextAt(f, ID), TextAt(f, CAMPAIGN_ID), TextAt(f, DOCUMENT_TYPE),
            if STATUS in f && f[STATUS].DocumentState? then f[STATUS].docState else RECEIVED, TextAt(f, SOURCE),
            if VERIFICATION_STATE in f && f[VERIFICATION_STATE].VerificationState? then f[VERIFICATION_STATE].ver else VERIFIED,
            TextAt(f, TRUST_CLASSIFICATION))
    case REVIEW_ESCALATED => Review(TextAt(f, ID), TextAt(f, CAMPAIGN_ID), TextAt(f, REASON))
    case LAUNCHED => Launch(TextAt(f, ID), TextAt(f, CAMPAIGN_ID), StateAt(f, STATUS))
    case COMMUNICATION_SENT => Communication(TextAt(f, ID), TextAt(f, CAMPAIGN_ID), TextAt(f, CHANNEL))
    case BUDGET_ALLOCATED =>
      Allocation(TextAt(f, ID), TextAt(f, CAMPAIGN_ID), AmountAt(f, AMOUNT_MINOR), TextAt(f, CURRENCY),
                 AmountAt(f, SPENT_MINOR), StateAt(f, STATUS))
  }

  function CollectionOf(eventType: EventType): Collection {
    match eventType
    case NOTE_ADDED => NOTES
    case RECOMMENDATION_RECORDED => RECOMMENDATIONS
    case RISK_FLAGGED => RISK_FLAGS
    case DATA_ASKED => DOCUMENTS
    case REVIEW_ESCALATED => REVIEWS
    case LAUNCHED => LAUNCHES
    case COMMUNICATION_SENT => COMMUNICATIONS
    case BUDGET_ALLOCATED => ALLOCATIONS
  }

  /** Every event's `after` names its campaign; an allocation's entity is the allocation itself. */
  function CampaignOf(event: Event): string {
    TextAt(event.after, CAMPAIGN_ID)
  }

  /** The event's effect on its campaign. A data request's status is read from the event type,
      because the recorded `after` holds the document's status instead. */
  function Settled(campaign: Campaign, event: Event): Campaign {
    match event.eventType
    case DATA_ASKED => campaign.(status := DATA_REQUESTED)
    case REVIEW_ESCALATED => campaign.(status := StateAt(event.after, STATUS))
    case LAUNCHED => campaign.(status := StateAt(event.after, STATUS))
    case BUDGET_ALLOCATED => campaign.(status := StateAt(event.after, STATUS), spentMinor := AmountAt(event.after, SPENT_MINOR))
    case _ => campaign
  }

  function FoldEvent(s: State, event: Event): State {
    var i := CampaignIndex(s.campaigns, CampaignOf(event));
    var settled := if i < |s.campaigns| then s.WithCampaign(i, Settled(s.campaigns[i], event)) else s;
    settled.Append(CollectionOf(event.eventType), RecordFrom(event.eventType, event.after))
  }

  function FoldEvents(s: State, events: seq<Event>): State {
    if events == [] then s else FoldEvent(FoldEvents(s, events[..|events| - 1]), events[|events| - 1])
  }

  /** What a state says an event's `before` must be. */
  function Foregoing(s: State, event: Event): Option<Fields> {
    var i := CampaignIndex(s.campaigns, CampaignOf(event));
    if i == |s.campaigns| then None
    else match event.eventType
      case DATA_ASKED => Some(map[STATUS := CampaignState(s.campaigns[i].status)])
      case REVIEW_ESCALATED => Some(map[STATUS := CampaignState(s.campaigns[i].status)])
      case LAUNCHED => Some(map[STATUS := CampaignState(s.campaigns[i].status)])
      case BUDGET_ALLOCATED =>
        Some(map[SPENT_MINOR := Amount(s.campaigns[i].spentMinor), STATUS := CampaignState(s.campaigns[i].status)])
      case _ => None
  }

  predicate RecordKind(eventType: EventType, r: Record) {
    match eventType
    case NOTE_ADDED => r.Note?
    case RECOMMENDATION_RECORDED => r.Recommendation?
    case RISK_FLAGGED => r.RiskFlag?
    case DATA_ASKED => r.Asset?
    case REVIEW_ESCALATED => r.Review?
    case LAUNCHED => r.Launch?
    case COMMUNICATION_SENT => r.Communication?
    case BUDGET_ALLOCATED => r.Allocation?
  }

  /** A record survives being written as event fields and read back, and keeps its campaign. */
  lemma RecordRoundTrip(eventType: EventType, r: Record)
    requires RecordKind(eventType, r)
    ensures RecordFrom(eventType, RecordFields(r)) == r
    ensures TextAt(RecordFields(r), CAMPAIGN_ID) == r.campaignId
  {
  }

  /** A data request's campaign status is lost to its document's; an escalation's is kept. */
  lemma StatusOverwritten(status: CampaignStatus, r: Record)
    ensures r.Asset? ==> map[STATUS := CampaignState(status)] + RecordFields(r) == RecordFields(r)
    ensures r.Review? ==>
      var after := map[STATUS := CampaignState(status)] + RecordFields(r);
      StateAt(after, STATUS) == status && RecordFrom(REVIEW_ESCALATED, after) == r && TextAt(after, CAMPAIGN_ID) == r.campaignId
  {
  }

  function EventTypeOf(tool: Tool): EventType
    requires tool.Mutates()
  {
    match tool
    case AddCampaignNote(_, _, _, _) => NOTE_ADDED
    case RecordLaunchRecommendation(_, _, _, _, _, _) => RECOMMENDATION_RECORDED
    case FlagCampaignForReview(_, _, _, _, _) => RISK_FLAGGED
    case RequestSuppressionUpdate(_, _, _, _) => DATA_ASKED
    case EscalateComplianceReview(_, _, _, _) => REVIEW_ESCALATED
    case LaunchCampaign(_, _, _) => LAUNCHED
    case SendCampaignCommunication(_, _, _, _) => COMMUNICATION_SENT
    case AllocateCampaignBudget(_, _, _, _, _) => BUDGET_ALLOCATED
  }

  // ---------- Lawful events ----------

  /** What an event may do to the campaign it is about: its lifecycle and spending rules. */
  predicate LawfulFor(campaign: Campaign, segments: seq<Segment>, event: Event) {
    var settled := Settled(campaign, event);
    && (event.eventType == DATA_ASKED ==> campaign.status == DRAFT || campaign.status == UNDER_REVIEW)
    && (event.eventType == REVIEW_ESCALATED ==> Unlaunched(campaign.status) && settled.status == UNDER_REVIEW)
    && (event.eventType == LAUNCHED ==> Unlaunched(campaign.status) && settled.status == LIVE)
    && (event.eventType == COMMUNICATION_SENT ==> campaign.status == LIVE)
    && (event.eventType == BUDGET_ALLOCATED ==>
          var amount := AmountAt(event.after, AMOUNT_MINOR);
          && (Unlaunched(campaign.status) || campaign.status == LIVE)
          && FindSegment(segments, campaign.segmentId).Some?
          && 0 < amount <= Max(campaign.approvedMinor - campaign.spentMinor, campaign.proposedMinor)
          && settled.spentMinor == campaign.spentMinor + amount
          && settled.status == (if settled.spentMinor >= campaign.approvedMinor > 0 then COMPLETED else campaign.status))
  }

  predicate Lawful(s: State, event: Event) {
    var i := CampaignIndex(s.campaigns, CampaignOf(event));
    && i < |s.campaigns| && LawfulFor(s.campaigns[i], s.segments, event)
    && RecordFrom(event.eventType, event.after).campaignId == CampaignOf(event)
  }

  /** The event alone rebuilds the new state, its `before` is what the old state held, and it
      keeps the lifecycle and spending rules. */
  ghost predicate Tells(s: State, tool: Tool, applied: Result)
    requires tool.Mutates()
  {
    && applied.Accepted? && applied.event.Some?
    && CampaignOf(applied.event.value) == tool.campaignId
    && applied.event.value.eventType == EventTypeOf(tool)
    && applied.state == FoldEvent(s, applied.event.value)
    && applied.event.value.before == Foregoing(s, applied.event.value)
    && Lawful(s, applied.event.value)
  }

  lemma PlainTells(tool: Tool, mint: Mint, s: State)
    requires ScopeFirst(tool) && CampaignIndex(s.campaigns, tool.campaignId) < |s.campaigns|
    ensures Tells(s, tool, ApplyPlain(tool, mint, s))
  {
    var (collection, eventType, row) := PlainRow(tool, mint, s);
    RecordRoundTrip(eventType, row);
    var i := CampaignIndex(s.campaigns, tool.campaignId);
    assert s.WithCampaign(i, s.campaigns[i]) == s;
  }

  lemma RequestTells(tool: Tool, mint: Mint, s: State, i: nat)
    requires tool.RequestSuppressionUpdate? && i == CampaignIndex(s.campaigns, tool.campaignId) < |s.campaigns|
    requires ApplyRequest(tool, mint, s, i).Accepted?
    ensures Tells(s, tool, ApplyRequest(tool, mint, s, i))
  {
    var row := ApplyRequest(tool, mint, s, i).state.documents[|s.documents|];
    StatusOverwritten(DATA_REQUESTED, row);
    RecordRoundTrip(DATA_ASKED, row);
  }

  lemma EscalationTells(tool: Tool, mint: Mint, s: State, i: nat)
    requires tool.EscalateComplianceReview? && i == CampaignIndex(s.campaigns, tool.campaignId) < |s.campaigns|
    requires ApplyEscalation(tool, mint, s, i).Accepted?
    ensures Tells(s, tool, ApplyEscalation(tool, mint, s, i))
  {
    StatusOverwritten(UNDER_REVIEW, ApplyEscalation(tool, mint, s, i).state.reviews[|s.reviews|]);
  }

  lemma LaunchTells(tool: Tool, mint: Mint, s: State, i: nat)
    requires tool.LaunchCampaign? && i == CampaignIndex(s.campaigns, tool.campaignId) < |s.campaigns|
    requires ApplyLaunch(tool, mint, s, i).Accepted?
    ensures Tells(s, tool, ApplyLaunch(tool, mint, s, i))
  {
    RecordRoundTrip(LAUNCHED, ApplyLaunch(tool, mint, s, i).state.launches[|s.launches|]);
  }

  lemma SendTells(tool: Tool, mint: Mint, s: State, i: nat)
    requires tool.SendCampaignCommunication? && i == CampaignIndex(s.campaigns, tool.campaignId) < |s.campaigns|
    requires ApplySend(tool, mint, s, i).Accepted?
    ensures Tells(s, tool, ApplySend(tool, mint, s, i))
  {
    RecordRoundTrip(COMMUNICATION_SENT, ApplySend(tool, mint, s, i).state.communications[|s.communications|]);
    assert s.WithCampaign(i, s.campaigns[i]) == s;
  }

  lemma AllocationTells(tool: Tool, mint: Mint, s: State, i: nat)
    requires tool.AllocateCampaignBudget? && i == CampaignIndex(s.campaigns, tool.campaignId) < |s.campaigns|
    requires ApplyAllocation(tool, mint, s, i).Accepted?
    ensures Tells(s, tool, ApplyAllocation(tool, mint, s, i))
  {
    RecordRoundTrip(BUDGET_ALLOCATED, ApplyAllocation(tool, mint, s, i).state.allocations[|s.allocations|]);
  }

  /** An accepted mutation is told completely by its event; an accepted read changes nothing. */
  lemma EventTellsAll(auth: Authorization, tool: Tool, mint: Mint, s: State)
    requires Apply(auth, tool, mint, s).Accepted?
    ensures tool.Mutates() ==> Tells(s, tool, Apply(auth, tool, mint, s))
    ensures !tool.Mutates() ==> Apply(auth, tool, mint, s).event.None? && Apply(auth, tool, mint, s).state == s
  {
    if tool.Mutates() {
      var i := CampaignIndex(s.campaigns, tool.campaignId);
      match tool {
        case RequestSuppressionUpdate(_, _, _, _) => RequestTells(tool, mint, s, i);
        case EscalateComplianceReview(_, _, _, _) => EscalationTells(tool, mint, s, i);
        case LaunchCampaign(_, _, _) => LaunchTells(tool, mint, s, i);
        case SendCampaignCommunication(_, _, _, _) => SendTells(tool, mint, s, i);
        case AllocateCampaignBudget(_, _, _, _, _) => AllocationTells(tool, mint, s, i);
        case _ => PlainTells(tool, mint, s);
      }
    }
  }

  /** An event that an entitled call committed on a state: its `before` is what the state held. */
  ghost predicate Fits(past: State, event: Event, tool: Tool, auth: Authorization) {
    && tool.Mutates()
    && event.eventType == EventTypeOf(tool) && CampaignOf(event) == tool.campaignId
    && event.before == Foregoing(past, event)
    && Lawful(past, event)
    && MayMutate(auth, past.campaigns[CampaignIndex(past.campaigns, CampaignOf(event))].advertiserId)
    && Scope(tool) in auth.scopes
  }

  lemma Entitled(auth: Authorization, tool: Tool, mint: Mint, s: State)
    requires tool.Mutates() && Apply(auth, tool, mint, s).Accepted?
    ensures var i := CampaignIndex(s.campaigns, tool.campaignId);
      i < |s.campaigns| && MayMutate(auth, s.campaigns[i].advertiserId) && Scope(tool) in auth.scopes
  {
  }

  lemma AppliedFits(auth: Authorization, tool: Tool, mint: Mint, s: State)
    requires Apply(auth, tool, mint, s).Accepted? && tool.Mutates()
    ensures var applied := Apply(auth, tool, mint, s);
      applied.event.Some? && Fits(s, applied.event.value, tool, auth) && applied.state == FoldEvent(s, applied.event.value)
  {
    EventTellsAll(auth, tool, mint, s);
    Entitled(auth, tool, mint, s);
  }

  // ---------- Event sourcing ----------

  lemma LastCommit(env: Env, start: State, log: Log)
    requires log != [] && Faithful(MarketingDomain(), env, start, log)
    ensures var n := |log| - 1; var past := Replay(MarketingDomain(), env, start, log[..n]);
      && Faithful(MarketingDomain(), env, start, log[..n])
      && Fits(past, log[n].event, log[n].data, log[n].call.auth)
      && Replay(MarketingDomain(), env, start, log) == FoldEvent(past, log[n].event)
  {
    var n := |log| - 1;
    var past := Replay(MarketingDomain(), env, start, log[..n]);
    AppliedFits(log[n].call.auth, log[n].data, MintAt(env, log[n].clock), past);
  }

  /** Every event is lawful on the fold of the events before it. */
  predicate LawfulHistory(start: State, events: seq<Event>) {
    events == [] ||
    (LawfulHistory(start, events[..|events| - 1]) && Lawful(FoldEvents(start, events[..|events| - 1]), events[|events| - 1]))
  }

  /** Folding the event log over the initial state rebuilds the current state exactly. */
  lemma {:induction false} LogRebuilds(env: Env, start: State, log: Log)
    requires Faithful(MarketingDomain(), env, start, log)
    ensures Replay(MarketingDomain(), env, start, log) == FoldEvents(start, Events(log))
    ensures LawfulHistory(start, Events(log))
  {
    if log != [] {
      var n := |log| - 1;
      LastCommit(env, start, log);
      LogRebuilds(env, start, log[..n]);
      assert Events(log)[..n] == Events(log[..n]);
    }
  }

  /** The i-th commit fits the replay of the commits before it. */
  lemma CommitAt(env: Env, start: State, log: Log, i: nat)
    requires Faithful(MarketingDomain(), env, start, log) && i < |log|
    ensures Fits(Replay(MarketingDomain(), env, start, log[..i]), log[i].event, log[i].data, log[i].call.auth)
  {
    FaithfulPrefix(MarketingDomain(), env, start, log, i + 1);
    var prefix := log[..i + 1];
    assert prefix[..|prefix| - 1] == log[..i] && prefix[|prefix| - 1] == log[i];
    LastCommit(env, start, prefix);
  }

  /** Each event's `before` is what folding the earlier events gives, and its call was entitled. */
  lemma EventFits(env: Env, start: State, log: Log, i: nat)
    requires Faithful(MarketingDomain(), env, start, log) && i < |log|
    ensures Fits(FoldEvents(start, Events(log)[..i]), Events(log)[i], log[i].data, log[i].call.auth)
  {
    CommitAt(env, start, log, i);
    FaithfulPrefix(MarketingDomain(), env, start, log, i);
    LogRebuilds(env, start, log[..i]);
    EventsPrefix(log, i);
  }

  /** The database after any run from an initial state. */
  function Reached(env: Env, start: State, seed: int, steps: seq<Step<Tool>>): Db<State, Tool, Answer, Event> {
    Run(MarketingDomain(), env, Initial(start, seed), steps)
  }

  /** Over every run the event rows are a lawful history whose fold is the stored state, and
      each row's `before` is what the fold of the earlier rows holds. */
  lemma EventSourcing(env: Env, start: State, seed: int, steps: seq<Step<Tool>>)
    ensures var end := Reached(env, start, seed, steps);
      && LawfulHistory(start, RowEvents(end.events))
      && end.state == FoldEvents(start, RowEvents(end.events))
      && forall i :: 0 <= i < |end.events| ==>
           RowEvents(end.events)[i].before == Foregoing(FoldEvents(start, RowEvents(end.events)[..i]), RowEvents(end.events)[i])
  {
    var db: Db<State, Tool, Answer, Event> := Initial(start, seed);
    RunRecords(MarketingDomain(), env, db, steps);
    var log := Commits(MarketingDomain(), env, db, steps);
    RowEventsAreEvents(MarketingDomain(), env, log);
    LogRebuilds(env, start, log);
    forall i | 0 <= i < |log|
      ensures Events(log)[i].before == Foregoing(FoldEvents(start, Events(log)[..i]), Events(log)[i])
    {
      EventFits(env, start, log, i);
    }
  }

  /** Each event row stems from a submitted call that held the tool's scope and owned the campaign. */
  lemma RowOrigin(env: Env, start: State, seed: int, steps: seq<Step<Tool>>, j: nat) returns (call: Call<Tool>, tool: Tool)
    requires j < |Reached(env, start, seed, steps).events|
    ensures Submit(call) in steps && call.request == Valid(tool)
    ensures var events := RowEvents(Reached(env, start, seed, steps).events);
      Fits(FoldEvents(start, events[..j]), events[j], tool, call.auth)
  {
    var db: Db<State, Tool, Answer, Event> := Initial(start, seed);
    var dom := MarketingDomain();
    var log := Commits(dom, env, db, steps);
    RunRecords(dom, env, db, steps);
    RowEventsAreEvents(dom, env, log);
    EventFits(env, start, log, j);
    CommitsAreSubmitted(dom, env, db, steps, j);
    call, tool := log[j].call, log[j].data;
  }
}
