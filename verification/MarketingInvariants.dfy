/** Spending, lifecycle and authority of Marketing campaigns over every history and every run. */
module MarketingInvariants {
  import opened Wrappers
  import opened World
  import opened WorldRuns
  import opened Histories
  import opened Marketing
  import opened MarketingSeeds
  import opened MarketingRuns

  // ---------- What no event touches ----------

  /** Campaigns keep their number, order and every field but status and spent. */
  predicate SameButSettled(a: seq<Campaign>, b: seq<Campaign>) {
    |a| == |b| && forall i :: 0 <= i < |a| ==> b[i] == a[i].(status := b[i].status, spentMinor := b[i].spentMinor)
  }

  lemma AppendKeeps(s: State, c: Collection, r: Record)
    ensures var s' := s.Append(c, r);
      && s'.campaigns == s.campaigns && s'.advertisers == s.advertisers && s'.segments == s.segments && s'.briefs == s.briefs
      && forall other :: s'.Rows(other) == if other == c then s.Rows(c) + [r] else s.Rows(other)
  {
  }

  /** The parts of a folded state, one at a time. */
  lemma FoldParts(s: State, event: Event)
    ensures var s', i := FoldEvent(s, event), CampaignIndex(s.campaigns, CampaignOf(event));
      && s'.campaigns == (if i < |s.campaigns| then s.campaigns[i := Settled(s.campaigns[i], event)] else s.campaigns)
      && s'.advertisers == s.advertisers && s'.segments == s.segments && s'.briefs == s.briefs
      && forall c :: s'.Rows(c) ==
           if CollectionOf(event.eventType) == c then s.Rows(c) + [RecordFrom(event.eventType, event.after)] else s.Rows(c)
  {
    var i := CampaignIndex(s.campaigns, CampaignOf(event));
    var settled := if i < |s.campaigns| then s.WithCampaign(i, Settled(s.campaigns[i], event)) else s;
    AppendKeeps(settled, CollectionOf(event.eventType), RecordFrom(event.eventType, event.after));
  }

  lemma SettledKeeps(campaign: Campaign, event: Event)
    ensures var settled := Settled(campaign, event);
      settled == campaign.(status := settled.status, spentMinor := settled.spentMinor)
  {
  }

  lemma FrameStep(s: State, event: Event)
    ensures var s' := FoldEvent(s, event);
      && SameButSettled(s.campaigns, s'.campaigns)
      && s'.advertisers == s.advertisers && s'.segments == s.segments && s'.briefs == s.briefs
  {
    FoldParts(s, event);
    var i := CampaignIndex(s.campaigns, CampaignOf(event));
    if i < |s.campaigns| {
      SettledKeeps(s.campaigns[i], event);
    }
  }

  /** In particular no approved budget ever changes. */
  lemma {:induction false} FrameKept(start: State, events: seq<Event>)
    ensures var s := FoldEvents(start, events);
      && SameButSettled(start.campaigns, s.campaigns)
      && s.advertisers == start.advertisers && s.segments == start.segments && s.briefs == start.briefs
  {
    if events != [] {
      FrameKept(start, events[..|events| - 1]);
      FrameStep(FoldEvents(start, events[..|events| - 1]), events[|events| - 1]);
    }
  }

  predicate DistinctCampaigns(s: State) {
    forall i, j :: 0 <= i < j < |s.campaigns| ==> s.campaigns[i].id != s.campaigns[j].id
  }

  lemma DistinctKept(start: State, events: seq<Event>)
    requires DistinctCampaigns(start)
    ensures DistinctCampaigns(FoldEvents(start, events))
  {
    FrameKept(start, events);
    var s := FoldEvents(start, events);
    forall i, j | 0 <= i < j < |s.campaigns| ensures s.campaigns[i].id != s.campaigns[j].id {
      assert s.campaigns[i].id == start.campaigns[i].id && s.campaigns[j].id == start.campaigns[j].id;
    }
  }

  lemma SameIndex(a: seq<Campaign>, b: seq<Campaign>, id: string)
    requires SameButSettled(a, b)
    ensures CampaignIndex(a, id) == CampaignIndex(b, id)
  {
    var i, j := CampaignIndex(a, id), CampaignIndex(b, id);
    assert i < |a| ==> b[i].id == id;
    assert j < |b| ==> a[j].id == id;
  }

  /** What one lawful event does to the i-th campaign. */
  lemma CampaignStep(s: State, event: Event, i: nat)
    requires DistinctCampaigns(s) && Lawful(s, event) && i < |s.campaigns|
    ensures |FoldEvent(s, event).campaigns| == |s.campaigns|
    ensures CampaignOf(event) != s.campaigns[i].id ==> FoldEvent(s, event).campaigns[i] == s.campaigns[i]
    ensures CampaignOf(event) == s.campaigns[i].id ==>
      LawfulFor(s.campaigns[i], s.segments, event) && FoldEvent(s, event).campaigns[i] == Settled(s.campaigns[i], event)
  {
  }

  // ---------- Spending ----------

  function Allocated(allocations: seq<Record>, campaignId: string): int {
    if allocations == [] then 0
    else
      var last := allocations[|allocations| - 1];
      Allocated(allocations[..|allocations| - 1], campaignId)
      + (if last.Allocation? && last.campaignId == campaignId then last.amountMinor else 0)
  }

  /** Money spent on one campaign against its approved and proposed budgets. */
  predicate Bounded(c: Campaign, allocations: seq<Record>) {
    && 0 <= c.spentMinor == Allocated(allocations, c.id)
    && (c.approvedMinor > 0 && c.status != COMPLETED && c.status != REJECTED ==> c.spentMinor < c.approvedMinor)
    && (c.approvedMinor > 0 ==> c.spentMinor < c.approvedMinor + Max(c.approvedMinor, c.proposedMinor))
  }

  predicate Thrifty(s: State) {
    DistinctCampaigns(s) && forall i :: 0 <= i < |s.campaigns| ==> Bounded(s.campaigns[i], s.allocations)
  }

  lemma FoldAllocations(s: State, event: Event, campaignId: string)
    requires Lawful(s, event)
    ensures Allocated(FoldEvent(s, event).allocations, campaignId) == Allocated(s.allocations, campaignId)
      + (if event.eventType == BUDGET_ALLOCATED && CampaignOf(event) == campaignId then AmountAt(event.after, AMOUNT_MINOR) else 0)
  {
    if event.eventType == BUDGET_ALLOCATED {
      var row := RecordFrom(BUDGET_ALLOCATED, event.after);
      assert FoldEvent(s, event).allocations == s.allocations + [row];
      assert (s.allocations + [row])[..|s.allocations|] == s.allocations;
    } else {
      assert FoldEvent(s, event).allocations == s.allocations;
    }
  }

  /** One event moves a campaign's spending by exactly the record it appends, within the bound. */
  lemma BoundedStep(c: Campaign, segments: seq<Segment>, event: Event, before: seq<Record>, after: seq<Record>)
    requires Bounded(c, before) && LawfulFor(c, segments, event)
    requires Allocated(after, c.id) == Allocated(before, c.id) + (if event.eventType == BUDGET_ALLOCATED then AmountAt(event.after, AMOUNT_MINOR) else 0)
    ensures Bounded(Settled(c, event), after)
  {
  }

  lemma ThriftyStep(s: State, event: Event)
    requires Thrifty(s) && Lawful(s, event)
    ensures Thrifty(FoldEvent(s, event))
  {
    var s' := FoldEvent(s, event);
    FrameStep(s, event);
    forall i | 0 <= i < |s'.campaigns| ensures Bounded(s'.campaigns[i], s'.allocations) {
      FoldAllocations(s, event, s.campaigns[i].id);
      CampaignStep(s, event, i);
      if CampaignOf(event) == s.campaigns[i].id {
        BoundedStep(s.campaigns[i], s.segments, event, s.allocations, s'.allocations);
      }
    }
    forall i, j | 0 <= i < j < |s'.campaigns| ensures s'.campaigns[i].id != s'.campaigns[j].id {
      assert s'.campaigns[i].id == s.campaigns[i].id && s'.campaigns[j].id == s.campaigns[j].id;
    }
  }

  lemma {:induction false} ThriftyAlways(start: State, events: seq<Event>)
    requires Thrifty(start) && LawfulHistory(start, events)
    ensures Thrifty(FoldEvents(start, events))
  {
    if events != [] {
      ThriftyAlways(start, events[..|events| - 1]);
      ThriftyStep(FoldEvents(start, events[..|events| - 1]), events[|events| - 1]);
    }
  }

  lemma SeedsThrifty(seed: int, name: Namer)
    ensures Thrifty(BuildState(seed, name))
  {
    var s := BuildState(seed, name);
    assert "cmp_100"[6] != "cmp_101"[6];
    assert s.allocations == [];
  }

  /** In every reachable state spent is the sum of the campaign's allocations, a campaign with an
      approved budget that is still open has spent less than it, and so no campaign with an
      approved budget passes it by the larger of approved and proposed. Approved never moves. */
  lemma SpendInvariant(env: Env, start: State, seed: int, steps: seq<Step<Tool>>, i: nat)
    requires Thrifty(start) && i < |start.campaigns|
    ensures var s := Reached(env, start, seed, steps).state;
      && |s.campaigns| == |start.campaigns| && s.campaigns[i].id == start.campaigns[i].id
      && s.campaigns[i].approvedMinor == start.campaigns[i].approvedMinor
      && Bounded(s.campaigns[i], s.allocations)
  {
    EventSourcing(env, start, seed, steps);
    var events := RowEvents(Reached(env, start, seed, steps).events);
    ThriftyAlways(start, events);
    FrameKept(start, events);
  }

  // ---------- Seeds ----------

  /** The related campaign's segment exists exactly in the shared-segment band. */
  lemma RelatedSegmentExists(seed: int, name: Namer)
    ensures var s := BuildState(seed, name);
      && CampaignIndex(s.campaigns, "cmp_101") == 1
      && (FindSegment(s.segments, s.campaigns[1].segmentId).Some? <==> 1100 <= seed < 1200)
  {
    var s := BuildState(seed, name);
    assert "cmp_100"[6] != "cmp_101"[6];
    assert s.campaigns[1..][0] == s.campaigns[1];
    assert |"seg_paid_social"| != |"seg_paid_social_prior"|;
  }

  lemma {:induction false} UnfundedHistory(start: State, events: seq<Event>, i: nat)
    requires LawfulHistory(start, events) && DistinctCampaigns(start) && i < |start.campaigns|
    requires FindSegment(start.segments, start.campaigns[i].segmentId).None?
    ensures |FoldEvents(start, events).campaigns| == |start.campaigns|
    ensures FoldEvents(start, events).campaigns[i].spentMinor == start.campaigns[i].spentMinor
  {
    if events != [] {
      var past := events[..|events| - 1];
      UnfundedHistory(start, past, i);
      DistinctKept(start, past);
      FrameKept(start, past);
      CampaignStep(FoldEvents(start, past), events[|events| - 1], i);
    }
  }

  /** From any seed outside that band no run ever spends anything on the related campaign. */
  lemma RelatedNeverFunded(env: Env, seed: int, name: Namer, steps: seq<Step<Tool>>)
    requires !(1100 <= seed < 1200)
    ensures var s := Reached(env, BuildState(seed, name), seed, steps).state;
      |s.campaigns| == 2 && s.campaigns[1].spentMinor == 0
  {
    var start := BuildState(seed, name);
    EventSourcing(env, start, seed, steps);
    SeedsThrifty(seed, name);
    RelatedSegmentExists(seed, name);
    UnfundedHistory(start, RowEvents(Reached(env, start, seed, steps).events), 1);
  }

  predicate Exposable(s: State, id: string) {
    var i := CampaignIndex(s.campaigns, id);
    && i < |s.campaigns| && FindSegment(s.segments, s.campaigns[i].segmentId).Some?
    && FindAdvertiser(s.advertisers, s.campaigns[i].advertiserId).Some?
  }

  function ExposureOf(s: State, id: string): Exposure
    requires Exposable(s, id)
  {
    var c := s.campaigns[CampaignIndex(s.campaigns, id)];
    Expose(c, FindSegment(s.segments, c.segmentId).value, FindAdvertiser(s.advertisers, c.advertiserId).value)
  }

  /** Over all integer seeds the primary campaign is eligible exactly outside six bands. */
  lemma SeedEligibility(seed: int, name: Namer)
    ensures Exposable(BuildState(seed, name), "cmp_100")
    ensures ExposureOf(BuildState(seed, name), "cmp_100").eligible <==>
      !(100 <= seed < 400 || 900 <= seed < 1100 || 1200 <= seed < 1300)
  {
    var s := BuildState(seed, name);
    assert CampaignIndex(s.campaigns, "cmp_100") == 0;
    assert FindSegment(s.segments, "seg_paid_social") == Some(s.segments[0]);
    assert FindAdvertiser(s.advertisers, "adv_500") == Some(s.advertisers[0]);
    assert |"display"| != |"paid_social"|;
  }

  lemma ExposeIgnoresSettlement(c: Campaign, status: CampaignStatus, spent: int, segment: Segment, advertiser: Advertiser)
    ensures Expose(c.(status := status, spentMinor := spent), segment, advertiser) == Expose(c, segment, advertiser)
  {
  }

  /** No event moves an exposure: it depends on nothing a run can change, not even money spent. */
  lemma ExposureIsStable(start: State, events: seq<Event>, id: string)
    requires Exposable(start, id)
    ensures Exposable(FoldEvents(start, events), id)
    ensures ExposureOf(FoldEvents(start, events), id) == ExposureOf(start, id)
  {
    FrameKept(start, events);
    var s := FoldEvents(start, events);
    SameIndex(start.campaigns, s.campaigns, id);
    var a, b := start.campaigns[CampaignIndex(start.campaigns, id)], s.campaigns[CampaignIndex(start.campaigns, id)];
    assert b == a.(status := b.status, spentMinor := b.spentMinor);
    ExposeIgnoresSettlement(a, b.status, b.spentMinor, FindSegment(start.segments, a.segmentId).value,
                            FindAdvertiser(start.advertisers, a.advertiserId).value);
  }

  // ---------- Lifecycle ----------

  function LaunchesOn(events: seq<Event>, campaignId: string): nat {
    if events == [] then 0
    else
      var last := events[|events| - 1];
      LaunchesOn(events[..|events| - 1], campaignId) + (if last.eventType == LAUNCHED && CampaignOf(last) == campaignId then 1 else 0)
  }

  /** How far one campaign has come since the start, as its status and the log agree on it. */
  predicate Progressed(from: Campaign, now: Campaign, launches: nat) {
    && launches <= 1
    && (Unlaunched(now.status) ==> launches == 0)
    && (!Unlaunched(from.status) ==> launches == 0 && !Unlaunched(now.status))
    && (now.status == LIVE ==> from.status == LIVE || launches == 1)
  }

  lemma ProgressStep(from: Campaign, now: Campaign, segments: seq<Segment>, event: Event, launches: nat)
    requires Progressed(from, now, launches) && LawfulFor(now, segments, event)
    ensures Progressed(from, Settled(now, event), launches + (if event.eventType == LAUNCHED then 1 else 0))
  {
  }

  lemma {:induction false} LifecycleKept(start: State, events: seq<Event>, i: nat)
    requires DistinctCampaigns(start) && LawfulHistory(start, events) && i < |start.campaigns|
    ensures |FoldEvents(start, events).campaigns| == |start.campaigns|
    ensures FoldEvents(start, events).campaigns[i].id == start.campaigns[i].id
    ensures Progressed(start.campaigns[i], FoldEvents(start, events).campaigns[i], LaunchesOn(events, start.campaigns[i].id))
  {
    if events != [] {
      var past, event := events[..|events| - 1], events[|events| - 1];
      LifecycleKept(start, past, i);
      DistinctKept(start, past);
      var s := FoldEvents(start, past);
      CampaignStep(s, event, i);
      if CampaignOf(event) == s.campaigns[i].id {
        ProgressStep(start.campaigns[i], s.campaigns[i], s.segments, event, LaunchesOn(past, s.campaigns[i].id));
      }
    }
  }

  /** Over every run each campaign is launched at most once, and never if seeded past launch. */
  lemma LaunchedAtMostOnce(env: Env, start: State, seed: int, steps: seq<Step<Tool>>, i: nat)
    requires Thrifty(start) && i < |start.campaigns|
    ensures LaunchesOn(RowEvents(Reached(env, start, seed, steps).events), start.campaigns[i].id)
      <= (if Unlaunched(start.campaigns[i].status) then 1 else 0)
  {
    EventSourcing(env, start, seed, steps);
    LifecycleKept(start, RowEvents(Reached(env, start, seed, steps).events), i);
  }

  lemma {:induction false} HistoryPrefix(start: State, events: seq<Event>, j: nat)
    requires LawfulHistory(start, events) && j <= |events|
    ensures LawfulHistory(start, events[..j])
  {
    if j < |events| {
      HistoryPrefix(start, events[..|events| - 1], j);
      assert events[..|events| - 1][..j] == events[..j];
    } else {
      assert events[..j] == events;
    }
  }

  lemma EventLawful(start: State, events: seq<Event>, j: nat)
    requires LawfulHistory(start, events) && j < |events|
    ensures LawfulHistory(start, events[..j]) && Lawful(FoldEvents(start, events[..j]), events[j])
  {
    HistoryPrefix(start, events, j + 1);
    assert events[..j + 1][..j] == events[..j];
  }

  /** Every communication follows a launch of its campaign, unless seeded live. */
  lemma CommunicationsFollowLaunch(env: Env, start: State, seed: int, steps: seq<Step<Tool>>, j: nat) returns (i: nat)
    requires Thrifty(start) && j < |Reached(env, start, seed, steps).events|
    requires RowEvents(Reached(env, start, seed, steps).events)[j].eventType == COMMUNICATION_SENT
    ensures var events := RowEvents(Reached(env, start, seed, steps).events);
      && i < |start.campaigns| && start.campaigns[i].id == CampaignOf(events[j])
      && (start.campaigns[i].status == LIVE || LaunchesOn(events[..j], start.campaigns[i].id) == 1)
  {
    var events := RowEvents(Reached(env, start, seed, steps).events);
    EventSourcing(env, start, seed, steps);
    EventLawful(start, events, j);
    FrameKept(start, events[..j]);
    i := CampaignIndex(FoldEvents(start, events[..j]).campaigns, CampaignOf(events[j]));
    LifecycleKept(start, events[..j], i);
  }

  lemma {:induction false} FinishedAbsorbs(start: State, events: seq<Event>, late: seq<Event>, i: nat)
    requires DistinctCampaigns(start) && LawfulHistory(start, late) && events <= late
    requires i < |FoldEvents(start, events).campaigns| && FoldEvents(start, events).campaigns[i].status in {COMPLETED, REJECTED}
    ensures |FoldEvents(start, late).campaigns| == |FoldEvents(start, events).campaigns|
    ensures FoldEvents(start, late).campaigns[i] == FoldEvents(start, events).campaigns[i]
  {
    if |events| < |late| {
      var past := late[..|late| - 1];
      FinishedAbsorbs(start, events, past, i);
      DistinctKept(start, past);
      CampaignStep(FoldEvents(start, past), late[|late| - 1], i);
    } else {
      assert events == late;
    }
  }

  /** COMPLETED and REJECTED absorb: from then on, whatever is submitted, the campaign stays the same. */
  lemma FinishedCampaignsStay(env: Env, start: State, seed: int, steps: seq<Step<Tool>>, more: seq<Step<Tool>>, i: nat)
    requires Thrifty(start) && i < |Reached(env, start, seed, steps).state.campaigns|
    requires Reached(env, start, seed, steps).state.campaigns[i].status in {COMPLETED, REJECTED}
    ensures i < |Reached(env, start, seed, steps + more).state.campaigns|
    ensures Reached(env, start, seed, steps + more).state.campaigns[i] == Reached(env, start, seed, steps).state.campaigns[i]
  {
    EventSourcing(env, start, seed, steps);
    EventSourcing(env, start, seed, steps + more);
    HistoryGrows(MarketingDomain(), env, start, seed, steps, more);
    var early, late := RowEvents(Reached(env, start, seed, steps).events), RowEvents(Reached(env, start, seed, steps + more).events);
    FinishedAbsorbs(start, early, late, i);
  }

  // ---------- Authority ----------

  lemma ScopelessType(env: Env, start: State, seed: int, steps: seq<Step<Tool>>, j: nat)
    requires j < |Reached(env, start, seed, steps).events|
    ensures var event := RowEvents(Reached(env, start, seed, steps).events)[j];
      && (AllCalls(steps, Without("campaign:launch")) ==> event.eventType != LAUNCHED)
      && (AllCalls(steps, Without("campaign:send")) ==> event.eventType != COMMUNICATION_SENT)
      && (AllCalls(steps, Without("campaign:budget-commit")) ==> event.eventType != BUDGET_ALLOCATED)
  {
    var call, tool := RowOrigin(env, start, seed, steps, j);
    assert Submit(call).call.auth == call.auth;
  }

  predicate NoneOf(events: seq<Event>, eventType: EventType) {
    forall j :: 0 <= j < |events| ==> events[j].eventType != eventType
  }

  predicate NothingLaunched(a: State, b: State, i: nat)
    requires i < |a.campaigns| == |b.campaigns|
  {
    b.launches == a.launches && (b.campaigns[i].status == LIVE ==> a.campaigns[i].status == LIVE)
  }

  predicate NothingSpent(a: State, b: State, i: nat)
    requires i < |a.campaigns| == |b.campaigns|
  {
    b.allocations == a.allocations && b.campaigns[i].spentMinor == a.campaigns[i].spentMinor
  }

  lemma QuietStep(s: State, event: Event, i: nat)
    requires DistinctCampaigns(s) && Lawful(s, event) && i < |s.campaigns|
    ensures var s' := FoldEvent(s, event);
      && |s'.campaigns| == |s.campaigns|
      && (event.eventType != LAUNCHED ==> NothingLaunched(s, s', i))
      && (event.eventType != COMMUNICATION_SENT ==> s'.communications == s.communications)
      && (event.eventType != BUDGET_ALLOCATED ==> NothingSpent(s, s', i))
  {
    CampaignStep(s, event, i);
  }

  lemma {:induction false} QuietHistory(start: State, events: seq<Event>, i: nat)
    requires LawfulHistory(start, events) && DistinctCampaigns(start) && i < |start.campaigns|
    ensures var s := FoldEvents(start, events);
      && |s.campaigns| == |start.campaigns|
      && (NoneOf(events, LAUNCHED) ==> NothingLaunched(start, s, i))
      && (NoneOf(events, COMMUNICATION_SENT) ==> s.communications == start.communications)
      && (NoneOf(events, BUDGET_ALLOCATED) ==> NothingSpent(start, s, i))
  {
    if events != [] {
      var past, event := events[..|events| - 1], events[|events| - 1];
      QuietHistory(start, past, i);
      DistinctKept(start, past);
      QuietStep(FoldEvents(start, past), event, i);
      NoneOfPast(events, LAUNCHED);
      NoneOfPast(events, COMMUNICATION_SENT);
      NoneOfPast(events, BUDGET_ALLOCATED);
    }
  }

  lemma NoneOfPast(events: seq<Event>, eventType: EventType)
    requires events != []
    ensures NoneOf(events, eventType) ==> NoneOf(events[..|events| - 1], eventType) && events[|events| - 1].eventType != eventType
  {
  }

  /** Without the matching scope in any call nothing is launched, sent or spent, replays included. */
  lemma ActionsNeedAuthority(env: Env, start: State, seed: int, steps: seq<Step<Tool>>, i: nat)
    requires Thrifty(start) && i < |start.campaigns|
    ensures var s := Reached(env, start, seed, steps).state;
      && |s.campaigns| == |start.campaigns|
      && (AllCalls(steps, Without("campaign:launch")) ==> NothingLaunched(start, s, i))
      && (AllCalls(steps, Without("campaign:send")) ==> s.communications == start.communications)
      && (AllCalls(steps, Without("campaign:budget-commit")) ==> NothingSpent(start, s, i))
  {
    EventSourcing(env, start, seed, steps);
    var events := RowEvents(Reached(env, start, seed, steps).events);
    QuietHistory(start, events, i);
    forall j | 0 <= j < |events|
      ensures AllCalls(steps, Without("campaign:launch")) ==> events[j].eventType != LAUNCHED
      ensures AllCalls(steps, Without("campaign:send")) ==> events[j].eventType != COMMUNICATION_SENT
      ensures AllCalls(steps, Without("campaign:budget-commit")) ==> events[j].eventType != BUDGET_ALLOCATED
    {
      ScopelessType(env, start, seed, steps, j);
    }
  }

  predicate OwnedBy(start: State, campaignId: string, advertiserId: string) {
    var k := CampaignIndex(start.campaigns, campaignId);
    k < |start.campaigns| ==> start.campaigns[k].advertiserId == advertiserId
  }

  /** Every event is about a campaign of one advertiser. */
  predicate AboutAdvertiser(start: State, events: seq<Event>, advertiserId: string) {
    forall j :: 0 <= j < |events| ==> OwnedBy(start, CampaignOf(events[j]), advertiserId)
  }

  /** An event about another campaign leaves this campaign's attached records alone. */
  lemma OthersUntouched(s: State, event: Event, i: nat, c: Collection)
    requires DistinctCampaigns(s) && Lawful(s, event) && i < |s.campaigns| && CampaignOf(event) != s.campaigns[i].id
    ensures Attached(FoldEvent(s, event).Rows(c), s.campaigns[i].id) == Attached(s.Rows(c), s.campaigns[i].id)
  {
    if CollectionOf(event.eventType) == c {
      var row := RecordFrom(event.eventType, event.after);
      assert FoldEvent(s, event).Rows(c) == s.Rows(c) + [row];
      assert (s.Rows(c) + [row])[..|s.Rows(c)|] == s.Rows(c);
    } else {
      assert FoldEvent(s, event).Rows(c) == s.Rows(c);
    }
  }

  lemma {:induction false} AdvertiserHistory(start: State, events: seq<Event>, advertiserId: string, i: nat, c: Collection)
    requires LawfulHistory(start, events) && DistinctCampaigns(start) && i < |start.campaigns|
    requires start.campaigns[i].advertiserId != advertiserId && AboutAdvertiser(start, events, advertiserId)
    ensures var s := FoldEvents(start, events);
      && |s.campaigns| == |start.campaigns| && s.campaigns[i] == start.campaigns[i]
      && Attached(s.Rows(c), start.campaigns[i].id) == Attached(start.Rows(c), start.campaigns[i].id)
  {
    if events != [] {
      var past, event := events[..|events| - 1], events[|events| - 1];
      assert forall j :: 0 <= j < |past| ==> past[j] == events[j];
      AdvertiserHistory(start, past, advertiserId, i, c);
      DistinctKept(start, past);
      FrameKept(start, past);
      var s := FoldEvents(start, past);
      SameIndex(start.campaigns, s.campaigns, CampaignOf(event));
      CampaignStep(s, event, i);
      OthersUntouched(s, event, i, c);
    }
  }

  lemma AdvertiserEvent(env: Env, start: State, seed: int, steps: seq<Step<Tool>>, advertiserId: string, j: nat)
    requires AllCalls(steps, OnBehalfOf(advertiserId)) && j < |Reached(env, start, seed, steps).events|
    ensures OwnedBy(start, CampaignOf(RowEvents(Reached(env, start, seed, steps).events)[j]), advertiserId)
  {
    var events := RowEvents(Reached(env, start, seed, steps).events);
    var call, tool := RowOrigin(env, start, seed, steps, j);
    assert Submit(call).call.auth == call.auth;
    FrameKept(start, events[..j]);
    SameIndex(start.campaigns, FoldEvents(start, events[..j]).campaigns, CampaignOf(events[j]));
  }

  /** A run whose calls all carry one advertiser leaves every other advertiser's campaigns, and
      every record attached to them, exactly as they started. */
  lemma AdvertisersAreIsolated(env: Env, start: State, seed: int, steps: seq<Step<Tool>>, advertiserId: string, i: nat, c: Collection)
    requires Thrifty(start) && i < |start.campaigns| && start.campaigns[i].advertiserId != advertiserId
    requires AllCalls(steps, OnBehalfOf(advertiserId))
    ensures var s := Reached(env, start, seed, steps).state;
      && |s.campaigns| == |start.campaigns| && s.campaigns[i] == start.campaigns[i]
      && Attached(s.Rows(c), start.campaigns[i].id) == Attached(start.Rows(c), start.campaigns[i].id)
  {
    EventSourcing(env, start, seed, steps);
    var events := RowEvents(Reached(env, start, seed, steps).events);
    forall j | 0 <= j < |events| ensures OwnedBy(start, CampaignOf(events[j]), advertiserId) {
      AdvertiserEvent(env, start, seed, steps, advertiserId, j);
    }
    AdvertiserHistory(start, events, advertiserId, i, c);
  }
}
