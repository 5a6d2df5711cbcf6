/** The snapshot diff of a Marketing run agrees with its event log. */
module MarketingDiff {
  import opened Wrappers
  import opened World
  import opened Histories
  import opened Marketing
  import opened MarketingRuns
  import opened MarketingInvariants
  import G = Grading

  // ---------- Snapshots as the diff sees them ----------

  /** The lists of a state: four seeded ones and the append-only collections. */
  datatype Kind = ADVERTISERS | SEGMENTS | CAMPAIGNS | BRIEFS | RECORDS(collection: Collection)

  datatype CampaignField =
    | F_ID | F_ADVERTISER_ID | F_SEGMENT_ID | F_STATUS | F_PROPOSED | F_APPROVED | F_SPENT | F_CURRENCY | F_SUBMITTED_AT
    | F_CAMPAIGN_TYPE | F_FLIGHT_START | F_BRIEF_SUBMITTED_AT | F_TARGET_MARKET | F_OBJECTIVE | F_CLAIMED | F_ANALYST | F_RELATED

  /** A seeded row that no event can reach is one field here: its whole contents. */
  datatype Field = OfCampaign(f: CampaignField) | OfRecord(k: Key) | CONTENTS

  datatype Value =
    | Missing | Str(s: string) | OptStr(o: Option<string>) | Num(n: int) | OptNum(m: Option<int>) | Names(names: seq<string>)
    | StatusValue(status: CampaignStatus) | RecordValue(json: Json)
    | AdvertiserValue(advertiser: Advertiser) | SegmentValue(segment: Segment) | BriefValue(brief: Brief)

  type Entries = seq<G.Entry<Field, Value>>

  function CampaignValue(c: Campaign, f: CampaignField): Value {
    match f
    case F_ID => Str(c.id)
    case F_ADVERTISER_ID => Str(c.advertiserId)
    case F_SEGMENT_ID => Str(c.segmentId)
    case F_STATUS => StatusValue(c.status)
    case F_PROPOSED => Num(c.proposedMinor)
    case F_APPROVED => Num(c.approvedMinor)
    case F_SPENT => Num(c.spentMinor)
    case F_CURRENCY => Str(c.currency)
    case F_SUBMITTED_AT => Num(c.submittedAt)
    case F_CAMPAIGN_TYPE => OptStr(c.campaignType)
    case F_FLIGHT_START => OptNum(c.flightStart)
    case F_BRIEF_SUBMITTED_AT => OptNum(c.briefSubmittedAt)
    case F_TARGET_MARKET => OptStr(c.targetMarket)
    case F_OBJECTIVE => OptStr(c.objective)
    case F_CLAIMED => OptNum(c.claimedMinor)
    case F_ANALYST => OptStr(c.assignedAnalystId)
    case F_RELATED => Names(c.relatedCampaignIds)
  }

  function CampaignRow(c: Campaign): map<Field, Value> {
    map f: CampaignField | true :: OfCampaign(f) := CampaignValue(c, f)
  }

  function RecordRow(r: Record): map<Field, Value> {
    var fields := RecordFields(r);
    map k | k in fields :: OfRecord(k) := RecordValue(fields[k])
  }

  function CampaignEntries(campaigns: seq<Campaign>): Entries {
    if campaigns == [] then []
    else
      var last := campaigns[|campaigns| - 1];
      CampaignEntries(campaigns[..|campaigns| - 1]) + [G.Identified(last.id, CampaignRow(last))]
  }

  function RecordEntries(records: seq<Record>): Entries {
    if records == [] then []
    else
      var last := records[|records| - 1];
      RecordEntries(records[..|records| - 1]) + [G.Identified(last.id, RecordRow(last))]
  }

  function Whole(id: string, v: Value): G.Entry<Field, Value> {
    G.Identified(id, map[CONTENTS := v])
  }

  function Section(s: State, kind: Kind): G.Section<Field, Value> {
    match kind
    case ADVERTISERS => G.Rows(seq(|s.advertisers|, i requires 0 <= i < |s.advertisers| => Whole(s.advertisers[i].id, AdvertiserValue(s.advertisers[i]))))
    case SEGMENTS => G.Rows(seq(|s.segments|, i requires 0 <= i < |s.segments| => Whole(s.segments[i].id, SegmentValue(s.segments[i]))))
    case BRIEFS => G.Rows(seq(|s.briefs|, i requires 0 <= i < |s.briefs| => Whole(s.briefs[i].id, BriefValue(s.briefs[i]))))
    case CAMPAIGNS => G.Rows(CampaignEntries(s.campaigns))
    case RECORDS(c) => G.Rows(RecordEntries(s.Rows(c)))
  }

  const KINDS: set<Kind> :=
    {ADVERTISERS, SEGMENTS, CAMPAIGNS, BRIEFS, RECORDS(DOCUMENTS), RECORDS(LAUNCHES), RECORDS(COMMUNICATIONS),
     RECORDS(ALLOCATIONS), RECORDS(REVIEWS), RECORDS(NOTES), RECORDS(RECOMMENDATIONS), RECORDS(RISK_FLAGS)}

  function Snapshot(s: State): G.State<Kind, Field, Value> {
    map kind | kind in KINDS :: Section(s, kind)
  }

  lemma SnapshotAt(s: State, kind: Kind)
    ensures G.SectionAt(Snapshot(s), kind) == Section(s, kind)
  {
    match kind {
      case RECORDS(c) => assert c == DOCUMENTS || c == LAUNCHES || c == COMMUNICATIONS || c == ALLOCATIONS || c == REVIEWS
                                || c == NOTES || c == RECOMMENDATIONS || c == RISK_FLAGS;
      case _ =>
    }
    assert kind in KINDS;
  }

  // ---------- Campaigns ----------

  lemma {:induction false} CampaignById(campaigns: seq<Campaign>, id: string)
    requires forall i, j :: 0 <= i < j < |campaigns| ==> campaigns[i].id != campaigns[j].id
    ensures var i := CampaignIndex(campaigns, id);
      G.RowAt(CampaignEntries(campaigns), id) == if i < |campaigns| then CampaignRow(campaigns[i]) else map[]
  {
    if campaigns != [] {
      var rest, last := campaigns[..|campaigns| - 1], campaigns[|campaigns| - 1];
      CampaignById(rest, id);
      assert G.RowAt(CampaignEntries(campaigns), id) == if last.id == id then CampaignRow(last) else G.RowAt(CampaignEntries(rest), id);
      IndexOfPrefix(campaigns, id);
    }
  }

  lemma IndexOfPrefix(campaigns: seq<Campaign>, id: string)
    requires campaigns != [] && forall i, j :: 0 <= i < j < |campaigns| ==> campaigns[i].id != campaigns[j].id
    ensures var rest, n := campaigns[..|campaigns| - 1], |campaigns| - 1;
      CampaignIndex(campaigns, id) == if campaigns[n].id == id then n else if CampaignIndex(rest, id) < n then CampaignIndex(rest, id) else |campaigns|
  {
    var rest, n := campaigns[..|campaigns| - 1], |campaigns| - 1;
    var i, j := CampaignIndex(campaigns, id), CampaignIndex(rest, id);
    assert j < n ==> campaigns[j].id == id;
    assert i < n ==> rest[i].id == id;
  }

  /** The event types that write a field of the campaign they are about. */
  predicate Writes(eventType: EventType, f: Field) {
    match f
    case OfCampaign(F_STATUS) => eventType in {DATA_ASKED, REVIEW_ESCALATED, LAUNCHED, BUDGET_ALLOCATED}
    case OfCampaign(F_SPENT) => eventType == BUDGET_ALLOCATED
    case _ => false
  }

  lemma SettledKeepsField(campaign: Campaign, event: Event, f: Field)
    requires !Writes(event.eventType, f)
    ensures G.Get(CampaignRow(Settled(campaign, event)), f, Missing) == G.Get(CampaignRow(campaign), f, Missing)
  {
    SettledKeeps(campaign, event);
  }

  /** Some event after the first `from` is about the campaign and writes the field. */
  predicate Wrote(events: seq<Event>, from: nat, id: string, f: Field) {
    exists j :: from <= j < |events| && CampaignOf(events[j]) == id && Writes(events[j].eventType, f)
  }

  /** A field no later event on its campaign writes stays as it is. */
  lemma {:induction false} FieldUnmoved(start: State, early: seq<Event>, late: seq<Event>, i: nat, f: Field)
    requires DistinctCampaigns(start) && LawfulHistory(start, late) && early <= late && i < |start.campaigns|
    requires !Wrote(late, |early|, start.campaigns[i].id, f)
    ensures var a, b := FoldEvents(start, early).campaigns, FoldEvents(start, late).campaigns;
      && |a| == |b| == |start.campaigns|
      && G.Get(CampaignRow(b[i]), f, Missing) == G.Get(CampaignRow(a[i]), f, Missing)
  {
    FrameKept(start, early);
    if |early| < |late| {
      var past, event := late[..|late| - 1], late[|late| - 1];
      assert forall j :: 0 <= j < |past| ==> past[j] == late[j];
      FieldUnmoved(start, early, past, i, f);
      FrameKept(start, past);
      DistinctKept(start, past);
      var s := FoldEvents(start, past);
      CampaignStep(s, event, i);
      if CampaignOf(event) == s.campaigns[i].id {
        assert late[|late| - 1] == event;
        SettledKeepsField(s.campaigns[i], event, f);
      }
    } else {
      assert early == late;
    }
  }

  /** At every point of a history the i-th campaign's row is found under the id it started with. */
  lemma CampaignRowAt(start: State, events: seq<Event>, id: string)
    requires DistinctCampaigns(start)
    ensures var s, i := FoldEvents(start, events), CampaignIndex(start.campaigns, id);
      && |s.campaigns| == |start.campaigns|
      && G.RowAt(CampaignEntries(s.campaigns), id) == (if i < |s.campaigns| then CampaignRow(s.campaigns[i]) else map[])
  {
    FrameKept(start, events);
    DistinctKept(start, events);
    SameIndex(start.campaigns, FoldEvents(start, events).campaigns, id);
    CampaignById(FoldEvents(start, events).campaigns, id);
  }

  lemma CampaignsDiffer(a: State, b: State, id: string, f: Field)
    ensures G.Differs(Snapshot(a), Snapshot(b), CAMPAIGNS, id, f, Missing) <==>
      G.Get(G.RowAt(CampaignEntries(a.campaigns), id), f, Missing) != G.Get(G.RowAt(CampaignEntries(b.campaigns), id), f, Missing)
  {
    SnapshotAt(a, CAMPAIGNS);
    SnapshotAt(b, CAMPAIGNS);
  }

  lemma CampaignDiffers(start: State, early: seq<Event>, late: seq<Event>, id: string, f: Field)
    requires DistinctCampaigns(start) && LawfulHistory(start, late) && early <= late
    ensures G.Differs(Snapshot(FoldEvents(start, early)), Snapshot(FoldEvents(start, late)), CAMPAIGNS, id, f, Missing) ==>
      Wrote(late, |early|, id, f)
  {
    CampaignsDiffer(FoldEvents(start, early), FoldEvents(start, late), id, f);
    CampaignRowAt(start, early, id);
    CampaignRowAt(start, late, id);
    var i := CampaignIndex(start.campaigns, id);
    if i < |start.campaigns| && !Wrote(late, |early|, id, f) {
      FieldUnmoved(start, early, late, i, f);
    }
  }

  // ---------- Records ----------

  /** Some event after the first `from` appended this record. */
  predicate Appended(events: seq<Event>, from: nat, c: Collection, id: string) {
    exists j :: from <= j < |events| && CollectionOf(events[j].eventType) == c
                && RecordFrom(events[j].eventType, events[j].after).id == id
  }

  lemma RecordAppended(records: seq<Record>, r: Record, id: string)
    ensures r.id != id ==> G.RowAt(RecordEntries(records + [r]), id) == G.RowAt(RecordEntries(records), id)
  {
    assert (records + [r])[..|records|] == records;
  }

  lemma {:induction false} RecordUnmoved(start: State, early: seq<Event>, late: seq<Event>, c: Collection, id: string)
    requires early <= late && !Appended(late, |early|, c, id)
    ensures G.RowAt(RecordEntries(FoldEvents(start, late).Rows(c)), id) == G.RowAt(RecordEntries(FoldEvents(start, early).Rows(c)), id)
  {
    if |early| < |late| {
      var past, event := late[..|late| - 1], late[|late| - 1];
      forall j | |early| <= j < |past|
        ensures !(CollectionOf(past[j].eventType) == c && RecordFrom(past[j].eventType, past[j].after).id == id)
      {
        assert past[j] == late[j];
      }
      RecordUnmoved(start, early, past, c, id);
      var s := FoldEvents(start, past);
      var r := RecordFrom(event.eventType, event.after);
      FoldParts(s, event);
      RecordAppended(s.Rows(c), r, id);
      assert late[|late| - 1] == event;
    } else {
      assert early == late;
    }
  }

  // ---------- The diff and the log ----------

  /** What the log must show for a differing field. */
  predicate Explained(events: seq<Event>, from: nat, kind: Kind, id: string, f: Field) {
    match kind
    case CAMPAIGNS => Wrote(events, from, id, f)
    case RECORDS(c) => Appended(events, from, c, id)
    case _ => false
  }

  lemma DifferenceExplained(start: State, early: seq<Event>, late: seq<Event>, kind: Kind, id: string, f: Field)
    requires DistinctCampaigns(start) && LawfulHistory(start, late) && early <= late
    ensures G.Differs(Snapshot(FoldEvents(start, early)), Snapshot(FoldEvents(start, late)), kind, id, f, Missing) ==>
      Explained(late, |early|, kind, id, f)
  {
    var a, b := FoldEvents(start, early), FoldEvents(start, late);
    SnapshotAt(a, kind);
    SnapshotAt(b, kind);
    match kind {
      case CAMPAIGNS => CampaignDiffers(start, early, late, id, f);
      case RECORDS(c) =>
        if !Appended(late, |early|, c, id) {
          RecordUnmoved(start, early, late, c, id);
        }
      case _ =>
        FrameKept(start, early);
        FrameKept(start, late);
        assert Section(a, kind) == Section(b, kind);
    }
  }

  /** Between any two snapshots of a run, every field the diff lists was written by an event
      committed in between: a campaign's status by a request, escalation, launch or allocation on that
      campaign, its spending by an allocation, a record's fields by the event that appended it, and
      nothing else ever. */
  lemma DiffAgreesWithLog(env: Env, start: State, seed: int, steps: seq<Step<Tool>>, more: seq<Step<Tool>>,
                          order: G.Order<Kind, Field>, kind: Kind, id: string, f: Field)
    requires Thrifty(start) && G.Lists(order)
    ensures var a, b := Reached(env, start, seed, steps), Reached(env, start, seed, steps + more);
      G.Listed(G.ChangedEntities(Some(Snapshot(a.state)), Some(Snapshot(b.state)), Missing, order), kind, id, f) ==>
        Explained(RowEvents(b.events), |a.events|, kind, id, f)
  {
    var a, b := Reached(env, start, seed, steps), Reached(env, start, seed, steps + more);
    EventSourcing(env, start, seed, steps);
    EventSourcing(env, start, seed, steps + more);
    HistoryGrows(MarketingDomain(), env, start, seed, steps, more);
    G.DiffExact(Snapshot(a.state), Snapshot(b.state), Missing, order, kind, id, f);
    DifferenceExplained(start, RowEvents(a.events), RowEvents(b.events), kind, id, f);
  }
}
