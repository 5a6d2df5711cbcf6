/** The snapshot diff of an Insurance run agrees with its event log. */
module InsuranceDiff {
  import opened Wrappers
  import opened World
  import opened Histories
  import opened Insurance
  import opened InsuranceRuns
  import opened InsuranceInvariants
  import G = Grading

  // ---------- Snapshots as the diff sees them ----------

  /** The lists of a state: five seeded ones and the append-only collections. */
  datatype Kind = CUSTOMERS | POLICIES | COVERAGES | CLAIMS | INCIDENTS | RECORDS(collection: Collection)

  datatype ClaimField =
    | F_ID | F_POLICY_ID | F_CUSTOMER_ID | F_COVERAGE_ID | F_STATUS | F_REQUESTED | F_APPROVED | F_PAID | F_CURRENCY | F_OPENED_AT
    | F_CLAIM_TYPE | F_LOSS_DATE | F_REPORT_DATE | F_LOCATION | F_CAUSE | F_CLAIMED | F_ANALYST | F_RELATED

  /** A seeded row that no event can reach is one field here: its whole contents. */
  datatype Field = OfClaim(f: ClaimField) | OfRecord(k: Key) | CONTENTS

  datatype Value =
    | Missing | Str(s: string) | OptStr(o: Option<string>) | Num(n: int) | OptNum(m: Option<int>) | Names(names: seq<string>)
    | StatusValue(status: ClaimStatus) | RecordValue(json: Json)
    | CustomerValue(customer: Customer) | PolicyValue(policy: Policy) | CoverageValue(coverage: Coverage) | IncidentValue(incident: Incident)

  type Entries = seq<G.Entry<Field, Value>>

  function ClaimValue(c: Claim, f: ClaimField): Value {
    match f
    case F_ID => Str(c.id)
    case F_POLICY_ID => Str(c.policyId)
    case F_CUSTOMER_ID => Str(c.customerId)
    case F_COVERAGE_ID => Str(c.coverageId)
    case F_STATUS => StatusValue(c.status)
    case F_REQUESTED => Num(c.requestedMinor)
    case F_APPROVED => Num(c.approvedMinor)
    case F_PAID => Num(c.paidMinor)
    case F_CURRENCY => Str(c.currency)
    case F_OPENED_AT => Num(c.openedAt)
    case F_CLAIM_TYPE => OptStr(c.claimType)
    case F_LOSS_DATE => OptNum(c.lossDate)
    case F_REPORT_DATE => OptNum(c.reportDate)
    case F_LOCATION => OptStr(c.location)
    case F_CAUSE => OptStr(c.cause)
    case F_CLAIMED => OptNum(c.claimedMinor)
    case F_ANALYST => OptStr(c.assignedAnalystId)
    case F_RELATED => Names(c.relatedClaimIds)
  }

  function ClaimRow(c: Claim): map<Field, Value> {
    map f: ClaimField | true :: OfClaim(f) := ClaimValue(c, f)
  }

  function RecordRow(r: Record): map<Field, Value> {
    var fields := RecordFields(r);
    map k | k in fields :: OfRecord(k) := RecordValue(fields[k])
  }

  function ClaimEntries(claims: seq<Claim>): Entries {
    if claims == [] then []
    else
      var last := claims[|claims| - 1];
      ClaimEntries(claims[..|claims| - 1]) + [G.Identified(last.id, ClaimRow(last))]
  }

  function RecordEntries(records: seq<Record>): Entries {
    if records == [] then []
    else
      var last := records[|records| - 1];
      RecordEntries(records[..|records| - 1]) + [G.Identified(last.id, RecordRow(last))]
  }

  function Whole(id: string, v: Value): G.Entry<Field, Value> {
    G.Identified(id, map[CONTENTS := v])
  }

  function Section(s: State, kind: Kind): G.Section<Field, Value> {
    match kind
    case CUSTOMERS => G.Rows(seq(|s.customers|, i requires 0 <= i < |s.customers| => Whole(s.customers[i].id, CustomerValue(s.customers[i]))))
    case POLICIES => G.Rows(seq(|s.policies|, i requires 0 <= i < |s.policies| => Whole(s.policies[i].id, PolicyValue(s.policies[i]))))
    case COVERAGES => G.Rows(seq(|s.coverages|, i requires 0 <= i < |s.coverages| => Whole(s.coverages[i].id, CoverageValue(s.coverages[i]))))
    case INCIDENTS => G.Rows(seq(|s.incidents|, i requires 0 <= i < |s.incidents| => Whole(s.incidents[i].id, IncidentValue(s.incidents[i]))))
    case CLAIMS => G.Rows(ClaimEntries(s.claims))
    case RECORDS(c) => G.Rows(RecordEntries(s.Rows(c)))
  }

  const KINDS: set<Kind> :=
    {CUSTOMERS, POLICIES, COVERAGES, CLAIMS, INCIDENTS, RECORDS(DOCUMENTS), RECORDS(PAYMENTS), RECORDS(INVESTIGATIONS),
     RECORDS(NOTES), RECORDS(ANALYST_NOTES), RECORDS(RECOMMENDATIONS), RECORDS(RISK_FLAGS)}

  function Snapshot(s: State): G.State<Kind, Field, Value> {
    map kind | kind in KINDS :: Section(s, kind)
  }

  lemma SnapshotAt(s: State, kind: Kind)
    ensures G.SectionAt(Snapshot(s), kind) == Section(s, kind)
  {
    match kind {
      case RECORDS(c) => assert c == DOCUMENTS || c == PAYMENTS || c == INVESTIGATIONS || c == NOTES || c == ANALYST_NOTES
                                || c == RECOMMENDATIONS || c == RISK_FLAGS;
      case _ =>
    }
    assert kind in KINDS;
  }

  // ---------- Claims ----------

  lemma {:induction false} ClaimById(claims: seq<Claim>, id: string)
    requires forall i, j :: 0 <= i < j < |claims| ==> claims[i].id != claims[j].id
    ensures var i := ClaimIndex(claims, id);
      G.RowAt(ClaimEntries(claims), id) == if i < |claims| then ClaimRow(claims[i]) else map[]
  {
    if claims != [] {
      var rest, last := claims[..|claims| - 1], claims[|claims| - 1];
      ClaimById(rest, id);
      assert G.RowAt(ClaimEntries(claims), id) == if last.id == id then ClaimRow(last) else G.RowAt(ClaimEntries(rest), id);
      IndexOfPrefix(claims, id);
    }
  }

  lemma IndexOfPrefix(claims: seq<Claim>, id: string)
    requires claims != [] && forall i, j :: 0 <= i < j < |claims| ==> claims[i].id != claims[j].id
    ensures var rest, n := claims[..|claims| - 1], |claims| - 1;
      ClaimIndex(claims, id) == if claims[n].id == id then n else if ClaimIndex(rest, id) < n then ClaimIndex(rest, id) else |claims|
  {
    var rest, n := claims[..|claims| - 1], |claims| - 1;
    var i, j := ClaimIndex(claims, id), ClaimIndex(rest, id);
    assert j < n ==> claims[j].id == id;
    assert i < n ==> rest[i].id == id;
  }

  /** The event types that write a field of the claim they are about. */
  predicate Writes(eventType: EventType, f: Field) {
    match f
    case OfClaim(F_STATUS) => eventType in {EVIDENCE_ASKED, INVESTIGATION_ESCALATED, DECIDED, PAYMENT_ISSUED}
    case OfClaim(F_APPROVED) => eventType == DECIDED
    case OfClaim(F_PAID) => eventType == PAYMENT_ISSUED
    case _ => false
  }

  lemma SettledKeepsField(claim: Claim, event: Event, f: Field)
    requires !Writes(event.eventType, f)
    ensures G.Get(ClaimRow(Settled(claim, event)), f, Missing) == G.Get(ClaimRow(claim), f, Missing)
  {
    SettledKeeps(claim, event);
  }

  /** Some event after the first `from` is about the claim and writes the field. */
  predicate Wrote(events: seq<Event>, from: nat, id: string, f: Field) {
    exists j :: from <= j < |events| && ClaimOf(events[j]) == id && Writes(events[j].eventType, f)
  }

  /** A field no later event on its claim writes stays as it is. */
  lemma {:induction false} FieldUnmoved(start: State, early: seq<Event>, late: seq<Event>, i: nat, f: Field)
    requires DistinctClaims(start) && LawfulHistory(start, late) && early <= late && i < |start.claims|
    requires !Wrote(late, |early|, start.claims[i].id, f)
    ensures var a, b := FoldEvents(start, early).claims, FoldEvents(start, late).claims;
      && |a| == |b| == |start.claims|
      && G.Get(ClaimRow(b[i]), f, Missing) == G.Get(ClaimRow(a[i]), f, Missing)
  {
    FrameKept(start, early);
    if |early| < |late| {
      var past, event := late[..|late| - 1], late[|late| - 1];
      assert forall j :: 0 <= j < |past| ==> past[j] == late[j];
      FieldUnmoved(start, early, past, i, f);
      FrameKept(start, past);
      DistinctKept(start, past);
      var s := FoldEvents(start, past);
      ClaimStep(s, event, i);
      if ClaimOf(event) == s.claims[i].id {
        assert late[|late| - 1] == event;
        SettledKeepsField(s.claims[i], event, f);
      }
    } else {
      assert early == late;
    }
  }

  /** At every point of a history the i-th claim's row is found under the id it started with. */
  lemma ClaimRowAt(start: State, events: seq<Event>, id: string)
    requires DistinctClaims(start)
    ensures var s, i := FoldEvents(start, events), ClaimIndex(start.claims, id);
      && |s.claims| == |start.claims|
      && G.RowAt(ClaimEntries(s.claims), id) == (if i < |s.claims| then ClaimRow(s.claims[i]) else map[])
  {
    FrameKept(start, events);
    DistinctKept(start, events);
    SameIndex(start.claims, FoldEvents(start, events).claims, id);
    ClaimById(FoldEvents(start, events).claims, id);
  }

  lemma ClaimsDiffer(a: State, b: State, id: string, f: Field)
    ensures G.Differs(Snapshot(a), Snapshot(b), CLAIMS, id, f, Missing) <==>
      G.Get(G.RowAt(ClaimEntries(a.claims), id), f, Missing) != G.Get(G.RowAt(ClaimEntries(b.claims), id), f, Missing)
  {
    SnapshotAt(a, CLAIMS);
    SnapshotAt(b, CLAIMS);
  }

  lemma ClaimDiffers(start: State, early: seq<Event>, late: seq<Event>, id: string, f: Field)
    requires DistinctClaims(start) && LawfulHistory(start, late) && early <= late
    ensures G.Differs(Snapshot(FoldEvents(start, early)), Snapshot(FoldEvents(start, late)), CLAIMS, id, f, Missing) ==>
      Wrote(late, |early|, id, f)
  {
    ClaimsDiffer(FoldEvents(start, early), FoldEvents(start, late), id, f);
    ClaimRowAt(start, early, id);
    ClaimRowAt(start, late, id);
    var i := ClaimIndex(start.claims, id);
    if i < |start.claims| && !Wrote(late, |early|, id, f) {
      FieldUnmoved(start, early, late, i, f);
    }
  }

  // ---------- Records ----------

  /** Some event after the first `from` appended this record. */
  predicate Appended(events: seq<Event>, from: nat, c: Collection, id: string) {
    exists j :: from <= j < |events| && CollectionOf(events[j].eventType) == Some(c)
                && RecordFrom(events[j].eventType, events[j].after).id == id
  }

  lemma RecordAppended(records: seq<Record>, r: Record, id: string)
    ensures r.id != id ==> G.RowAt(RecordEntries(records + [r]), id) == G.RowAt(RecordEntries(records), id)
  {
    assert (records + [r])[..|records|] == records;
  }

  lemma {:induction false} RecordUnmoved(start: State, early: seq<Event>, late: seq<Event>, c: Collection, id: string)
    requires early <= late && !Appended(late, |early|, c, id)
    ensures G.RowAt(RecordEntries(FoldEvents(start, late).Rows(c)), id) == G.RowAt(RecordEntries(FoldEvents(start, early).Rows(c)), id)
  {
    if |early| < |late| {
      var past, event := late[..|late| - 1], late[|late| - 1];
      forall j | |early| <= j < |past|
        ensures !(CollectionOf(past[j].eventType) == Some(c) && RecordFrom(past[j].eventType, past[j].after).id == id)
      {
        assert past[j] == late[j];
      }
      RecordUnmoved(start, early, past, c, id);
      var s := FoldEvents(start, past);
      var r := RecordFrom(event.eventType, event.after);
      FoldParts(s, event);
      RecordAppended(s.Rows(c), r, id);
      assert late[|late| - 1] == event;
    } else {
      assert early == late;
    }
  }

  // ---------- The diff and the log ----------

  /** What the log must show for a differing field. */
  predicate Explained(events: seq<Event>, from: nat, kind: Kind, id: string, f: Field) {
    match kind
    case CLAIMS => Wrote(events, from, id, f)
    case RECORDS(c) => Appended(events, from, c, id)
    case _ => false
  }

  lemma DifferenceExplained(start: State, early: seq<Event>, late: seq<Event>, kind: Kind, id: string, f: Field)
    requires DistinctClaims(start) && LawfulHistory(start, late) && early <= late
    ensures G.Differs(Snapshot(FoldEvents(start, early)), Snapshot(FoldEvents(start, late)), kind, id, f, Missing) ==>
      Explained(late, |early|, kind, id, f)
  {
    var a, b := FoldEvents(start, early), FoldEvents(start, late);
    SnapshotAt(a, kind);
    SnapshotAt(b, kind);
    match kind {
      case CLAIMS => ClaimDiffers(start, early, late, id, f);
      case RECORDS(c) =>
        if !Appended(late, |early|, c, id) {
          RecordUnmoved(start, early, late, c, id);
        }
      case _ =>
        FrameKept(start, early);
        FrameKept(start, late);
        assert Section(a, kind) == Section(b, kind);
    }
  }

  /** Between any two snapshots of a run, every field the diff lists was written by an event
      committed in between: a claim's status by a request, escalation, decision or payment on that
      claim, its approved amount by a decision, its paid amount by a payment, a record's fields by
      the event that appended it, and nothing else ever. */
  lemma DiffAgreesWithLog(env: Env, start: State, seed: int, steps: seq<Step<Tool>>, more: seq<Step<Tool>>,
                          order: G.Order<Kind, Field>, kind: Kind, id: string, f: Field)
    requires Sound(start) && G.Lists(order)
    ensures var a, b := Reached(env, start, seed, steps), Reached(env, start, seed, steps + more);
      G.Listed(G.ChangedEntities(Some(Snapshot(a.state)), Some(Snapshot(b.state)), Missing, order), kind, id, f) ==>
        Explained(RowEvents(b.events), |a.events|, kind, id, f)
  {
    var a, b := Reached(env, start, seed, steps), Reached(env, start, seed, steps + more);
    EventSourcing(env, start, seed, steps);
    EventSourcing(env, start, seed, steps + more);
    HistoryGrows(InsuranceDomain(), env, start, seed, steps, more);
    G.DiffExact(Snapshot(a.state), Snapshot(b.state), Missing, order, kind, id, f);
    DifferenceExplained(start, RowEvents(a.events), RowEvents(b.events), kind, id, f);
  }
}
