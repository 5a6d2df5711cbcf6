/** Money, lifecycle and authority of Insurance claims over every history and every run. */
module InsuranceInvariants {
  import opened Wrappers
  import opened World
  import opened WorldRuns
  import opened Histories
  import opened Insurance
  import opened InsuranceSeeds
  import opened InsuranceRuns

  // ---------- Runs as event histories ----------

  /** Every event is lawful on the fold of the events before it. */
  predicate LawfulHistory(start: State, events: seq<Event>) {
    events == [] ||
    (LawfulHistory(start, events[..|events| - 1]) && Lawful(FoldEvents(start, events[..|events| - 1]), events[|events| - 1]))
  }

  lemma {:induction false} HistoryLawful(env: Env, start: State, log: Log)
    requires Faithful(InsuranceDomain(), env, start, log)
    ensures LawfulHistory(start, Events(log))
  {
    if log != [] {
      var n := |log| - 1;
      LastCommit(env, start, log);
      HistoryLawful(env, start, log[..n]);
      LogRebuilds(env, start, log[..n]);
      assert Events(log)[..n] == Events(log[..n]);
    }
  }

  /** The database after any run from an initial state. */
  function Reached(env: Env, start: State, seed: int, steps: seq<Step<Tool>>): Db<State, Tool, Answer, Event> {
    Run(InsuranceDomain(), env, Initial(start, seed), steps)
  }

  /** Over every run the event rows are a lawful history whose fold is the stored state, and
      each row's `before` is what the fold of the earlier rows holds. */
  lemma EventSourcing(env: Env, start: State, seed: int, steps: seq<Step<Tool>>)
    ensures var end := Reached(env, start, seed, steps);
      && LawfulHistory(start, RowEvents(end.events))
      && end.state == FoldEvents(start, RowEvents(end.events))
      && forall i :: 0 <= i < |end.events| ==>
           RowEvents(end.events)[i].before == Foregoing(FoldEvents(start, RowEvents(end.events)[..i]), RowEvents(end.events)[i])
  {
    var db: Db<State, Tool, Answer, Event> := Initial(start, seed);
    RunRecords(InsuranceDomain(), env, db, steps);
    var log := Commits(InsuranceDomain(), env, db, steps);
    RowEventsAreEvents(InsuranceDomain(), env, log);
    HistoryLawful(env, start, log);
    LogRebuilds(env, start, log);
    forall i | 0 <= i < |log|
      ensures Events(log)[i].before == Foregoing(FoldEvents(start, Events(log)[..i]), Events(log)[i])
    {
      EventFits(env, start, log, i);
    }
  }

  // ---------- What no event touches ----------

  /** Claims keep their number, order and every field but status, approved and paid. */
  predicate SameButSettled(a: seq<Claim>, b: seq<Claim>) {
    |a| == |b| && forall i :: 0 <= i < |a| ==>
      b[i] == a[i].(status := b[i].status, approvedMinor := b[i].approvedMinor, paidMinor := b[i].paidMinor)
  }

  lemma AppendKeeps(s: State, c: Collection, r: Record)
    ensures var s' := s.Append(c, r);
      && s'.claims == s.claims && s'.customers == s.customers && s'.policies == s.policies
      && s'.coverages == s.coverages && s'.incidents == s.incidents
      && forall other :: s'.Rows(other) == if other == c then s.Rows(c) + [r] else s.Rows(other)
  {
  }

  /** The parts of a folded state, one at a time. */
  lemma FoldParts(s: State, event: Event)
    ensures var s', i := FoldEvent(s, event), ClaimIndex(s.claims, ClaimOf(event));
      && s'.claims == (if i < |s.claims| then s.claims[i := Settled(s.claims[i], event)] else s.claims)
      && s'.customers == s.customers && s'.policies == s.policies
      && s'.coverages == s.coverages && s'.incidents == s.incidents
      && forall c :: s'.Rows(c) ==
           if CollectionOf(event.eventType) == Some(c) then s.Rows(c) + [RecordFrom(event.eventType, event.after)] else s.Rows(c)
  {
    var i := ClaimIndex(s.claims, ClaimOf(event));
    var settled := if i < |s.claims| then s.WithClaim(i, Settled(s.claims[i], event)) else s;
    if CollectionOf(event.eventType).Some? {
      AppendKeeps(settled, CollectionOf(event.eventType).value, RecordFrom(event.eventType, event.after));
    }
  }

  lemma SettledKeeps(claim: Claim, event: Event)
    ensures var settled := Settled(claim, event);
      settled == claim.(status := settled.status, approvedMinor := settled.approvedMinor, paidMinor := settled.paidMinor)
  {
  }

  lemma FrameStep(s: State, event: Event)
    ensures var s' := FoldEvent(s, event);
      && SameButSettled(s.claims, s'.claims)
      && s'.customers == s.customers && s'.policies == s.policies
      && s'.coverages == s.coverages && s'.incidents == s.incidents
  {
    FoldParts(s, event);
    var i := ClaimIndex(s.claims, ClaimOf(event));
    if i < |s.claims| {
      SettledKeeps(s.claims[i], event);
    }
  }

  lemma {:induction false} FrameKept(start: State, events: seq<Event>)
    ensures var s := FoldEvents(start, events);
      && SameButSettled(start.claims, s.claims)
      && s.customers == start.customers && s.policies == start.policies
      && s.coverages == start.coverages && s.incidents == start.incidents
  {
    if events != [] {
      FrameKept(start, events[..|events| - 1]);
      FrameStep(FoldEvents(start, events[..|events| - 1]), events[|events| - 1]);
    }
  }

  // ---------- Money ----------

  function PaidTotal(payments: seq<Record>, claimId: string): int {
    if payments == [] then 0
    else
      var last := payments[|payments| - 1];
      PaidTotal(payments[..|payments| - 1], claimId) + (if last.Payment? && last.claimId == claimId then last.amountMinor else 0)
  }

  function PaidByEvents(events: seq<Event>, claimId: string): int {
    if events == [] then 0
    else
      var last := events[|events| - 1];
      PaidByEvents(events[..|events| - 1], claimId)
      + (if last.eventType == PAYMENT_ISSUED && ClaimOf(last) == claimId then AmountAt(last.after, AMOUNT_MINOR) else 0)
  }

  predicate Balanced(claim: Claim, coverages: seq<Coverage>, payments: seq<Record>) {
    var coverage := FindCoverage(coverages, claim.coverageId);
    && coverage.Some?
    && 0 <= claim.paidMinor <= claim.approvedMinor <= Min(claim.requestedMinor, coverage.value.limitMinor)
    && (claim.paidMinor == claim.approvedMinor <==> claim.status != APPROVED)
    && (Undecided(claim.status) || claim.status == REJECTED ==> claim.approvedMinor == 0)
    && (claim.status == PAID ==> claim.approvedMinor > 0)
    && claim.paidMinor == PaidTotal(payments, claim.id)
  }

  predicate Funded(s: State) {
    && (forall i, j :: 0 <= i < j < |s.claims| ==> s.claims[i].id != s.claims[j].id)
    && (forall i :: 0 <= i < |s.claims| ==> Balanced(s.claims[i], s.coverages, s.payments))
  }

  lemma FoldPayments(s: State, event: Event, claimId: string)
    requires Lawful(s, event)
    ensures PaidTotal(FoldEvent(s, event).payments, claimId) == PaidTotal(s.payments, claimId)
      + (if event.eventType == PAYMENT_ISSUED && ClaimOf(event) == claimId then AmountAt(event.after, AMOUNT_MINOR) else 0)
  {
    if event.eventType == PAYMENT_ISSUED {
      var row := RecordFrom(PAYMENT_ISSUED, event.after);
      assert FoldEvent(s, event).payments == s.payments + [row];
      assert (s.payments + [row])[..|s.payments|] == s.payments;
    } else {
      assert FoldEvent(s, event).payments == s.payments;
    }
  }

  /** One event moves a claim's balances within its bounds, by the payment it records. */
  lemma BalancedStep(claim: Claim, coverages: seq<Coverage>, event: Event, before: seq<Record>, after: seq<Record>)
    requires Balanced(claim, coverages, before) && LawfulFor(claim, coverages, event)
    requires PaidTotal(after, claim.id) == PaidTotal(before, claim.id)
      + (if event.eventType == PAYMENT_ISSUED then AmountAt(event.after, AMOUNT_MINOR) else 0)
    ensures Balanced(Settled(claim, event), coverages, after)
  {
  }

  lemma FundedStep(s: State, event: Event)
    requires Funded(s) && Lawful(s, event)
    ensures Funded(FoldEvent(s, event))
  {
    var s', k := FoldEvent(s, event), ClaimIndex(s.claims, ClaimOf(event));
    FoldParts(s, event);
    SettledKeeps(s.claims[k], event);
    forall i | 0 <= i < |s'.claims| ensures Balanced(s'.claims[i], s'.coverages, s'.payments) {
      FoldPayments(s, event, s.claims[i].id);
      if i == k {
        BalancedStep(s.claims[k], s.coverages, event, s.payments, s'.payments);
      } else {
        assert s.claims[i].id != s.claims[k].id;
      }
    }
  }

  lemma {:induction false} FundedAlways(start: State, events: seq<Event>)
    requires Funded(start) && LawfulHistory(start, events)
    ensures Funded(FoldEvents(start, events))
  {
    if events != [] {
      FundedAlways(start, events[..|events| - 1]);
      FundedStep(FoldEvents(start, events[..|events| - 1]), events[|events| - 1]);
    }
  }

  lemma {:induction false} PaymentsAreEvents(start: State, events: seq<Event>, claimId: string)
    requires LawfulHistory(start, events)
    ensures PaidTotal(FoldEvents(start, events).payments, claimId) == PaidTotal(start.payments, claimId) + PaidByEvents(events, claimId)
  {
    if events != [] {
      PaymentsAreEvents(start, events[..|events| - 1], claimId);
      FoldPayments(FoldEvents(start, events[..|events| - 1]), events[|events| - 1], claimId);
    }
  }

  /** What every seeded state is, and all the results below ask of where a run starts. */
  predicate Sound(start: State) {
    Funded(start) && start.payments == []
  }

  lemma SeedsSound(seed: int, name: Namer)
    ensures Sound(BuildState(seed, name))
  {
    var s := BuildState(seed, name);
    if seed >= ANALYST_SEED_FLOOR {
      assert "clm_100"[6] != "clm_101"[6];
    }
  }

  /** From every sound start, in every reachable state, each claim's balances are bounded by its request
      and coverage, paid in full exactly when not awaiting payment, and equal to the sum of its
      payment records and of its payment events. */
  lemma MoneyInvariant(env: Env, start: State, seed: int, steps: seq<Step<Tool>>)
    requires Sound(start)
    ensures var end := Reached(env, start, seed, steps);
      && Funded(end.state)
      && forall i :: 0 <= i < |end.state.claims| ==>
           end.state.claims[i].paidMinor == PaidByEvents(RowEvents(end.events), end.state.claims[i].id)
  {
    var end := Reached(env, start, seed, steps);
    EventSourcing(env, start, seed, steps);
    FundedAlways(start, RowEvents(end.events));
    forall i | 0 <= i < |end.state.claims|
      ensures end.state.claims[i].paidMinor == PaidByEvents(RowEvents(end.events), end.state.claims[i].id)
    {
      PaymentsAreEvents(start, RowEvents(end.events), end.state.claims[i].id);
      assert Balanced(end.state.claims[i], end.state.coverages, end.state.payments);
    }
  }

  // ---------- Lifecycle ----------

  function DecisionsOn(events: seq<Event>, claimId: string): nat {
    if events == [] then 0
    else
      var last := events[|events| - 1];
      DecisionsOn(events[..|events| - 1], claimId) + (if last.eventType == DECIDED && ClaimOf(last) == claimId then 1 else 0)
  }

  function ApprovalsOn(events: seq<Event>, claimId: string): nat {
    if events == [] then 0
    else
      var last := events[|events| - 1];
      ApprovalsOn(events[..|events| - 1], claimId)
      + (if last.eventType == DECIDED && ClaimOf(last) == claimId && StateAt(last.after, STATUS) == APPROVED then 1 else 0)
  }

  predicate DistinctClaims(s: State) {
    forall i, j :: 0 <= i < j < |s.claims| ==> s.claims[i].id != s.claims[j].id
  }

  /** How far one claim has come since the start, as its status and the log agree on it. */
  predicate Progressed(from: Claim, now: Claim, decisions: nat, approvals: nat) {
    && approvals <= decisions <= 1
    && (Undecided(now.status) ==> decisions == 0)
    && (!Undecided(from.status) ==> decisions == 0 && !Undecided(now.status))
    && (now.status == APPROVED ==> from.status == APPROVED || approvals == 1)
    && (now.status == PAID ==> from.status in {APPROVED, PAID} || approvals == 1)
  }

  /** What one lawful event does to the i-th claim. */
  lemma ClaimStep(s: State, event: Event, i: nat)
    requires DistinctClaims(s) && Lawful(s, event) && i < |s.claims|
    ensures |FoldEvent(s, event).claims| == |s.claims|
    ensures ClaimOf(event) != s.claims[i].id ==> FoldEvent(s, event).claims[i] == s.claims[i]
    ensures ClaimOf(event) == s.claims[i].id ==>
      LawfulFor(s.claims[i], s.coverages, event) && FoldEvent(s, event).claims[i] == Settled(s.claims[i], event)
  {
  }

  lemma ProgressStep(from: Claim, now: Claim, coverages: seq<Coverage>, event: Event, decisions: nat, approvals: nat)
    requires Progressed(from, now, decisions, approvals) && LawfulFor(now, coverages, event)
    ensures Progressed(from, Settled(now, event),
                       decisions + (if event.eventType == DECIDED then 1 else 0),
                       approvals + (if event.eventType == DECIDED && StateAt(event.after, STATUS) == APPROVED then 1 else 0))
  {
  }

  lemma {:induction false} DistinctKept(start: State, events: seq<Event>)
    requires DistinctClaims(start)
    ensures DistinctClaims(FoldEvents(start, events))
  {
    FrameKept(start, events);
    var s := FoldEvents(start, events);
    forall i, j | 0 <= i < j < |s.claims| ensures s.claims[i].id != s.claims[j].id {
      assert s.claims[i].id == start.claims[i].id && s.claims[j].id == start.claims[j].id;
    }
  }

  lemma {:induction false} LifecycleKept(start: State, events: seq<Event>, i: nat)
    requires DistinctClaims(start) && LawfulHistory(start, events) && i < |start.claims|
    ensures |FoldEvents(start, events).claims| == |start.claims|
    ensures FoldEvents(start, events).claims[i].id == start.claims[i].id
    ensures Progressed(start.claims[i], FoldEvents(start, events).claims[i],
                       DecisionsOn(events, start.claims[i].id), ApprovalsOn(events, start.claims[i].id))
  {
    if events != [] {
      var past, event := events[..|events| - 1], events[|events| - 1];
      LifecycleKept(start, past, i);
      DistinctKept(start, past);
      var s := FoldEvents(start, past);
      ClaimStep(s, event, i);
      if ClaimOf(event) == s.claims[i].id {
        ProgressStep(start.claims[i], s.claims[i], s.coverages, event,
                     DecisionsOn(past, s.claims[i].id), ApprovalsOn(past, s.claims[i].id));
      }
    }
  }

  /** A rejected or fully paid claim never changes again. */
  lemma {:induction false} SettledAbsorbs(start: State, events: seq<Event>, late: seq<Event>, i: nat)
    requires DistinctClaims(start) && LawfulHistory(start, late) && events <= late
    requires i < |FoldEvents(start, events).claims| && FoldEvents(start, events).claims[i].status in {REJECTED, PAID}
    ensures |FoldEvents(start, late).claims| == |FoldEvents(start, events).claims|
    ensures FoldEvents(start, late).claims[i] == FoldEvents(start, events).claims[i]
  {
    if |events| < |late| {
      var past := late[..|late| - 1];
      SettledAbsorbs(start, events, past, i);
      DistinctKept(start, past);
      ClaimStep(FoldEvents(start, past), late[|late| - 1], i);
    } else {
      assert events == late;
    }
  }

  /** Over every run each claim is decided at most once, and never after being seeded decided. */
  lemma DecidedAtMostOnce(env: Env, start: State, seed: int, steps: seq<Step<Tool>>, i: nat)
    requires Sound(start) && i < |start.claims|
    ensures var end, claim := Reached(env, start, seed, steps), start.claims[i];
      DecisionsOn(RowEvents(end.events), claim.id) <= (if Undecided(claim.status) then 1 else 0)
  {
    EventSourcing(env, start, seed, steps);
    LifecycleKept(start, RowEvents(Reached(env, start, seed, steps).events), i);
  }

  lemma {:induction false} HistoryPrefix(start: State, events: seq<Event>, j: nat)
    requires LawfulHistory(start, events) && j <= |events|
    ensures LawfulHistory(start, events[..j])
  {
    if j < |events| {
      HistoryPrefix(start, events[..|events| - 1], j);
      assert events[..|events| - 1][..j] == events[..j];
    } else {
      assert events[..j] == events;
    }
  }

  lemma EventLawful(start: State, events: seq<Event>, j: nat)
    requires LawfulHistory(start, events) && j < |events|
    ensures LawfulHistory(start, events[..j]) && Lawful(FoldEvents(start, events[..j]), events[j])
  {
    HistoryPrefix(start, events, j + 1);
    assert events[..j + 1][..j] == events[..j];
  }

  /** Every payment event follows an approving decision on its claim, unless seeded approved. */
  lemma PaymentsFollowApproval(env: Env, start: State, seed: int, steps: seq<Step<Tool>>, j: nat) returns (i: nat)
    requires Sound(start) && j < |Reached(env, start, seed, steps).events|
    requires RowEvents(Reached(env, start, seed, steps).events)[j].eventType == PAYMENT_ISSUED
    ensures var events := RowEvents(Reached(env, start, seed, steps).events);
      && i < |start.claims| && start.claims[i].id == ClaimOf(events[j])
      && (start.claims[i].status == APPROVED || ApprovalsOn(events[..j], start.claims[i].id) == 1)
  {
    var events := RowEvents(Reached(env, start, seed, steps).events);
    EventSourcing(env, start, seed, steps);
    EventLawful(start, events, j);
    FrameKept(start, events[..j]);
    i := ClaimIndex(FoldEvents(start, events[..j]).claims, ClaimOf(events[j]));
    LifecycleKept(start, events[..j], i);
  }

  /** REJECTED and PAID absorb: from then on, whatever is submitted, the claim stays the same. */
  lemma ClosedClaimsStayClosed(env: Env, start: State, seed: int, steps: seq<Step<Tool>>, more: seq<Step<Tool>>, i: nat)
    requires Sound(start) && i < |Reached(env, start, seed, steps).state.claims|
    requires Reached(env, start, seed, steps).state.claims[i].status in {REJECTED, PAID}
    ensures i < |Reached(env, start, seed, steps + more).state.claims|
    ensures Reached(env, start, seed, steps + more).state.claims[i] == Reached(env, start, seed, steps).state.claims[i]
  {
    EventSourcing(env, start, seed, steps);
    EventSourcing(env, start, seed, steps + more);
    HistoryGrows(InsuranceDomain(), env, start, seed, steps, more);
    var early, late := RowEvents(Reached(env, start, seed, steps).events), RowEvents(Reached(env, start, seed, steps + more).events);
    SettledAbsorbs(start, early, late, i);
  }

  // ---------- Authority ----------

  /** Each event row stems from a submitted call that held the tool's scope and owned the claim. */
  lemma RowOrigin(env: Env, start: State, seed: int, steps: seq<Step<Tool>>, j: nat) returns (call: Call<Tool>, tool: Tool)
    requires j < |Reached(env, start, seed, steps).events|
    ensures Submit(call) in steps && call.request == Valid(tool)
    ensures var events := RowEvents(Reached(env, start, seed, steps).events);
      Fits(FoldEvents(start, events[..j]), events[j], tool, call.auth)
  {
    var db: Db<State, Tool, Answer, Event> := Initial(start, seed);
    var dom := InsuranceDomain();
    var log := Commits(dom, env, db, steps);
    RunRecords(dom, env, db, steps);
    RowEventsAreEvents(InsuranceDomain(), env, log);
    EventFits(env, start, log, j);
    CommitsAreSubmitted(dom, env, db, steps, j);
    call, tool := log[j].call, log[j].data;
  }

  predicate NoneOf(events: seq<Event>, eventType: EventType) {
    forall j :: 0 <= j < |events| ==> events[j].eventType != eventType
  }

  lemma NoneOfPast(events: seq<Event>, eventType: EventType)
    requires events != []
    ensures NoneOf(events, eventType) ==> NoneOf(events[..|events| - 1], eventType) && events[|events| - 1].eventType != eventType
  {
  }

  predicate NothingPaid(a: State, b: State, i: nat)
    requires i < |a.claims| == |b.claims|
  {
    b.claims[i].paidMinor == a.claims[i].paidMinor && b.payments == a.payments
  }

  lemma QuietStep(s: State, event: Event, i: nat)
    requires DistinctClaims(s) && Lawful(s, event) && i < |s.claims|
    ensures var s' := FoldEvent(s, event);
      && |s'.claims| == |s.claims|
      && (event.eventType != DECIDED ==> s'.claims[i].approvedMinor == s.claims[i].approvedMinor)
      && (event.eventType != PAYMENT_ISSUED ==> NothingPaid(s, s', i))
  {
    FoldParts(s, event);
    assert FoldEvent(s, event).Rows(PAYMENTS) == FoldEvent(s, event).payments && s.Rows(PAYMENTS) == s.payments;
  }

  lemma {:induction false} QuietHistory(start: State, events: seq<Event>, i: nat)
    requires LawfulHistory(start, events) && DistinctClaims(start) && i < |start.claims|
    ensures var s := FoldEvents(start, events);
      && |s.claims| == |start.claims|
      && (NoneOf(events, DECIDED) ==> s.claims[i].approvedMinor == start.claims[i].approvedMinor)
      && (NoneOf(events, PAYMENT_ISSUED) ==> NothingPaid(start, s, i))
  {
    if events != [] {
      var past, event := events[..|events| - 1], events[|events| - 1];
      QuietHistory(start, past, i);
      DistinctKept(start, past);
      QuietStep(FoldEvents(start, past), event, i);
      NoneOfPast(events, DECIDED);
      NoneOfPast(events, PAYMENT_ISSUED);
    }
  }

  /** An event's type tells the scope its call carried, so calls without it leave no such event. */
  lemma ScopelessType(env: Env, start: State, seed: int, steps: seq<Step<Tool>>, j: nat)
    requires j < |Reached(env, start, seed, steps).events|
    ensures var event := RowEvents(Reached(env, start, seed, steps).events)[j];
      && (AllCalls(steps, Without("claim:decide")) ==> event.eventType != DECIDED)
      && (AllCalls(steps, Without("claim:pay")) ==> event.eventType != PAYMENT_ISSUED)
  {
    var call, tool := RowOrigin(env, start, seed, steps, j);
    assert Submit(call).call.auth == call.auth;
  }

  /** Without a `claim:decide` call no approved amount moves; without a `claim:pay` call no paid
      amount moves and no payment is recorded, replayed calls included. */
  lemma MoneyNeedsAuthority(env: Env, start: State, seed: int, steps: seq<Step<Tool>>, i: nat)
    requires Sound(start) && i < |start.claims|
    ensures var s := Reached(env, start, seed, steps).state;
      && |s.claims| == |start.claims|
      && (AllCalls(steps, Without("claim:decide")) ==> s.claims[i].approvedMinor == start.claims[i].approvedMinor)
      && (AllCalls(steps, Without("claim:pay")) ==> NothingPaid(start, s, i))
  {
    EventSourcing(env, start, seed, steps);
    var events := RowEvents(Reached(env, start, seed, steps).events);
    QuietHistory(start, events, i);
    forall j | 0 <= j < |events|
      ensures AllCalls(steps, Without("claim:decide")) ==> events[j].eventType != DECIDED
      ensures AllCalls(steps, Without("claim:pay")) ==> events[j].eventType != PAYMENT_ISSUED
    {
      ScopelessType(env, start, seed, steps, j);
    }
  }

  predicate OwnedBy(start: State, claimId: string, customerId: string) {
    var k := ClaimIndex(start.claims, claimId);
    k < |start.claims| ==> start.claims[k].customerId == customerId
  }

  /** Every event is about a claim of one customer. */
  predicate AboutCustomer(start: State, events: seq<Event>, customerId: string) {
    forall j :: 0 <= j < |events| ==> OwnedBy(start, ClaimOf(events[j]), customerId)
  }

  lemma AttachedAppend(records: seq<Record>, r: Record, claimId: string)
    ensures Attached(records + [r], claimId) == Attached(records, claimId) + (if r.claimId == claimId then [r] else [])
  {
    assert (records + [r])[..|records|] == records;
  }

  /** An event about another claim leaves this claim's attached records alone. */
  lemma OthersUntouched(s: State, event: Event, i: nat, c: Collection)
    requires DistinctClaims(s) && Lawful(s, event) && i < |s.claims| && ClaimOf(event) != s.claims[i].id
    ensures Attached(FoldEvent(s, event).Rows(c), s.claims[i].id) == Attached(s.Rows(c), s.claims[i].id)
  {
    if CollectionOf(event.eventType) == Some(c) {
      AttachedAppend(s.Rows(c), RecordFrom(event.eventType, event.after), s.claims[i].id);
    }
  }

  lemma {:induction false} CustomerHistory(start: State, events: seq<Event>, customerId: string, i: nat, c: Collection)
    requires LawfulHistory(start, events) && DistinctClaims(start) && i < |start.claims|
    requires start.claims[i].customerId != customerId && AboutCustomer(start, events, customerId)
    ensures var s := FoldEvents(start, events);
      && |s.claims| == |start.claims| && s.claims[i] == start.claims[i]
      && Attached(s.Rows(c), start.claims[i].id) == Attached(start.Rows(c), start.claims[i].id)
  {
    if events != [] {
      var past, event := events[..|events| - 1], events[|events| - 1];
      assert forall j :: 0 <= j < |past| ==> past[j] == events[j];
      CustomerHistory(start, past, customerId, i, c);
      DistinctKept(start, past);
      FrameKept(start, past);
      var s := FoldEvents(start, past);
      SameIndex(start.claims, s.claims, ClaimOf(event));
      ClaimStep(s, event, i);
      OthersUntouched(s, event, i, c);
    }
  }

  lemma SameIndex(a: seq<Claim>, b: seq<Claim>, id: string)
    requires SameButSettled(a, b)
    ensures ClaimIndex(a, id) == ClaimIndex(b, id)
  {
    var i, j := ClaimIndex(a, id), ClaimIndex(b, id);
    assert i < |a| ==> b[i].id == id;
    assert j < |b| ==> a[j].id == id;
  }

  lemma CustomerEvent(env: Env, start: State, seed: int, steps: seq<Step<Tool>>, customerId: string, j: nat)
    requires AllCalls(steps, OnBehalfOf(customerId)) && j < |Reached(env, start, seed, steps).events|
    ensures OwnedBy(start, ClaimOf(RowEvents(Reached(env, start, seed, steps).events)[j]), customerId)
  {
    var events := RowEvents(Reached(env, start, seed, steps).events);
    var call, tool := RowOrigin(env, start, seed, steps, j);
    assert Submit(call).call.auth == call.auth;
    FrameKept(start, events[..j]);
    SameIndex(start.claims, FoldEvents(start, events[..j]).claims, ClaimOf(events[j]));
  }

  /** A run whose calls all carry one customer leaves every other customer's claims, and every
      record attached to them, exactly as they started. */
  lemma CustomersAreIsolated(env: Env, start: State, seed: int, steps: seq<Step<Tool>>, customerId: string, i: nat, c: Collection)
    requires Sound(start) && i < |start.claims| && start.claims[i].customerId != customerId
    requires AllCalls(steps, OnBehalfOf(customerId))
    ensures var s := Reached(env, start, seed, steps).state;
      && |s.claims| == |start.claims| && s.claims[i] == start.claims[i]
      && Attached(s.Rows(c), start.claims[i].id) == Attached(start.Rows(c), start.claims[i].id)
  {
    EventSourcing(env, start, seed, steps);
    var events := RowEvents(Reached(env, start, seed, steps).events);
    forall j | 0 <= j < |events| ensures OwnedBy(start, ClaimOf(events[j]), customerId) {
      CustomerEvent(env, start, seed, steps, customerId, j);
    }
    CustomerHistory(start, events, customerId, i, c);
  }
}
