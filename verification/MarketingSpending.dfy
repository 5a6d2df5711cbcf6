/** How much a run can spend on a campaign: no bound of its own without an approved budget. */
module MarketingSpending {
  import opened Wrappers
  import opened World
  import opened WorldRuns
  import opened Histories
  import opened Marketing
  import opened MarketingSeeds
  import opened MarketingRuns
  import opened MarketingInvariants

  // ---------- When a bound is kept ----------

  /** An accepted allocation leaves spending within any bound exactly when the amount is at most what
      the bound leaves before the call; the proposed and the approved budget are two such bounds. */
  lemma AllocationWithinExactly(auth: Authorization, tool: Tool, mint: Mint, s: State, bound: int)
    requires tool.AllocateCampaignBudget? && Apply(auth, tool, mint, s).Accepted?
    ensures var i := CampaignIndex(s.campaigns, tool.campaignId); var s' := Apply(auth, tool, mint, s).state;
      && i < |s.campaigns| == |s'.campaigns|
      && (s'.campaigns[i].spentMinor <= bound <==> tool.amountMinor <= bound - s.campaigns[i].spentMinor)
  {
  }

  lemma SpentStep(start: State, past: seq<Event>, event: Event, i: nat)
    requires DistinctCampaigns(start) && LawfulHistory(start, past + [event]) && i < |start.campaigns|
    ensures var s, s' := FoldEvents(start, past), FoldEvents(start, past + [event]);
      && |s.campaigns| == |s'.campaigns| == |start.campaigns|
      && (if event.eventType == BUDGET_ALLOCATED && CampaignOf(event) == start.campaigns[i].id
          then AmountAt(event.after, AMOUNT_MINOR) > 0
               && s'.campaigns[i].spentMinor == s.campaigns[i].spentMinor + AmountAt(event.after, AMOUNT_MINOR)
          else s'.campaigns[i].spentMinor == s.campaigns[i].spentMinor)
  {
    assert (past + [event])[..|past|] == past;
    FrameKept(start, past);
    DistinctKept(start, past);
    CampaignStep(FoldEvents(start, past), event, i);
  }

  /** What the campaign had left under a bound before each allocation to it covered the amount. */
  predicate GuardsHeld(start: State, events: seq<Event>, i: nat, bound: int)
    requires i < |start.campaigns|
  {
    events == [] ||
    var past, event := events[..|events| - 1], events[|events| - 1];
    FrameKept(start, past);
    && GuardsHeld(start, past, i, bound)
    && (event.eventType == BUDGET_ALLOCATED && CampaignOf(event) == start.campaigns[i].id ==>
          AmountAt(event.after, AMOUNT_MINOR) <= bound - FoldEvents(start, past).campaigns[i].spentMinor)
  }

  lemma {:induction false} HistoryWithinExactly(start: State, events: seq<Event>, i: nat, bound: int)
    requires DistinctCampaigns(start) && LawfulHistory(start, events)
    requires i < |start.campaigns| && start.campaigns[i].spentMinor <= bound
    ensures i < |FoldEvents(start, events).campaigns|
    ensures FoldEvents(start, events).campaigns[i].spentMinor <= bound <==> GuardsHeld(start, events, i, bound)
  {
    if events != [] {
      var past, event := events[..|events| - 1], events[|events| - 1];
      assert events == past + [event];
      HistoryWithinExactly(start, past, i, bound);
      SpentStep(start, past, event, i);
    }
  }

  /** Over any run: spending ends within a bound it starts within, its proposed or its approved
      budget for instance, exactly when every single allocation to the campaign was within what the
      bound had left before it. */
  lemma RunWithinExactly(env: Env, start: State, seed: int, steps: seq<Step<Tool>>, i: nat, bound: int)
    requires Thrifty(start) && i < |start.campaigns| && start.campaigns[i].spentMinor <= bound
    ensures var end := Reached(env, start, seed, steps);
      && i < |end.state.campaigns|
      && (end.state.campaigns[i].spentMinor <= bound <==> GuardsHeld(start, RowEvents(end.events), i, bound))
  {
    EventSourcing(env, start, seed, steps);
    HistoryWithinExactly(start, RowEvents(Reached(env, start, seed, steps).events), i, bound);
  }

  // ---------- Spending without bound ----------

  datatype Spender = Spender(auth: Authorization, campaignId: string, currency: string)

  /** One allocation call under its own key, without fault injection. */
  function Allocating(env: Env, who: Spender, amount: pos, key: string): Step<Tool> {
    Submit(Call("call", env.runId, Valid(AllocateCampaignBudget(who.campaignId, amount, who.currency, key, false)), who.auth, None))
  }

  /** The caller is entitled to, and the account and currencies allow, allocating to this campaign. */
  predicate Fundable(s: State, who: Spender) {
    var i := CampaignIndex(s.campaigns, who.campaignId);
    && i < |s.campaigns| && who.auth.customerId in {None, Some(s.campaigns[i].advertiserId)} && "campaign:budget-commit" in who.auth.scopes
    && s.campaigns[i].status !in {COMPLETED, REJECTED}
    && var segment, advertiser := FindSegment(s.segments, s.campaigns[i].segmentId), FindAdvertiser(s.advertisers, s.campaigns[i].advertiserId);
    && segment.Some? && advertiser.Some? && advertiser.value.status == ACTIVE
    && who.currency == s.campaigns[i].currency == segment.value.currency
  }

  /** What an allocation commit does: one campaign charged, one key taken, the frame kept. */
  predicate ChargedBy(db: Db<State, Tool, Answer, Event>, db': Db<State, Tool, Answer, Event>, i: nat, amount: pos, key: string) {
    && i < |db.state.campaigns|
    && db'.state.campaigns == db.state.campaigns[i := Charged(db.state.campaigns[i], amount)]
    && db'.state.segments == db.state.segments && db'.state.advertisers == db.state.advertisers
    && db'.table.Keys == db.table.Keys + {key}
  }

  /** A fundable allocation under a fresh key and within max(remaining, proposed) commits. */
  lemma AllocationCommits(env: Env, db: Db<State, Tool, Answer, Event>, who: Spender, amount: pos, key: string)
    requires Fundable(db.state, who) && key !in db.table
    requires var c := db.state.campaigns[CampaignIndex(db.state.campaigns, who.campaignId)];
      amount <= Max(c.approvedMinor - c.spentMinor, c.proposedMinor)
    ensures CommitOf(MarketingDomain(), env, db, Allocating(env, who, amount, key)).Some?
    ensures ChargedBy(db, StepDb(MarketingDomain(), env, db, Allocating(env, who, amount, key)),
                      CampaignIndex(db.state.campaigns, who.campaignId), amount, key)
  {
    var tool := AllocateCampaignBudget(who.campaignId, amount, who.currency, key, false);
    AllocationAccepted(who, MintAt(env, db.clock), db.state, tool);
    StepEffect(MarketingDomain(), env, db, Allocating(env, who, amount, key));
  }

  lemma AllocationAccepted(who: Spender, mint: Mint, s: State, tool: Tool)
    requires tool.AllocateCampaignBudget? && tool.campaignId == who.campaignId && tool.currency == who.currency && Fundable(s, who)
    requires var c := s.campaigns[CampaignIndex(s.campaigns, who.campaignId)];
      tool.amountMinor <= Max(c.approvedMinor - c.spentMinor, c.proposedMinor)
    ensures var i := CampaignIndex(s.campaigns, who.campaignId); var applied := Apply(who.auth, tool, mint, s);
      && applied.Accepted? && applied.event.Some?
      && applied.state.campaigns == s.campaigns[i := Charged(s.campaigns[i], tool.amountMinor)]
      && applied.state.segments == s.segments && applied.state.advertisers == s.advertisers
  {
  }

  function Repeated(env: Env, who: Spender, amount: pos, keys: seq<string>): (steps: seq<Step<Tool>>)
    ensures |steps| == |keys|
  {
    if keys == [] then [] else Repeated(env, who, amount, keys[..|keys| - 1]) + [Allocating(env, who, amount, keys[|keys| - 1])]
  }

  predicate FreshEach(keys: seq<string>) {
    forall i, j :: 0 <= i < j < |keys| ==> keys[i] != keys[j]
  }

  lemma StillFundable(s: State, s': State, who: Spender, spent: int)
    requires Fundable(s, who) && s'.segments == s.segments && s'.advertisers == s.advertisers
    requires var i := CampaignIndex(s.campaigns, who.campaignId); s'.campaigns == s.campaigns[i := s.campaigns[i].(spentMinor := spent)]
    ensures Fundable(s', who) && CampaignIndex(s'.campaigns, who.campaignId) == CampaignIndex(s.campaigns, who.campaignId)
  {
    var i, j := CampaignIndex(s.campaigns, who.campaignId), CampaignIndex(s'.campaigns, who.campaignId);
    assert s'.campaigns[i].id == who.campaignId;
    assert j < |s'.campaigns| ==> s.campaigns[j].id == s'.campaigns[j].id;
  }

  /** The database after n allocations of the proposed budget under distinct keys. */
  ghost predicate Spent(start: State, db: Db<State, Tool, Answer, Event>, who: Spender, keys: seq<string>)
    requires CampaignIndex(start.campaigns, who.campaignId) < |start.campaigns|
  {
    var i := CampaignIndex(start.campaigns, who.campaignId);
    var c := start.campaigns[i];
    && db.state.campaigns == start.campaigns[i := c.(spentMinor := c.spentMinor + |keys| * c.proposedMinor)]
    && db.state.segments == start.segments && db.state.advertisers == start.advertisers
    && forall k :: k in db.table ==> k in keys
  }

  lemma SpendOnce(start: State, db: Db<State, Tool, Answer, Event>, db': Db<State, Tool, Answer, Event>, who: Spender,
                  keys: seq<string>, key: string)
    requires Fundable(start, who) && Spent(start, db, who, keys)
    requires var i := CampaignIndex(start.campaigns, who.campaignId);
      start.campaigns[i].approvedMinor == 0 && ChargedBy(db, db', i, start.campaigns[i].proposedMinor, key)
    ensures Spent(start, db', who, keys + [key])
  {
    var c := start.campaigns[CampaignIndex(start.campaigns, who.campaignId)];
    assert (|keys| + 1) * c.proposedMinor == |keys| * c.proposedMinor + c.proposedMinor;
  }

  lemma SpendAgain(env: Env, start: State, db: Db<State, Tool, Answer, Event>, who: Spender, keys: seq<string>, key: string)
    requires Fundable(start, who) && key !in keys && Spent(start, db, who, keys)
    requires start.campaigns[CampaignIndex(start.campaigns, who.campaignId)].approvedMinor == 0
    ensures var c := start.campaigns[CampaignIndex(start.campaigns, who.campaignId)];
      Spent(start, StepDb(MarketingDomain(), env, db, Allocating(env, who, c.proposedMinor, key)), who, keys + [key])
  {
    var c := start.campaigns[CampaignIndex(start.campaigns, who.campaignId)];
    StillFundable(start, db.state, who, c.spentMinor + |keys| * c.proposedMinor);
    AllocationCommits(env, db, who, c.proposedMinor, key);
    SpendOnce(start, db, StepDb(MarketingDomain(), env, db, Allocating(env, who, c.proposedMinor, key)), who, keys, key);
  }

  /** Without an approved budget no bound exists over runs: from any start where the campaign is
      fundable, n allocations of its proposed budget under distinct keys all commit and leave
      n times the proposed budget spent. */
  lemma {:induction false} UnapprovedSpendUnbounded(env: Env, start: State, seed: int, who: Spender, keys: seq<string>)
    requires Fundable(start, who) && FreshEach(keys)
    requires start.campaigns[CampaignIndex(start.campaigns, who.campaignId)].approvedMinor == 0
    ensures var c := start.campaigns[CampaignIndex(start.campaigns, who.campaignId)];
      Spent(start, Reached(env, start, seed, Repeated(env, who, c.proposedMinor, keys)), who, keys)
  {
    var c := start.campaigns[CampaignIndex(start.campaigns, who.campaignId)];
    if keys != [] {
      var past, key := keys[..|keys| - 1], keys[|keys| - 1];
      UnapprovedSpendUnbounded(env, start, seed, who, past);
      SpendAgain(env, start, Reached(env, start, seed, Repeated(env, who, c.proposedMinor, past)), who, past, key);
      assert past + [key] == keys;
    }
  }

  // ---------- Exactly when a campaign's spending is bounded ----------

  function SpentAfter(env: Env, start: State, seed: int, steps: seq<Step<Tool>>, i: nat): int {
    var campaigns := Reached(env, start, seed, steps).state.campaigns;
    if i < |campaigns| then campaigns[i].spentMinor else 0
  }

  ghost predicate NeverAbove(env: Env, start: State, seed: int, i: nat, bound: int) {
    forall steps :: SpentAfter(env, start, seed, steps, i) <= bound
  }

  function Xs(n: nat): (s: string)
    ensures |s| == n
  {
    seq(n, _ => 'x')
  }

  lemma PassesBound(env: Env, start: State, seed: int, who: Spender, bound: int) returns (steps: seq<Step<Tool>>)
    requires Fundable(start, who)
    requires start.campaigns[CampaignIndex(start.campaigns, who.campaignId)].approvedMinor == 0
    ensures SpentAfter(env, start, seed, steps, CampaignIndex(start.campaigns, who.campaignId)) > bound
  {
    var c := start.campaigns[CampaignIndex(start.campaigns, who.campaignId)];
    var n: nat := if bound < c.spentMinor then 1 else bound - c.spentMinor + 1;
    var keys := seq(n, k requires 0 <= k < n => Xs(k));
    forall i, j | 0 <= i < j < n ensures keys[i] != keys[j] {
      assert |keys[i]| == i && |keys[j]| == j;
    }
    steps := Repeated(env, who, c.proposedMinor, keys);
    UnapprovedSpendUnbounded(env, start, seed, who, keys);
    Multiply(n, c.proposedMinor);
  }

  lemma Multiply(n: nat, p: int)
    requires p > 0
    ensures n * p >= n
  {
  }

  /** A fundable campaign's spending is bounded over all runs exactly when a budget was approved. */
  lemma BoundedExactlyWhenApproved(env: Env, start: State, seed: int, who: Spender)
    requires Thrifty(start) && Fundable(start, who)
    ensures var i := CampaignIndex(start.campaigns, who.campaignId);
      (exists bound :: NeverAbove(env, start, seed, i, bound)) <==> start.campaigns[i].approvedMinor > 0
  {
    var i := CampaignIndex(start.campaigns, who.campaignId);
    var c := start.campaigns[i];
    if c.approvedMinor > 0 {
      var bound := c.approvedMinor + Max(c.approvedMinor, c.proposedMinor);
      forall steps ensures SpentAfter(env, start, seed, steps, i) <= bound {
        ApprovedBound(env, start, seed, steps, i);
      }
      assert NeverAbove(env, start, seed, i, bound);
    } else {
      forall bound ensures !NeverAbove(env, start, seed, i, bound) {
        var steps := PassesBound(env, start, seed, who, bound);
      }
    }
  }

  lemma ApprovedBound(env: Env, start: State, seed: int, steps: seq<Step<Tool>>, i: nat)
    requires Thrifty(start) && i < |start.campaigns| && start.campaigns[i].approvedMinor > 0
    ensures SpentAfter(env, start, seed, steps, i) < start.campaigns[i].approvedMinor + Max(start.campaigns[i].approvedMinor, start.campaigns[i].proposedMinor)
  {
    SpendInvariant(env, start, seed, steps, i);
    EventSourcing(env, start, seed, steps);
    FrameKept(start, RowEvents(Reached(env, start, seed, steps).events));
  }

  // ---------- From the seeds ----------

  const OPERATOR: Authorization := Authorization("operator", None, {"campaign:budget-commit"})

  const PRIMARY: Spender := Spender(OPERATOR, "cmp_100", "USD")
  const RELATED: Spender := Spender(OPERATOR, "cmp_101", "USD")

  lemma PrimaryFundable(seed: int, name: Namer)
    requires !(700 <= seed < 900 || 1200 <= seed < 1300)
    ensures var s := BuildState(seed, name);
      CampaignIndex(s.campaigns, "cmp_100") == 0 && Fundable(s, PRIMARY)
  {
    var s := BuildState(seed, name);
    assert FindSegment(s.segments, "seg_paid_social") == Some(s.segments[0]);
    assert FindAdvertiser(s.advertisers, "adv_500") == Some(s.advertisers[0]);
  }

  lemma ChargedOpen(c: Campaign, amount: pos)
    requires c.approvedMinor > 0 ==> c.spentMinor + amount < c.approvedMinor
    ensures Charged(c, amount) == c.(spentMinor := c.spentMinor + amount)
  {
  }

  /** A campaign at its index, with its budgets and what it has spent, ready for allocations. */
  predicate Ready(s: State, who: Spender, i: nat, proposed: pos, approved: nat, spent: int) {
    && i == CampaignIndex(s.campaigns, who.campaignId) < |s.campaigns| && Fundable(s, who)
    && s.campaigns[i].proposedMinor == proposed && s.campaigns[i].approvedMinor == approved && s.campaigns[i].spentMinor == spent
  }

  /** An allocation that does not complete the campaign only moves its spending. */
  lemma StillReady(db: Db<State, Tool, Answer, Event>, db': Db<State, Tool, Answer, Event>, who: Spender, i: nat, proposed: pos,
                   approved: nat, spent: int, amount: pos, key: string)
    requires Ready(db.state, who, i, proposed, approved, spent) && ChargedBy(db, db', i, amount, key)
    requires approved > 0 ==> spent + amount < approved
    ensures Ready(db'.state, who, i, proposed, approved, spent + amount)
  {
    ChargedOpen(db.state.campaigns[i], amount);
    StillFundable(db.state, db'.state, who, spent + amount);
  }

  lemma ReadyAllocates(env: Env, db: Db<State, Tool, Answer, Event>, who: Spender, i: nat, proposed: pos, approved: nat,
                       spent: int, amount: pos, key: string) returns (db': Db<State, Tool, Answer, Event>)
    requires Ready(db.state, who, i, proposed, approved, spent) && key !in db.table
    requires amount <= Max(approved - spent, proposed)
    ensures db' == StepDb(MarketingDomain(), env, db, Allocating(env, who, amount, key)) && ChargedBy(db, db', i, amount, key)
    ensures db'.state.campaigns[i].spentMinor == spent + amount
  {
    AllocationCommits(env, db, who, amount, key);
    db' := StepDb(MarketingDomain(), env, db, Allocating(env, who, amount, key));
  }

  lemma RunTwo(env: Env, db: Db<State, Tool, Answer, Event>, one: Step<Tool>, two: Step<Tool>)
    ensures Run(MarketingDomain(), env, db, [one, two]) == StepDb(MarketingDomain(), env, StepDb(MarketingDomain(), env, db, one), two)
  {
    assert [one, two][..1] == [one] && [one][..0] == [];
    assert Run(MarketingDomain(), env, db, [one]) == StepDb(MarketingDomain(), env, db, one);
  }

  /** A first allocation that leaves the campaign open, then a second, from a fresh database. */
  lemma TwoAllocations(env: Env, start: State, seed: int, who: Spender, i: nat, proposed: pos, approved: nat, first: pos, second: pos)
    requires Ready(start, who, i, proposed, approved, 0)
    requires first <= Max(approved, proposed) && (approved > 0 ==> first < approved) && second <= Max(approved - first, proposed)
    ensures SpentAfter(env, start, seed, [Allocating(env, who, first, "x"), Allocating(env, who, second, "xx")], i) == first + second
  {
    var one, two := Allocating(env, who, first, "x"), Allocating(env, who, second, "xx");
    var db: Db<State, Tool, Answer, Event> := Initial(start, seed);
    var db1 := ReadyAllocates(env, db, who, i, proposed, approved, 0, first, "x");
    StillReady(db, db1, who, i, proposed, approved, 0, first, "x");
    assert |"x"| != |"xx"|;
    var db2 := ReadyAllocates(env, db1, who, i, proposed, approved, first, second, "xx");
    RunTwo(env, db, one, two);
  }

  function PrimaryApproved(seed: int): nat {
    if PrimaryStatus(seed) == LIVE then Min(PrimaryProposed(seed), TotalCap(seed)) else 0
  }

  lemma PrimaryReady(seed: int, name: Namer)
    requires !(700 <= seed < 900 || 1200 <= seed < 1300)
    ensures Ready(BuildState(seed, name), PRIMARY, 0, PrimaryProposed(seed), PrimaryApproved(seed), 0)
  {
    PrimaryFundable(seed, name);
  }

  lemma SeedBudgets()
    ensures PrimaryProposed(0) == 200_000 && PrimaryApproved(0) == 0
    ensures PrimaryProposed(600) == 200_000 && PrimaryApproved(600) == 200_000
  {
  }

  /** Concretely: from seed 0, where 200 000 is proposed and nothing approved, two allocations of
      200 000 spend twice the proposed budget; from seed 600, where 200 000 is approved, 199 999 and
      then 200 000 spend almost twice the approved one. */
  lemma SeedsOverspend(env: Env, name: Namer)
    ensures Ready(BuildState(0, name), PRIMARY, 0, 200_000, 0, 0)
    ensures SpentAfter(env, BuildState(0, name), 0, [Allocating(env, PRIMARY, 200_000, "x"), Allocating(env, PRIMARY, 200_000, "xx")], 0)
      == 400_000
    ensures Ready(BuildState(600, name), PRIMARY, 0, 200_000, 200_000, 0)
    ensures SpentAfter(env, BuildState(600, name), 600, [Allocating(env, PRIMARY, 199_999, "x"), Allocating(env, PRIMARY, 200_000, "xx")], 0)
      == 399_999
  {
    SeedBudgets();
    SeedOverspends(env, 0, name, 200_000, 200_000);
    SeedOverspends(env, 600, name, 199_999, 200_000);
  }

  lemma SeedOverspends(env: Env, seed: int, name: Namer, first: pos, second: pos)
    requires !(700 <= seed < 900 || 1200 <= seed < 1300)
    requires var proposed, approved := PrimaryProposed(seed), PrimaryApproved(seed);
      first <= Max(approved, proposed) && (approved > 0 ==> first < approved) && second <= Max(approved - first, proposed)
    ensures Ready(BuildState(seed, name), PRIMARY, 0, PrimaryProposed(seed), PrimaryApproved(seed), 0)
    ensures SpentAfter(env, BuildState(seed, name), seed, [Allocating(env, PRIMARY, first, "x"), Allocating(env, PRIMARY, second, "xx")], 0)
      == first + second
  {
    PrimaryReady(seed, name);
    var start := BuildState(seed, name);
    TwoAllocations(env, start, seed, PRIMARY, 0, PrimaryProposed(seed), PrimaryApproved(seed), first, second);
  }

  // ---------- The related campaign ----------

  lemma RelatedFundable(seed: int, name: Namer)
    requires 1100 <= seed < 1200
    ensures var s := BuildState(seed, name);
      CampaignIndex(s.campaigns, "cmp_101") == 1 && Fundable(s, RELATED)
  {
    var s := BuildState(seed, name);
    RelatedSegmentExists(seed, name);
    assert FindAdvertiser(s.advertisers, "adv_500") == Some(s.advertisers[0]);
    assert FindSegment(s.segments, "seg_paid_social") == Some(s.segments[0]);
  }

  /** From every seed in the shared-segment band an allocation on the related campaign, up to its
      proposed budget and under any key, commits. */
  lemma RelatedAllocationCommits(env: Env, seed: int, name: Namer, amount: pos, key: string)
    requires 1100 <= seed < 1200 && amount <= 185_000
    ensures var step := Allocating(env, RELATED, amount, key);
      && CommitOf(MarketingDomain(), env, Initial(BuildState(seed, name), seed), step).Some?
      && SpentAfter(env, BuildState(seed, name), seed, [step], 1) == amount
  {
    var start, who := BuildState(seed, name), RELATED;
    var step := Allocating(env, who, amount, key);
    var db: Db<State, Tool, Answer, Event> := Initial(start, seed);
    RelatedFundable(seed, name);
    AllocationCommits(env, db, who, amount, key);
    assert [step][..0] == [];
    assert Run(MarketingDomain(), env, db, [step]) == StepDb(MarketingDomain(), env, db, step);
  }

  ghost predicate EverFunded(env: Env, start: State, seed: int, i: nat) {
    exists steps :: SpentAfter(env, start, seed, steps, i) > 0
  }

  /** Some run spends on the related campaign exactly from the seeds 1100 to 1199. */
  lemma RelatedFundedExactly(env: Env, seed: int, name: Namer)
    ensures EverFunded(env, BuildState(seed, name), seed, 1) <==> 1100 <= seed < 1200
  {
    var start := BuildState(seed, name);
    if 1100 <= seed < 1200 {
      RelatedAllocationCommits(env, seed, name, 1, "x");
    } else {
      forall steps ensures SpentAfter(env, start, seed, steps, 1) <= 0 {
        RelatedNeverFunded(env, seed, name, steps);
      }
    }
  }
}
