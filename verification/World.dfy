/**
 * The transactional spine every enterprise world shares: one transaction commits the world
 * state, one row of the append-only event log and one row of the idempotency table, or none.
 * A world's own tools are a `Domain` of functions, so the results here hold for each of them.
 */
module World {
  import opened Wrappers
  import Ids

  /** Every machine-readable error type a world can answer with. */
  datatype ErrorType =
    | RunMismatch | ToolNotFound | ToolValidationError | ToolExecutionError
    | IdempotencyKeyMismatch | IdempotencyConflict
    | AuthorizationDenied | EntityNotFound
    | IllegalClaimTransition | ApprovalExceedsCoverage | InvalidDecisionAmount
    | PolicyIneligible | CurrencyMismatch | PaymentExceedsApproved
    | IllegalCampaignTransition | AdvertiserIneligible | AllocationExceedsBudget

  datatype Authorization = Authorization(actorId: string, customerId: Option<string>, scopes: set<string>)

  /** A tool name nobody declared, arguments the schema refuses, or arguments as typed data. */
  datatype Request<+A> = UnknownTool | InvalidArguments | Valid(data: A)

  datatype Call<+A> = Call(
    id: string, runId: string, request: Request<A>, auth: Authorization, envelopeKey: Option<string>)

  /** Gives the identifier for a prefix and a sequence number at the current clock. */
  type Mint = (string, int) -> string

  datatype Applied<+S, +O, +V> = Accepted(state: S, output: O, event: Option<V>) | Rejected(error: ErrorType)

  datatype Domain<!S, !A, !O, !V> = Domain(
    toolName: A -> string,
    mutates: A -> bool,
    key: A -> Option<string>,
    injectsFailure: A -> bool,
    apply: (Authorization, A, Mint, S) -> Applied<S, O, V>)

  /** The run's identity and how it names an entity: clock, prefix and sequence to text. */
  datatype Env = Env(runId: string, entityId: (int, string, int) -> string)

  // ---------- Rows and tables ----------

  datatype Row<+V> = Row(
    eventId: string, runId: string, sequence: int, occurredAt: int,
    auth: Authorization, requestId: string, tool: string, event: V)

  /** What the SHA-256 input covers; the digest itself is taken to be injective. */
  datatype Fingerprint<+A> = Fingerprint(tool: string, arguments: A, auth: Authorization)

  datatype Entry<+A, +O> = Entry(tool: string, fingerprint: Fingerprint<A>, actorId: string, result: O)

  /** The namespace's three tables and the controlled clock, in microseconds since the epoch. */
  datatype Db<+S, +A, +O, +V> = Db(
    state: S, events: seq<Row<V>>, table: map<string, Entry<A, O>>, clock: int)

  datatype Executed<+O> = Output(value: O) | Raised(error: ErrorType) | Escaped

  datatype Reply<+O> =
    | Success(callId: string, output: O, startedAt: int, endedAt: int)
    | Failure(callId: string, error: ErrorType, startedAt: int, endedAt: int)
    | Crash

  const MILLISECOND: int := 1000
  const DAY: int := 86_400_000_000
  const EPOCH_2026: int := 1_767_225_600_000_000

  function InitialClock(seed: int): int {
    EPOCH_2026 + (seed % 365) * DAY
  }

  function Initial<S, A, O, V>(state: S, seed: int): Db<S, A, O, V> {
    Db(state, [], map[], InitialClock(seed))
  }

  function EntityId(digest: (string, int) -> int, clock: int, prefix: string, sequence: int): string {
    prefix + "_" + Ids.Ulid(clock / MILLISECOND + sequence, digest(prefix, sequence))
  }

  /** The naming every world uses; `digest` is the run's hash of prefix and sequence. */
  function StandardEnv(runId: string, digest: (string, int) -> int): Env {
    Env(runId, (clock: int, prefix: string, sequence: int) => EntityId(digest, clock, prefix, sequence))
  }

  function MintAt(env: Env, clock: int): Mint {
    (prefix: string, sequence: int) => env.entityId(clock, prefix, sequence)
  }

  /** `COALESCE(MAX(sequence), 0)` over the event rows. */
  function MaxSequence<V>(rows: seq<Row<V>>): int {
    if rows == [] then 0
    else
      var rest, last := MaxSequence(rows[..|rows| - 1]), rows[|rows| - 1].sequence;
      if |rows| == 1 || last > rest then last else rest
  }

  // ---------- One call ----------

  function FingerprintOf<S, A, O, V>(dom: Domain<S, A, O, V>, call: Call<A>, data: A): Fingerprint<A> {
    Fingerprint(dom.toolName(data), data, call.auth)
  }

  function RowOf<S, A, O, V>(dom: Domain<S, A, O, V>, env: Env, clock: int, sequence: int,
                             call: Call<A>, data: A, event: V): Row<V> {
    Row(env.entityId(clock, "evt", sequence), env.runId, sequence, clock + MILLISECOND,
        call.auth, call.id, dom.toolName(data), event)
  }

  function EntryOf<S, A, O, V>(dom: Domain<S, A, O, V>, call: Call<A>, data: A, output: O): Entry<A, O> {
    Entry(dom.toolName(data), FingerprintOf(dom, call, data), call.auth.actorId, output)
  }

  predicate KeyAgrees<S, A, O, V>(dom: Domain<S, A, O, V>, call: Call<A>, data: A) {
    dom.key(data).Some? && (call.envelopeKey.None? || call.envelopeKey == dom.key(data))
  }

  /** The transaction: key check, replay check, domain behaviour, three writes or a rollback. */
  function ExecuteStep<S, A(==), O, V>(dom: Domain<S, A, O, V>, env: Env, db: Db<S, A, O, V>,
                                       call: Call<A>, data: A): (Db<S, A, O, V>, Executed<O>)
  {
    if dom.mutates(data) && !KeyAgrees(dom, call, data) then (db, Raised(IdempotencyKeyMismatch))
    else if dom.mutates(data) && dom.key(data).value in db.table then
      var prior := db.table[dom.key(data).value];
      if prior.tool != dom.toolName(data) || prior.fingerprint != FingerprintOf(dom, call, data) then
        (db, Raised(IdempotencyConflict))
      else if prior.actorId != call.auth.actorId then (db, Raised(AuthorizationDenied))
      else (db, Output(prior.result))
    else
      match dom.apply(call.auth, data, MintAt(env, db.clock), db.state)
      case Rejected(error) => (db, Raised(error))
      case Accepted(state, output, event) =>
        if !dom.mutates(data) then (db, Output(output))
        else if event.None? then (db, Escaped)
        else if dom.injectsFailure(data) then (db, Raised(ToolExecutionError))
        else
          var row := RowOf(dom, env, db.clock, MaxSequence(db.events) + 1, call, data, event.value);
          (db.(state := state, events := db.events + [row],
               table := db.table[dom.key(data).value := EntryOf(dom, call, data, output)]),
           Output(output))
  }

  function Tick<S, A, O, V>(db: Db<S, A, O, V>): Db<S, A, O, V> {
    db.(clock := db.clock + MILLISECOND)
  }

  function Refused<S, A, O, V>(db: Db<S, A, O, V>, call: Call<A>, error: ErrorType): (Db<S, A, O, V>, Reply<O>) {
    (Tick(db), Failure(call.id, error, db.clock, db.clock + MILLISECOND))
  }

  function InvokeStep<S, A(==), O, V>(dom: Domain<S, A, O, V>, env: Env, db: Db<S, A, O, V>,
                                      call: Call<A>): (Db<S, A, O, V>, Reply<O>)
  {
    if call.runId != env.runId then Refused(db, call, RunMismatch)
    else match call.request
      case UnknownTool => Refused(db, call, ToolNotFound)
      case InvalidArguments => Refused(db, call, ToolValidationError)
      case Valid(data) =>
        var (db', executed) := ExecuteStep(dom, env, db, call, data);
        match executed
        case Output(value) => (Tick(db'), Success(call.id, value, db.clock, db.clock + MILLISECOND))
        case Raised(error) => Refused(db', call, error)
        case Escaped => (db', Crash)
  }

  function AdvanceStep<S, A, O, V>(db: Db<S, A, O, V>, delta: int): Db<S, A, O, V> {
    if delta < 0 then db else db.(clock := db.clock + delta)
  }

  // ---------- The world object ----------

  class JsonWorld<S, A(==), O, V> {
    const dom: Domain<S, A, O, V>
    const env: Env
    var state: S
    var events: seq<Row<V>>
    var table: map<string, Entry<A, O>>
    var clock: int

    ghost function View(): Db<S, A, O, V>
      reads this
    {
      Db(state, events, table, clock)
    }

    constructor (dom: Domain<S, A, O, V>, env: Env, initial: S, seed: int)
      ensures this.dom == dom && this.env == env
      ensures View() == Initial<S, A, O, V>(initial, seed)
    {
      this.dom, this.env := dom, env;
      state, events, table, clock := initial, [], map[], InitialClock(seed);
    }

    method NextSequence() returns (next: int)
      ensures next == MaxSequence(events) + 1
    {
      var largest := 0;
      for i := 0 to |events|
        invariant largest == MaxSequence(events[..i])
      {
        assert events[..i + 1][..i] == events[..i];
        if i == 0 || events[i].sequence > largest {
          largest := events[i].sequence;
        }
      }
      assert events[..|events|] == events;
      next := largest + 1;
    }

    /** Writes the three tables in order; an injected failure rolls all three back. */
    method Commit(call: Call<A>, data: A, changed: S, output: O, event: V) returns (committed: bool)
      requires dom.key(data).Some?
      modifies this`state, this`events, this`table
      ensures committed == !dom.injectsFailure(data)
      ensures committed ==>
        && state == changed
        && events == old(events) + [RowOf(dom, env, clock, MaxSequence(old(events)) + 1, call, data, event)]
        && table == old(table)[dom.key(data).value := EntryOf(dom, call, data, output)]
      ensures !committed ==> View() == old(View())
    {
      var savepoint := (state, events, table);
      var sequence := NextSequence();
      state := changed;
      events := events + [RowOf(dom, env, clock, sequence, call, data, event)];
      table := table[dom.key(data).value := EntryOf(dom, call, data, output)];
      committed := !dom.injectsFailure(data);
      if !committed {
        state, events, table := savepoint.0, savepoint.1, savepoint.2;
      }
    }

    method Execute(call: Call<A>, data: A) returns (executed: Executed<O>)
      modifies this`state, this`events, this`table
      ensures (View(), executed) == ExecuteStep(dom, env, old(View()), call, data)
    {
      if dom.mutates(data) {
        if !KeyAgrees(dom, call, data) {
          return Raised(IdempotencyKeyMismatch);
        }
        var key := dom.key(data).value;
        if key in table {
          var prior := table[key];
          if prior.tool != dom.toolName(data) || prior.fingerprint != FingerprintOf(dom, call, data) {
            return Raised(IdempotencyConflict);
          }
          if prior.actorId != call.auth.actorId {
            return Raised(AuthorizationDenied);
          }
          return Output(prior.result);
        }
      }
      var applied := dom.apply(call.auth, data, MintAt(env, clock), state);
      match applied {
        case Rejected(error) => executed := Raised(error);
        case Accepted(changed, output, event) =>
          if !dom.mutates(data) {
            return Output(output);
          }
          if event.None? {
            return Escaped;
          }
          var committed := Commit(call, data, changed, output, event.value);
          executed := if committed then Output(output) else Raised(ToolExecutionError);
      }
    }

    method Error(call: Call<A>, error: ErrorType) returns (reply: Reply<O>)
      modifies this`clock
      ensures (View(), reply) == Refused(old(View()), call, error)
    {
      var started := clock;
      clock := clock + MILLISECOND;
      reply := Failure(call.id, error, started, clock);
    }

    method Invoke(call: Call<A>) returns (reply: Reply<O>)
      modifies this
      ensures (View(), reply) == InvokeStep(dom, env, old(View()), call)
    {
      var started := clock;
      if call.runId != env.runId {
        reply := Error(call, RunMismatch);
        return;
      }
      match call.request {
        case UnknownTool => reply := Error(call, ToolNotFound);
        case InvalidArguments => reply := Error(call, ToolValidationError);
        case Valid(data) =>
          var executed := Execute(call, data);
          match executed {
            case Output(value) =>
              clock := clock + MILLISECOND;
              reply := Success(call.id, value, started, clock);
            case Raised(error) => reply := Error(call, error);
            case Escaped => reply := Crash;
          }
      }
    }

    /** False is the `ValueError` for a negative delta. */
    method AdvanceTime(delta: int) returns (accepted: bool)
      modifies this`clock
      ensures accepted <==> delta >= 0
      ensures View() == AdvanceStep(old(View()), delta)
    {
      accepted := delta >= 0;
      if accepted {
        clock := clock + delta;
      }
    }

    method EventsAfter(afterSequence: int) returns (rows: seq<Row<V>>)
      ensures rows == RowsAfter(events, afterSequence)
    {
      rows := [];
      for i := 0 to |events|
        invariant rows == RowsAfter(events[..i], afterSequence)
      {
        assert events[..i + 1][..i] == events[..i];
        if events[i].sequence > afterSequence {
          rows := rows + [events[i]];
        }
      }
      assert events[..|events|] == events;
    }
  }

  /** The rows the query selects; insertion order is sequence order by `WorldRuns.ExactlyOnce`. */
  function RowsAfter<V>(rows: seq<Row<V>>, afterSequence: int): seq<Row<V>> {
    if rows == [] then []
    else
      var last := rows[|rows| - 1];
      RowsAfter(rows[..|rows| - 1], afterSequence) + (if last.sequence > afterSequence then [last] else [])
  }

  // ---------- Whole runs ----------

  datatype Step<+A> = Submit(call: Call<A>) | Advance(delta: int)

  function StepDb<S, A(==), O, V>(dom: Domain<S, A, O, V>, env: Env, db: Db<S, A, O, V>, step: Step<A>): Db<S, A, O, V> {
    match step
    case Submit(call) => InvokeStep(dom, env, db, call).0
    case Advance(delta) => AdvanceStep(db, delta)
  }

  function Run<S, A(==), O, V>(dom: Domain<S, A, O, V>, env: Env, db: Db<S, A, O, V>, steps: seq<Step<A>>): Db<S, A, O, V> {
    if steps == [] then db
    else StepDb(dom, env, Run(dom, env, db, steps[..|steps| - 1]), steps[|steps| - 1])
  }

  /** A call that wrote its three rows, with the clock it ran at and what the domain answered. */
  datatype Commit<+A, +O, +V> = Commit(call: Call<A>, data: A, clock: int, output: O, event: V)

  /** The commit a step makes on a database, if it reaches the writes and is not rolled back. */
  function CommitOf<S, A(==), O, V>(dom: Domain<S, A, O, V>, env: Env, db: Db<S, A, O, V>, step: Step<A>): Option<Commit<A, O, V>> {
    if step.Submit? && step.call.runId == env.runId && step.call.request.Valid? then
      var call, data := step.call, step.call.request.data;
      if dom.mutates(data) && KeyAgrees(dom, call, data) && dom.key(data).value !in db.table && !dom.injectsFailure(data) then
        match dom.apply(call.auth, data, MintAt(env, db.clock), db.state)
        case Accepted(_, output, Some(event)) => Some(Commit(call, data, db.clock, output, event))
        case _ => None
      else None
    else None
  }

  function Commits<S, A(==), O, V>(dom: Domain<S, A, O, V>, env: Env, db: Db<S, A, O, V>, steps: seq<Step<A>>): seq<Commit<A, O, V>> {
    if steps == [] then []
    else
      var prefix := steps[..|steps| - 1];
      var commit := CommitOf(dom, env, Run(dom, env, db, prefix), steps[|steps| - 1]);
      Commits(dom, env, db, prefix) + (if commit.Some? then [commit.value] else [])
  }

  /** The fold of the domain's behaviour over committed calls alone. */
  function Replay<S, A, O, V>(dom: Domain<S, A, O, V>, env: Env, start: S, log: seq<Commit<A, O, V>>): S {
    if log == [] then start
    else
      var before, last := Replay(dom, env, start, log[..|log| - 1]), log[|log| - 1];
      match dom.apply(last.call.auth, last.data, MintAt(env, last.clock), before)
      case Accepted(state, _, _) => state
      case Rejected(_) => before
  }

  /** Every logged commit is what the domain answers on the replay of the ones before it. */
  ghost predicate Faithful<S, A, O, V>(dom: Domain<S, A, O, V>, env: Env, start: S, log: seq<Commit<A, O, V>>) {
    log == [] ||
    var prefix, last := log[..|log| - 1], log[|log| - 1];
    var applied := dom.apply(last.call.auth, last.data, MintAt(env, last.clock), Replay(dom, env, start, prefix));
    && Faithful(dom, env, start, prefix)
    && applied.Accepted? && applied.output == last.output && applied.event == Some(last.event)
    && last.call.request == Valid(last.data) && last.call.runId == env.runId
    && dom.mutates(last.data) && !dom.injectsFailure(last.data) && KeyAgrees(dom, last.call, last.data)
  }

  function Rows<S, A, O, V>(dom: Domain<S, A, O, V>, env: Env, log: seq<Commit<A, O, V>>): (rows: seq<Row<V>>)
    ensures |rows| == |log|
  {
    if log == [] then []
    else
      var last := log[|log| - 1];
      Rows(dom, env, log[..|log| - 1]) + [RowOf(dom, env, last.clock, |log|, last.call, last.data, last.event)]
  }

  function Table<S, A, O, V>(dom: Domain<S, A, O, V>, log: seq<Commit<A, O, V>>): map<string, Entry<A, O>>
    requires Keyed(dom, log)
  {
    if log == [] then map[]
    else
      var last := log[|log| - 1];
      Table(dom, log[..|log| - 1])[dom.key(last.data).value := EntryOf(dom, last.call, last.data, last.output)]
  }

  predicate Keyed<S, A, O, V>(dom: Domain<S, A, O, V>, log: seq<Commit<A, O, V>>) {
    log == [] || (Keyed(dom, log[..|log| - 1]) && dom.key(log[|log| - 1].data).Some?)
  }

  /** No committed key was in the table when its call committed. */
  predicate FreshKeys<S, A, O, V>(dom: Domain<S, A, O, V>, log: seq<Commit<A, O, V>>)
    requires Keyed(dom, log)
  {
    log == [] ||
    var prefix, key := log[..|log| - 1], dom.key(log[|log| - 1].data).value;
    FreshKeys(dom, prefix) && key !in Table(dom, prefix)
  }

  /** Commits happen at increasing clocks, each at least a millisecond after the last. */
  predicate Paced<A, O, V>(start: int, now: int, log: seq<Commit<A, O, V>>)
    decreases |log|
  {
    if log == [] then start <= now
    else Paced(start, log[|log| - 1].clock, log[..|log| - 1]) && log[|log| - 1].clock + MILLISECOND <= now
  }

  /** The database is exactly what its log of committed calls says. */
  ghost predicate Records<S, A, O, V>(dom: Domain<S, A, O, V>, env: Env, start: S, startClock: int,
                                      db: Db<S, A, O, V>, log: seq<Commit<A, O, V>>)
  {
    && Faithful(dom, env, start, log)
    && db.state == Replay(dom, env, start, log)
    && db.events == Rows(dom, env, log)
    && Keyed(dom, log) && FreshKeys(dom, log) && db.table == Table(dom, log)
    && Paced(startClock, db.clock, log)
  }

  lemma {:induction false} MaxOfRows<S, A, O, V>(dom: Domain<S, A, O, V>, env: Env, log: seq<Commit<A, O, V>>)
    ensures MaxSequence(Rows(dom, env, log)) == |log|
  {
    if log != [] {
      MaxOfRows(dom, env, log[..|log| - 1]);
      assert Rows(dom, env, log)[..|log| - 1] == Rows(dom, env, log[..|log| - 1]);
    }
  }

  /** What one step does to the three tables, split by whether it commits. */
  lemma StepEffect<S, A, O, V>(dom: Domain<S, A, O, V>, env: Env, db: Db<S, A, O, V>, step: Step<A>)
    ensures var db' := StepDb(dom, env, db, step); var commit := CommitOf(dom, env, db, step);
      && db.clock <= db'.clock
      && (commit.None? ==> db' == db.(clock := db'.clock))
      && (commit.Some? ==>
            var c := commit.value;
            var applied := dom.apply(c.call.auth, c.data, MintAt(env, c.clock), db.state);
            && step == Submit(c.call) && c.call.request == Valid(c.data) && c.call.runId == env.runId
            && c.clock == db.clock && dom.mutates(c.data) && !dom.injectsFailure(c.data) && KeyAgrees(dom, c.call, c.data)
            && dom.key(c.data).value !in db.table
            && applied == Accepted(db'.state, c.output, Some(c.event))
            && db'.clock == db.clock + MILLISECOND
            && db'.events == db.events + [RowOf(dom, env, c.clock, MaxSequence(db.events) + 1, c.call, c.data, c.event)]
            && db'.table == db.table[dom.key(c.data).value := EntryOf(dom, c.call, c.data, c.output)])
  {
  }

  lemma RecordsGrow<S, A, O, V>(dom: Domain<S, A, O, V>, env: Env, start: S, startClock: int,
                                db: Db<S, A, O, V>, log: seq<Commit<A, O, V>>, step: Step<A>)
    requires Records(dom, env, start, startClock, db, log)
    ensures var commit := CommitOf(dom, env, db, step);
      Records(dom, env, start, startClock, StepDb(dom, env, db, step), if commit.Some? then log + [commit.value] else log)
  {
    StepEffect(dom, env, db, step);
    var commit := CommitOf(dom, env, db, step);
    if commit.Some? {
      MaxOfRows(dom, env, log);
      var log' := log + [commit.value];
      assert log'[..|log|] == log && log'[|log|] == commit.value;
    } else if log != [] {
      assert log[|log| - 1].clock + MILLISECOND <= db.clock;
    }
  }

  /** Over any run the three tables are the log of committed calls, and nothing else. */
  lemma {:induction false} RunRecords<S, A, O, V>(dom: Domain<S, A, O, V>, env: Env, db: Db<S, A, O, V>, steps: seq<Step<A>>)
    requires db.events == [] && db.table == map[]
    ensures Records(dom, env, db.state, db.clock, Run(dom, env, db, steps), Commits(dom, env, db, steps))
  {
    if steps != [] {
      var prefix := steps[..|steps| - 1];
      RunRecords(dom, env, db, prefix);
      RecordsGrow(dom, env, db.state, db.clock, Run(dom, env, db, prefix), Commits(dom, env, db, prefix), steps[|steps| - 1]);
      assert CommitOf(dom, env, Run(dom, env, db, prefix), steps[|steps| - 1]).None? ==>
        Commits(dom, env, db, steps) == Commits(dom, env, db, prefix);
    }
  }
}
