/** What every world answers to a call, case by case and in terms of the call and the tables alone. */
module WorldAnswers {
  import opened Wrappers
  import opened World

  /** A call of another run, to an unknown tool or with refused arguments is answered with its own
      error, a millisecond later, and touches no table. */
  lemma MalformedRefused<S, A, O, V>(dom: Domain<S, A, O, V>, env: Env, db: Db<S, A, O, V>, call: Call<A>)
    requires call.runId != env.runId || !call.request.Valid?
    ensures var (db', reply) := InvokeStep(dom, env, db, call);
      && db' == db.(clock := db.clock + 1000)
      && reply == Failure(call.id, if call.runId != env.runId then RunMismatch
                                   else if call.request.UnknownTool? then ToolNotFound else ToolValidationError,
                          db.clock, db.clock + 1000)
  {
  }

  /** A mutation whose arguments carry no key, or whose envelope carries another, is refused. */
  lemma MismatchedKeyRefused<S, A, O, V>(dom: Domain<S, A, O, V>, env: Env, db: Db<S, A, O, V>, call: Call<A>, data: A)
    requires call.runId == env.runId && call.request == Valid(data) && dom.mutates(data)
    requires dom.key(data).None? || (call.envelopeKey != None && call.envelopeKey != dom.key(data))
    ensures InvokeStep(dom, env, db, call) ==
      (db.(clock := db.clock + 1000), Failure(call.id, IdempotencyKeyMismatch, db.clock, db.clock + 1000))
  {
  }

  /** A mutation under a key that is already in the table never reaches the domain: the stored
      entry alone decides between the first result, a conflict, and another actor's refusal. */
  lemma UsedKeyAnswered<S, A, O, V>(dom: Domain<S, A, O, V>, env: Env, db: Db<S, A, O, V>, call: Call<A>, data: A, key: string)
    requires call.runId == env.runId && call.request == Valid(data) && dom.mutates(data)
    requires dom.key(data) == Some(key) && (call.envelopeKey == None || call.envelopeKey == Some(key)) && key in db.table
    ensures var (db', reply) := InvokeStep(dom, env, db, call); var prior := db.table[key];
      && db' == db.(clock := db.clock + 1000)
      && reply ==
           if prior.tool != dom.toolName(data) || prior.fingerprint != Fingerprint(dom.toolName(data), data, call.auth)
           then Failure(call.id, IdempotencyConflict, db.clock, db.clock + 1000)
           else if prior.actorId != call.auth.actorId then Failure(call.id, AuthorizationDenied, db.clock, db.clock + 1000)
           else Success(call.id, prior.result, db.clock, db.clock + 1000)
  {
  }

  /** A mutation under a fresh key: the domain's rejection, the escaping failure of a mutation that
      describes no event, the injected failure and the commit, with the row and entry it writes. */
  lemma FreshKeyAnswered<S, A, O, V>(dom: Domain<S, A, O, V>, env: Env, db: Db<S, A, O, V>, call: Call<A>, data: A, key: string)
    requires call.runId == env.runId && call.request == Valid(data) && dom.mutates(data)
    requires dom.key(data) == Some(key) && (call.envelopeKey == None || call.envelopeKey == Some(key)) && key !in db.table
    ensures var (db', reply) := InvokeStep(dom, env, db, call); var now, next := db.clock, MaxSequence(db.events) + 1;
      match dom.apply(call.auth, data, MintAt(env, now), db.state)
      case Rejected(error) => db' == db.(clock := now + 1000) && reply == Failure(call.id, error, now, now + 1000)
      case Accepted(_, _, None) => db' == db && reply == Crash
      case Accepted(state, output, Some(event)) =>
        if dom.injectsFailure(data) then
          db' == db.(clock := now + 1000) && reply == Failure(call.id, ToolExecutionError, now, now + 1000)
        else
          && reply == Success(call.id, output, now, now + 1000)
          && db' == Db(state,
                       db.events + [Row(env.entityId(now, "evt", next), env.runId, next, now + 1000, call.auth, call.id, dom.toolName(data), event)],
                       db.table[key := Entry(dom.toolName(data), Fingerprint(dom.toolName(data), data, call.auth), call.auth.actorId, output)],
                       now + 1000)
  {
  }

  /** A read is answered by the domain, whatever keys it carries, and writes nothing. */
  lemma ReadAnswered<S, A, O, V>(dom: Domain<S, A, O, V>, env: Env, db: Db<S, A, O, V>, call: Call<A>, data: A)
    requires call.runId == env.runId && call.request == Valid(data) && !dom.mutates(data)
    ensures var (db', reply) := InvokeStep(dom, env, db, call);
      && db' == db.(clock := db.clock + 1000)
      && match dom.apply(call.auth, data, MintAt(env, db.clock), db.state)
         case Rejected(error) => reply == Failure(call.id, error, db.clock, db.clock + 1000)
         case Accepted(_, output, _) => reply == Success(call.id, output, db.clock, db.clock + 1000)
  {
  }

  /** Every commit of every run carried a key, and its envelope carried none or the same one. */
  lemma {:induction false} CommittedKeysAgree<S, A, O, V>(dom: Domain<S, A, O, V>, env: Env, db: Db<S, A, O, V>, steps: seq<Step<A>>, i: nat)
    requires i < |Commits(dom, env, db, steps)|
    ensures var c := Commits(dom, env, db, steps)[i];
      && dom.mutates(c.data) && dom.key(c.data).Some? && (c.call.envelopeKey == None || c.call.envelopeKey == dom.key(c.data))
      && c.call.request == Valid(c.data) && c.call.runId == env.runId && !dom.injectsFailure(c.data)
  {
    var prefix, last := steps[..|steps| - 1], steps[|steps| - 1];
    if i < |Commits(dom, env, db, prefix)| {
      CommittedKeysAgree(dom, env, db, prefix, i);
    } else {
      StepEffect(dom, env, Run(dom, env, db, prefix), last);
    }
  }
}
