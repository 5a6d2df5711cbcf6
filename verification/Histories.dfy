/** Runs seen as event histories: the event column of the log, for any world. */
module Histories {
  import opened Wrappers
  import opened World
  import opened WorldRuns

  function Events<A, O, V>(log: seq<Commit<A, O, V>>): (events: seq<V>)
    ensures |events| == |log|
  {
    if log == [] then [] else Events(log[..|log| - 1]) + [log[|log| - 1].event]
  }

  function RowEvents<V>(rows: seq<Row<V>>): (events: seq<V>)
    ensures |events| == |rows|
  {
    if rows == [] then [] else RowEvents(rows[..|rows| - 1]) + [rows[|rows| - 1].event]
  }

  lemma {:induction false} RowEventsAreEvents<S, A, O, V>(dom: Domain<S, A, O, V>, env: Env, log: seq<Commit<A, O, V>>)
    ensures RowEvents(Rows(dom, env, log)) == Events(log)
  {
    if log != [] {
      RowEventsAreEvents(dom, env, log[..|log| - 1]);
      assert Rows(dom, env, log)[..|log| - 1] == Rows(dom, env, log[..|log| - 1]);
    }
  }

  lemma {:induction false} EventsPrefix<A, O, V>(log: seq<Commit<A, O, V>>, i: nat)
    requires i <= |log|
    ensures Events(log)[..i] == Events(log[..i])
    ensures i < |log| ==> Events(log)[i] == log[i].event
  {
    if i < |log| {
      EventsPrefix(log[..|log| - 1], i);
      assert log[..|log| - 1][..i] == log[..i];
    } else {
      assert log[..i] == log;
    }
  }

  lemma {:induction false} EventsGrow<A, O, V>(log: seq<Commit<A, O, V>>, more: seq<Commit<A, O, V>>)
    requires log <= more
    ensures Events(log) <= Events(more)
  {
    if |log| < |more| {
      EventsGrow(log, more[..|more| - 1]);
    } else {
      assert log == more;
    }
  }

  lemma {:induction false} FaithfulPrefix<S, A, O, V>(dom: Domain<S, A, O, V>, env: Env, start: S, log: seq<Commit<A, O, V>>, i: nat)
    requires Faithful(dom, env, start, log) && i <= |log|
    ensures Faithful(dom, env, start, log[..i])
  {
    if i < |log| {
      FaithfulPrefix(dom, env, start, log[..|log| - 1], i);
      assert log[..|log| - 1][..i] == log[..i];
    } else {
      assert log[..i] == log;
    }
  }

  /** Later rows extend earlier ones: the log is append-only over the whole run. */
  lemma HistoryGrows<S, A, O, V>(dom: Domain<S, A, O, V>, env: Env, start: S, seed: int, steps: seq<Step<A>>, more: seq<Step<A>>)
    ensures RowEvents(Run(dom, env, Initial(start, seed), steps).events) <= RowEvents(Run(dom, env, Initial(start, seed), steps + more).events)
  {
    var db: Db<S, A, O, V> := Initial(start, seed);
    CommitsExtend(dom, env, db, steps, more);
    RunRecords(dom, env, db, steps);
    RunRecords(dom, env, db, steps + more);
    RowEventsAreEvents(dom, env, Commits(dom, env, db, steps));
    RowEventsAreEvents(dom, env, Commits(dom, env, db, steps + more));
    EventsGrow(Commits(dom, env, db, steps), Commits(dom, env, db, steps + more));
  }

  /** Whether every call a run submits satisfies a condition on its authorization. */
  ghost predicate AllCalls<A(!new)>(steps: seq<Step<A>>, allowed: Authorization -> bool) {
    forall step :: step in steps && step.Submit? ==> allowed(step.call.auth)
  }

  /** The calls of actors without one scope. */
  function Without(scope: string): Authorization -> bool {
    (auth: Authorization) => scope !in auth.scopes
  }

  /** The calls of one customer's own actors. */
  function OnBehalfOf(customerId: string): Authorization -> bool {
    (auth: Authorization) => auth.customerId == Some(customerId)
  }
}
