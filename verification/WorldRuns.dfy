/** What every world keeps over whole runs: exactly-once commits and sorted evidence. */
module WorldRuns {
  import opened Wrappers
  import Ids
  import opened World
  import opened WorldAnswers

  // ---------- Exactly once ----------

  lemma {:induction false} TableSize<S, A, O, V>(dom: Domain<S, A, O, V>, log: seq<Commit<A, O, V>>)
    requires Keyed(dom, log) && FreshKeys(dom, log)
    ensures |Table(dom, log)| == |log|
  {
    if log != [] {
      var prefix, last := log[..|log| - 1], log[|log| - 1];
      TableSize(dom, prefix);
      assert Table(dom, log).Keys == Table(dom, prefix).Keys + {dom.key(last.data).value};
    }
  }

  /** A committed key keeps its first entry, and no other commit has the key. */
  lemma {:induction false} TableAt<S, A, O, V>(dom: Domain<S, A, O, V>, log: seq<Commit<A, O, V>>, i: nat)
    requires Keyed(dom, log) && FreshKeys(dom, log) && i < |log|
    ensures dom.key(log[i].data).Some? && dom.key(log[i].data).value in Table(dom, log)
    ensures Table(dom, log)[dom.key(log[i].data).value] == EntryOf(dom, log[i].call, log[i].data, log[i].output)
    ensures i < |log| - 1 ==> dom.key(log[i].data) != dom.key(log[|log| - 1].data)
  {
    if i < |log| - 1 {
      TableAt(dom, log[..|log| - 1], i);
    }
  }

  lemma {:induction false} KeysDistinct<S, A, O, V>(dom: Domain<S, A, O, V>, log: seq<Commit<A, O, V>>, i: nat, j: nat)
    requires Keyed(dom, log) && FreshKeys(dom, log) && i < j < |log|
    ensures dom.key(log[i].data) != dom.key(log[j].data)
  {
    if j < |log| - 1 {
      KeysDistinct(dom, log[..|log| - 1], i, j);
    } else {
      TableAt(dom, log, i);
    }
  }

  lemma {:induction false} TableKeyCommitted<S, A, O, V>(dom: Domain<S, A, O, V>, log: seq<Commit<A, O, V>>, k: string) returns (i: nat)
    requires Keyed(dom, log) && k in Table(dom, log)
    ensures i < |log| && dom.key(log[i].data) == Some(k)
  {
    if dom.key(log[|log| - 1].data) == Some(k) {
      i := |log| - 1;
    } else {
      i := TableKeyCommitted(dom, log[..|log| - 1], k);
    }
  }

  lemma {:induction false} RowAt<S, A, O, V>(dom: Domain<S, A, O, V>, env: Env, log: seq<Commit<A, O, V>>, i: nat)
    requires i < |log|
    ensures Rows(dom, env, log)[i] == RowOf(dom, env, log[i].clock, i + 1, log[i].call, log[i].data, log[i].event)
  {
    if i < |log| - 1 {
      RowAt(dom, env, log[..|log| - 1], i);
    }
  }

  /** The event rows are the committed calls in order, numbered 1..n without gaps. */
  ghost predicate NumberedRows<S, A, O, V>(dom: Domain<S, A, O, V>, env: Env, rows: seq<Row<V>>, log: seq<Commit<A, O, V>>) {
    && |rows| == |log|
    && forall i :: 0 <= i < |log| ==>
         && rows[i].sequence == i + 1
         && rows[i] == RowOf(dom, env, log[i].clock, i + 1, log[i].call, log[i].data, log[i].event)
  }

  /** The idempotency rows and the committed calls are in bijection through the keys. */
  ghost predicate OneToOne<S, A, O, V>(dom: Domain<S, A, O, V>, table: map<string, Entry<A, O>>, log: seq<Commit<A, O, V>>) {
    && |table| == |log|
    && (forall i :: 0 <= i < |log| ==>
          && dom.key(log[i].data).Some? && dom.key(log[i].data).value in table
          && table[dom.key(log[i].data).value] == EntryOf(dom, log[i].call, log[i].data, log[i].output))
    && (forall i, j :: 0 <= i < j < |log| ==> dom.key(log[i].data) != dom.key(log[j].data))
    && (forall k :: k in table ==> exists i :: 0 <= i < |log| && dom.key(log[i].data) == Some(k))
  }

  lemma RowsNumbered<S, A, O, V>(dom: Domain<S, A, O, V>, env: Env, log: seq<Commit<A, O, V>>)
    ensures NumberedRows(dom, env, Rows(dom, env, log), log)
  {
    forall i | 0 <= i < |log|
      ensures Rows(dom, env, log)[i] == RowOf(dom, env, log[i].clock, i + 1, log[i].call, log[i].data, log[i].event)
    {
      RowAt(dom, env, log, i);
    }
  }

  lemma TableOneToOne<S, A, O, V>(dom: Domain<S, A, O, V>, log: seq<Commit<A, O, V>>)
    requires Keyed(dom, log) && FreshKeys(dom, log)
    ensures OneToOne(dom, Table(dom, log), log)
  {
    var table := Table(dom, log);
    TableSize(dom, log);
    forall i | 0 <= i < |log|
      ensures dom.key(log[i].data).Some? && dom.key(log[i].data).value in table
      ensures table[dom.key(log[i].data).value] == EntryOf(dom, log[i].call, log[i].data, log[i].output)
    {
      TableAt(dom, log, i);
    }
    forall i, j | 0 <= i < j < |log| ensures dom.key(log[i].data) != dom.key(log[j].data) {
      KeysDistinct(dom, log, i, j);
    }
    forall k | k in table ensures exists i :: 0 <= i < |log| && dom.key(log[i].data) == Some(k) {
      var i := TableKeyCommitted(dom, log, k);
    }
  }

  /** Event rows, idempotency rows and committed calls are in bijection with 1..n, in order, and
      the state is the fold of the domain's behaviour over the committed calls alone. */
  lemma ExactlyOnce<S, A, O, V>(dom: Domain<S, A, O, V>, env: Env, db: Db<S, A, O, V>, steps: seq<Step<A>>)
    requires db.events == [] && db.table == map[]
    ensures var end, log := Run(dom, env, db, steps), Commits(dom, env, db, steps);
      && NumberedRows(dom, env, end.events, log)
      && OneToOne(dom, end.table, log)
      && end.state == Replay(dom, env, db.state, log)
      && Faithful(dom, env, db.state, log)
  {
    RunRecords(dom, env, db, steps);
    RowsNumbered(dom, env, Commits(dom, env, db, steps));
    TableOneToOne(dom, Commits(dom, env, db, steps));
  }

  lemma {:induction false} RowsAfterSuffix<V>(rows: seq<Row<V>>, n: nat)
    requires n <= |rows| && forall i :: 0 <= i < |rows| ==> rows[i].sequence == i + 1
    ensures RowsAfter(rows, n) == rows[n..]
  {
    if n < |rows| {
      RowsAfterSuffix(rows[..|rows| - 1], n);
      assert rows[n..] == rows[..|rows| - 1][n..] + [rows[|rows| - 1]];
    } else if rows != [] {
      NoRowsAfter(rows, n);
    }
  }

  lemma {:induction false} NoRowsAfter<V>(rows: seq<Row<V>>, n: int)
    requires forall i :: 0 <= i < |rows| ==> rows[i].sequence <= n
    ensures RowsAfter(rows, n) == []
  {
    if rows != [] {
      NoRowsAfter(rows[..|rows| - 1], n);
    }
  }

  /** After any run, asking for the events after the n-th gives the ones that followed it, in order. */
  lemma EventsAfterExactly<S, A, O, V>(dom: Domain<S, A, O, V>, env: Env, db: Db<S, A, O, V>, steps: seq<Step<A>>, n: nat)
    requires db.events == [] && db.table == map[]
    ensures var events := Run(dom, env, db, steps).events;
      RowsAfter(events, n) == if n <= |events| then events[n..] else []
  {
    RunRecords(dom, env, db, steps);
    var log := Commits(dom, env, db, steps);
    RowsNumbered(dom, env, log);
    if n <= |log| {
      RowsAfterSuffix(Rows(dom, env, log), n);
    } else {
      NoRowsAfter(Rows(dom, env, log), n);
    }
  }

  lemma {:induction false} CommitsExtend<S, A, O, V>(dom: Domain<S, A, O, V>, env: Env, db: Db<S, A, O, V>, steps: seq<Step<A>>, more: seq<Step<A>>)
    ensures Commits(dom, env, db, steps) <= Commits(dom, env, db, steps + more)
  {
    if more == [] {
      assert steps + more == steps;
    } else {
      var shorter := more[..|more| - 1];
      CommitsExtend(dom, env, db, steps, shorter);
      assert (steps + more)[..|steps + more| - 1] == steps + shorter;
    }
  }

  /** At any later time a committed key answers its own call with the first output and any other
      input with a conflict; in both cases the three tables stay as they were. In particular the
      refusal for another actor's result is never reached. */
  lemma CommittedKeyDecides<S, A, O, V>(dom: Domain<S, A, O, V>, env: Env, db: Db<S, A, O, V>,
                                        steps: seq<Step<A>>, more: seq<Step<A>>, i: nat, call: Call<A>, data: A)
    requires db.events == [] && db.table == map[]
    requires i < |Commits(dom, env, db, steps)|
    requires call.runId == env.runId && call.request == Valid(data)
    requires dom.mutates(data) && dom.key(data).Some? && (call.envelopeKey == None || call.envelopeKey == dom.key(data))
    requires dom.key(data) == dom.key(Commits(dom, env, db, steps)[i].data)
    ensures var first, later := Commits(dom, env, db, steps)[i], Run(dom, env, db, steps + more);
      InvokeStep(dom, env, later, call) ==
        (Tick(later),
         if data == first.data && call.auth == first.call.auth
         then Success(call.id, first.output, later.clock, later.clock + MILLISECOND)
         else Failure(call.id, IdempotencyConflict, later.clock, later.clock + MILLISECOND))
  {
    CommitsExtend(dom, env, db, steps, more);
    var first := Commits(dom, env, db, steps)[i];
    var log := Commits(dom, env, db, steps + more);
    assert log[i] == first;
    RunRecords(dom, env, db, steps + more);
    TableAt(dom, log, i);
    UsedKeyAnswered(dom, env, Run(dom, env, db, steps + more), call, data, dom.key(data).value);
  }

  /** A step that makes no commit, a rolled-back failure included, changes nothing but the clock. */
  lemma NoPartialCommit<S, A, O, V>(dom: Domain<S, A, O, V>, env: Env, db: Db<S, A, O, V>, step: Step<A>)
    ensures var db' := StepDb(dom, env, db, step);
      && (CommitOf(dom, env, db, step).None? <==> db'.events == db.events)
      && (CommitOf(dom, env, db, step).None? ==> db'.state == db.state && db'.table == db.table)
  {
    StepEffect(dom, env, db, step);
  }

  lemma {:induction false} CommitsAreSubmitted<S, A, O, V>(dom: Domain<S, A, O, V>, env: Env, db: Db<S, A, O, V>, steps: seq<Step<A>>, i: nat)
    requires i < |Commits(dom, env, db, steps)|
    ensures Submit(Commits(dom, env, db, steps)[i].call) in steps
    ensures Commits(dom, env, db, steps)[i].call.request == Valid(Commits(dom, env, db, steps)[i].data)
  {
    var prefix, last := steps[..|steps| - 1], steps[|steps| - 1];
    if i < |Commits(dom, env, db, prefix)| {
      CommitsAreSubmitted(dom, env, db, prefix, i);
    } else {
      StepEffect(dom, env, Run(dom, env, db, prefix), last);
    }
  }

  // ---------- Sorted evidence ----------

  lemma {:induction false} PacedPair<A, O, V>(start: int, now: int, log: seq<Commit<A, O, V>>, i: nat, j: nat)
    requires Paced(start, now, log) && i <= j < |log|
    ensures start + MILLISECOND * j <= log[j].clock && log[j].clock + MILLISECOND <= now
    ensures log[i].clock + MILLISECOND * (j - i) <= log[j].clock
    decreases |log|
  {
    var n := |log| - 1;
    var prefix := log[..n];
    if j < n {
      PacedPair(start, log[n].clock, prefix, i, j);
    } else if n > 0 {
      PacedPair(start, log[n].clock, prefix, if i < n then i else n - 1, n - 1);
    }
  }

  lemma EntityIdsSort(digest: (string, int) -> int, prefix: string, c1: int, c2: int, n1: int, n2: int)
    requires 0 <= c1 <= c2 && 0 <= n1 < n2 && c2 / MILLISECOND + n2 < Ids.Pow32(10)
    ensures Ids.Before(EntityId(digest, c1, prefix, n1), EntityId(digest, c2, prefix, n2))
  {
    var t1, t2 := c1 / MILLISECOND + n1, c2 / MILLISECOND + n2;
    Ids.UlidsSortByTime(t1, t2, digest(prefix, n1), digest(prefix, n2));
    Ids.SamePrefix(prefix + "_", Ids.Ulid(t1, digest(prefix, n1)), Ids.Ulid(t2, digest(prefix, n2)));
  }

  lemma RowsSort<S, A, O, V>(dom: Domain<S, A, O, V>, runId: string, digest: (string, int) -> int,
                             start: int, now: int, log: seq<Commit<A, O, V>>, i: nat, j: nat)
    requires 0 <= start && Paced(start, now, log) && i < j < |log| && now < MILLISECOND * Ids.MAX_TIMESTAMP
    ensures var rows := Rows(dom, StandardEnv(runId, digest), log);
      rows[i].occurredAt < rows[j].occurredAt <= now && Ids.Before(rows[i].eventId, rows[j].eventId)
  {
    RowAt(dom, StandardEnv(runId, digest), log, i);
    RowAt(dom, StandardEnv(runId, digest), log, j);
    PacedPair(start, now, log, i, j);
    PacedPair(start, now, log, i, i);
    Ids.TimestampFits();
    EntityIdsSort(digest, "evt", log[i].clock, log[j].clock, i + 1, j + 1);
  }

  /** Over any run whose clock ends below 2^48 ms, event ids increase as strings and
      `occurred_at` increases, in sequence order, whatever the digest is. */
  lemma SortedEvidence<S, A, O, V>(dom: Domain<S, A, O, V>, runId: string, digest: (string, int) -> int,
                                   db: Db<S, A, O, V>, steps: seq<Step<A>>, i: nat, j: nat)
    requires db.events == [] && db.table == map[] && db.clock >= 0
    requires var end := Run(dom, StandardEnv(runId, digest), db, steps);
      i < j < |end.events| && end.clock < MILLISECOND * Ids.MAX_TIMESTAMP
    ensures var end := Run(dom, StandardEnv(runId, digest), db, steps);
      && end.events[i].occurredAt < end.events[j].occurredAt <= end.clock
      && Ids.Before(end.events[i].eventId, end.events[j].eventId)
      && end.events[i].eventId != end.events[j].eventId
  {
    var env := StandardEnv(runId, digest);
    RunRecords(dom, env, db, steps);
    var end, log := Run(dom, env, db, steps), Commits(dom, env, db, steps);
    RowsSort(dom, runId, digest, db.clock, end.clock, log, i, j);
    Ids.BeforeIrreflexive(end.events[i].eventId);
  }

  /** Every seed starts the clock after 1970, so `SortedEvidence` applies from any reset. */
  lemma ResetClockPositive(seed: int)
    ensures EPOCH_2026 <= InitialClock(seed) < EPOCH_2026 + 365 * DAY
  {
  }
}
