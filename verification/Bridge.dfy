/**
 * The native tool bridge: SDK callbacks submit calls and wait, the runner takes calls first in
 * first out and resolves them, callbacks may be cancelled, and close may arrive at any moment.
 * Each step below runs without suspension, so a run is any interleaving of steps.
 */
module Bridge {
  import opened Wrappers

  datatype ToolCall = ToolCall(id: string, tool: string, arguments: map<string, Option<string>>, idempotencyKey: Option<string>)
  datatype ToolResult = ToolResult(callId: string, payload: string)

  /** A callback's future: still awaited, or done in one of three ways. */
  datatype Future = Waiting | Delivered(result: ToolResult) | Closed | Cancelled

  datatype BridgeError = ClosedError | UnknownTool | DuplicateRequest | NoPendingRequest | DuplicateResult

  /** The bridge's fields, followed by its history: calls accepted, calls handed to the runner,
      and how each callback was settled. */
  datatype State = State(
    tools: set<string>, queue: seq<ToolCall>, pending: map<string, Future>, seen: set<string>, closed: bool,
    submitted: seq<ToolCall>, handed: seq<ToolCall>, settled: map<string, Future>)

  function Fresh(tools: set<string>): State {
    State(tools, [], map[], {}, false, [], [], map[])
  }

  const IDEMPOTENCY_KEY: string := "idempotency_key"

  function CallOf(id: string, tool: string, arguments: map<string, Option<string>>): ToolCall {
    ToolCall(id, tool, arguments, if IDEMPOTENCY_KEY in arguments then arguments[IDEMPOTENCY_KEY] else None)
  }

  /** A missing or empty request id is replaced by a generated one. */
  function RequestId(requestId: Option<string>, generated: string): string {
    if requestId.Some? && requestId.value != "" then requestId.value else generated
  }

  // ---------- Steps ----------

  function Submit(s: State, tool: string, arguments: map<string, Option<string>>, requestId: Option<string>, generated: string): (State, Option<BridgeError>) {
    var id := RequestId(requestId, generated);
    if s.closed then (s, Some(ClosedError))
    else if tool !in s.tools then (s, Some(UnknownTool))
    else if id in s.seen then (s, Some(DuplicateRequest))
    else
      var call := CallOf(id, tool, arguments);
      (s.(seen := s.seen + {id}, pending := s.pending[id := Waiting], queue := s.queue + [call], submitted := s.submitted + [call]), None)
  }

  /** The awaiting callback continues once its future is done and removes its own entry. */
  function Resume(s: State, id: string): State {
    if id in s.pending && s.pending[id] != Waiting then s.(pending := s.pending - {id}) else s
  }

  function Settle(s: State, id: string, outcome: Future): State {
    s.(pending := s.pending[id := outcome], settled := s.settled[id := outcome])
  }

  /** The SDK cancels a callback that is still waiting. */
  function CancelCallback(s: State, id: string): State {
    if id in s.pending && s.pending[id] == Waiting then Settle(s, id, Cancelled) else s
  }

  /** `Blocked` is a `get` on an empty queue of an open bridge: it waits. */
  datatype Next = Took(call: ToolCall) | Blocked | Refused(error: BridgeError)

  function NextCall(s: State): (State, Next) {
    if s.closed && s.queue == [] then (s, Refused(ClosedError))
    else if s.queue == [] then (s, Blocked)
    else (s.(queue := s.queue[1..], handed := s.handed + [s.queue[0]]), Took(s.queue[0]))
  }

  function Resolve(s: State, result: ToolResult): (State, Option<BridgeError>) {
    if result.callId !in s.pending then (s, Some(NoPendingRequest))
    else if s.pending[result.callId] != Waiting then (s, Some(DuplicateResult))
    else (Settle(s, result.callId, Delivered(result)), None)
  }

  function WaitingIds(s: State): set<string> {
    set id | id in s.pending && s.pending[id] == Waiting
  }

  function FailedAll(s: State): map<string, Future> {
    map id | id in s.pending :: if s.pending[id] == Waiting then Closed else s.pending[id]
  }

  function ClosedAll(s: State): map<string, Future> {
    map id | id in WaitingIds(s) :: Closed
  }

  function Close(s: State): State {
    if s.closed then s
    else s.(closed := true, queue := [], pending := FailedAll(s), settled := s.settled + ClosedAll(s))
  }

  datatype Step =
    | DoSubmit(tool: string, arguments: map<string, Option<string>>, requestId: Option<string>, generated: string)
    | DoResume(id: string)
    | DoCancel(id: string)
    | DoNextCall
    | DoResolve(result: ToolResult)
    | DoClose

  function Apply(s: State, step: Step): State {
    match step
    case DoSubmit(tool, arguments, requestId, generated) => Submit(s, tool, arguments, requestId, generated).0
    case DoResume(id) => Resume(s, id)
    case DoCancel(id) => CancelCallback(s, id)
    case DoNextCall => NextCall(s).0
    case DoResolve(result) => Resolve(s, result).0
    case DoClose => Close(s)
  }

  function Run(s: State, steps: seq<Step>): State {
    if steps == [] then s else Apply(Run(s, steps[..|steps| - 1]), steps[|steps| - 1])
  }

  // ---------- The bridge object ----------

  class NativeToolBridge {
    const tools: set<string>
    var queue: seq<ToolCall>
    var pending: map<string, Future>
    var seen: set<string>
    var closed: bool
    ghost var submitted: seq<ToolCall>
    ghost var handed: seq<ToolCall>
    ghost var settled: map<string, Future>

    ghost function View(): State
      reads this
    {
      State(tools, queue, pending, seen, closed, submitted, handed, settled)
    }

    constructor (tools: set<string>)
      ensures View() == Fresh(tools)
    {
      this.tools := tools;
      queue, pending, seen, closed := [], map[], {}, false;
      submitted, handed, settled := [], [], map[];
    }

    /** Runs up to the point where the callback awaits its future. */
    method SubmitCall(tool: string, arguments: map<string, Option<string>>, requestId: Option<string>, generated: string)
      returns (id: string, error: Option<BridgeError>)
      modifies this
      ensures id == RequestId(requestId, generated)
      ensures (View(), error) == Submit(old(View()), tool, arguments, requestId, generated)
    {
      id := RequestId(requestId, generated);
      if closed {
        return id, Some(ClosedError);
      }
      if tool !in tools {
        return id, Some(UnknownTool);
      }
      if id in seen {
        return id, Some(DuplicateRequest);
      }
      seen := seen + {id};
      pending := pending[id := Waiting];
      var call := CallOf(id, tool, arguments);
      queue := queue + [call];
      submitted := submitted + [call];
      error := None;
    }

    /** The `finally` after the await: the callback leaves with how its future was done. */
    method ResumeCallback(id: string) returns (outcome: Option<Future>)
      modifies this
      ensures View() == Resume(old(View()), id)
      ensures outcome == if id in old(pending) && old(pending)[id] != Waiting then Some(old(pending)[id]) else None
    {
      if id in pending && pending[id] != Waiting {
        outcome := Some(pending[id]);
        pending := pending - {id};
      } else {
        outcome := None;
      }
    }

    method CancelWaiting(id: string)
      modifies this
      ensures View() == CancelCallback(old(View()), id)
    {
      if id in pending && pending[id] == Waiting {
        pending := pending[id := Cancelled];
        settled := settled[id := Cancelled];
      }
    }

    method Take() returns (next: Next)
      modifies this
      ensures (View(), next) == NextCall(old(View()))
    {
      if closed && queue == [] {
        return Refused(ClosedError);
      }
      if queue == [] {
        return Blocked;
      }
      next := Took(queue[0]);
      handed := handed + [queue[0]];
      queue := queue[1..];
    }

    method Deliver(result: ToolResult) returns (error: Option<BridgeError>)
      modifies this
      ensures (View(), error) == Resolve(old(View()), result)
    {
      if result.callId !in pending {
        return Some(NoPendingRequest);
      }
      if pending[result.callId] != Waiting {
        return Some(DuplicateResult);
      }
      pending := pending[result.callId := Delivered(result)];
      settled := settled[result.callId := Delivered(result)];
      error := None;
    }

    method FailWaiting()
      modifies this`pending, this`settled
      ensures pending == FailedAll(old(View()))
      ensures settled == old(settled) + ClosedAll(old(View()))
    {
      ghost var before := View();
      var todo := pending.Keys;
      while todo != {}
        invariant todo <= before.pending.Keys && pending.Keys == before.pending.Keys
        invariant forall id :: id in pending ==>
          pending[id] == if id !in todo && before.pending[id] == Waiting then Closed else before.pending[id]
        invariant settled.Keys == before.settled.Keys + (WaitingIds(before) - todo)
        invariant forall id :: id in settled ==> settled[id] == if id in WaitingIds(before) - todo then Closed else before.settled[id]
        decreases todo
      {
        var id :| id in todo;
        todo := todo - {id};
        if pending[id] == Waiting {
          pending := pending[id := Closed];
          settled := settled[id := Closed];
        }
      }
    }

    /** Fails every future still waiting, then drains the queue; a second close does nothing. */
    method Shut()
      modifies this
      ensures View() == Close(old(View()))
    {
      if closed {
        return;
      }
      closed := true;
      FailWaiting();
      ghost var failed := View();
      while queue != []
        invariant View() == failed.(queue := queue)
        decreases |queue|
      {
        queue := queue[1..];
      }
    }
  }

  // ---------- Over every interleaving ----------

  function Ids(calls: seq<ToolCall>): seq<string> {
    seq(|calls|, i requires 0 <= i < |calls| => calls[i].id)
  }

  predicate Distinct(calls: seq<ToolCall>) {
    forall i, j :: 0 <= i < j < |calls| ==> calls[i].id != calls[j].id
  }

  predicate Names(calls: seq<ToolCall>, id: string) {
    exists i :: 0 <= i < |calls| && calls[i].id == id
  }

  predicate ProperOutcome(id: string, outcome: Future) {
    outcome == Closed || outcome == Cancelled || (outcome.Delivered? && outcome.result.callId == id)
  }

  /** Ids are distinct; handed plus queued is the submission order until close; a callback is
      either still waiting or settled, and only with its own result, the closed error or its own
      cancellation; after close nothing waits and nothing is queued. */
  ghost predicate Inv(s: State) {
    && Distinct(s.submitted)
    && (forall id :: id in s.seen <==> Names(s.submitted, id))
    && (if s.closed then s.queue == [] && s.handed <= s.submitted else s.handed + s.queue == s.submitted)
    && s.pending.Keys <= s.seen && s.settled.Keys <= s.seen
    && (forall id :: id in s.seen ==> (id in s.settled <==> !(id in s.pending && s.pending[id] == Waiting)))
    && (forall id :: id in s.pending && s.pending[id] != Waiting ==> s.settled[id] == s.pending[id])
    && (forall id :: id in s.settled ==> ProperOutcome(id, s.settled[id]))
    && (s.closed ==> forall id :: id in s.pending ==> s.pending[id] != Waiting)
  }

  lemma NamesAppend(calls: seq<ToolCall>, call: ToolCall, id: string)
    ensures Names(calls + [call], id) <==> Names(calls, id) || call.id == id
  {
    var all := calls + [call];
    if Names(calls, id) {
      var i :| 0 <= i < |calls| && calls[i].id == id;
      assert all[i].id == id;
    }
    if call.id == id {
      assert all[|calls|].id == id;
    }
    if Names(all, id) && call.id != id {
      var i :| 0 <= i < |all| && all[i].id == id;
      assert calls[i].id == id;
    }
  }

  lemma AcceptedIds(submitted: seq<ToolCall>, seen: set<string>, call: ToolCall)
    requires Distinct(submitted) && call.id !in seen && forall id :: id in seen <==> Names(submitted, id)
    ensures Distinct(submitted + [call])
    ensures forall id :: id in seen + {call.id} <==> Names(submitted + [call], id)
  {
    var all := submitted + [call];
    forall id ensures id in seen + {call.id} <==> Names(all, id) {
      NamesAppend(submitted, call, id);
    }
    forall i, j | 0 <= i < j < |all| ensures all[i].id != all[j].id {
      assert Names(submitted, submitted[i].id);
    }
  }

  /** An accepted submission: a new id, waiting, at the end of the queue. */
  lemma AcceptKeeps(s: State, call: ToolCall)
    requires Inv(s) && !s.closed && call.id !in s.seen
    ensures Inv(s.(seen := s.seen + {call.id}, pending := s.pending[call.id := Waiting], queue := s.queue + [call],
                   submitted := s.submitted + [call]))
  {
    AcceptedIds(s.submitted, s.seen, call);
    assert s.handed + (s.queue + [call]) == s.handed + s.queue + [call];
  }

  lemma SubmitKeeps(s: State, tool: string, arguments: map<string, Option<string>>, requestId: Option<string>, generated: string)
    requires Inv(s)
    ensures Inv(Submit(s, tool, arguments, requestId, generated).0)
  {
    var id := RequestId(requestId, generated);
    if !s.closed && tool in s.tools && id !in s.seen {
      AcceptKeeps(s, CallOf(id, tool, arguments));
    }
  }

  lemma NextCallKeeps(s: State)
    requires Inv(s)
    ensures Inv(NextCall(s).0)
  {
    if s.queue != [] {
      assert s.handed + s.queue == s.handed + [s.queue[0]] + s.queue[1..];
    }
  }

  lemma SettleKeeps(s: State, id: string, outcome: Future)
    requires Inv(s) && id in WaitingIds(s) && ProperOutcome(id, outcome)
    ensures Inv(Settle(s, id, outcome))
  {
  }

  lemma CloseKeeps(s: State)
    requires Inv(s)
    ensures Inv(Close(s))
  {
  }

  lemma StepKeeps(s: State, step: Step)
    requires Inv(s)
    ensures Inv(Apply(s, step))
  {
    match step {
      case DoSubmit(tool, arguments, requestId, generated) => SubmitKeeps(s, tool, arguments, requestId, generated);
      case DoNextCall => NextCallKeeps(s);
      case DoResume(id) =>
      case DoCancel(id) =>
        if id in WaitingIds(s) {
          SettleKeeps(s, id, Cancelled);
        }
      case DoResolve(result) =>
        if result.callId in WaitingIds(s) {
          SettleKeeps(s, result.callId, Delivered(result));
        }
      case DoClose => CloseKeeps(s);
    }
  }

  /** Bridge delivery: the invariant holds after every interleaving of steps from a new bridge. */
  lemma {:induction false} DeliveryInvariant(tools: set<string>, steps: seq<Step>)
    ensures Inv(Run(Fresh(tools), steps))
  {
    if steps != [] {
      DeliveryInvariant(tools, steps[..|steps| - 1]);
      StepKeeps(Run(Fresh(tools), steps[..|steps| - 1]), steps[|steps| - 1]);
    }
  }

  /** History only grows: no settlement is ever changed, no call unsubmitted or handed back. */
  predicate Extends(a: State, b: State) {
    && a.submitted <= b.submitted && a.handed <= b.handed && a.seen <= b.seen && a.tools == b.tools
    && (a.closed ==> b.closed && b.submitted == a.submitted && b.handed == a.handed)
    && (forall id :: id in a.settled ==> id in b.settled && b.settled[id] == a.settled[id])
  }

  lemma StepExtends(s: State, step: Step)
    requires Inv(s)
    ensures Extends(s, Apply(s, step))
  {
  }

  /** Each callback settles at most once, whatever follows; after close no call is accepted or
      handed out, nothing is queued and nothing waits, ever again. */
  lemma {:induction false} SettledOnce(tools: set<string>, steps: seq<Step>, more: seq<Step>)
    ensures var s, later := Run(Fresh(tools), steps), Run(Fresh(tools), steps + more);
      && Extends(s, later)
      && (s.closed ==> later.queue == [] && WaitingIds(later) == {})
  {
    DeliveryInvariant(tools, steps + more);
    if more == [] {
      assert steps + more == steps;
    } else {
      var n := |steps + more| - 1;
      SettledOnce(tools, steps, more[..|more| - 1]);
      assert (steps + more)[..n] == steps + more[..|more| - 1];
      DeliveryInvariant(tools, (steps + more)[..n]);
      StepExtends(Run(Fresh(tools), (steps + more)[..n]), (steps + more)[n]);
    }
  }

  /** A result is accepted exactly when its callback still waits, and then settles that one
      callback with that very result. */
  lemma ResolveExact(s: State, result: ToolResult)
    requires Inv(s)
    ensures var (s', error) := Resolve(s, result);
      && (error.None? <==> result.callId in WaitingIds(s))
      && (error.None? ==> s'.settled == s.settled[result.callId := Delivered(result)] && result.callId !in s.settled
                          && WaitingIds(s') == WaitingIds(s) - {result.callId})
      && (error.Some? ==> s' == s)
  {
  }
}
