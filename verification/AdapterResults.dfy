/** Which call a submission queues, which payload a callback gets, and what each turn of a run carries. */
module AdapterResults {
  import opened Wrappers
  import opened Bridge
  import opened Adapter
  import opened AdapterRuns

  // ---------- Submissions ----------

  /** The call a submission makes: its own request id unless that is missing or empty, the tool and the
      arguments as given, and the idempotency key the arguments hold. */
  predicate Makes(call: ToolCall, tool: string, arguments: map<string, Option<string>>, requestId: Option<string>, generated: string) {
    && (call.id == generated || requestId == Some(call.id))
    && (requestId.None? || |requestId.value| == 0 ==> call.id == generated)
    && (requestId.Some? && |requestId.value| > 0 ==> call.id == requestId.value)
    && call.tool == tool && call.arguments == arguments
    && (if "idempotency_key" in arguments then call.idempotencyKey == arguments["idempotency_key"] else call.idempotencyKey.None?)
  }

  lemma CallMade(tool: string, arguments: map<string, Option<string>>, requestId: Option<string>, generated: string)
    ensures Makes(CallOf(RequestId(requestId, generated), tool, arguments), tool, arguments, requestId, generated)
  {
  }

  lemma OneCallMade(a: ToolCall, b: ToolCall, tool: string, arguments: map<string, Option<string>>, requestId: Option<string>, generated: string)
    requires Makes(a, tool, arguments, requestId, generated) && Makes(b, tool, arguments, requestId, generated)
    ensures a == b
  {
  }

  /** A submission is accepted exactly on an open bridge that knows the tool and has not seen the id;
      the call is then queued last and its callback waits, and otherwise nothing changes. */
  lemma SubmitExactly(s: State, tool: string, arguments: map<string, Option<string>>, requestId: Option<string>, generated: string, call: ToolCall)
    requires Makes(call, tool, arguments, requestId, generated)
    ensures var (s', error) := Submit(s, tool, arguments, requestId, generated);
      && (error == Some(ClosedError) <==> s.closed)
      && (error == Some(UnknownTool) <==> !s.closed && tool !in s.tools)
      && (error == Some(DuplicateRequest) <==> !s.closed && tool in s.tools && call.id in s.seen)
      && (error.None? <==> !s.closed && tool in s.tools && call.id !in s.seen)
      && (error.Some? ==> s' == s)
      && (error.None? ==>
            && s'.queue == s.queue + [call] && s'.submitted == s.submitted + [call]
            && s'.seen == s.seen + {call.id} && s'.pending == s.pending[call.id := Waiting]
            && s'.handed == s.handed && s'.settled == s.settled && s'.tools == s.tools && !s'.closed)
  {
    CallMade(tool, arguments, requestId, generated);
    OneCallMade(call, CallOf(RequestId(requestId, generated), tool, arguments), tool, arguments, requestId, generated);
  }

  /** The calls a run of steps should accept: before the first close, those of known tools whose id no
      earlier one has. */
  ghost predicate Expected(tools: set<string>, steps: seq<Step>, calls: seq<ToolCall>) {
    if steps == [] then calls == []
    else
      var past, step := steps[..|steps| - 1], steps[|steps| - 1];
      if step.DoSubmit? && DoClose !in past && step.tool in tools then
        || (Expected(tools, past, calls)
            && exists call :: Makes(call, step.tool, step.arguments, step.requestId, step.generated) && Names(calls, call.id))
        || (calls != [] && Expected(tools, past, calls[..|calls| - 1])
            && Makes(calls[|calls| - 1], step.tool, step.arguments, step.requestId, step.generated)
            && !Names(calls[..|calls| - 1], calls[|calls| - 1].id))
      else Expected(tools, past, calls)
  }

  lemma {:induction false} ClosedExactly(tools: set<string>, steps: seq<Step>)
    ensures Run(Fresh(tools), steps).closed <==> DoClose in steps
    ensures Run(Fresh(tools), steps).tools == tools
  {
    if steps != [] {
      var past, step := steps[..|steps| - 1], steps[|steps| - 1];
      ClosedExactly(tools, past);
      assert steps == past + [step];
      assert step in steps;
    }
  }

  lemma SubmittedUnlessSubmit(s: State, step: Step)
    requires !step.DoSubmit?
    ensures Apply(s, step).submitted == s.submitted
  {
  }

  /** Over every interleaving the accepted calls are exactly those, in that order. */
  lemma {:induction false} SubmissionsExactly(tools: set<string>, steps: seq<Step>)
    ensures Expected(tools, steps, Run(Fresh(tools), steps).submitted)
  {
    if steps != [] {
      var past, step := steps[..|steps| - 1], steps[|steps| - 1];
      SubmissionsExactly(tools, past);
      ClosedExactly(tools, past);
      DeliveryInvariant(tools, past);
      var s := Run(Fresh(tools), past);
      if step.DoSubmit? {
        CallMade(step.tool, step.arguments, step.requestId, step.generated);
        var call := CallOf(RequestId(step.requestId, step.generated), step.tool, step.arguments);
        SubmitExactly(s, step.tool, step.arguments, step.requestId, step.generated, call);
        assert (s.submitted + [call])[..|s.submitted|] == s.submitted;
      } else {
        SubmittedUnlessSubmit(s, step);
      }
    }
  }

  lemma {:induction false} OneExpected(tools: set<string>, steps: seq<Step>, a: seq<ToolCall>, b: seq<ToolCall>)
    requires Expected(tools, steps, a) && Expected(tools, steps, b)
    ensures a == b
  {
    if steps != [] {
      var past, step := steps[..|steps| - 1], steps[|steps| - 1];
      if step.DoSubmit? && DoClose !in past && step.tool in tools {
        CallMade(step.tool, step.arguments, step.requestId, step.generated);
        var call := CallOf(RequestId(step.requestId, step.generated), step.tool, step.arguments);
        forall c | Makes(c, step.tool, step.arguments, step.requestId, step.generated) ensures c == call {
          OneCallMade(c, call, step.tool, step.arguments, step.requestId, step.generated);
        }
        var x := if Expected(tools, past, a) && Names(a, call.id) then a else a[..|a| - 1];
        var y := if Expected(tools, past, b) && Names(b, call.id) then b else b[..|b| - 1];
        OneExpected(tools, past, x, y);
        assert x != a ==> a == x + [call];
        assert y != b ==> b == y + [call];
      } else {
        OneExpected(tools, past, a, b);
      }
    }
  }

  // ---------- Settlements ----------

  /** At every point of every run a waiting callback stops waiting in exactly three ways: its own
      result arrives, it is cancelled, or the bridge closes; and each way settles it differently. */
  lemma SettledExactly(tools: set<string>, steps: seq<Step>, step: Step, id: string)
    requires id in WaitingIds(Run(Fresh(tools), steps))
    ensures var s' := Apply(Run(Fresh(tools), steps), step);
      && (id !in WaitingIds(s') <==> step == DoClose || step == DoCancel(id) || (step.DoResolve? && step.result.callId == id))
      && (id !in WaitingIds(s') ==>
            && id in s'.settled && id in s'.pending && s'.pending[id] == s'.settled[id]
            && s'.settled[id] == match step
               case DoClose => Closed
               case DoCancel(_) => Cancelled
               case DoResolve(result) => Delivered(result)
               case _ => Waiting)
  {
    DeliveryInvariant(tools, steps);
  }

  /** A callback leaves the bridge exactly by resuming once it is settled. */
  lemma LeavesExactly(tools: set<string>, steps: seq<Step>, step: Step, id: string)
    requires var s := Run(Fresh(tools), steps); id in s.pending
    ensures var s := Run(Fresh(tools), steps); id !in Apply(s, step).pending <==> step == DoResume(id) && s.pending[id] != Waiting
  {
    DeliveryInvariant(tools, steps);
  }

  // ---------- One turn ----------

  /** A turn begun while the previous call's callback still waits hands it this very payload. */
  lemma BeginDelivers(y: System, id: string, payload: string)
    requires y.phase == Ready && y.inFlight == Some(id) && id in WaitingIds(y.bridge)
    ensures var bridge := Act(y, Begin(payload)).bridge;
      && id in bridge.settled && bridge.settled[id] == Delivered(ToolResult(id, payload))
      && id in bridge.pending && bridge.pending[id] == Delivered(ToolResult(id, payload))
  {
  }

  /** How a turn begins in any run: a lost callback stops it; so does a provider that ended with
      callbacks waiting; otherwise the oldest queued call is turned out, or the race is on. */
  lemma BeginExactly(tools: set<string>, actions: seq<Action>, payload: string)
    requires RunSystem(Started(tools), actions).phase == Ready
    ensures var y := RunSystem(Started(tools), actions); var y' := Act(y, Begin(payload)); var bridge := y.bridge;
      var answered := y.inFlight.None? || y.inFlight.value in WaitingIds(bridge);
      var result := match y.inFlight case None => None case Some(id) => Some(ToolResult(id, payload));
      if !answered then
        && y'.turns == y.turns && y'.bridge == bridge
        && y'.phase == Stopped(BridgeFailed(if y.inFlight.value in bridge.pending then DuplicateResult else NoPendingRequest))
      else if y.provider != Running && WaitingIds(bridge) != {} then y'.phase == Stopped(PendingRequests) && y'.turns == y.turns
      else if bridge.queue != [] then
        && y'.turns == y.turns + [CallTurn(|y.turns|, bridge.queue[0], result)]
        && y'.inFlight == Some(bridge.queue[0].id) && y'.bridge.queue == bridge.queue[1..]
        && y'.phase == (if y.provider == Running then Ready else Stopped(PendingRequests))
      else y'.turns == y.turns && y'.phase == Racing(Created, result)
  {
    SystemInvariant(tools, actions);
  }

  /** How the race ends in any run: a taken call is turned out even when the provider has ended. */
  lemma RaceExactly(tools: set<string>, actions: seq<Action>)
    requires RunSystem(Started(tools), actions).phase.Racing?
    ensures var y := RunSystem(Started(tools), actions); var y' := Act(y, RaceReturns);
      match y.phase.task
      case Holds(call) =>
        && y'.turns == y.turns + [CallTurn(|y.turns|, call, y.phase.result)] && y'.inFlight == Some(call.id)
        && y'.phase == (if y.provider == Running then Ready else Stopped(PendingRequests))
      case Errored => y'.phase == Stopped(BridgeFailed(ClosedError)) && y'.turns == y.turns
      case _ => y'.turns == y.turns && y'.phase == (if y.provider == Running then y.phase else Draining(y.phase.result))
  {
    SystemInvariant(tools, actions);
  }

  // ---------- Payloads over every run ----------

  /** The payloads of the turns that were begun, in order. */
  function Begun(tools: set<string>, actions: seq<Action>): seq<string> {
    if actions == [] then []
    else
      var past, action := actions[..|actions| - 1], actions[|actions| - 1];
      Begun(tools, past) + (if action.Begin? && RunSystem(Started(tools), past).phase == Ready then [action.payload] else [])
  }

  predicate Carries(turns: seq<Turn>, payloads: seq<string>) {
    |turns| <= |payloads| && forall k :: 0 <= k < |turns| && turns[k].result.Some? ==> turns[k].result.value.payload == payloads[k]
  }

  /** A delivered result is the payload the runner brought back right after turning the call out. */
  predicate FromTurn(turns: seq<Turn>, payloads: seq<string>, id: string, outcome: Future) {
    exists k :: 0 <= k < |turns| && k + 1 < |payloads| && turns[k].CallTurn? && turns[k].call.id == id
                && outcome == Delivered(ToolResult(id, payloads[k + 1]))
  }

  ghost predicate PayloadInv(y: System, payloads: seq<string>) {
    && Carries(y.turns, payloads)
    && (y.phase == Ready || y.phase == Finished ==> |payloads| == |y.turns|)
    && (y.phase.Racing? || y.phase.Draining? ==>
          |payloads| == |y.turns| + 1 && (y.phase.result.Some? ==> y.phase.result.value.payload == payloads[|y.turns|]))
    && (forall id :: id in y.bridge.settled && y.bridge.settled[id].Delivered? ==> FromTurn(y.turns, payloads, id, y.bridge.settled[id]))
  }

  lemma FromTurnGrows(turns: seq<Turn>, more: seq<Turn>, payloads: seq<string>, extra: seq<string>, id: string, outcome: Future)
    requires FromTurn(turns, payloads, id, outcome)
    ensures FromTurn(turns + more, payloads + extra, id, outcome)
  {
    var k :| 0 <= k < |turns| && k + 1 < |payloads| && turns[k].CallTurn? && turns[k].call.id == id
             && outcome == Delivered(ToolResult(id, payloads[k + 1]));
    assert (turns + more)[k] == turns[k] && (payloads + extra)[k + 1] == payloads[k + 1];
  }

  /** Nothing new is delivered, no turn is added and the result on hand stays the same. */
  predicate Quiet(y: System, y': System) {
    && y'.turns == y.turns
    && (forall id :: id in y'.bridge.settled && y'.bridge.settled[id].Delivered? ==>
          id in y.bridge.settled && y.bridge.settled[id] == y'.bridge.settled[id])
    && (y'.phase == y.phase || y'.phase.Stopped?
        || ((y.phase.Racing? || y.phase.Draining?) && (y'.phase.Racing? || y'.phase.Draining?) && y'.phase.result == y.phase.result)
        || ((y.phase.Racing? || y.phase.Draining?) && y'.phase.Stopped?))
  }

  lemma QuietKeeps(y: System, y': System, payloads: seq<string>)
    requires PayloadInv(y, payloads) && Quiet(y, y')
    ensures PayloadInv(y', payloads)
  {
  }

  lemma TurnKeeps(y: System, y': System, payloads: seq<string>, turn: Turn)
    requires PayloadInv(y, payloads) && (y.phase.Racing? || y.phase.Draining?)
    requires y'.turns == y.turns + [turn] && turn.result == y.phase.result && y'.bridge.settled == y.bridge.settled
    requires y'.phase == Ready || y'.phase == Finished || y'.phase.Stopped?
    ensures PayloadInv(y', payloads)
  {
    forall id | id in y'.bridge.settled && y'.bridge.settled[id].Delivered? ensures FromTurn(y'.turns, payloads, id, y'.bridge.settled[id]) {
      FromTurnGrows(y.turns, [turn], payloads, [], id, y.bridge.settled[id]);
      assert payloads + [] == payloads;
    }
  }

  lemma EnvironmentQuiet(y: System, action: Action)
    requires !action.Begin? && !action.RaceReturns? && !action.DrainReturns?
    ensures Quiet(y, Act(y, action))
  {
    if action.CallTaskRuns? {
      assert RunCallTask(y).bridge.settled == y.bridge.settled;
    }
  }

  lemma RacePayload(y: System, payloads: seq<string>)
    requires PayloadInv(y, payloads)
    ensures PayloadInv(FinishRace(y), payloads)
  {
    var y' := FinishRace(y);
    if RaceDecided(y) && y.phase.task.Holds? {
      TurnKeeps(y, y', payloads, CallTurn(y.turnIndex, y.phase.task.call, y.phase.result));
    } else {
      QuietKeeps(y, y', payloads);
    }
  }

  lemma DrainPayload(y: System, payloads: seq<string>)
    requires PayloadInv(y, payloads)
    ensures PayloadInv(FinishDrain(y), payloads)
  {
    var y' := FinishDrain(y);
    if y'.turns != y.turns {
      TurnKeeps(y, y', payloads, TerminalTurn(y.turnIndex, y.phase.result));
    } else {
      QuietKeeps(y, y', payloads);
    }
  }

  predicate Bears(result: Option<ToolResult>, payload: string) {
    result.Some? ==> result.value.payload == payload
  }

  /** What beginning a turn can do to settlements. */
  lemma BeginSettles(y: System, payload: string)
    requires y.phase == Ready
    ensures var settled := BeginTurn(y, payload).bridge.settled;
      || settled == y.bridge.settled
      || (y.inFlight.Some? && settled == y.bridge.settled[y.inFlight.value := Delivered(ToolResult(y.inFlight.value, payload))])
  {
  }

  /** What beginning a turn can do to the turns and the result on hand. */
  predicate BegunShape(y: System, y': System, payload: string) {
    || (y'.turns == y.turns && (y'.phase.Stopped? || (y'.phase.Racing? && Bears(y'.phase.result, payload))))
    || (y'.turns != [] && y'.turns == y.turns + [y'.turns[|y'.turns| - 1]] && Bears(y'.turns[|y'.turns| - 1].result, payload)
        && (y'.phase.Stopped? || y'.phase == Ready))
  }

  lemma EmittedShape(y: System, z: System, call: ToolCall, result: Option<ToolResult>, payload: string)
    requires z.turns == y.turns && Bears(result, payload)
    ensures BegunShape(y, EmitCall(z, call, result), payload)
  {
    assert EmitCall(z, call, result).turns == y.turns + [CallTurn(z.turnIndex, call, result)];
  }

  lemma BeginShape(y: System, payload: string)
    requires y.phase == Ready && !y.ended
    ensures BegunShape(y, BeginTurn(y, payload), payload)
  {
    var result := ResultFor(y, payload);
    var ended := y.provider != Running && WaitingIds(y.bridge) != {};
    var (bridge, error) := if result.Some? then Resolve(y.bridge, result.value) else (y.bridge, None);
    var z := y.(bridge := bridge, ended := ended);
    if error.None? && !ended && bridge.queue != [] {
      EmittedShape(y, z.(bridge := NextCall(bridge).0), bridge.queue[0], result, payload);
    }
  }

  lemma NewDelivery(turns: seq<Turn>, more: seq<Turn>, payloads: seq<string>, payload: string, id: string)
    requires turns != [] && turns[|turns| - 1].CallTurn? && turns[|turns| - 1].call.id == id && |payloads| == |turns|
    ensures FromTurn(turns + more, payloads + [payload], id, Delivered(ToolResult(id, payload)))
  {
    var k := |turns| - 1;
    assert (turns + more)[k] == turns[k] && (payloads + [payload])[k + 1] == payload;
  }

  lemma BeginDeliveries(y: System, y': System, payloads: seq<string>, payload: string, more: seq<Turn>)
    requires PayloadInv(y, payloads) && y.phase == Ready && y'.turns == y.turns + more
    requires y.inFlight.Some? ==> y.turns != [] && y.turns[|y.turns| - 1].CallTurn? && y.turns[|y.turns| - 1].call.id == y.inFlight.value
    requires y'.bridge.settled == y.bridge.settled
      || (y.inFlight.Some? && y'.bridge.settled == y.bridge.settled[y.inFlight.value := Delivered(ToolResult(y.inFlight.value, payload))])
    ensures forall id :: id in y'.bridge.settled && y'.bridge.settled[id].Delivered? ==>
      FromTurn(y'.turns, payloads + [payload], id, y'.bridge.settled[id])
  {
    forall id | id in y'.bridge.settled && y'.bridge.settled[id].Delivered?
      ensures FromTurn(y'.turns, payloads + [payload], id, y'.bridge.settled[id])
    {
      if id in y.bridge.settled && y.bridge.settled[id] == y'.bridge.settled[id] {
        FromTurnGrows(y.turns, more, payloads, [payload], id, y'.bridge.settled[id]);
      } else {
        NewDelivery(y.turns, more, payloads, payload, id);
      }
    }
  }

  lemma BeginPayload(y: System, payloads: seq<string>, payload: string)
    requires SystemInv(y) && PayloadInv(y, payloads) && y.phase == Ready
    ensures PayloadInv(BeginTurn(y, payload), payloads + [payload])
  {
    var y' := BeginTurn(y, payload);
    BeginSettles(y, payload);
    BeginShape(y, payload);
    if y'.turns == y.turns {
      assert y.turns + [] == y.turns;
      BeginDeliveries(y, y', payloads, payload, []);
    } else {
      BeginDeliveries(y, y', payloads, payload, [y'.turns[|y'.turns| - 1]]);
    }
    PayloadsExtended(y, y', payloads, payload);
  }

  lemma PayloadsExtended(y: System, y': System, payloads: seq<string>, payload: string)
    requires PayloadInv(y, payloads) && y.phase == Ready && BegunShape(y, y', payload)
    requires forall id :: id in y'.bridge.settled && y'.bridge.settled[id].Delivered? ==>
      FromTurn(y'.turns, payloads + [payload], id, y'.bridge.settled[id])
    ensures PayloadInv(y', payloads + [payload])
  {
  }

  lemma {:induction false} PayloadInvariant(tools: set<string>, actions: seq<Action>)
    ensures PayloadInv(RunSystem(Started(tools), actions), Begun(tools, actions))
  {
    if actions != [] {
      var past, action := actions[..|actions| - 1], actions[|actions| - 1];
      var y, payloads := RunSystem(Started(tools), past), Begun(tools, past);
      PayloadInvariant(tools, past);
      SystemInvariant(tools, past);
      assert payloads + [] == payloads;
      match action {
        case Begin(payload) =>
          if y.phase == Ready {
            BeginPayload(y, payloads, payload);
          }
        case RaceReturns => RacePayload(y, payloads);
        case DrainReturns => DrainPayload(y, payloads);
        case _ =>
          EnvironmentQuiet(y, action);
          QuietKeeps(y, Act(y, action), payloads);
      }
    }
  }

  lemma {:induction false} ResultAnswers(turns: seq<Turn>, k: nat)
    requires TurnsInOrder(turns) && k < |turns|
    ensures if k == 0 then turns[0].result.None?
            else turns[k - 1].CallTurn? && turns[k].result.Some? && turns[k].result.value.callId == turns[k - 1].call.id
  {
    TurnAt(turns, k);
  }

  /** A turn carries its payload as the result of the call of the turn before it. */
  predicate Forwards(turns: seq<Turn>, payloads: seq<string>, k: int)
    requires 0 < k < |turns| <= |payloads|
  {
    turns[k - 1].CallTurn? && turns[k].result == Some(ToolResult(turns[k - 1].call.id, payloads[k]))
  }

  /** Over every interleaving each turn after the first carries, for the call of the turn before it,
      exactly the payload the runner began it with; and whatever was delivered to a callback is what
      the runner brought back on the turn right after that callback's call. */
  lemma PayloadsReachTheirCallbacks(tools: set<string>, actions: seq<Action>)
    ensures var turns, payloads := RunSystem(Started(tools), actions).turns, Begun(tools, actions);
      var settled := RunSystem(Started(tools), actions).bridge.settled;
      && |turns| <= |payloads|
      && (turns != [] ==> turns[0].result.None?)
      && (forall k :: 0 < k < |turns| ==> Forwards(turns, payloads, k))
      && (forall id :: id in settled && settled[id].Delivered? ==>
            exists k :: 0 <= k < |turns| && k + 1 < |payloads| && turns[k].CallTurn? && turns[k].call.id == id
                        && settled[id] == Delivered(ToolResult(id, payloads[k + 1])))
  {
    PayloadInvariant(tools, actions);
    SystemInvariant(tools, actions);
    var y, payloads := RunSystem(Started(tools), actions), Begun(tools, actions);
    if y.turns != [] {
      ResultAnswers(y.turns, 0);
    }
    forall k | 0 < k < |y.turns| ensures Forwards(y.turns, payloads, k) {
      ResultAnswers(y.turns, k);
    }
    forall id | id in y.bridge.settled && y.bridge.settled[id].Delivered? ensures FromTurn(y.turns, payloads, id, y.bridge.settled[id]) {
    }
  }
}
