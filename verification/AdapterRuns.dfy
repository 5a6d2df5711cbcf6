/** What the adapter and its bridge keep over every interleaving with the provider. */
module AdapterRuns {
  import opened Wrappers
  import opened Bridge
  import opened Adapter

  lemma NamesTail(calls: seq<ToolCall>, id: string)
    requires calls != []
    ensures Names(calls, id) <==> calls[0].id == id || Names(calls[1..], id)
  {
    if Names(calls, id) && calls[0].id != id {
      var i :| 0 <= i < |calls| && calls[i].id == id;
      assert calls[1..][i - 1].id == id;
    }
    if Names(calls[1..], id) {
      var i :| 0 <= i < |calls[1..]| && calls[1..][i].id == id;
      assert calls[i + 1].id == id;
    }
  }

  // ---------- The environment's steps ----------

  lemma SubmitEffect(s: State, tool: string, arguments: map<string, Option<string>>, requestId: Option<string>, generated: string)
    ensures var s' := Submit(s, tool, arguments, requestId, generated).0;
      && s'.handed == s.handed && s'.settled == s.settled
      && forall id :: id in WaitingIds(s') ==> Names(s'.queue, id) || (id in WaitingIds(s) && s'.queue[..|s.queue|] == s.queue)
  {
    var s' := Submit(s, tool, arguments, requestId, generated).0;
    var call := CallOf(RequestId(requestId, generated), tool, arguments);
    if s' != s {
      NamesAppend(s.queue, call, call.id);
    }
  }

  lemma SubmitKeepsSystem(y: System, bridge: State)
    requires SystemInv(y) && Inv(bridge)
    requires bridge.handed == y.bridge.handed && bridge.settled == y.bridge.settled
    requires forall id :: id in WaitingIds(bridge) ==>
      Names(bridge.queue, id) || (id in WaitingIds(y.bridge) && |bridge.queue| >= |y.bridge.queue| && bridge.queue[..|y.bridge.queue|] == y.bridge.queue)
    ensures SystemInv(y.(bridge := bridge))
  {
    var y' := y.(bridge := bridge);
    forall id | id in WaitingIds(bridge) ensures OnRunner(y', id) {
      assert id in WaitingIds(y.bridge) ==> OnRunner(y, id);
      assert Names(y.bridge.queue, id) && id in WaitingIds(y.bridge) ==> Names(bridge.queue, id) by {
        if |bridge.queue| >= |y.bridge.queue| && bridge.queue[..|y.bridge.queue|] == y.bridge.queue {
          assert forall i :: 0 <= i < |y.bridge.queue| ==> bridge.queue[i] == y.bridge.queue[i];
        }
      }
    }
  }

  /** A step that only shrinks the waiting callbacks, on a bridge that keeps its own invariant. */
  lemma FewerWaiting(y: System, bridge: State)
    requires SystemInv(y) && Inv(bridge) && bridge.queue == y.bridge.queue && bridge.handed == y.bridge.handed
    requires WaitingIds(bridge) <= WaitingIds(y.bridge)
    requires forall id :: id in bridge.settled && bridge.settled[id].Delivered? ==> id in y.bridge.settled && y.bridge.settled[id].Delivered?
    ensures SystemInv(y.(bridge := bridge))
  {
    forall id | id in WaitingIds(bridge) ensures OnRunner(y.(bridge := bridge), id) {
      assert OnRunner(y, id);
    }
  }

  lemma CallbackKeepsSystem(y: System, action: Action)
    requires SystemInv(y) && (action.CallbackResumes? || action.CallbackCancelled?)
    ensures SystemInv(Act(y, action))
  {
    if action.CallbackCancelled? {
      StepKeeps(y.bridge, DoCancel(action.id));
      FewerWaiting(y, CancelCallback(y.bridge, action.id));
    } else {
      StepKeeps(y.bridge, DoResume(action.id));
      FewerWaiting(y, Resume(y.bridge, action.id));
    }
  }

  lemma ProviderKeepsSystem(y: System, how: Provider)
    requires SystemInv(y)
    ensures SystemInv(Act(y, ProviderEnds(how)))
  {
    forall id | id in WaitingIds(y.bridge) ensures OnRunner(Act(y, ProviderEnds(how)), id) {
      assert OnRunner(y, id);
    }
  }

  lemma CancelKeepsSystem(y: System)
    requires SystemInv(y)
    ensures SystemInv(CancelRun(y))
  {
    CloseKeeps(y.bridge);
  }

  // ---------- The adapter's own steps ----------

  lemma EmitCallKeeps(y: System, call: ToolCall, result: Option<ToolResult>)
    requires Inv(y.bridge) && y.turnIndex == |y.turns| && TurnsInOrder(y.turns) && Answers(y.turns, result)
    requires y.bridge.handed == CallsOf(y.turns) + [call]
    requires forall id :: id in WaitingIds(y.bridge) ==> Names(y.bridge.queue, id) || id == call.id
    requires forall id :: id in y.bridge.settled && y.bridge.settled[id].Delivered? ==> Names(y.bridge.handed, id)
    ensures SystemInv(EmitCall(y, call, result))
  {
    var y' := EmitCall(y, call, result);
    assert y'.turns[..|y.turns|] == y.turns;
    assert Held(y'.phase) == [];
    assert CallsOf(y'.turns) + [] == CallsOf(y.turns) + [call];
  }

  lemma StopKeeps(y: System, error: StopError)
    requires Inv(y.bridge) && y.turnIndex == |y.turns| && TurnsInOrder(y.turns)
    requires y.bridge.handed == CallsOf(y.turns) && (y.ended ==> y.provider != Running)
    requires forall id :: id in WaitingIds(y.bridge) ==> Names(y.bridge.queue, id) || y.inFlight == Some(id)
    requires forall id :: id in y.bridge.settled && y.bridge.settled[id].Delivered? ==> Names(y.bridge.handed, id)
    ensures SystemInv(y.(phase := Stopped(error)))
  {
    var y' := y.(phase := Stopped(error));
    assert Held(y'.phase) == [];
    assert CallsOf(y'.turns) + [] == CallsOf(y.turns);
  }

  lemma EmitTerminalKeeps(y: System, result: Option<ToolResult>)
    requires Inv(y.bridge) && y.turnIndex == |y.turns| && TurnsInOrder(y.turns) && Answers(y.turns, result)
    requires y.bridge.handed == CallsOf(y.turns) && (y.ended ==> y.provider != Running)
    requires forall id :: id in WaitingIds(y.bridge) ==> Names(y.bridge.queue, id) || y.inFlight == Some(id)
    requires forall id :: id in y.bridge.settled && y.bridge.settled[id].Delivered? ==> Names(y.bridge.handed, id)
    ensures SystemInv(EmitTerminal(y, result))
  {
    if y.ended {
      StopKeeps(y, PendingRequests);
    } else if y.provider != Returned {
      StopKeeps(y, ProviderFailed);
    } else {
      FinishKeeps(y, result);
    }
  }

  lemma FinishKeeps(y: System, result: Option<ToolResult>)
    requires Inv(y.bridge) && y.turnIndex == |y.turns| && TurnsInOrder(y.turns) && Answers(y.turns, result)
    requires y.bridge.handed == CallsOf(y.turns) && !y.ended && y.provider == Returned
    requires forall id :: id in WaitingIds(y.bridge) ==> Names(y.bridge.queue, id) || y.inFlight == Some(id)
    requires forall id :: id in y.bridge.settled && y.bridge.settled[id].Delivered? ==> Names(y.bridge.handed, id)
    ensures SystemInv(EmitTerminal(y, result))
  {
    var y' := EmitTerminal(y, result);
    assert y'.turns[..|y.turns|] == y.turns;
    assert Held(y'.phase) == [] && CallsOf(y'.turns) + [] == CallsOf(y.turns);
  }

  lemma {:induction false} LastCallHanded(turns: seq<Turn>)
    requires turns != [] && turns[|turns| - 1].CallTurn?
    ensures Names(CallsOf(turns), turns[|turns| - 1].call.id)
  {
    assert CallsOf(turns)[|CallsOf(turns)| - 1] == turns[|turns| - 1].call;
  }

  /** The part of the invariant that a turn relies on once the previous call is settled. */
  ghost predicate Resolved(y: System, result: Option<ToolResult>) {
    && Inv(y.bridge) && y.turnIndex == |y.turns| && TurnsInOrder(y.turns) && Answers(y.turns, result)
    && y.bridge.handed == CallsOf(y.turns)
    && (forall id :: id in WaitingIds(y.bridge) ==> Names(y.bridge.queue, id))
    && (forall id :: id in y.bridge.settled && y.bridge.settled[id].Delivered? ==> Names(y.bridge.handed, id))
  }

  lemma ResolveStep(y: System, payload: string)
    requires SystemInv(y) && y.phase == Ready
    ensures var result := ResultFor(y, payload);
      var (bridge, error) := if result.Some? then Resolve(y.bridge, result.value) else (y.bridge, None);
      && (error.None? ==> Resolved(y.(bridge := bridge), result))
      && (error.Some? ==> bridge == y.bridge)
  {
    var result := ResultFor(y, payload);
    assert CallsOf(y.turns) + [] == CallsOf(y.turns);
    if result.Some? {
      ResolveExact(y.bridge, result.value);
      if result.value.callId in WaitingIds(y.bridge) {
        SettleKeeps(y.bridge, result.value.callId, Delivered(result.value));
        LastCallHanded(y.turns);
      }
    }
  }

  lemma TakeHead(y: System, result: Option<ToolResult>)
    requires Resolved(y, result) && y.bridge.queue != []
    ensures var (bridge, next) := NextCall(y.bridge);
      && Inv(bridge) && bridge.handed == CallsOf(y.turns) + [y.bridge.queue[0]] && next == Took(y.bridge.queue[0])
      && (forall id :: id in WaitingIds(bridge) ==> Names(bridge.queue, id) || id == y.bridge.queue[0].id)
      && (forall id :: id in bridge.settled && bridge.settled[id].Delivered? ==> Names(bridge.handed, id))
  {
    NextCallKeeps(y.bridge);
    var (bridge, _) := NextCall(y.bridge);
    forall id | id in WaitingIds(bridge) ensures Names(bridge.queue, id) || id == y.bridge.queue[0].id {
      assert id in WaitingIds(y.bridge);
      NamesTail(y.bridge.queue, id);
    }
    forall id | id in bridge.settled && bridge.settled[id].Delivered? ensures Names(bridge.handed, id) {
      NamesAppend(y.bridge.handed, y.bridge.queue[0], id);
    }
  }

  lemma BeginKeeps(y: System, payload: string)
    requires SystemInv(y) && y.phase == Ready
    ensures SystemInv(BeginTurn(y, payload))
  {
    ResolveStep(y, payload);
    var result := ResultFor(y, payload);
    var ended := y.ended || (y.provider != Running && WaitingIds(y.bridge) != {});
    var (bridge, error) := if result.Some? then Resolve(y.bridge, result.value) else (y.bridge, None);
    var z := y.(bridge := bridge, ended := ended);
    assert CallsOf(y.turns) + [] == CallsOf(y.turns);
    if error.Some? {
      var y' := z.(phase := Stopped(BridgeFailed(error.value)));
      forall id | id in WaitingIds(y'.bridge) ensures OnRunner(y', id) {
        assert OnRunner(y, id);
      }
    } else if ended {
      EmitTerminalKeeps(z.(inFlight := None), result);
    } else if bridge.queue != [] {
      TakeHead(z, result);
      EmitCallKeeps(z.(bridge := NextCall(bridge).0), bridge.queue[0], result);
    }
  }

  lemma CallTaskKeeps(y: System)
    requires SystemInv(y)
    ensures SystemInv(RunCallTask(y))
  {
    if y.phase.Racing? && (y.phase.task == Created || (y.phase.task == Waits && y.bridge.queue != [])) {
      assert CallsOf(y.turns) + [] == CallsOf(y.turns);
      forall id | id in WaitingIds(y.bridge) ensures Names(y.bridge.queue, id) {
        assert OnRunner(y, id);
      }
      if y.bridge.queue != [] {
        TakeHead(y, y.phase.result);
      }
    }
  }

  lemma FinishRaceKeeps(y: System)
    requires SystemInv(y)
    ensures SystemInv(FinishRace(y))
  {
    if RaceDecided(y) {
      forall id | id in WaitingIds(y.bridge) ensures OnRunner(FinishRace(y), id) {
        assert OnRunner(y, id);
      }
      if y.phase.task.Holds? {
        forall id | id in WaitingIds(y.bridge) ensures Names(y.bridge.queue, id) || id == y.phase.task.call.id {
          assert OnRunner(y, id);
        }
        EmitCallKeeps(y, y.phase.task.call, y.phase.result);
      }
    }
  }

  lemma FinishDrainKeeps(y: System)
    requires SystemInv(y)
    ensures SystemInv(FinishDrain(y))
  {
    if y.phase.Draining? {
      forall id | id in WaitingIds(y.bridge) ensures Names(y.bridge.queue, id) {
        assert OnRunner(y, id);
      }
      assert CallsOf(y.turns) + [] == CallsOf(y.turns);
      EmitTerminalKeeps(y.(ended := y.ended || WaitingIds(y.bridge) != {} || y.bridge.queue != []), y.phase.result);
    }
  }

  lemma ActKeeps(y: System, action: Action)
    requires SystemInv(y)
    ensures SystemInv(Act(y, action))
  {
    match action {
      case Begin(payload) =>
        if y.phase == Ready {
          BeginKeeps(y, payload);
        }
      case CallTaskRuns => CallTaskKeeps(y);
      case RaceReturns => FinishRaceKeeps(y);
      case DrainReturns => FinishDrainKeeps(y);
      case CallbackSubmits(tool, arguments, requestId, generated) =>
        SubmitKeeps(y.bridge, tool, arguments, requestId, generated);
        SubmitEffect(y.bridge, tool, arguments, requestId, generated);
        SubmitKeepsSystem(y, Submit(y.bridge, tool, arguments, requestId, generated).0);
      case Cancel => CancelKeepsSystem(y);
      case ProviderEnds(how) => ProviderKeepsSystem(y, how);
      case _ => CallbackKeepsSystem(y, action);
    }
  }

  /** The system invariant holds after every interleaving of runner, provider and callbacks. */
  lemma {:induction false} SystemInvariant(tools: set<string>, actions: seq<Action>)
    ensures SystemInv(RunSystem(Started(tools), actions))
  {
    if actions != [] {
      SystemInvariant(tools, actions[..|actions| - 1]);
      ActKeeps(RunSystem(Started(tools), actions[..|actions| - 1]), actions[|actions| - 1]);
    }
  }

  // ---------- Progress and soundness ----------

  /** The runner is stuck inside a turn when no piece of that turn can run. */
  predicate RunnerBlocked(y: System) {
    y.phase.Racing? && RunCallTask(y) == y && !RaceDecided(y)
  }

  /** No deadlock: the runner blocks only while the provider runs, and then no callback waits on
      the runner: nothing is queued, held or in flight. */
  lemma BlockedOnlyOnProvider(tools: set<string>, actions: seq<Action>)
    ensures var y := RunSystem(Started(tools), actions);
      RunnerBlocked(y) ==> y.provider == Running && y.bridge.queue == [] && WaitingIds(y.bridge) == {}
  {
    SystemInvariant(tools, actions);
    var y := RunSystem(Started(tools), actions);
    if RunnerBlocked(y) {
      assert y.phase.task == Waits && y.bridge.queue == [];
      assert forall id :: !OnRunner(y, id);
      assert forall id :: id in WaitingIds(y.bridge) ==> OnRunner(y, id);
    }
  }

  /** A terminal turn appears exactly when the provider has returned with nothing waiting and
      nothing queued; with anything left over the pending error is raised instead. */
  lemma TerminalExactly(tools: set<string>, actions: seq<Action>, action: Action)
    ensures var y := RunSystem(Started(tools), actions); var y' := Act(y, action);
      && (y'.phase == Finished && y.phase != Finished <==>
            && y.phase.Draining? && action == DrainReturns
            && y.provider == Returned && WaitingIds(y.bridge) == {} && y.bridge.queue == [])
      && (y.phase.Draining? && action == DrainReturns ==>
            (y'.phase == Stopped(PendingRequests) <==> WaitingIds(y.bridge) != {} || y.bridge.queue != []))
  {
    SystemInvariant(tools, actions);
  }

  /** The k-th turn has index k and, after the first, carries the previous call's result. */
  predicate WellPlaced(turns: seq<Turn>, k: nat)
    requires k < |turns|
  {
    && turns[k].index == k
    && Answers(turns[..k], turns[k].result)
  }

  lemma {:induction false} TurnAt(turns: seq<Turn>, k: nat)
    requires TurnsInOrder(turns) && k < |turns|
    ensures WellPlaced(turns, k)
  {
    if k < |turns| - 1 {
      TurnAt(turns[..|turns| - 1], k);
      assert turns[..|turns| - 1][..k] == turns[..k];
    }
  }

  /** Turns are indexed 0, 1, 2, ...; each later turn answers the call of the turn before it; and
      until close, calls turned out, held and queued are the submissions in order. */
  lemma TurnsFollowSubmissions(tools: set<string>, actions: seq<Action>)
    ensures var y := RunSystem(Started(tools), actions);
      && (forall k :: 0 <= k < |y.turns| ==> WellPlaced(y.turns, k))
      && CallsOf(y.turns) + Held(y.phase) <= y.bridge.submitted
      && (!y.bridge.closed ==> CallsOf(y.turns) + Held(y.phase) + y.bridge.queue == y.bridge.submitted)
  {
    SystemInvariant(tools, actions);
    var y := RunSystem(Started(tools), actions);
    forall k | 0 <= k < |y.turns| ensures WellPlaced(y.turns, k) {
      TurnAt(y.turns, k);
    }
  }

  /** After cancellation nothing waits and nothing is queued, whatever still runs. */
  lemma {:induction false} CancelledStaysDrained(tools: set<string>, actions: seq<Action>)
    ensures var y := RunSystem(Started(tools), actions);
      y.cancelled ==> y.bridge.closed && WaitingIds(y.bridge) == {} && y.bridge.queue == []
  {
    SystemInvariant(tools, actions);
    if actions != [] {
      CancelledStaysDrained(tools, actions[..|actions| - 1]);
    }
  }
}
