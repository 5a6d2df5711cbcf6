/**
 * The bridge half of the native adapter: each turn settles the previous call and then races the
 * provider's completion against the next submission. A turn is cut at its suspension points;
 * callbacks, the provider's end and cancellation interleave anywhere between the pieces.
 */
module Adapter {
  import opened Wrappers
  import opened Bridge

  datatype Provider = Running | Returned | Raised

  /** The task created to take the next call: not yet run, waiting in the queue, or done. */
  datatype CallTask = Created | Waits | Holds(call: ToolCall) | Errored

  datatype StopError = PendingRequests | BridgeFailed(error: BridgeError) | ProviderFailed

  datatype Phase =
    | Ready
    | Racing(task: CallTask, result: Option<ToolResult>)
    | Draining(result: Option<ToolResult>)
    | Finished
    | Stopped(error: StopError)

  datatype Turn =
    | CallTurn(index: nat, call: ToolCall, result: Option<ToolResult>)
    | TerminalTurn(index: nat, result: Option<ToolResult>)

  /** The adapter's fields, the call the runner is executing, and the turns produced so far. */
  datatype System = System(
    bridge: State, turnIndex: nat, ended: bool, cancelled: bool, provider: Provider,
    phase: Phase, inFlight: Option<string>, turns: seq<Turn>)

  function Started(tools: set<string>): System {
    System(Fresh(tools), 0, false, false, Running, Ready, None, [])
  }

  // ---------- Pieces of a turn ----------

  /** A call turn; the runner refuses to go on when the provider has already ended. */
  function EmitCall(y: System, call: ToolCall, result: Option<ToolResult>): System {
    var ended := y.provider != Running;
    y.(ended := ended, turns := y.turns + [CallTurn(y.turnIndex, call, result)], turnIndex := y.turnIndex + 1,
       inFlight := Some(call.id), phase := if ended then Stopped(PendingRequests) else Ready)
  }

  function EmitTerminal(y: System, result: Option<ToolResult>): System {
    if y.ended then y.(phase := Stopped(PendingRequests))
    else if y.provider != Returned then y.(phase := Stopped(ProviderFailed))
    else y.(turns := y.turns + [TerminalTurn(y.turnIndex, result)], turnIndex := y.turnIndex + 1, phase := Finished)
  }

  function ResultFor(y: System, payload: string): Option<ToolResult> {
    if y.inFlight.Some? then Some(ToolResult(y.inFlight.value, payload)) else None
  }

  /** From the call of `next_turn` to its first suspension. */
  function BeginTurn(y: System, payload: string): System {
    var result := ResultFor(y, payload);
    var ended := y.ended || (y.provider != Running && WaitingIds(y.bridge) != {});
    var (bridge, error) := if result.Some? then Resolve(y.bridge, result.value) else (y.bridge, None);
    var z := y.(bridge := bridge, ended := ended);
    if error.Some? then z.(phase := Stopped(BridgeFailed(error.value)))
    else if ended then EmitTerminal(z.(inFlight := None), result)
    else if bridge.queue != [] then EmitCall(z.(bridge := NextCall(bridge).0), bridge.queue[0], result)
    else z.(inFlight := None, phase := Racing(Created, result))
  }

  /** The call task gets to run; once waiting, closing the bridge does not wake it. */
  function RunCallTask(y: System): System {
    if y.phase.Racing? && (y.phase.task == Created || (y.phase.task == Waits && y.bridge.queue != [])) then
      var (bridge, next) := NextCall(y.bridge);
      var task := match next
        case Took(call) => Holds(call)
        case Blocked => Waits
        case Refused(_) => Errored;
      y.(bridge := bridge, phase := y.phase.(task := task))
    else y
  }

  predicate RaceDecided(y: System) {
    y.phase.Racing? && (y.phase.task.Holds? || y.phase.task.Errored? || y.provider != Running)
  }

  function FinishRace(y: System): System {
    if !RaceDecided(y) then y
    else match y.phase.task
      case Holds(call) => EmitCall(y, call, y.phase.result)
      case Errored => y.(ended := y.provider != Running, phase := Stopped(BridgeFailed(ClosedError)))
      case _ => y.(phase := Draining(y.phase.result))
  }

  function FinishDrain(y: System): System {
    if !y.phase.Draining? then y
    else
      var ended := y.ended || WaitingIds(y.bridge) != {} || y.bridge.queue != [];
      EmitTerminal(y.(ended := ended), y.phase.result)
  }

  function CancelRun(y: System): System {
    if y.cancelled then y else y.(cancelled := true, bridge := Close(y.bridge))
  }

  datatype Action =
    | Begin(payload: string)
    | CallTaskRuns
    | RaceReturns
    | DrainReturns
    | CallbackSubmits(tool: string, arguments: map<string, Option<string>>, requestId: Option<string>, generated: string)
    | CallbackResumes(id: string)
    | CallbackCancelled(id: string)
    | ProviderEnds(how: Provider)
    | Cancel

  function Act(y: System, action: Action): System {
    match action
    case Begin(payload) => if y.phase == Ready then BeginTurn(y, payload) else y
    case CallTaskRuns => RunCallTask(y)
    case RaceReturns => FinishRace(y)
    case DrainReturns => FinishDrain(y)
    case CallbackSubmits(tool, arguments, requestId, generated) =>
      y.(bridge := Submit(y.bridge, tool, arguments, requestId, generated).0)
    case CallbackResumes(id) => y.(bridge := Resume(y.bridge, id))
    case CallbackCancelled(id) => y.(bridge := CancelCallback(y.bridge, id))
    case ProviderEnds(how) => if y.provider == Running then y.(provider := how) else y
    case Cancel => CancelRun(y)
  }

  function RunSystem(y: System, actions: seq<Action>): System {
    if actions == [] then y else Act(RunSystem(y, actions[..|actions| - 1]), actions[|actions| - 1])
  }

  // ---------- The adapter object ----------

  class NativeAdapter {
    const bridge: NativeToolBridge
    var turnIndex: nat
    var endedWithPending: bool
    var cancelled: bool
    var provider: Provider
    var phase: Phase
    var inFlight: Option<string>
    ghost var turns: seq<Turn>

    ghost function View(): System
      reads this, bridge
    {
      System(bridge.View(), turnIndex, endedWithPending, cancelled, provider, phase, inFlight, turns)
    }

    constructor (tools: set<string>)
      ensures View() == Started(tools) && fresh(bridge)
    {
      bridge := new NativeToolBridge(tools);
      turnIndex, endedWithPending, cancelled, provider := 0, false, false, Running;
      phase, inFlight, turns := Ready, None, [];
    }

    method CallTurnOf(call: ToolCall, result: Option<ToolResult>) returns (turn: Turn)
      modifies this
      ensures View() == EmitCall(old(View()), call, result)
      ensures turn == CallTurn(old(turnIndex), call, result)
    {
      endedWithPending := provider != Running;
      turn := CallTurn(turnIndex, call, result);
      turnIndex := turnIndex + 1;
      turns := turns + [turn];
      inFlight := Some(call.id);
      phase := if endedWithPending then Stopped(PendingRequests) else Ready;
    }

    method ProviderTerminalTurn(result: Option<ToolResult>) returns (turn: Option<Turn>)
      modifies this
      ensures View() == EmitTerminal(old(View()), result)
      ensures turn.Some? <==> phase == Finished
      ensures turn.Some? ==> turn.value == TerminalTurn(old(turnIndex), result)
    {
      turn := None;
      if endedWithPending {
        phase := Stopped(PendingRequests);
        return;
      }
      if provider != Returned {
        phase := Stopped(ProviderFailed);
        return;
      }
      turn := Some(TerminalTurn(turnIndex, result));
      turnIndex := turnIndex + 1;
      turns := turns + [turn.value];
      phase := Finished;
    }

    method NextTurn(payload: string) returns (turn: Option<Turn>)
      requires phase == Ready
      modifies this, bridge
      ensures View() == BeginTurn(old(View()), payload)
      ensures turn.Some? <==> |turns| > |old(turns)|
    {
      turn := None;
      var result := if inFlight.Some? then Some(ToolResult(inFlight.value, payload)) else None;
      if provider != Running && WaitingIds(State(bridge.tools, bridge.queue, bridge.pending, bridge.seen, bridge.closed, [], [], map[])) != {} {
        endedWithPending := true;
      }
      if result.Some? {
        var error := bridge.Deliver(result.value);
        if error.Some? {
          phase := Stopped(BridgeFailed(error.value));
          return;
        }
      }
      inFlight := None;
      if endedWithPending {
        turn := ProviderTerminalTurn(result);
        return;
      }
      if bridge.queue != [] {
        var next := bridge.Take();
        var t := CallTurnOf(next.call, result);
        return Some(t);
      }
      phase := Racing(Created, result);
    }

    method CallTaskStep()
      modifies this, bridge
      ensures View() == RunCallTask(old(View()))
    {
      if phase.Racing? && (phase.task == Created || (phase.task == Waits && bridge.queue != [])) {
        var next := bridge.Take();
        match next {
          case Took(call) => phase := phase.(task := Holds(call));
          case Blocked => phase := phase.(task := Waits);
          case Refused(_) => phase := phase.(task := Errored);
        }
      }
    }

    method ReturnFromRace() returns (turn: Option<Turn>)
      requires RaceDecided(View())
      modifies this
      ensures View() == FinishRace(old(View()))
    {
      turn := None;
      match phase.task {
        case Holds(call) =>
          var t := CallTurnOf(call, phase.result);
          turn := Some(t);
        case Errored =>
          endedWithPending := provider != Running;
          phase := Stopped(BridgeFailed(ClosedError));
        case _ => phase := Draining(phase.result);
      }
    }

    method ReturnFromDrain() returns (turn: Option<Turn>)
      requires phase.Draining?
      modifies this
      ensures View() == FinishDrain(old(View()))
    {
      if WaitingIds(State(bridge.tools, bridge.queue, bridge.pending, bridge.seen, bridge.closed, [], [], map[])) != {} || bridge.queue != [] {
        endedWithPending := true;
      }
      turn := ProviderTerminalTurn(phase.result);
    }

    method CancelAdapter()
      modifies this, bridge
      ensures View() == CancelRun(old(View()))
    {
      if cancelled {
        return;
      }
      cancelled := true;
      bridge.Shut();
    }
  }

  // ---------- Over every interleaving ----------

  function CallsOf(turns: seq<Turn>): seq<ToolCall> {
    if turns == [] then []
    else
      var last := turns[|turns| - 1];
      CallsOf(turns[..|turns| - 1]) + (if last.CallTurn? then [last.call] else [])
  }

  function Held(phase: Phase): seq<ToolCall> {
    if phase.Racing? && phase.task.Holds? then [phase.task.call] else []
  }

  /** A result belongs to a turn when it answers the call of the turn before it. */
  predicate Answers(turns: seq<Turn>, result: Option<ToolResult>) {
    if turns == [] then result.None?
    else turns[|turns| - 1].CallTurn? && result.Some? && result.value.callId == turns[|turns| - 1].call.id
  }

  ghost predicate TurnsInOrder(turns: seq<Turn>) {
    turns == [] ||
    var n := |turns| - 1;
    TurnsInOrder(turns[..n]) && turns[n].index == n && Answers(turns[..n], turns[n].result)
  }

  predicate OnRunner(y: System, id: string) {
    || Names(y.bridge.queue, id)
    || y.inFlight == Some(id)
    || (y.phase.Racing? && y.phase.task.Holds? && y.phase.task.call.id == id)
  }

  /** Turns are numbered 0, 1, 2, ... and each answers the one before; the calls turned out, the
      one the race holds and the queue are the bridge's history; every waiting callback is queued,
      held or in flight; results are only delivered to calls that were handed out. */
  ghost predicate SystemInv(y: System) {
    && Inv(y.bridge)
    && y.turnIndex == |y.turns| && TurnsInOrder(y.turns)
    && y.bridge.handed == CallsOf(y.turns) + Held(y.phase)
    && (y.ended ==> y.provider != Running)
    && (y.phase == Ready ==>
          && !y.ended
          && (y.turns == [] ==> y.inFlight.None?)
          && (y.turns != [] ==> y.turns[|y.turns| - 1].CallTurn? && y.inFlight == Some(y.turns[|y.turns| - 1].call.id)))
    && (y.phase.Racing? || y.phase.Draining? ==> !y.ended && y.inFlight.None? && Answers(y.turns, y.phase.result))
    && (y.phase.Draining? ==> y.provider != Running)
    && (forall id :: id in WaitingIds(y.bridge) ==> OnRunner(y, id))
    && (forall id :: id in y.bridge.settled && y.bridge.settled[id].Delivered? ==> Names(y.bridge.handed, id))
  }
}
