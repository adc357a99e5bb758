/**
 The bounded model/tool loop over durable steps, and the recovery that resumes it from its committed
 prefix. As in ToolProtocol, the machine steps at the points where the process can die; one executor
 works on the run at a time.
 */
module AgentRuns {
  import opened Common
  import Tools = ToolProtocol

  datatype RunStatus = Running | Completed | MaxSteps | RunFailed | RunNeedsReview

  datatype Action = CallTool(tool: string, arguments: string) | FinalAnswer(content: string)

  /** What the next model turn is shown: the durable outcome of a ToolCall, or the error that replaced it. */
  datatype Observation = OfCall(call: nat, status: Tools.Status) | OfError(message: string)

  datatype RunStep = RunStep(sequence: nat, action: Action, toolCall: Option<nat>, observation: Option<Observation>)

  datatype AgentRun = AgentRun(
    status: RunStatus, maxSteps: nat, stepCount: nat, steps: seq<RunStep>, finalAnswer: Option<string>)

  /** A ToolCall was created for the step with this sequence number, or the model was called. */
  datatype Event = ModelCalled | ToolCallCreated(sequence: nat)

  /** The committed run and what has happened outside it. */
  datatype State = State(run: AgentRun, log: seq<Event>)

  /** What run_tool_call does first: raise, or commit a ToolCall row linked to the step (created now or found). */
  datatype ToolStart = RaisesAtOnce(message: string) | Links(call: nat, created: bool)

  datatype ToolEnd = Returns(status: Tools.Status) | Raises(message: string)

  /**
   The environment at one step. raises is an exception of whatever code the step runs, at every position but
   AwaitTool: there the source catches it, and toolEnd says what it was. refused is the ValueError of an
   unknown model or the CheckpointVersionError that recovery catches itself.
   */
  datatype Input = Input(
    raises: bool, refused: bool, proposal: Option<Action>, toolStart: ToolStart, toolEnd: ToolEnd,
    recoveredCall: Option<Tools.Status>)

  datatype Pc =
    | Boundary                                  // _finish_committed_boundary
    | CheckLimit                                // the limit test before the loop
    | Build                                     // _build_request
    | CallModel
    | RecordDecision(action: Action)
    | Complete(answer: string)
    | StartTool(resuming: bool)                 // resuming: called by recovery, not by the loop
    | AwaitTool(resuming: bool, call: nat)
    | StoreObservation(resuming: bool, observation: Observation)
    | CheckLimitAgain
    | StopAtLimit
    | MarkFailed
    | RecoverRun
    | RecoverCall(call: nat)
    | RestoreObservation(observation: Observation)
    | ReviewRun
    | Stopped                                   // the request returned
    | Escaped                                   // an exception left the request

  // ---------------------------------------------------------------- one step

  function Last(run: AgentRun): RunStep
    requires run.steps != []
  {
    run.steps[|run.steps| - 1]
  }

  predicate ToolPending(run: AgentRun) {
    run.steps != [] && Last(run).action.CallTool? && Last(run).observation.None?
  }

  function WithLast(run: AgentRun, step: RunStep): AgentRun
    requires run.steps != []
  {
    run.(steps := run.steps[|run.steps| - 1 := step])
  }

  /** Terminal for the owner of the run, which is not the same set as for a replay of the ToolCall. */
  predicate CallEnded(status: Tools.Status) {
    status == Tools.Succeeded || status == Tools.Failed || status == Tools.Denied
  }

  predicate NeedsLast(pc: Pc) {
    pc.StartTool? || pc.AwaitTool? || pc.StoreObservation? || pc.RestoreObservation?
  }

  /** A tool_call needs its tool; anything that is neither a call nor an answer is refused before it is saved. */
  predicate ValidDecision(proposal: Option<Action>) { proposal.Some? }

  function BoundaryStep(run: AgentRun): Pc {
    if run.status != Running then Stopped
    else if run.steps == [] then CheckLimit
    else if Last(run).action.FinalAnswer? then Complete(Last(run).action.content)
    else if Last(run).observation.None? then MarkFailed
    else CheckLimit
  }

  /** recover_agent_run: the action follows from the last committed step alone. */
  function RecoverStep(run: AgentRun, inp: Input): Pc {
    if inp.refused then ReviewRun
    else if run.steps == [] || Last(run).action.FinalAnswer? || Last(run).observation.Some? then Boundary
    else if Last(run).toolCall.None? then StartTool(true)
    else RecoverCall(Last(run).toolCall.value)
  }

  function ToolStartStep(st: State, resuming: bool, start: ToolStart): (State, Pc)
    requires st.run.steps != []
  {
    match start
    case RaisesAtOnce(message) => (st, StoreObservation(resuming, OfError(message)))
    case Links(call, created) =>
      var step := Last(st.run);
      (State(WithLast(st.run, step.(toolCall := Some(call))),
             if created then st.log + [ToolCallCreated(step.sequence)] else st.log),
       AwaitTool(resuming, call))
  }

  /**
   Where an exception goes. The engine's run method catches what its loop raises and marks the run failed;
   nothing catches what the marking raises, nor what recovery's own code raises.
   */
  function Handler(pc: Pc): Pc {
    match pc
    case RecoverRun => Escaped
    case RecoverCall(_) => Escaped
    case RestoreObservation(_) => Escaped
    case ReviewRun => Escaped
    case MarkFailed => Escaped
    case StartTool(resuming) => if resuming then Escaped else MarkFailed
    case StoreObservation(resuming, _) => if resuming then Escaped else MarkFailed
    case _ => MarkFailed
  }

  function Step(st: State, pc: Pc, inp: Input): (State, Pc)
    requires pc != Stopped && pc != Escaped && (NeedsLast(pc) ==> st.run.steps != [])
  {
    if inp.raises && !pc.AwaitTool? then
      (if pc == CallModel then st.(log := st.log + [ModelCalled]) else st, Handler(pc))
    else NormalStep(st, pc, inp)
  }

  /** The step when nothing raises. */
  function NormalStep(st: State, pc: Pc, inp: Input): (State, Pc)
    requires pc != Stopped && pc != Escaped && (NeedsLast(pc) ==> st.run.steps != [])
  {
    var run := st.run;
    match pc
    case Boundary => (st, BoundaryStep(run))
    case CheckLimit => (st, if run.stepCount >= run.maxSteps then StopAtLimit else Build)
    case Build => (st, if run.status != Running then Stopped else CallModel)
    case CallModel =>
      (st.(log := st.log + [ModelCalled]),
       if !ValidDecision(inp.proposal) then MarkFailed else RecordDecision(inp.proposal.value))
    case RecordDecision(action) =>
      if run.status != Running then (st, MarkFailed)
      else
        var sequence := run.stepCount + 1;
        (st.(run := run.(stepCount := sequence, steps := run.steps + [RunStep(sequence, action, None, None)])),
         if action.FinalAnswer? then Complete(action.content) else StartTool(false))
    case Complete(answer) => (st.(run := run.(status := Completed, finalAnswer := Some(answer))), Stopped)
    case StartTool(resuming) => ToolStartStep(st, resuming, inp.toolStart)
    case AwaitTool(resuming, call) =>
      (st, match inp.toolEnd
           case Returns(status) => StoreObservation(resuming, OfCall(call, status))
           case Raises(message) => StoreObservation(resuming, OfError(message)))
    case StoreObservation(resuming, observation) =>
      (st.(run := WithLast(run, Last(run).(observation := Some(observation)))),
       if resuming then Boundary else CheckLimitAgain)
    case CheckLimitAgain => (st, if run.stepCount >= run.maxSteps then StopAtLimit else Build)
    case StopAtLimit => (st.(run := run.(status := MaxSteps)), Stopped)
    case MarkFailed => (st.(run := run.(status := RunFailed)), Stopped)
    case RecoverRun => (st, RecoverStep(run, inp))
    case RecoverCall(call) =>
      (st, if inp.recoveredCall.Some? && CallEnded(inp.recoveredCall.value)
           then RestoreObservation(OfCall(call, inp.recoveredCall.value)) else ReviewRun)
    case RestoreObservation(observation) =>
      (st.(run := WithLast(run, Last(run).(observation := Some(observation)))), Boundary)
    case ReviewRun => (st.(run := run.(status := RunNeedsReview)), Stopped)
  }

  predicate Enabled(st: State, pc: Pc) {
    pc != Stopped && pc != Escaped && (NeedsLast(pc) ==> st.run.steps != [])
  }

  /** The machine from pc for at most n steps; running out of steps is a crash. */
  function Drive(st: State, pc: Pc, env: nat -> Input, tick: nat, n: nat): (State, Pc)
    decreases n
  {
    if n == 0 || !Enabled(st, pc) then (st, pc)
    else var (st', pc') := Step(st, pc, env(tick)); Drive(st', pc', env, tick + 1, n - 1)
  }

  /** What sessions do with a run: start the engine on it, or recover it. */
  predicate IsRequest(pc: Pc) { pc == Boundary || pc == RecoverRun }

  function NewRun(maxSteps: nat): State { State(AgentRun(Running, maxSteps, 0, [], None), []) }

  // ---------------------------------------------------------------- what every committed prefix satisfies

  predicate StepsOk(run: AgentRun) {
    && run.stepCount == |run.steps| <= run.maxSteps
    && (forall i :: 0 <= i < |run.steps| ==> run.steps[i].sequence == i + 1)
    && (forall i :: 0 <= i < |run.steps| - 1 ==> run.steps[i].action.CallTool? && run.steps[i].observation.Some?)
    && (run.steps != [] && Last(run).action.FinalAnswer? ==>
          Last(run).observation.None? && Last(run).toolCall.None?)
  }

  /** How a run can have ended. */
  predicate EndOk(run: AgentRun) {
    && (run.status == Completed ==>
          run.steps != [] && Last(run).action.FinalAnswer? && run.finalAnswer == Some(Last(run).action.content))
    && (run.status == MaxSteps ==>
          |run.steps| == run.maxSteps && (run.steps != [] ==> Last(run).action.CallTool? && Last(run).observation.Some?))
  }

  predicate Linked(run: AgentRun, e: Event) {
    e.ToolCallCreated? ==> 1 <= e.sequence <= |run.steps| && run.steps[e.sequence - 1].toolCall.Some?
  }

  /** A ToolCall created for a step is linked to it, and no two were created for one step. */
  predicate CreationsOk(st: State) {
    && (forall i :: 0 <= i < |st.log| ==> Linked(st.run, st.log[i]))
    && (forall i, j :: 0 <= i < j < |st.log| && st.log[i].ToolCallCreated? ==> st.log[i] != st.log[j])
  }

  predicate StateOk(st: State) {
    StepsOk(st.run) && EndOk(st.run) && CreationsOk(st)
  }

  /** The loop may ask the model for another step. */
  predicate ReadyForTurn(run: AgentRun) {
    run.status == Running && (run.steps == [] || (Last(run).action.CallTool? && Last(run).observation.Some?))
  }

  predicate PcOk(run: AgentRun, pc: Pc)
  {
    match pc
    case Boundary => true
    case CheckLimit => ReadyForTurn(run)
    case CheckLimitAgain => ReadyForTurn(run)
    case Build => ReadyForTurn(run) && run.stepCount < run.maxSteps
    case CallModel => ReadyForTurn(run) && run.stepCount < run.maxSteps
    case RecordDecision(_) => ReadyForTurn(run) && run.stepCount < run.maxSteps
    case StopAtLimit => ReadyForTurn(run) && run.stepCount >= run.maxSteps
    case Complete(answer) =>
      run.status == Running && run.steps != [] && Last(run).action == FinalAnswer(answer)
    case StartTool(_) => run.status == Running && ToolPending(run) && Last(run).toolCall.None?
    case AwaitTool(_, call) => run.status == Running && ToolPending(run) && Last(run).toolCall == Some(call)
    case StoreObservation(_, _) => run.status == Running && ToolPending(run)
    case RestoreObservation(observation) =>
      && run.status == Running && ToolPending(run)
      && observation.OfCall? && Last(run).toolCall == Some(observation.call) && CallEnded(observation.status)
    case RecoverCall(call) => run.status == Running && ToolPending(run) && Last(run).toolCall == Some(call)
    case MarkFailed => true
    case RecoverRun => run.status == Running
    case ReviewRun => run.status == Running
    case Stopped => run.status != Running
    case Escaped => true
  }

  /** Steps are only added, and a step that is linked to a ToolCall stays linked. */
  predicate LinksGrow(run: AgentRun, run': AgentRun) {
    && |run.steps| <= |run'.steps|
    && (forall i :: 0 <= i < |run.steps| && run.steps[i].toolCall.Some? ==> run'.steps[i].toolCall.Some?)
  }

  lemma LinksGrowKeepsLog(st: State, st': State)
    requires CreationsOk(st) && LinksGrow(st.run, st'.run) && st'.log == st.log
    ensures CreationsOk(st')
  {
  }

  lemma StartToolKeepsCreations(st: State, resuming: bool, start: ToolStart)
    requires StateOk(st) && PcOk(st.run, StartTool(resuming))
    ensures CreationsOk(ToolStartStep(st, resuming, start).0)
  {
  }

  lemma StepKeepsCreations(st: State, pc: Pc, inp: Input)
    requires Enabled(st, pc) && StateOk(st) && PcOk(st.run, pc)
    ensures CreationsOk(Step(st, pc, inp).0)
  {
    var st' := Step(st, pc, inp).0;
    if pc.StartTool? { StartToolKeepsCreations(st, pc.resuming, inp.toolStart); }
    else if pc.CallModel? {
      assert forall i :: 0 <= i < |st.log| ==> Linked(st.run, st.log[i]);
    } else {
      assert LinksGrow(st.run, st'.run);
      LinksGrowKeepsLog(st, st');
    }
  }

  /** Writing the link or the observation of a pending last step keeps the shape of the run. */
  lemma LastStepWritten(run: AgentRun, step: RunStep)
    requires StepsOk(run) && run.status == Running && ToolPending(run)
    requires step.sequence == Last(run).sequence && step.action == Last(run).action
    ensures StepsOk(WithLast(run, step)) && EndOk(WithLast(run, step))
  {
  }

  lemma DecisionRecorded(run: AgentRun, action: Action)
    requires StepsOk(run) && ReadyForTurn(run) && run.stepCount < run.maxSteps
    ensures var run' := run.(stepCount := run.stepCount + 1,
                             steps := run.steps + [RunStep(run.stepCount + 1, action, None, None)]);
            StepsOk(run') && EndOk(run')
  {
  }

  lemma StepKeepsRow(st: State, pc: Pc, inp: Input)
    requires Enabled(st, pc) && StepsOk(st.run) && EndOk(st.run) && PcOk(st.run, pc)
    ensures var st' := Step(st, pc, inp).0; StepsOk(st'.run) && EndOk(st'.run)
  {
    var run := st.run;
    match pc
    case RecordDecision(action) => DecisionRecorded(run, action);
    case StartTool(_) =>
      if inp.toolStart.Links? { LastStepWritten(run, Last(run).(toolCall := Some(inp.toolStart.call))); }
    case StoreObservation(_, observation) => LastStepWritten(run, Last(run).(observation := Some(observation)));
    case RestoreObservation(observation) => LastStepWritten(run, Last(run).(observation := Some(observation)));
    case _ =>
  }

  lemma StepKeepsPcOk(st: State, pc: Pc, inp: Input)
    requires Enabled(st, pc) && StepsOk(st.run) && PcOk(st.run, pc)
    ensures var (st', pc') := Step(st, pc, inp);
            PcOk(st'.run, pc') && (pc' == Stopped || pc' == Escaped || Enabled(st', pc'))
  {
  }

  lemma {:induction false} StepKeepsStateOk(st: State, pc: Pc, inp: Input)
    requires Enabled(st, pc) && StateOk(st) && PcOk(st.run, pc)
    ensures var (st', pc') := Step(st, pc, inp);
            StateOk(st') && PcOk(st'.run, pc') && (pc' == Stopped || pc' == Escaped || Enabled(st', pc'))
  {
    StepKeepsCreations(st, pc, inp);
    StepKeepsRow(st, pc, inp);
    StepKeepsPcOk(st, pc, inp);
  }

  lemma {:induction false} DriveKeepsStateOk(st: State, pc: Pc, env: nat -> Input, tick: nat, n: nat)
    requires StateOk(st) && PcOk(st.run, pc) && (pc == Stopped || pc == Escaped || Enabled(st, pc))
    ensures var (st', pc') := Drive(st, pc, env, tick, n); StateOk(st') && PcOk(st'.run, pc')
    decreases n
  {
    hide Step;
    if n > 0 && Enabled(st, pc) {
      StepKeepsStateOk(st, pc, env(tick));
      var (st', pc') := Step(st, pc, env(tick));
      DriveKeepsStateOk(st', pc', env, tick + 1, n - 1);
    }
  }

  // ---------------------------------------------------------------- how long and how many model calls

  function ModelCalls(log: seq<Event>): nat {
    if log == [] then 0 else ModelCalls(log[..|log| - 1]) + (if log[|log| - 1].ModelCalled? then 1 else 0)
  }

  function TurnsLeft(run: AgentRun): nat {
    if run.stepCount < run.maxSteps then run.maxSteps - run.stepCount else 0
  }

  /** How many times the request can still call the model. */
  function CallsAhead(run: AgentRun, pc: Pc): nat {
    match pc
    case Boundary => if run.status != Running || EndsInAnswer(run) then 0 else TurnsLeft(run)
    case RecoverRun => if EndsInAnswer(run) then 0 else TurnsLeft(run)
    case RecordDecision(_) => if TurnsLeft(run) == 0 then 0 else TurnsLeft(run) - 1
    case Complete(_) => 0
    case StopAtLimit => 0
    case MarkFailed => 0
    case ReviewRun => 0
    case Stopped => 0
    case Escaped => 0
    case _ => TurnsLeft(run)
  }

  predicate EndsInAnswer(run: AgentRun) { run.steps != [] && Last(run).action.FinalAnswer? }

  lemma OneMoreEvent(log: seq<Event>, e: Event)
    ensures ModelCalls(log + [e]) == ModelCalls(log) + (if e.ModelCalled? then 1 else 0)
  {
    assert (log + [e])[..|log|] == log;
  }

  /** What one step adds to the log, and the calls it leaves ahead. */
  lemma StepBudget(st: State, pc: Pc, inp: Input)
    requires Enabled(st, pc) && StepsOk(st.run) && PcOk(st.run, pc)
    ensures var (st', pc') := Step(st, pc, inp);
            && (st'.log == st.log || (exists e :: st'.log == st.log + [e] && (e.ModelCalled? <==> pc == CallModel)))
            && CallsAhead(st'.run, pc') + (if pc == CallModel then 1 else 0) <= CallsAhead(st.run, pc)
  {
    var (st', pc') := Step(st, pc, inp);
    if pc == CallModel { assert st'.log == st.log + [ModelCalled]; }
    else if pc.StartTool? && st'.log != st.log { assert st'.log == st.log + [ToolCallCreated(Last(st.run).sequence)]; }
  }

  lemma {:induction false} StepSpendsCalls(st: State, pc: Pc, inp: Input)
    requires Enabled(st, pc) && StepsOk(st.run) && PcOk(st.run, pc)
    ensures var (st', pc') := Step(st, pc, inp);
            ModelCalls(st'.log) + CallsAhead(st'.run, pc') <= ModelCalls(st.log) + CallsAhead(st.run, pc)
  {
    hide Step;
    StepBudget(st, pc, inp);
    var st' := Step(st, pc, inp).0;
    if st'.log != st.log {
      var e :| st'.log == st.log + [e] && (e.ModelCalled? <==> pc == CallModel);
      OneMoreEvent(st.log, e);
    }
  }

  /** Decreases with every step: turns first, then the position within a turn. */
  function StepsAhead(run: AgentRun, pc: Pc): nat {
    20 * TurnsLeft(run) +
    match pc
    case RecoverRun => 19
    case StartTool(_) => 17
    case AwaitTool(_, _) => 16
    case RecoverCall(_) => 16
    case StoreObservation(_, _) => 15
    case RestoreObservation(_) => 15
    case Boundary => 14
    case CheckLimit => 13
    case CheckLimitAgain => 13
    case Build => 12
    case CallModel => 11
    case RecordDecision(_) => 10
    case Complete(_) => 9
    case StopAtLimit => 2
    case Stopped => 0
    case Escaped => 0
    case _ => 1
  }

  lemma StepsRunOut(st: State, pc: Pc, inp: Input)
    requires Enabled(st, pc) && StepsOk(st.run) && PcOk(st.run, pc)
    ensures var (st', pc') := Step(st, pc, inp); StepsAhead(st'.run, pc') < StepsAhead(st.run, pc)
  {
  }

  lemma {:induction false} DriveEnds(st: State, pc: Pc, env: nat -> Input, tick: nat, n: nat)
    requires StateOk(st) && PcOk(st.run, pc) && (pc == Stopped || pc == Escaped || Enabled(st, pc))
    ensures var (st', pc') := Drive(st, pc, env, tick, n);
            && ModelCalls(st'.log) + CallsAhead(st'.run, pc') <= ModelCalls(st.log) + CallsAhead(st.run, pc)
            && (n >= StepsAhead(st.run, pc) ==> pc' == Stopped || pc' == Escaped)
    decreases n
  {
    hide Step, ModelCalls, CallsAhead, PcOk, CreationsOk, EndOk;
    if n > 0 && Enabled(st, pc) {
      StepKeepsStateOk(st, pc, env(tick));
      StepSpendsCalls(st, pc, env(tick));
      StepsRunOut(st, pc, env(tick));
      var (st', pc') := Step(st, pc, env(tick));
      DriveEnds(st', pc', env, tick + 1, n - 1);
    }
  }

  // ---------------------------------------------------------------- the promises

  /** Sessions on one run, one after the other, each dying after its own number of steps. */
  function Served(maxSteps: nat, requests: seq<(Pc, nat)>, env: (nat, nat) -> Input): State
    decreases |requests|
  {
    if requests == [] then NewRun(maxSteps)
    else
      var last := |requests| - 1;
      Drive(Served(maxSteps, requests[..last], env), requests[last].0, InputsOf(env, last), 0, requests[last].1).0
  }

  function InputsOf(env: (nat, nat) -> Input, request: nat): nat -> Input {
    (t: nat) => env(request, t)
  }

  /** The engine may be started on any run; recovery is only asked for a run that is still running. */
  predicate Servable(maxSteps: nat, requests: seq<(Pc, nat)>, env: (nat, nat) -> Input)
    decreases |requests|
  {
    requests == [] ||
    var last := |requests| - 1;
    && Servable(maxSteps, requests[..last], env)
    && IsRequest(requests[last].0)
    && (requests[last].0 == RecoverRun ==> Served(maxSteps, requests[..last], env).run.status == Running)
  }

  /**
   In every committed state of a run, whatever the model and the tools did and wherever its sessions
   died: steps are numbered 1..step_count, step_count stays within max_steps, only the last step can lack
   its observation, an answer is last, and every created ToolCall is linked to its step, at most one each.
   */
  lemma {:induction false} EveryCommittedPrefixIsWellFormed(maxSteps: nat, requests: seq<(Pc, nat)>, env: (nat, nat) -> Input)
    requires Servable(maxSteps, requests, env)
    ensures StateOk(Served(maxSteps, requests, env))
    ensures Served(maxSteps, requests, env).run.maxSteps == maxSteps
    decreases |requests|
  {
    if requests != [] {
      var last := |requests| - 1;
      var before := Served(maxSteps, requests[..last], env);
      EveryCommittedPrefixIsWellFormed(maxSteps, requests[..last], env);
      DriveKeepsStateOk(before, requests[last].0, InputsOf(env, last), 0, requests[last].1);
      DriveKeepsLimit(before, requests[last].0, InputsOf(env, last), 0, requests[last].1);
    }
  }

  lemma {:induction false} DriveKeepsLimit(st: State, pc: Pc, env: nat -> Input, tick: nat, n: nat)
    ensures Drive(st, pc, env, tick, n).0.run.maxSteps == st.run.maxSteps
    decreases n
  {
    if n > 0 && Enabled(st, pc) {
      var (st', pc') := Step(st, pc, env(tick));
      DriveKeepsLimit(st', pc', env, tick + 1, n - 1);
    }
  }

  /** A running run stays running until the commit that ends the request. */
  lemma StepRunsOn(st: State, pc: Pc, inp: Input)
    requires Enabled(st, pc) && PcOk(st.run, pc) && st.run.status == Running
    ensures Step(st, pc, inp).1 == Stopped || Step(st, pc, inp).0.run.status == Running
  {
  }

  lemma {:induction false} RunsUntilStopped(st: State, pc: Pc, env: nat -> Input, tick: nat, n: nat)
    requires StateOk(st) && PcOk(st.run, pc) && Enabled(st, pc) && st.run.status == Running
    ensures var (st', pc') := Drive(st, pc, env, tick, n);
            PcOk(st'.run, pc') && (pc' == Stopped <==> st'.run.status != Running)
    decreases n
  {
    hide Step;
    if n > 0 {
      StepKeepsStateOk(st, pc, env(tick));
      StepRunsOn(st, pc, env(tick));
      var (st', pc') := Step(st, pc, env(tick));
      if Enabled(st', pc') { RunsUntilStopped(st', pc', env, tick + 1, n - 1); }
    }
  }

  /**
   Recovery of any reachable running run ends within a bound the run itself gives; unless an exception
   leaves it, the run is no longer running; the model is called at most max_steps - step_count times, and
   not at all when an answer was saved.
   */
  lemma RecoveryTerminates(st: State, env: nat -> Input, n: nat)
    requires StateOk(st) && st.run.status == Running && n >= 20 * TurnsLeft(st.run) + 19
    ensures var (st', pc') := Drive(st, RecoverRun, env, 0, n);
            && (pc' == Stopped || pc' == Escaped)
            && (pc' == Stopped <==> st'.run.status != Running)
            && ModelCalls(st'.log) <= ModelCalls(st.log) + (st.run.maxSteps - st.run.stepCount)
            && (EndsInAnswer(st.run) ==> ModelCalls(st'.log) == ModelCalls(st.log))
  {
    hide Step;
    DriveEnds(st, RecoverRun, env, 0, n);
    RunsUntilStopped(st, RecoverRun, env, 0, n);
    DriveOnlyAdds(st, RecoverRun, env, 0, n);
  }

  // ---------------------------------------------------------------- exactly when recovery leaves a run running

  /** The positions whose exceptions the engine's run method catches, or catches while it marks the run failed. */
  predicate InEngine(pc: Pc) {
    && pc != Escaped && pc != RecoverRun && !pc.RecoverCall? && !pc.RestoreObservation? && pc != ReviewRun
    && (pc.StartTool? || pc.AwaitTool? || pc.StoreObservation? ==> !pc.resuming)
  }

  /** After m steps the engine is marking the run failed, and that raises too. */
  predicate FailureHandlerRaisesAt(st: State, pc: Pc, env: nat -> Input, tick: nat, m: nat) {
    Drive(st, pc, env, tick, m).1 == MarkFailed && env(tick + m).raises
  }

  predicate FailureHandlerRaises(st: State, pc: Pc, env: nat -> Input, tick: nat, n: nat) {
    exists m: nat :: m < n && FailureHandlerRaisesAt(st, pc, env, tick, m)
  }

  lemma DriveTakesStep(st: State, pc: Pc, env: nat -> Input, tick: nat, n: nat) returns (st': State, pc': Pc)
    requires Enabled(st, pc) && n > 0
    ensures (st', pc') == Step(st, pc, env(tick))
    ensures Drive(st, pc, env, tick, n) == Drive(st', pc', env, tick + 1, n - 1)
  {
    hide Step;
    st', pc' := Step(st, pc, env(tick)).0, Step(st, pc, env(tick)).1;
  }

  lemma FailureHandlerLater(st: State, pc: Pc, env: nat -> Input, tick: nat, n: nat) returns (st': State, pc': Pc)
    requires Enabled(st, pc) && n > 0 && pc != MarkFailed
    ensures (st', pc') == Step(st, pc, env(tick))
    ensures Drive(st, pc, env, tick, n) == Drive(st', pc', env, tick + 1, n - 1)
    ensures FailureHandlerRaises(st, pc, env, tick, n) <==> FailureHandlerRaises(st', pc', env, tick + 1, n - 1)
  {
    hide Step;
    st', pc' := DriveTakesStep(st, pc, env, tick, n);
    if FailureHandlerRaises(st, pc, env, tick, n) {
      var m: nat :| m < n && FailureHandlerRaisesAt(st, pc, env, tick, m);
      var a, b := DriveTakesStep(st, pc, env, tick, m);
      assert FailureHandlerRaisesAt(st', pc', env, tick + 1, m - 1);
    }
    if FailureHandlerRaises(st', pc', env, tick + 1, n - 1) {
      var m: nat :| m < n - 1 && FailureHandlerRaisesAt(st', pc', env, tick + 1, m);
      var a, b := DriveTakesStep(st, pc, env, tick, m + 1);
      assert FailureHandlerRaisesAt(st, pc, env, tick, m + 1);
    }
  }

  /** A request that is over stays where it is, and marks nothing failed. */
  lemma OverIsOver(st: State, pc: Pc, env: nat -> Input, tick: nat, n: nat)
    requires pc == Stopped || pc == Escaped
    ensures Drive(st, pc, env, tick, n) == (st, pc) && !FailureHandlerRaises(st, pc, env, tick, n)
  {
  }

  lemma StepStaysInEngine(st: State, pc: Pc, inp: Input)
    requires InEngine(pc) && Enabled(st, pc) && pc != MarkFailed
    ensures InEngine(Step(st, pc, inp).1)
  {
  }

  /** An exception leaves the engine exactly when its failure handler raises. */
  lemma {:induction false} EngineEscapesIff(st: State, pc: Pc, env: nat -> Input, tick: nat, n: nat)
    requires InEngine(pc) && (pc == Stopped || Enabled(st, pc))
    requires StateOk(st) && PcOk(st.run, pc)
    ensures Drive(st, pc, env, tick, n).1 == Escaped <==> FailureHandlerRaises(st, pc, env, tick, n)
    decreases n
  {
    hide Step;
    if pc == Stopped {
      OverIsOver(st, pc, env, tick, n);
    } else if n > 0 && pc == MarkFailed {
      var st', pc' := DriveTakesStep(st, pc, env, tick, n);
      MarkingEscapes(st, env, tick, n);
    } else if n > 0 {
      var st', pc' := FailureHandlerLater(st, pc, env, tick, n);
      StepStaysInEngine(st, pc, env(tick));
      StepKeepsStateOk(st, pc, env(tick));
      EngineEscapesIff(st', pc', env, tick + 1, n - 1);
    }
  }

  lemma MarkedOnce(st: State, env: nat -> Input, tick: nat, m: nat)
    ensures Drive(st, MarkFailed, env, tick, m).1 == MarkFailed <==> m == 0
  {
    if m > 0 {
      var st', pc' := DriveTakesStep(st, MarkFailed, env, tick, m);
      OverIsOver(st', pc', env, tick + 1, m - 1);
    }
  }

  lemma MarkingEscapes(st: State, env: nat -> Input, tick: nat, n: nat)
    requires n > 0
    ensures Drive(st, MarkFailed, env, tick, n).1 == Escaped <==> env(tick).raises
    ensures FailureHandlerRaises(st, MarkFailed, env, tick, n) <==> env(tick).raises
  {
    var st', pc' := DriveTakesStep(st, MarkFailed, env, tick, n);
    OverIsOver(st', pc', env, tick + 1, n - 1);
    MarkedOnce(st, env, tick, 0);
    if env(tick).raises { assert FailureHandlerRaisesAt(st, MarkFailed, env, tick, 0); }
    forall m: nat
      ensures FailureHandlerRaisesAt(st, MarkFailed, env, tick, m) ==> env(tick).raises
    {
      MarkedOnce(st, env, tick, m);
    }
  }

  /**
   What recovery itself runs outside any handler, position by position: its start, the marking for review,
   the pending tool step it executes or the recovery of the linked call, and the storing of what came of it.
   */
  predicate RaisesOutsideTheEngine(run: AgentRun, env: nat -> Input) {
    if env(0).raises then true
    else if env(0).refused then env(1).raises
    else if !ToolPending(run) then false
    else if Last(run).toolCall.Some? then env(1).raises || env(2).raises
    else env(1).raises || ResumedToolRaises(env)
  }

  /** One step outside the engine: it escapes, or what follows decides. */
  lemma OwnStep(st: State, pc: Pc, env: nat -> Input, tick: nat, n: nat) returns (st': State, pc': Pc)
    requires Enabled(st, pc) && n > 0 && pc != MarkFailed && StateOk(st) && PcOk(st.run, pc)
    ensures (st', pc') == Step(st, pc, env(tick)) && StateOk(st') && PcOk(st'.run, pc')
    ensures pc' == Stopped || pc' == Escaped || Enabled(st', pc')
    ensures Drive(st, pc, env, tick, n) == Drive(st', pc', env, tick + 1, n - 1)
    ensures FailureHandlerRaises(st, pc, env, tick, n) <==> FailureHandlerRaises(st', pc', env, tick + 1, n - 1)
    ensures pc' == Escaped ==> Drive(st, pc, env, tick, n).1 == Escaped
    ensures pc' == Stopped ==> Drive(st, pc, env, tick, n).1 == Stopped && !FailureHandlerRaises(st, pc, env, tick, n)
    ensures pc' == Boundary ==> (Drive(st, pc, env, tick, n).1 == Escaped <==> FailureHandlerRaises(st, pc, env, tick, n))
  {
    hide Step;
    st', pc' := FailureHandlerLater(st, pc, env, tick, n);
    StepKeepsStateOk(st, pc, env(tick));
    if pc' == Stopped || pc' == Escaped { OverIsOver(st', pc', env, tick + 1, n - 1); }
    if pc' == Boundary { EngineEscapesIff(st', pc', env, tick + 1, n - 1); }
  }

  /** What came of the resumed tool is stored right after it raised, or after it was linked and returned. */
  predicate ResumedToolRaises(env: nat -> Input) {
    if env(1).toolStart.RaisesAtOnce? then env(2).raises else env(3).raises
  }

  /** The last step recovery takes itself escapes exactly when it raises; otherwise the engine or nothing follows. */
  lemma LastOwnStepEscapesIff(st: State, pc: Pc, env: nat -> Input, tick: nat, n: nat)
    requires StateOk(st) && PcOk(st.run, pc) && n >= 1 && Enabled(st, pc)
    requires pc == ReviewRun || pc.RestoreObservation? || (pc.StoreObservation? && pc.resuming)
    ensures Drive(st, pc, env, tick, n).1 == Escaped <==> env(tick).raises || FailureHandlerRaises(st, pc, env, tick, n)
  {
    var st1, pc1 := OwnStep(st, pc, env, tick, n);
  }

  lemma AwaitedToolEscapesIff(st: State, call: nat, env: nat -> Input, tick: nat, n: nat)
    requires StateOk(st) && PcOk(st.run, AwaitTool(true, call)) && n >= 2
    ensures Drive(st, AwaitTool(true, call), env, tick, n).1 == Escaped
            <==> env(tick + 1).raises || FailureHandlerRaises(st, AwaitTool(true, call), env, tick, n)
  {
    var st1, pc1 := OwnStep(st, AwaitTool(true, call), env, tick, n);
    assert pc1.StoreObservation? && pc1.resuming;
    LastOwnStepEscapesIff(st1, pc1, env, tick + 1, n - 1);
  }

  lemma ResumedToolStarts(st: State, inp: Input)
    requires Enabled(st, StartTool(true))
    ensures var pc' := Step(st, StartTool(true), inp).1;
            if inp.raises then pc' == Escaped
            else match inp.toolStart
                 case RaisesAtOnce(message) => pc' == StoreObservation(true, OfError(message))
                 case Links(call, _) => pc' == AwaitTool(true, call)
  {
  }

  lemma ResumedToolEscapesIff(st: State, env: nat -> Input, n: nat)
    requires StateOk(st) && PcOk(st.run, StartTool(true)) && n >= 3
    ensures Drive(st, StartTool(true), env, 1, n).1 == Escaped
            <==> env(1).raises || ResumedToolRaises(env) || FailureHandlerRaises(st, StartTool(true), env, 1, n)
  {
    hide Step;
    var st1, pc1 := OwnStep(st, StartTool(true), env, 1, n);
    ResumedToolStarts(st, env(1));
    if !env(1).raises {
      if env(1).toolStart.RaisesAtOnce? { LastOwnStepEscapesIff(st1, pc1, env, 2, n - 1); }
      else { AwaitedToolEscapesIff(st1, env(1).toolStart.call, env, 2, n - 1); }
    }
  }

  lemma LinkedCallEscapesIff(st: State, call: nat, env: nat -> Input, n: nat)
    requires StateOk(st) && PcOk(st.run, RecoverCall(call)) && n >= 2
    ensures Drive(st, RecoverCall(call), env, 1, n).1 == Escaped
            <==> env(1).raises || env(2).raises || FailureHandlerRaises(st, RecoverCall(call), env, 1, n)
  {
    var st1, pc1 := OwnStep(st, RecoverCall(call), env, 1, n);
    if !env(1).raises { LastOwnStepEscapesIff(st1, pc1, env, 2, n - 1); }
  }

  lemma RecoveryEscapesIff(st: State, env: nat -> Input, n: nat)
    requires StateOk(st) && st.run.status == Running && n >= 4
    ensures Drive(st, RecoverRun, env, 0, n).1 == Escaped
            <==> RaisesOutsideTheEngine(st.run, env) || FailureHandlerRaises(st, RecoverRun, env, 0, n)
  {
    var st1, pc1 := OwnStep(st, RecoverRun, env, 0, n);
    if pc1.StartTool? { ResumedToolEscapesIff(st1, env, n - 1); }
    else if pc1.RecoverCall? { LinkedCallEscapesIff(st1, pc1.call, env, n - 1); }
    else if pc1 == ReviewRun { LastOwnStepEscapesIff(st1, pc1, env, 1, n - 1); }
  }

  /**
   Exactly when recovery leaves a run running: something raises where no handler is in place, which is in
   recovery's own few steps or in the engine's failure handler.
   */
  lemma RecoveryLeavesRunningIff(st: State, env: nat -> Input, n: nat)
    requires StateOk(st) && st.run.status == Running && n >= 20 * TurnsLeft(st.run) + 19
    ensures Drive(st, RecoverRun, env, 0, n).0.run.status == Running
            <==> RaisesOutsideTheEngine(st.run, env) || FailureHandlerRaises(st, RecoverRun, env, 0, n)
  {
    hide Step;
    RecoveryTerminates(st, env, n);
    RecoveryEscapesIff(st, env, n);
  }

  lemma LogGrows(st: State, pc: Pc, inp: Input)
    requires Enabled(st, pc)
    ensures ModelCalls(st.log) <= ModelCalls(Step(st, pc, inp).0.log)
  {
    var st' := Step(st, pc, inp).0;
    if st'.log != st.log { assert st'.log[..|st.log|] == st.log; }
  }

  lemma {:induction false} DriveOnlyAdds(st: State, pc: Pc, env: nat -> Input, tick: nat, n: nat)
    ensures ModelCalls(st.log) <= ModelCalls(Drive(st, pc, env, tick, n).0.log)
    decreases n
  {
    hide Step, ModelCalls;
    if n > 0 && Enabled(st, pc) {
      var (st', pc') := Step(st, pc, env(tick));
      LogGrows(st, pc, env(tick));
      DriveOnlyAdds(st', pc', env, tick + 1, n - 1);
    }
  }

  // ---------------------------------------------------------------- single requests

  /**
   The engine started on a run that is not running changes nothing, unless its first read raises: then it
   marks the finished run failed.
   */
  lemma FinishedRunIsLeftAlone(st: State, env: nat -> Input, n: nat)
    requires st.run.status != Running && n >= 2
    ensures Drive(st, Boundary, env, 0, n).0
            == if env(0).raises && !env(1).raises then st.(run := st.run.(status := RunFailed)) else st
  {
    var st1, pc1 := DriveTakesStep(st, Boundary, env, 0, n);
    if env(0).raises {
      var st2, pc2 := DriveTakesStep(st1, pc1, env, 1, n - 1);
      OverIsOver(st2, pc2, env, 2, n - 2);
    } else {
      OverIsOver(st1, pc1, env, 1, n - 1);
    }
  }

  /**
   A saved answer survives: recovery of a run that ends in one completes it, with exactly that answer, if
   and only if recovery is not refused and neither it, the boundary nor the completion raises.
   */
  lemma SavedAnswerIsUsed(st: State, env: nat -> Input, n: nat)
    requires StateOk(st) && st.run.status == Running && EndsInAnswer(st.run) && n >= 5
    ensures var st' := Drive(st, RecoverRun, env, 0, n).0;
            && (st'.run.status == Completed <==> !env(0).raises && !env(0).refused && !env(1).raises && !env(2).raises)
            && (st'.run.status == Completed ==> st'.run.finalAnswer == Some(Last(st.run).action.content))
            && st'.run.steps == st.run.steps && st'.log == st.log
  {
    var st1, pc1 := DriveTakesStep(st, RecoverRun, env, 0, n);
    if pc1 == Escaped { OverIsOver(st1, pc1, env, 1, n - 1); }
    else if pc1 == ReviewRun {
      var st2, pc2 := DriveTakesStep(st1, pc1, env, 1, n - 1);
      OverIsOver(st2, pc2, env, 2, n - 2);
    } else { BoundaryCompletes(st1, env, 1, n - 1); }
  }

  lemma BoundaryCompletes(st: State, env: nat -> Input, tick: nat, n: nat)
    requires StateOk(st) && st.run.status == Running && EndsInAnswer(st.run) && n >= 3
    ensures var st' := Drive(st, Boundary, env, tick, n).0;
            && (st'.run.status == Completed <==> !env(tick).raises && !env(tick + 1).raises)
            && (st'.run.status == Completed ==> st'.run.finalAnswer == Some(Last(st.run).action.content))
            && st'.run.steps == st.run.steps && st'.log == st.log
  {
    var st1, pc1 := DriveTakesStep(st, Boundary, env, tick, n);
    if pc1 == MarkFailed { MarkingIsAll(st1, env, tick + 1, n - 1); }
    else {
      var st2, pc2 := DriveTakesStep(st1, pc1, env, tick + 1, n - 1);
      if pc2 == MarkFailed { MarkingIsAll(st2, env, tick + 2, n - 2); }
      else { OverIsOver(st2, pc2, env, tick + 2, n - 2); }
    }
  }

  lemma MarkingIsAll(st: State, env: nat -> Input, tick: nat, n: nat)
    requires n >= 1
    ensures Drive(st, MarkFailed, env, tick, n).0 == if env(tick).raises then st else st.(run := st.run.(status := RunFailed))
  {
    var st1, pc1 := DriveTakesStep(st, MarkFailed, env, tick, n);
    OverIsOver(st1, pc1, env, tick + 1, n - 1);
  }

  /**
   Only recovery can take up a step whose tool has no observation: the engine started on it directly
   fails the run instead.
   */
  lemma EngineAloneFailsPendingStep(st: State, env: nat -> Input, n: nat)
    requires StateOk(st) && st.run.status == Running && ToolPending(st.run) && n >= 2
    ensures Drive(st, Boundary, env, 0, n).0
            == if env(1).raises then st else st.(run := st.run.(status := RunFailed))
  {
    var st1, pc1 := DriveTakesStep(st, Boundary, env, 0, n);
    var st2, pc2 := DriveTakesStep(st1, pc1, env, 1, n - 1);
    OverIsOver(st2, pc2, env, 2, n - 2);
  }
}
