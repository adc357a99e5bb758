/**
 A run and its tool calls together: the executor of a run of AgentRuns does its tool steps as a session of
 the tool machine, next to any other sessions. What AgentRuns takes from its environment, which call a step
 is linked to, whether it was created and what became of it, is here what the tool machine did.
 */
module AgentToolRuns {
  import opened Common
  import opened ToolProtocol
  import opened ToolHistories
  import opened ToolSafety
  import ToolOutcomes
  import A = AgentRuns

  /** The session of the executor's own tool request. */
  const EXECUTOR: ActorId := 0

  /** The ToolCall that was created for the step with this sequence number. */
  datatype Creation = Creation(sequence: nat, call: CallId)

  /** at is where the executor stands, if there is one; ended is how its last tool request ended. */
  datatype Joint = Joint(
    run: A.State, at: Option<A.Pc>, sys: Sys, ended: Option<Outcome>, created: seq<Creation>)

  /** The environment at one executor step; breaks is an exception of the tool runtime's own code. */
  datatype JointInput = JointInput(
    run: A.Input, tool: Input, breaks: bool, task: TaskId, key: string)

  datatype JointMove =
    | Others(move: Move)
    | Executes(inp: JointInput)
    | Starts(pc: A.Pc)
    | Dies

  // ---------------------------------------------------------------- one step of the executor

  predicate Pending(j: Joint, call: CallId) {
    A.ToolPending(j.run.run) && A.Last(j.run.run).toolCall == Some(call)
  }

  function RunStep(j: Joint, inp: A.Input): Joint
    requires j.at.Some? && A.Enabled(j.run, j.at.value)
  {
    var (run', pc') := A.Step(j.run, j.at.value, inp);
    j.(run := run', at := if pc' == A.Stopped || pc' == A.Escaped then None else Some(pc'))
  }

  function WithoutRequest(j: Joint): Joint {
    j.(sys := j.sys.(actors := j.sys.actors - {EXECUTOR}), ended := None)
  }

  /** What the last step asks for, if it asks for a tool. */
  function RequestOf(run: A.AgentRun): Request {
    if run.steps != [] && A.Last(run).action.CallTool?
    then Request(A.Last(run).action.tool, A.Last(run).action.arguments, None) else Request("", "", None)
  }

  function Submission(j: Joint, inp: JointInput): Pc { Submit(inp.task, RequestOf(j.run.run), inp.key) }

  /** run_tool_call up to its first commit, which creates the call, if it must, and links it. */
  function StartStep(reg: Registry, j: Joint, inp: JointInput): Joint
    requires j.at.Some? && j.at.value.StartTool? && A.Enabled(j.run, j.at.value)
    requires CallExists(j.sys.w, Submission(j, inp))
  {
    if inp.run.raises then RunStep(j, inp.run)
    else if RequestOf(j.run.run).tool !in reg then RunStep(j, inp.run.(toolStart := A.RaisesAtOnce("unknown tool")))
    else
      var found := FindCall(j.sys.w.db.calls, inp.task, inp.key);
      var call := if found.Some? then found.value else |j.sys.w.db.calls|;
      var (w', pc') := Step(reg, j.sys.w, Submission(j, inp), inp.tool);
      RunStep(j, inp.run.(toolStart := A.Links(call, found.None?)))
        .(sys := Sys(w', if pc'.Done? then j.sys.actors else j.sys.actors[EXECUTOR := pc']),
          ended := if pc'.Done? then Some(pc'.outcome) else None,
          created := if found.Some? then j.created
                     else j.created + [Creation(A.Last(j.run.run).sequence, call)])
  }

  /** One step of the tool request under way. */
  function RequestStep(reg: Registry, j: Joint, inp: Input): Joint
    requires EXECUTOR in j.sys.actors && Enabled(j.sys.w, j.sys.actors[EXECUTOR])
  {
    var pc' := Step(reg, j.sys.w, j.sys.actors[EXECUTOR], inp).1;
    j.(sys := Moved(reg, j.sys, Act(EXECUTOR, inp)), ended := if pc'.Done? then Some(pc'.outcome) else None)
  }

  function StatusOf(j: Joint, call: CallId): Status
    requires call < |j.sys.w.db.calls|
  {
    j.sys.w.db.calls[call].status
  }

  /** While the tool runs; what the loop sees of it is the row it returned, or the exception it ended with. */
  function AwaitStep(reg: Registry, j: Joint, inp: JointInput): Joint
    requires j.at.Some? && j.at.value.AwaitTool? && A.Enabled(j.run, j.at.value) && AllEnabled(j.sys)
    requires j.ended.Some? && j.ended.value.Finished? ==> j.ended.value.call < |j.sys.w.db.calls|
  {
    if !inp.breaks && EXECUTOR in j.sys.actors then RequestStep(reg, j, inp.tool)
    else if !inp.breaks && j.ended.Some? && j.ended.value.Finished? then
      WithoutRequest(RunStep(j, inp.run.(toolEnd := A.Returns(StatusOf(j, j.ended.value.call)))))
    else WithoutRequest(RunStep(j, inp.run.(toolEnd := A.Raises("the tool call failed"))))
  }

  /** Recovery of the linked call, unless it has a result already; then its status is read again. */
  function RecoverCallStep(reg: Registry, j: Joint, inp: JointInput): Joint
    requires j.at.Some? && j.at.value.RecoverCall? && A.Enabled(j.run, j.at.value) && AllEnabled(j.sys)
    requires j.at.value.call < |j.sys.w.db.calls|
  {
    var call := j.at.value.call;
    if inp.run.raises then WithoutRequest(RunStep(j, inp.run))
    else if EXECUTOR in j.sys.actors then RequestStep(reg, j, inp.tool)
    else if j.ended.Some? || Ended(StatusOf(j, call)) then
      WithoutRequest(RunStep(j, inp.run.(recoveredCall := Some(StatusOf(j, call)))))
    else j.(sys := j.sys.(actors := j.sys.actors[EXECUTOR := Recover(call)]))
  }

  function ExecutorStep(reg: Registry, j: Joint, inp: JointInput): Joint
    requires JointOk(j) && j.at.Some? && CallExists(j.sys.w, Submission(j, inp))
  {
    match j.at.value
    case StartTool(_) => StartStep(reg, j, inp)
    case AwaitTool(_, _) => AwaitStep(reg, j, inp)
    case RecoverCall(_) => RecoverCallStep(reg, j, inp)
    case _ => RunStep(j, inp.run)
  }

  // ---------------------------------------------------------------- what every joint state satisfies

  predicate LinksExist(j: Joint) {
    forall i :: 0 <= i < |j.run.run.steps| && j.run.run.steps[i].toolCall.Some? ==>
      j.run.run.steps[i].toolCall.value < |j.sys.w.db.calls|
  }

  predicate CreationOk(j: Joint, c: Creation) {
    && 1 <= c.sequence <= |j.run.run.steps| && j.run.run.steps[c.sequence - 1].toolCall == Some(c.call)
    && c.call < |j.sys.w.db.calls|
  }

  /** Every created call is linked to its step; no step has two, and no call two steps that created it. */
  predicate CreatedOk(j: Joint) {
    && (forall k :: 0 <= k < |j.created| ==> CreationOk(j, j.created[k]))
    && (forall k, l :: 0 <= k < l < |j.created| ==>
          j.created[k].sequence != j.created[l].sequence && j.created[k].call != j.created[l].call)
  }

  /** The sequence numbers of the steps for which the run's log records a created ToolCall, in order. */
  function CreatedIn(log: seq<A.Event>): seq<nat> {
    if log == [] then []
    else CreatedIn(log[..|log| - 1])
         + (if log[|log| - 1].ToolCallCreated? then [log[|log| - 1].sequence] else [])
  }

  function Sequences(created: seq<Creation>): seq<nat> {
    seq(|created|, k requires 0 <= k < |created| => created[k].sequence)
  }

  predicate WorksOn(pc: Pc, call: CallId) { HasCall(pc) && pc.call == call }

  /** The executor's request works on the call its position names, and on no other. */
  predicate RequestOk(j: Joint) {
    && (EXECUTOR in j.sys.actors ==>
          && j.ended.None? && j.at.Some? && (j.at.value.AwaitTool? || j.at.value.RecoverCall?)
          && WorksOn(j.sys.actors[EXECUTOR], j.at.value.call))
    && (j.ended.Some? ==>
          && j.at.Some? && (j.at.value.AwaitTool? || j.at.value.RecoverCall?)
          && (j.ended.value.Finished? ==> j.ended.value.call == j.at.value.call))
  }

  /** What is about to be stored as the observation of a call is the status of its row. */
  predicate AboutRow(j: Joint, o: A.Observation) {
    o.OfCall? ==> Pending(j, o.call) && o.call < |j.sys.w.db.calls| && StatusOf(j, o.call) == o.status
  }

  predicate ObservesRow(j: Joint) {
    j.at.Some? ==>
      && (j.at.value.StoreObservation? ==> AboutRow(j, j.at.value.observation))
      && (j.at.value.RestoreObservation? ==> AboutRow(j, j.at.value.observation))
  }

  predicate JointOk(j: Joint) {
    && A.StateOk(j.run) && (j.at.Some? ==> A.PcOk(j.run.run, j.at.value) && A.Enabled(j.run, j.at.value))
    && CallsOk(j.sys) && LinksExist(j) && CreatedOk(j) && RequestOk(j) && ObservesRow(j)
    && CreatedIn(j.run.log) == Sequences(j.created)
    && (j.at.Some? && j.at.value.RecoverCall? ==> j.at.value.call < |j.sys.w.db.calls|)
    && (j.ended.Some? && j.ended.value.Finished? ==> j.ended.value.call < |j.sys.w.db.calls|)
  }

  // ---------------------------------------------------------------- histories

  /** While a run has an executor, no other session works on the call of its pending step. */
  predicate KeepsOut(j: Joint, sys: Sys) {
    j.at.Some? ==>
      forall y :: y in sys.actors && y != EXECUTOR && Target(sys.w.db, sys.actors[y]).Some? ==>
        !Pending(j, Target(sys.w.db, sys.actors[y]).value)
  }

  /** The session map with the executor's request in it, as this move needs it. */
  function Asked(j: Joint, pc: Pc): Sys { j.sys.(actors := j.sys.actors[EXECUTOR := pc]) }

  /** Requests for one call are serialized, the executor's own included; one executor works on the run. */
  predicate CanMoveJointly(j: Joint, m: JointMove)
    requires JointOk(j)
  {
    && OnePerCall(j.sys) && KeepsOut(j, j.sys)
    && match m
       case Others(move) => CanMove(j.sys, move) && move.actor != EXECUTOR
       case Executes(inp) =>
         && j.at.Some? && CallExists(j.sys.w, Submission(j, inp))
         && (j.at.value.StartTool? ==> OnePerCall(Asked(j, Submission(j, inp))))
       case Starts(pc) => j.at.None? && A.IsRequest(pc) && (pc == A.RecoverRun ==> j.run.run.status == A.Running)
       case Dies => true
  }

  function MovedJointly(reg: Registry, j: Joint, m: JointMove): Joint
    requires JointOk(j) && CanMoveJointly(j, m)
  {
    match m
    case Others(move) => j.(sys := Moved(reg, j.sys, move))
    case Executes(inp) => ExecutorStep(reg, j, inp)
    case Starts(pc) => j.(at := Some(pc))
    case Dies => WithoutRequest(j).(at := None)
  }

  // ---------------------------------------------------------------- the run's side of a move

  /** Links never change. */
  predicate LinksStay(run: A.AgentRun, run': A.AgentRun) {
    && |run.steps| <= |run'.steps| <= |run.steps| + 1
    && (forall i :: 0 <= i < |run.steps| && run.steps[i].toolCall.Some? ==> run'.steps[i].toolCall == run.steps[i].toolCall)
  }

  /** Which step gets which link: only a started tool links, and only the last step. */
  lemma RunStepLinks(run: A.State, pc: A.Pc, inp: A.Input)
    requires A.StateOk(run) && A.PcOk(run.run, pc) && A.Enabled(run, pc)
    ensures var (run', pc') := A.Step(run, pc, inp);
            && LinksStay(run.run, run'.run)
            && (!pc.StartTool? ==> forall i :: 0 <= i < |run'.run.steps| && run'.run.steps[i].toolCall.Some? ==>
                  i < |run.run.steps| && run'.run.steps[i].toolCall == run.run.steps[i].toolCall)
            && (!pc.StartTool? ==> run'.log == run.log || run'.log == run.log + [A.ModelCalled])
  {
  }

  lemma OneMoreEvent(log: seq<A.Event>, e: A.Event)
    ensures CreatedIn(log + [e]) == CreatedIn(log) + (if e.ToolCallCreated? then [e.sequence] else [])
  {
    assert (log + [e])[..|log|] == log;
  }

  /** Where the run's machine goes from the positions that tool calls feed. */
  lemma RunStepTargets(run: A.State, pc: A.Pc, inp: A.Input)
    requires A.StateOk(run) && A.PcOk(run.run, pc) && A.Enabled(run, pc)
    ensures var (run', pc') := A.Step(run, pc, inp);
            && (pc'.AwaitTool? ==> pc.StartTool?)
            && (pc'.StoreObservation? ==> pc.StartTool? || pc.AwaitTool?)
            && (pc'.RestoreObservation? ==> pc.RecoverCall?)
            && (pc'.RecoverCall? ==> pc == A.RecoverRun && A.ToolPending(run.run)
                                     && A.Last(run.run).toolCall == Some(pc'.call) && run' == run)
  {
  }

  lemma {:induction false} RunStepKeeps(j: Joint, inp: A.Input)
    requires JointOk(j) && j.at.Some? && EXECUTOR !in j.sys.actors && j.ended.None?
    requires !j.at.value.StartTool? && !j.at.value.AwaitTool? && !j.at.value.RecoverCall?
    ensures JointOk(RunStep(j, inp))
  {
    hide A.Step, CallsOk;
    A.StepKeepsStateOk(j.run, j.at.value, inp);
    RunStepLinks(j.run, j.at.value, inp);
    OneMoreEvent(j.run.log, A.ModelCalled);
    RunStepTargets(j.run, j.at.value, inp);
  }

  // ---------------------------------------------------------------- the tools' side of a move

  predicate RowsGrow(sys: Sys, sys': Sys) { |sys.w.db.calls| <= |sys'.w.db.calls| }

  /** A move of another session leaves the pending call of the run alone. */
  lemma {:induction false} OthersLeaveCall(reg: Registry, j: Joint, m: Move, call: CallId)
    requires JointOk(j) && CanMove(j.sys, m) && m.actor != EXECUTOR && j.at.Some? && KeepsOut(j, j.sys)
    requires Pending(j, call) && call < |j.sys.w.db.calls|
    ensures call < |Moved(reg, j.sys, m).w.db.calls|
    ensures Moved(reg, j.sys, m).w.db.calls[call] == j.sys.w.db.calls[call]
  {
    hide Step, CallsOk, CreatedOk, LinksExist, A.StateOk;
    if m.Act? { StepKeepsCalls(reg, j.sys.w, j.sys.actors[m.actor], m.inp, call); }
  }

  lemma MoveGrowsRows(reg: Registry, sys: Sys, m: Move)
    requires CanMove(sys, m)
    ensures RowsGrow(sys, Moved(reg, sys, m))
  {
    hide Step;
    if m.Act? { StepKeepsTarget(reg, sys.w, sys.actors[m.actor], m.inp); }
  }

  lemma {:induction false} OthersKeepJointOk(reg: Registry, j: Joint, m: Move)
    requires JointOk(j) && OnePerCall(j.sys) && KeepsOut(j, j.sys) && CanMove(j.sys, m) && m.actor != EXECUTOR
    ensures JointOk(j.(sys := Moved(reg, j.sys, m)))
  {
    hide Step, CallsOk, A.StateOk, A.PcOk;
    MoveKeepsCallsOk(reg, j.sys, m);
    MoveGrowsRows(reg, j.sys, m);
    if j.at.Some? && (j.at.value.StoreObservation? || j.at.value.RestoreObservation?) && j.at.value.observation.OfCall? {
      OthersLeaveCall(reg, j, m, j.at.value.observation.call);
    }
  }

  lemma {:induction false} RequestStepKeepsJointOk(reg: Registry, j: Joint, inp: Input)
    requires JointOk(j) && OnePerCall(j.sys) && EXECUTOR in j.sys.actors
    requires Enabled(j.sys.w, j.sys.actors[EXECUTOR])
    ensures JointOk(RequestStep(reg, j, inp))
  {
    hide Step, CallsOk, A.StateOk, A.PcOk;
    var pc := j.sys.actors[EXECUTOR];
    assert CanMove(j.sys, Act(EXECUTOR, inp));
    MoveKeepsCallsOk(reg, j.sys, Act(EXECUTOR, inp));
    StepKeepsTarget(reg, j.sys.w, pc, inp);
    ToolOutcomes.StepFinishesOwnCall(reg, j.sys.w, pc, inp);
  }

  lemma DroppingKeepsCallsOk(sys: Sys)
    requires CallsOk(sys)
    ensures CallsOk(sys.(actors := sys.actors - {EXECUTOR}))
  {
  }

  /** The run goes on without its request: what it is about to store must be about the row. */
  lemma ResumeKeepsJointOk(j: Joint, inp: A.Input)
    requires JointOk(j) && j.at.Some? && (j.at.value.AwaitTool? || j.at.value.RecoverCall?)
    requires ObservesRow(RunStep(j, inp))
    ensures JointOk(WithoutRequest(RunStep(j, inp)))
  {
    hide A.Step, CallsOk;
    A.StepKeepsStateOk(j.run, j.at.value, inp);
    RunStepLinks(j.run, j.at.value, inp);
    OneMoreEvent(j.run.log, A.ModelCalled);
    RunStepTargets(j.run, j.at.value, inp);
    DroppingKeepsCallsOk(j.sys);
  }

  lemma {:induction false} AwaitStepKeepsJointOk(reg: Registry, j: Joint, inp: JointInput)
    requires JointOk(j) && OnePerCall(j.sys) && j.at.Some? && j.at.value.AwaitTool?
    ensures JointOk(AwaitStep(reg, j, inp))
  {
    hide Step, CallOk, Fits, A.StateOk;
    if !inp.breaks && EXECUTOR in j.sys.actors { RequestStepKeepsJointOk(reg, j, inp.tool); }
    else if !inp.breaks && j.ended.Some? && j.ended.value.Finished? {
      var status := StatusOf(j, j.ended.value.call);
      ResumeKeepsJointOk(j, inp.run.(toolEnd := A.Returns(status)));
    } else {
      ResumeKeepsJointOk(j, inp.run.(toolEnd := A.Raises("the tool call failed")));
    }
  }

  lemma {:induction false} RecoverCallStepKeepsJointOk(reg: Registry, j: Joint, inp: JointInput)
    requires JointOk(j) && OnePerCall(j.sys) && KeepsOut(j, j.sys) && j.at.Some? && j.at.value.RecoverCall?
    ensures JointOk(RecoverCallStep(reg, j, inp))
  {
    hide Step, CallOk, Fits, A.StateOk;
    var call := j.at.value.call;
    if inp.run.raises { ResumeKeepsJointOk(j, inp.run); }
    else if EXECUTOR in j.sys.actors { RequestStepKeepsJointOk(reg, j, inp.tool); }
    else if j.ended.Some? || Ended(StatusOf(j, call)) {
      ResumeKeepsJointOk(j, inp.run.(recoveredCall := Some(StatusOf(j, call))));
    } else {
      MoveKeepsCallsOk(reg, j.sys, Begin(EXECUTOR, Recover(call)));
    }
  }

  /** The first commit of run_tool_call, seen from the tools: which call the request works on from then on. */
  lemma SubmissionStarts(reg: Registry, j: Joint, inp: JointInput)
    requires RequestOf(j.run.run).tool in reg && CallExists(j.sys.w, Submission(j, inp))
    ensures var calls := j.sys.w.db.calls;
            var (w', pc') := Step(reg, j.sys.w, Submission(j, inp), inp.tool);
            var found := FindCall(calls, inp.task, inp.key);
            var call := if found.Some? then found.value else |calls|;
            && (if pc'.Done? then found.Some? && !pc'.outcome.Finished? else WorksOn(pc', call))
            && |w'.db.calls| == |calls| + (if found.Some? then 0 else 1)
            && (found.None? ==> w'.db.calls[|calls|].fingerprint == RequestOf(j.run.run)
                                && w'.db.calls[|calls|].tool == RequestOf(j.run.run).tool)
  {
    hide RequestOf;
  }

  lemma SubmissionKeepsCallsOk(reg: Registry, j: Joint, inp: JointInput)
    requires JointOk(j) && EXECUTOR !in j.sys.actors && OnePerCall(j.sys) && CallExists(j.sys.w, Submission(j, inp))
    requires OnePerCall(Asked(j, Submission(j, inp)))
    ensures var (w', pc') := Step(reg, j.sys.w, Submission(j, inp), inp.tool);
            CallsOk(Sys(w', if pc'.Done? then j.sys.actors else j.sys.actors[EXECUTOR := pc']))
  {
    hide Step, CallOk, Fits;
    var asked := Asked(j, Submission(j, inp));
    MoveKeepsCallsOk(reg, j.sys, Begin(EXECUTOR, Submission(j, inp)));
    assert asked == Moved(reg, j.sys, Begin(EXECUTOR, Submission(j, inp)));
    MoveKeepsCallsOk(reg, asked, Act(EXECUTOR, inp.tool));
    var (w', pc') := Step(reg, j.sys.w, Submission(j, inp), inp.tool);
    assert asked.actors - {EXECUTOR} == j.sys.actors;
    assert asked.actors[EXECUTOR := pc'] == j.sys.actors[EXECUTOR := pc'];
  }

  /** Linking the pending last step to a call. */
  lemma StartedRun(run: A.State, resuming: bool, inp: A.Input)
    requires A.StateOk(run) && A.PcOk(run.run, A.StartTool(resuming)) && A.Enabled(run, A.StartTool(resuming)) && !inp.raises
    ensures var (run', pc') := A.Step(run, A.StartTool(resuming), inp);
            match inp.toolStart
            case RaisesAtOnce(message) => run' == run && pc' == A.StoreObservation(resuming, A.OfError(message))
            case Links(call, created) =>
              && run'.log == (if created then run.log + [A.ToolCallCreated(|run.run.steps|)] else run.log)
              && pc' == A.AwaitTool(resuming, call) && |run'.run.steps| == |run.run.steps| > 0
              && A.Last(run'.run).toolCall == Some(call) && A.Last(run.run).toolCall.None?
              && A.Last(run.run).sequence == |run.run.steps|
              && forall i :: 0 <= i < |run.run.steps| - 1 ==> run'.run.steps[i] == run.run.steps[i]
  {
  }

  lemma {:induction false} StartedKeepsLinks(j: Joint, j': Joint, call: CallId)
    requires CreatedOk(j) && LinksExist(j) && RowsGrow(j.sys, j'.sys) && call < |j'.sys.w.db.calls|
    requires |j'.run.run.steps| == |j.run.run.steps| > 0
    requires A.Last(j'.run.run).toolCall == Some(call) && A.Last(j.run.run).toolCall.None?
    requires forall i :: 0 <= i < |j.run.run.steps| - 1 ==> j'.run.run.steps[i] == j.run.run.steps[i]
    ensures LinksExist(j')
  {
    hide Step, A.Step, CallsOk, A.StateOk, CreatedOk;
    forall i | 0 <= i < |j'.run.run.steps| && j'.run.run.steps[i].toolCall.Some?
      ensures j'.run.run.steps[i].toolCall.value < |j'.sys.w.db.calls|
    {
      if i < |j.run.run.steps| - 1 { assert j'.run.run.steps[i] == j.run.run.steps[i]; }
    }
  }

  lemma {:induction false} StartedKeepsCreated(j: Joint, j': Joint, call: CallId, fresh': bool)
    requires CreatedOk(j) && LinksExist(j) && RowsGrow(j.sys, j'.sys) && call < |j'.sys.w.db.calls|
    requires |j'.run.run.steps| == |j.run.run.steps| > 0
    requires A.Last(j'.run.run).toolCall == Some(call) && A.Last(j.run.run).toolCall.None?
    requires forall i :: 0 <= i < |j.run.run.steps| - 1 ==> j'.run.run.steps[i] == j.run.run.steps[i]
    requires fresh' ==> call == |j.sys.w.db.calls|
    requires j'.created == if fresh' then j.created + [Creation(|j.run.run.steps|, call)] else j.created
    ensures CreatedOk(j') && LinksExist(j')
  {
    hide Step, A.Step, CallsOk, A.StateOk, LinksExist, CreationOk;
    StartedKeepsLinks(j, j', call);
    forall k | 0 <= k < |j.created|
      ensures CreationOk(j', j.created[k]) && j.created[k].sequence != |j.run.run.steps| && j.created[k].call < |j.sys.w.db.calls|
    {
      EarlierCreationStays(j, j', j.created[k]);
    }
    if fresh' { assert CreationOk(j', Creation(|j.run.run.steps|, call)) by { NewCreation(j', call); } }
    forall k, l | 0 <= k < l < |j'.created|
      ensures j'.created[k].sequence != j'.created[l].sequence && j'.created[k].call != j'.created[l].call
    {
      assert j'.created[k] == j.created[k];
    }
  }

  lemma NewCreation(j: Joint, call: CallId)
    requires j.run.run.steps != [] && A.Last(j.run.run).toolCall == Some(call) && call < |j.sys.w.db.calls|
    ensures CreationOk(j, Creation(|j.run.run.steps|, call))
  {
  }

  lemma EarlierCreationStays(j: Joint, j': Joint, c: Creation)
    requires CreationOk(j, c) && RowsGrow(j.sys, j'.sys)
    requires |j'.run.run.steps| == |j.run.run.steps| > 0 && A.Last(j.run.run).toolCall.None?
    requires forall i :: 0 <= i < |j.run.run.steps| - 1 ==> j'.run.run.steps[i] == j.run.run.steps[i]
    ensures CreationOk(j', c) && c.sequence != |j.run.run.steps| && c.call < |j.sys.w.db.calls|
  {
    assert c.sequence - 1 < |j.run.run.steps| - 1;
    assert j'.run.run.steps[c.sequence - 1] == j.run.run.steps[c.sequence - 1];
  }

  lemma {:induction false} LinkingKeepsJointOk(reg: Registry, j: Joint, inp: JointInput)
    requires JointOk(j) && OnePerCall(j.sys) && j.at.Some? && j.at.value.StartTool? && CallExists(j.sys.w, Submission(j, inp))
    requires OnePerCall(Asked(j, Submission(j, inp))) && !inp.run.raises && RequestOf(j.run.run).tool in reg
    ensures JointOk(StartStep(reg, j, inp))
  {
    hide Step, A.Step, CallsOk, A.StateOk, A.PcOk, CreatedOk, LinksExist, HasCall, CreatedIn, FindCall, OnePerCall;
    var pc := j.at.value;
    var found := FindCall(j.sys.w.db.calls, inp.task, inp.key);
    var call := if found.Some? then found.value else |j.sys.w.db.calls|;
    var told := inp.run.(toolStart := A.Links(call, found.None?));
    var j' := StartStep(reg, j, inp);
    A.StepKeepsStateOk(j.run, pc, told);
    LinkedRun(j.run, pc.resuming, told);
    OneMoreEvent(j.run.log, A.ToolCallCreated(|j.run.run.steps|));
    SubmissionStarts(reg, j, inp);
    SubmissionKeepsCallsOk(reg, j, inp);
    StartedKeepsCreated(j, j', call, found.None?);
  }

  lemma LinkedRun(run: A.State, resuming: bool, inp: A.Input)
    requires A.StateOk(run) && A.PcOk(run.run, A.StartTool(resuming)) && A.Enabled(run, A.StartTool(resuming))
    requires !inp.raises && inp.toolStart.Links?
    ensures var (run', pc') := A.Step(run, A.StartTool(resuming), inp);
            && run'.log == (if inp.toolStart.created then run.log + [A.ToolCallCreated(|run.run.steps|)] else run.log)
            && pc' == A.AwaitTool(resuming, inp.toolStart.call) && |run'.run.steps| == |run.run.steps| > 0
            && A.Last(run'.run).toolCall == Some(inp.toolStart.call) && A.Last(run.run).toolCall.None?
            && A.Last(run.run).sequence == |run.run.steps|
            && forall i :: 0 <= i < |run.run.steps| - 1 ==> run'.run.steps[i] == run.run.steps[i]
  {
    StartedRun(run, resuming, inp);
  }

  lemma {:induction false} StartStepKeepsJointOk(reg: Registry, j: Joint, inp: JointInput)
    requires JointOk(j) && OnePerCall(j.sys) && j.at.Some? && j.at.value.StartTool? && CallExists(j.sys.w, Submission(j, inp))
    requires OnePerCall(Asked(j, Submission(j, inp)))
    ensures JointOk(StartStep(reg, j, inp))
  {
    hide Step, A.Step, CallsOk, A.StateOk, CreatedOk, LinksExist;
    var pc := j.at.value;
    if !inp.run.raises && RequestOf(j.run.run).tool in reg {
      LinkingKeepsJointOk(reg, j, inp);
    } else {
      var told := if inp.run.raises then inp.run else inp.run.(toolStart := A.RaisesAtOnce("unknown tool"));
      A.StepKeepsStateOk(j.run, pc, told);
      if inp.run.raises { StartRaises(j.run, pc, told); } else { StartedRun(j.run, pc.resuming, told); }
      UnchangedRunKeepsCreated(j, RunStep(j, told));
    }
  }

  lemma UnchangedRunKeepsCreated(j: Joint, j': Joint)
    requires CreatedOk(j) && LinksExist(j) && j'.run == j.run && j'.sys == j.sys && j'.created == j.created
    ensures CreatedOk(j') && LinksExist(j')
  {
    assert forall k :: 0 <= k < |j.created| ==> CreationOk(j, j.created[k]);
  }

  lemma StartRaises(run: A.State, pc: A.Pc, inp: A.Input)
    requires A.Enabled(run, pc) && pc.StartTool? && inp.raises
    ensures A.Step(run, pc, inp) == (run, A.Handler(pc))
  {
  }

  lemma {:induction false} JointMoveKeepsJointOk(reg: Registry, j: Joint, m: JointMove)
    requires JointOk(j) && CanMoveJointly(j, m)
    ensures JointOk(MovedJointly(reg, j, m))
  {
    match m {
      case Others(move) => OthersKeepJointOk(reg, j, move);
      case Executes(inp) => ExecutorKeepsJointOk(reg, j, inp);
      case Starts(pc) =>
      case Dies => DroppingKeepsCallsOk(j.sys);
    }
  }

  lemma {:induction false} ExecutorKeepsJointOk(reg: Registry, j: Joint, inp: JointInput)
    requires JointOk(j) && CanMoveJointly(j, Executes(inp))
    ensures JointOk(ExecutorStep(reg, j, inp))
  {
    hide Step, A.Step, CallsOk, A.StateOk;
    match j.at.value {
      case StartTool(_) => StartStepKeepsJointOk(reg, j, inp);
      case AwaitTool(_, _) => AwaitStepKeepsJointOk(reg, j, inp);
      case RecoverCall(_) => RecoverCallStepKeepsJointOk(reg, j, inp);
      case _ => RunStepKeeps(j, inp.run);
    }
  }

  // ---------------------------------------------------------------- the promises of both machines together

  predicate JointRuns(reg: Registry, j: Joint, moves: seq<JointMove>)
    requires JointOk(j)
    decreases |moves|
  {
    moves == [] ||
    (CanMoveJointly(j, moves[0]) &&
     (JointMoveKeepsJointOk(reg, j, moves[0]); JointRuns(reg, MovedJointly(reg, j, moves[0]), moves[1..])))
  }

  function JointAfter(reg: Registry, j: Joint, moves: seq<JointMove>): (r: Joint)
    requires JointOk(j) && JointRuns(reg, j, moves)
    ensures JointOk(r)
    decreases |moves|
  {
    if moves == [] then j
    else
      JointMoveKeepsJointOk(reg, j, moves[0]);
      JointAfter(reg, MovedJointly(reg, j, moves[0]), moves[1..])
  }

  /** A new run next to an empty table. */
  function NewJoint(maxSteps: nat, sys: Sys): (j: Joint)
    requires Initial(sys)
    ensures JointOk(j)
  {
    Joint(A.NewRun(maxSteps), None, sys, None, [])
  }

  /**
   Seen from the run, every executor step is a step of the machine of AgentRuns, for an environment that
   says what the tools did, or none at all while a tool request is under way.
   */
  lemma {:induction false} ExecutorRefinesRun(reg: Registry, j: Joint, inp: JointInput) returns (told: A.Input)
    requires JointOk(j) && CanMoveJointly(j, Executes(inp))
    ensures var j' := ExecutorStep(reg, j, inp);
            || (j'.run == j.run && j'.at == j.at)
            || (j'.run == RunStep(j, told).run && j'.at == RunStep(j, told).at)
  {
    hide Step, A.Step, CallOk, Fits, CreatedOk, LinksExist, ObservesRow, A.StateOk, A.PcOk;
    told := inp.run;
    match j.at.value {
      case StartTool(_) =>
        var found := FindCall(j.sys.w.db.calls, inp.task, inp.key);
        var call := if found.Some? then found.value else |j.sys.w.db.calls|;
        if !inp.run.raises {
          told := inp.run.(toolStart := if RequestOf(j.run.run).tool !in reg then A.RaisesAtOnce("unknown tool")
                                        else A.Links(call, found.None?));
        }
      case AwaitTool(_, _) =>
        told := inp.run.(toolEnd := if !inp.breaks && j.ended.Some? && j.ended.value.Finished?
                                    then A.Returns(StatusOf(j, j.ended.value.call)) else A.Raises("the tool call failed"));
      case RecoverCall(call) =>
        if !inp.run.raises { told := inp.run.(recoveredCall := Some(StatusOf(j, call))); }
      case _ =>
    }
  }

  /**
   In every history of a run and its tools: the ToolCalls recorded as created are exactly the created rows,
   one for each such step, each a row of its own that the step is linked to for good; and every link is
   to a row that exists.
   */
  lemma StepsOwnTheirCalls(reg: Registry, maxSteps: nat, sys: Sys, moves: seq<JointMove>, k: nat, l: nat)
    requires Initial(sys) && JointRuns(reg, NewJoint(maxSteps, sys), moves)
    ensures var j := JointAfter(reg, NewJoint(maxSteps, sys), moves);
            && CreatedIn(j.run.log) == Sequences(j.created) && LinksExist(j)
            && (k < |j.created| ==> CreationOk(j, j.created[k]))
            && (k < l < |j.created| ==>
                  j.created[k].sequence != j.created[l].sequence && j.created[k].call != j.created[l].call)
  {
    hide Step, A.Step, CallsOk, A.StateOk;
  }

  /** The executor has added no row, or one that is recorded as created for the step it works on and linked to it. */
  predicate AddsOwnRow(j: Joint, j': Joint) {
    || (|j'.sys.w.db.calls| == |j.sys.w.db.calls| && j'.created == j.created)
    || (|j'.sys.w.db.calls| == |j.sys.w.db.calls| + 1 && j.run.run.steps != [] && j'.run.run.steps != []
        && j'.created == j.created + [Creation(|j.run.run.steps|, |j.sys.w.db.calls|)]
        && A.Last(j'.run.run).toolCall == Some(|j.sys.w.db.calls|))
  }

  lemma StartAddsOwnRow(reg: Registry, j: Joint, inp: JointInput)
    requires JointOk(j) && j.at.Some? && j.at.value.StartTool? && CallExists(j.sys.w, Submission(j, inp))
    ensures AddsOwnRow(j, StartStep(reg, j, inp))
  {
    hide Step, A.Step, CallsOk, A.StateOk, CreatedOk, LinksExist, ObservesRow;
    if !inp.run.raises && RequestOf(j.run.run).tool in reg {
      var found := FindCall(j.sys.w.db.calls, inp.task, inp.key);
      var call := if found.Some? then found.value else |j.sys.w.db.calls|;
      StartOfState(j.run, j.at.value.resuming, inp.run.(toolStart := A.Links(call, found.None?)));
      SubmissionStarts(reg, j, inp);
    }
  }

  /** Every row the executor adds is the one recorded as created for the step it is working on. */
  lemma {:induction false} ExecutorCreatesForItsStep(reg: Registry, j: Joint, inp: JointInput)
    requires JointOk(j) && CanMoveJointly(j, Executes(inp))
    ensures AddsOwnRow(j, ExecutorStep(reg, j, inp))
  {
    hide Step, A.Step, CallOk, Fits, A.StateOk, A.PcOk, CreatedOk, LinksExist, ObservesRow, StartStep;
    if j.at.value.StartTool? { StartAddsOwnRow(reg, j, inp); }
    else if EXECUTOR in j.sys.actors { RequestAddsNothing(reg, j, inp.tool); }
  }

  lemma StartOfState(run: A.State, resuming: bool, inp: A.Input)
    requires A.StateOk(run) && A.PcOk(run.run, A.StartTool(resuming)) && A.Enabled(run, A.StartTool(resuming))
    requires !inp.raises && inp.toolStart.Links?
    ensures run.run.steps != [] && A.Last(run.run).sequence == |run.run.steps|
    ensures var run' := A.Step(run, A.StartTool(resuming), inp).0;
            run'.run.steps != [] && A.Last(run'.run).toolCall == Some(inp.toolStart.call)
  {
    StartedRun(run, resuming, inp);
  }

  lemma RequestAddsNothing(reg: Registry, j: Joint, inp: Input)
    requires EXECUTOR in j.sys.actors && Enabled(j.sys.w, j.sys.actors[EXECUTOR]) && WorksOnItsCall(j)
    ensures |RequestStep(reg, j, inp).sys.w.db.calls| == |j.sys.w.db.calls|
  {
    hide Step;
    StepKeepsTarget(reg, j.sys.w, j.sys.actors[EXECUTOR], inp);
  }

  predicate WorksOnItsCall(j: Joint) { EXECUTOR in j.sys.actors ==> HasCall(j.sys.actors[EXECUTOR]) }

  /** An observation of the last step is written from the position that holds it, and from nowhere else. */
  lemma RunStepObserves(run: A.State, pc: A.Pc, inp: A.Input)
    requires A.StateOk(run) && A.PcOk(run.run, pc) && A.Enabled(run, pc) && A.ToolPending(run.run)
    ensures var run' := A.Step(run, pc, inp).0;
            |run'.run.steps| == |run.run.steps| && A.Last(run'.run).observation.Some? ==>
              && (pc.StoreObservation? || pc.RestoreObservation?)
              && A.Last(run'.run).observation.value == pc.observation
              && A.Last(run'.run).toolCall == A.Last(run.run).toolCall
  {
  }

  predicate JustObserved(before: Joint, after: Joint, call: CallId, status: Status) {
    && A.ToolPending(before.run.run) && |after.run.run.steps| == |before.run.run.steps|
    && A.Last(after.run.run).observation == Some(A.OfCall(call, status))
  }

  predicate ObservedIsCommitted(j: Joint, call: CallId, status: Status) {
    && j.run.run.steps != [] && A.Last(j.run.run).toolCall == Some(call)
    && call < |j.sys.w.db.calls| && StatusOf(j, call) == status
    && (j.sys.w.db.calls[call].effect == InternalWrite ==>
          CommittedWrites(j.sys.w.db, call) == (if status == Succeeded then 1 else 0))
    && (j.sys.w.db.calls[call].effect == ExternalWrite ==> SeparatedByNotFound(j.sys.w.log, call))
  }

  /**
   What the model is shown of a call is what is committed: when a step gets the observation of a call, the
   call is the one the step is linked to, the status is that of its row, and for an internal write the
   business write has been committed once if the status is succeeded and never otherwise; for an external
   write the adapter has answered not_found between any two of its invocations.
   */
  lemma {:induction false} ObservationIsTheCommittedRow(reg: Registry, j: Joint, inp: JointInput, call: CallId, status: Status)
    requires JointOk(j) && CanMoveJointly(j, Executes(inp)) && JustObserved(j, ExecutorStep(reg, j, inp), call, status)
    ensures ObservedIsCommitted(ExecutorStep(reg, j, inp), call, status)
  {
    hide Step, A.Step;
    ObservationComesFromPosition(reg, j, inp, call, status);
    assert RowOk(j.sys.w, call);
  }

  /** The positions that work on the tool leave the pending step without an observation. */
  predicate StillUnobserved(run: A.AgentRun, run': A.AgentRun) {
    |run'.steps| == |run.steps| > 0 ==> A.Last(run').observation.None?
  }

  lemma StartObservesNothing(reg: Registry, j: Joint, inp: JointInput)
    requires JointOk(j) && j.at.Some? && j.at.value.StartTool? && CallExists(j.sys.w, Submission(j, inp)) && A.ToolPending(j.run.run)
    ensures StillUnobserved(j.run.run, StartStep(reg, j, inp).run.run)
  {
    hide Step, A.Step, CallsOk, CreatedOk, LinksExist, ObservesRow, RequestOk;
    var found := FindCall(j.sys.w.db.calls, inp.task, inp.key);
    var call := if found.Some? then found.value else |j.sys.w.db.calls|;
    RunStepObserves(j.run, j.at.value, inp.run);
    RunStepObserves(j.run, j.at.value, inp.run.(toolStart := A.RaisesAtOnce("unknown tool")));
    RunStepObserves(j.run, j.at.value, inp.run.(toolStart := A.Links(call, found.None?)));
  }

  lemma AwaitObservesNothing(reg: Registry, j: Joint, inp: JointInput)
    requires JointOk(j) && j.at.Some? && j.at.value.AwaitTool? && A.ToolPending(j.run.run)
    ensures StillUnobserved(j.run.run, AwaitStep(reg, j, inp).run.run)
  {
    hide Step, A.Step, CallOk, Fits, CreatedOk, LinksExist, ObservesRow, RequestOk;
    RunStepObserves(j.run, j.at.value, inp.run.(toolEnd := A.Raises("the tool call failed")));
    if j.ended.Some? && j.ended.value.Finished? {
      RunStepObserves(j.run, j.at.value, inp.run.(toolEnd := A.Returns(StatusOf(j, j.ended.value.call))));
    }
  }

  lemma RecoverObservesNothing(reg: Registry, j: Joint, inp: JointInput)
    requires JointOk(j) && j.at.Some? && j.at.value.RecoverCall? && A.ToolPending(j.run.run)
    ensures StillUnobserved(j.run.run, RecoverCallStep(reg, j, inp).run.run)
  {
    hide Step, A.Step, CallOk, Fits, CreatedOk, LinksExist, ObservesRow, RequestOk;
    RunStepObserves(j.run, j.at.value, inp.run);
    RunStepObserves(j.run, j.at.value, inp.run.(recoveredCall := Some(StatusOf(j, j.at.value.call))));
  }

  lemma ObservationComesFromPosition(reg: Registry, j: Joint, inp: JointInput, call: CallId, status: Status)
    requires JointOk(j) && CanMoveJointly(j, Executes(inp)) && JustObserved(j, ExecutorStep(reg, j, inp), call, status)
    ensures j.at.value.StoreObservation? || j.at.value.RestoreObservation?
    ensures j.at.value.observation == A.OfCall(call, status)
    ensures A.Last(ExecutorStep(reg, j, inp).run.run).toolCall == Some(call)
  {
    hide Step, A.Step, CallOk, Fits, CreatedOk, LinksExist, RequestOk, A.StateOk, A.PcOk;
    if j.at.value.StartTool? { StartObservesNothing(reg, j, inp); }
    else if j.at.value.AwaitTool? { AwaitObservesNothing(reg, j, inp); }
    else if j.at.value.RecoverCall? { RecoverObservesNothing(reg, j, inp); }
    else { RunStepObserves(j.run, j.at.value, inp.run); }
  }

  /** The same over every history that starts from a new run and an empty table. */
  lemma {:induction false} EveryObservationIsCommitted(
      reg: Registry, maxSteps: nat, sys: Sys, moves: seq<JointMove>, inp: JointInput, call: CallId, status: Status)
    requires Initial(sys) && JointRuns(reg, NewJoint(maxSteps, sys), moves)
    ensures var j := JointAfter(reg, NewJoint(maxSteps, sys), moves);
            CanMoveJointly(j, Executes(inp)) && JustObserved(j, MovedJointly(reg, j, Executes(inp)), call, status) ==>
              ObservedIsCommitted(MovedJointly(reg, j, Executes(inp)), call, status)
  {
    hide Step, A.Step, CallsOk, A.StateOk, A.PcOk, ExecutorStep, JointRuns;
    var j := JointAfter(reg, NewJoint(maxSteps, sys), moves);
    if CanMoveJointly(j, Executes(inp)) && JustObserved(j, MovedJointly(reg, j, Executes(inp)), call, status) {
      ObservationIsTheCommittedRow(reg, j, inp, call, status);
    }
  }

  // ---------------------------------------------------------------- whose request a call is

  /** The call created for a step is that step's own request: its tool with its arguments. */
  predicate CarriesStep(j: Joint, c: Creation) {
    && CreationOk(j, c)
    && var action, row := j.run.run.steps[c.sequence - 1].action, j.sys.w.db.calls[c.call];
    && action.CallTool? && row.tool == action.tool && row.fingerprint == Request(action.tool, action.arguments, None)
  }

  predicate AllCarry(j: Joint) {
    forall k :: 0 <= k < |j.created| ==> CarriesStep(j, j.created[k])
  }

  predicate ActionsStay(run: A.AgentRun, run': A.AgentRun) {
    |run.steps| <= |run'.steps| && forall i :: 0 <= i < |run.steps| ==> run'.steps[i].action == run.steps[i].action
  }

  lemma RunStepKeepsActions(run: A.State, pc: A.Pc, inp: A.Input)
    requires A.Enabled(run, pc)
    ensures ActionsStay(run.run, A.Step(run, pc, inp).0.run)
  {
  }

  lemma {:induction false} JointMoveKeepsActions(reg: Registry, j: Joint, m: JointMove)
    requires JointOk(j) && CanMoveJointly(j, m)
    ensures ActionsStay(j.run.run, MovedJointly(reg, j, m).run.run)
  {
    hide Step, A.Step, CallsOk, A.StateOk, CreatedOk, LinksExist, ObservesRow, RequestOk, ExecutorStep;
    if m.Executes? {
      var told := ExecutorRefinesRun(reg, j, m.inp);
      RunStepKeepsActions(j.run, j.at.value, told);
    }
  }

  lemma {:induction false} MoveKeepsIdentity(reg: Registry, sys: Sys, m: Move, c: CallId)
    requires CanMove(sys, m) && c < |sys.w.db.calls|
    ensures c < |Moved(reg, sys, m).w.db.calls| && SameIdentity(sys.w.db.calls[c], Moved(reg, sys, m).w.db.calls[c])
  {
    hide Step;
    if m.Act? { StepKeepsCalls(reg, sys.w, sys.actors[m.actor], m.inp, c); }
  }

  lemma {:induction false} StartKeepsIdentity(reg: Registry, j: Joint, inp: JointInput, c: CallId)
    requires JointOk(j) && j.at.Some? && j.at.value.StartTool? && CallExists(j.sys.w, Submission(j, inp))
    requires c < |j.sys.w.db.calls|
    ensures var calls := StartStep(reg, j, inp).sys.w.db.calls;
            c < |calls| && SameIdentity(j.sys.w.db.calls[c], calls[c])
  {
    hide Step, A.Step, CallsOk, A.StateOk, A.PcOk, CreatedOk, LinksExist, ObservesRow, SameIdentity, RequestOf, FindCall;
    StepKeepsCalls(reg, j.sys.w, Submission(j, inp), inp.tool, c);
    IdentityIsItself(j.sys.w.db.calls[c]);
  }

  lemma {:induction false} RequestKeepsIdentity(reg: Registry, j: Joint, inp: Input, c: CallId)
    requires EXECUTOR in j.sys.actors && Enabled(j.sys.w, j.sys.actors[EXECUTOR]) && c < |j.sys.w.db.calls|
    ensures var calls := RequestStep(reg, j, inp).sys.w.db.calls;
            c < |calls| && SameIdentity(j.sys.w.db.calls[c], calls[c])
  {
    hide Step, Enabled, SameIdentity;
    MoveKeepsIdentity(reg, j.sys, Act(EXECUTOR, inp), c);
  }

  lemma {:induction false} AwaitKeepsIdentity(reg: Registry, j: Joint, inp: JointInput, c: CallId)
    requires JointOk(j) && j.at.Some? && j.at.value.AwaitTool? && c < |j.sys.w.db.calls|
    ensures var calls := AwaitStep(reg, j, inp).sys.w.db.calls;
            c < |calls| && SameIdentity(j.sys.w.db.calls[c], calls[c])
  {
    hide Step, A.Step, CallOk, Fits, A.StateOk, A.PcOk, CreatedOk, LinksExist, ObservesRow, SameIdentity, RequestStep;
    IdentityIsItself(j.sys.w.db.calls[c]);
    if EXECUTOR in j.sys.actors { RequestKeepsIdentity(reg, j, inp.tool, c); }
  }

  lemma {:induction false} RecoverCallKeepsIdentity(reg: Registry, j: Joint, inp: JointInput, c: CallId)
    requires JointOk(j) && j.at.Some? && j.at.value.RecoverCall? && c < |j.sys.w.db.calls|
    ensures var calls := RecoverCallStep(reg, j, inp).sys.w.db.calls;
            c < |calls| && SameIdentity(j.sys.w.db.calls[c], calls[c])
  {
    hide Step, A.Step, CallOk, Fits, A.StateOk, A.PcOk, CreatedOk, LinksExist, ObservesRow, SameIdentity, RequestStep;
    IdentityIsItself(j.sys.w.db.calls[c]);
    if EXECUTOR in j.sys.actors { RequestKeepsIdentity(reg, j, inp.tool, c); }
  }

  lemma {:induction false} ExecutorKeepsIdentity(reg: Registry, j: Joint, inp: JointInput, c: CallId)
    requires JointOk(j) && CanMoveJointly(j, Executes(inp)) && c < |j.sys.w.db.calls|
    ensures var calls := ExecutorStep(reg, j, inp).sys.w.db.calls;
            c < |calls| && SameIdentity(j.sys.w.db.calls[c], calls[c])
  {
    hide Step, A.Step, JointOk, SameIdentity, StartStep, AwaitStep, RecoverCallStep;
    if j.at.value.StartTool? { StartKeepsIdentity(reg, j, inp, c); }
    else if j.at.value.AwaitTool? { AwaitKeepsIdentity(reg, j, inp, c); }
    else if j.at.value.RecoverCall? { RecoverCallKeepsIdentity(reg, j, inp, c); }
    else { IdentityIsItself(j.sys.w.db.calls[c]); }
  }

  lemma IdentityIsItself(row: ToolCall)
    ensures SameIdentity(row, row)
  {
  }

  lemma {:induction false} JointMoveKeepsIdentity(reg: Registry, j: Joint, m: JointMove, c: CallId)
    requires JointOk(j) && CanMoveJointly(j, m) && c < |j.sys.w.db.calls|
    ensures var calls := MovedJointly(reg, j, m).sys.w.db.calls;
            c < |calls| && SameIdentity(j.sys.w.db.calls[c], calls[c])
  {
    hide Step, A.Step, CallsOk, A.StateOk, CreatedOk, LinksExist, ObservesRow, RequestOk, ExecutorStep, Moved;
    match m
    case Others(move) => MoveKeepsIdentity(reg, j.sys, move, c);
    case Executes(inp) => ExecutorKeepsIdentity(reg, j, inp, c);
    case Starts(_) =>
    case Dies =>
  }

  /** The row the executor adds is the request of the step it is working on. */
  lemma {:induction false} NewRowCarriesStep(reg: Registry, j: Joint, inp: JointInput)
    requires JointOk(j) && CanMoveJointly(j, Executes(inp))
    requires |ExecutorStep(reg, j, inp).sys.w.db.calls| > |j.sys.w.db.calls|
    ensures A.ToolPending(j.run.run)
    ensures var row := ExecutorStep(reg, j, inp).sys.w.db.calls[|j.sys.w.db.calls|];
            row.fingerprint == RequestOf(j.run.run) && row.tool == RequestOf(j.run.run).tool
  {
    hide Step, A.Step, CallOk, Fits, A.StateOk, CreatedOk, LinksExist, ObservesRow, RequestOf;
    if j.at.value.StartTool? {
      if RequestOf(j.run.run).tool in reg { SubmissionStarts(reg, j, inp); }
    } else if EXECUTOR in j.sys.actors { RequestAddsNothing(reg, j, inp.tool); }
  }

  lemma {:induction false} JointMoveKeepsCarry(reg: Registry, j: Joint, m: JointMove)
    requires JointOk(j) && CanMoveJointly(j, m) && AllCarry(j)
    ensures AllCarry(MovedJointly(reg, j, m))
  {
    hide Step, A.Step, CallsOk, A.StateOk, A.PcOk, LinksExist, ObservesRow, RequestOk, ExecutorStep, Moved;
    var j' := MovedJointly(reg, j, m);
    JointMoveKeepsJointOk(reg, j, m);
    JointMoveKeepsActions(reg, j, m);
    if m.Executes? { ExecutorCreatesForItsStep(reg, j, m.inp); }
    forall k | 0 <= k < |j'.created|
      ensures CarriesStep(j', j'.created[k])
    {
      assert CreationOk(j', j'.created[k]);
      if k < |j.created| {
        assert CarriesStep(j, j.created[k]);
        JointMoveKeepsIdentity(reg, j, m, j.created[k].call);
      } else {
        NewRowCarriesStep(reg, j, m.inp);
      }
    }
  }

  lemma {:induction false} AlwaysCarry(reg: Registry, j: Joint, moves: seq<JointMove>)
    requires JointOk(j) && JointRuns(reg, j, moves) && AllCarry(j)
    ensures AllCarry(JointAfter(reg, j, moves))
    decreases |moves|
  {
    hide JointOk, AllCarry, CanMoveJointly, MovedJointly;
    if moves != [] {
      JointMoveKeepsJointOk(reg, j, moves[0]);
      JointMoveKeepsCarry(reg, j, moves[0]);
      AlwaysCarry(reg, MovedJointly(reg, j, moves[0]), moves[1..]);
    }
  }

  /**
   In every history of a run and its tools, the ToolCall created for a step is for good the step's own
   request: its tool, and a fingerprint of exactly its tool and arguments.
   */
  lemma {:induction false} CallsCarryTheirSteps(reg: Registry, maxSteps: nat, sys: Sys, moves: seq<JointMove>, k: nat)
    requires Initial(sys) && JointRuns(reg, NewJoint(maxSteps, sys), moves)
    ensures var j := JointAfter(reg, NewJoint(maxSteps, sys), moves);
            k < |j.created| ==> CarriesStep(j, j.created[k])
  {
    hide JointOk;
    AlwaysCarry(reg, NewJoint(maxSteps, sys), moves);
  }
}
