/**
 What becomes of a run by its own committed steps and by what raises: when it goes on to ask the model, when
 it stops at its limit, when it needs review, and exactly when it fails.
 */
module AgentOutcomes {
  import opened Common
  import opened AgentRuns

  /** Nothing raises and nothing is refused before this tick. */
  predicate CalmBefore(env: nat -> Input, from: nat, to: nat) {
    forall t: nat :: from <= t < to ==> !env(t).raises && !env(t).refused
  }

  /** Nothing of the run is open: there is no step yet, or the last one is a tool step with its observation. */
  predicate BetweenTurns(run: AgentRun) {
    run.steps == [] || (Last(run).action.CallTool? && Last(run).observation.Some?)
  }

  /**
   The run has been taken on: the model was asked for another step, or there are no more steps and it stopped
   at its limit.
   */
  predicate TakenOn(st: State, st': State) {
    if st.run.stepCount < st.run.maxSteps then ModelCalls(st'.log) > ModelCalls(st.log)
    else st' == st.(run := st.run.(status := MaxSteps))
  }

  lemma {:induction false} BuiltRequestIsAsked(st: State, env: nat -> Input, tick: nat, n: nat)
    requires st.run.status == Running && n >= 2 && !env(tick).raises
    ensures ModelCalls(Drive(st, Build, env, tick, n).0.log) > ModelCalls(st.log)
  {
    hide ModelCalls, Drive;
    var st1, pc1 := DriveTakesStep(st, Build, env, tick, n);
    var st2, pc2 := DriveTakesStep(st1, pc1, env, tick + 1, n - 1);
    OneMoreEvent(st.log, ModelCalled);
    DriveOnlyAdds(st2, pc2, env, tick + 2, n - 2);
  }

  lemma {:induction false} LimitIsCheckedFirst(st: State, env: nat -> Input, tick: nat, n: nat)
    requires BetweenTurns(st.run) && st.run.status == Running
    requires n >= 4 && CalmBefore(env, tick, tick + 4)
    ensures TakenOn(st, Drive(st, Boundary, env, tick, n).0)
  {
    hide ModelCalls, Drive;
    var st1, pc1 := DriveTakesStep(st, Boundary, env, tick, n);
    var st2, pc2 := DriveTakesStep(st1, pc1, env, tick + 1, n - 1);
    if pc2 == Build {
      BuiltRequestIsAsked(st2, env, tick + 2, n - 2);
    } else {
      var st3, pc3 := DriveTakesStep(st2, pc2, env, tick + 2, n - 2);
      OverIsOver(st3, pc3, env, tick + 3, n - 3);
    }
  }

  /**
   A run between two turns goes on when its engine is started or it is recovered: below its limit the model
   is asked, at its limit the run stops there without a call.
   */
  lemma {:induction false} ResumableRunGoesOn(st: State, pc: Pc, env: nat -> Input, n: nat)
    requires IsRequest(pc) && BetweenTurns(st.run) && st.run.status == Running
    requires n >= 5 && CalmBefore(env, 0, 5)
    ensures TakenOn(st, Drive(st, pc, env, 0, n).0)
  {
    if pc == RecoverRun {
      var st1, pc1 := DriveTakesStep(st, RecoverRun, env, 0, n);
      LimitIsCheckedFirst(st, env, 1, n - 1);
    } else {
      LimitIsCheckedFirst(st, env, 0, n);
    }
  }

  /** A recovery refused for its model or its checkpoint hands the run to a person, whatever step it had come to. */
  lemma {:induction false} RefusedRecoveryNeedsReview(st: State, env: nat -> Input, n: nat)
    requires st.run.status == Running && n >= 2 && env(0).refused && !env(0).raises && !env(1).raises
    ensures Drive(st, RecoverRun, env, 0, n).0 == st.(run := st.run.(status := RunNeedsReview))
  {
    hide Drive;
    var st1, pc1 := DriveTakesStep(st, RecoverRun, env, 0, n);
    var st2, pc2 := DriveTakesStep(st1, pc1, env, 1, n - 1);
    OverIsOver(st2, pc2, env, 2, n - 2);
  }

  /** The last step of the run now has this observation and is linked to this call. */
  predicate Observed(st: State, st': State, toolCall: Option<nat>, observation: Observation) {
    && st.run.steps != []
    && st'.run == st.run.(steps := st.run.steps[|st.run.steps| - 1 :=
         Last(st.run).(toolCall := toolCall, observation := Some(observation))])
  }

  /**
   A recovery that finds a tool step linked to a call with a durable result, its own or the one the recovery
   of that call has brought about, stores that result as the observation and the run goes on. Without a
   durable result the run needs review and nothing else changes.
   */
  lemma {:induction false} LinkedStepIsRestored(st: State, env: nat -> Input, n: nat) returns (restored: State)
    requires st.run.status == Running && ToolPending(st.run) && Last(st.run).toolCall.Some?
    requires n >= 7 && CalmBefore(env, 0, 7)
    ensures var st', ended := Drive(st, RecoverRun, env, 0, n).0, env(1).recoveredCall;
            if ended.Some? && (ended.value == Tools.Succeeded || ended.value == Tools.Failed || ended.value == Tools.Denied) then
              && restored.log == st.log && TakenOn(restored, st')
              && Observed(st, restored, Last(st.run).toolCall, OfCall(Last(st.run).toolCall.value, ended.value))
            else st' == st.(run := st.run.(status := RunNeedsReview))
  {
    hide ModelCalls, Drive, TakenOn;
    restored := st;
    var st1, pc1 := DriveTakesStep(st, RecoverRun, env, 0, n);
    var st2, pc2 := DriveTakesStep(st1, pc1, env, 1, n - 1);
    var st3, pc3 := DriveTakesStep(st2, pc2, env, 2, n - 2);
    if pc3 == Boundary {
      restored := st3;
      LimitIsCheckedFirst(st3, env, 3, n - 3);
    } else {
      OverIsOver(st3, pc3, env, 3, n - 3);
    }
  }

  /**
   A recovery that finds a tool step no call was created for runs the tool, stores what came of it, be it an
   error, and the run goes on.
   */
  lemma {:induction false} UnlinkedStepIsExecuted(st: State, env: nat -> Input, n: nat) returns (executed: State)
    requires st.run.status == Running && ToolPending(st.run) && Last(st.run).toolCall.None?
    requires n >= 8 && CalmBefore(env, 0, 8)
    ensures TakenOn(executed, Drive(st, RecoverRun, env, 0, n).0)
    ensures match env(1).toolStart
            case RaisesAtOnce(message) => executed.log == st.log && Observed(st, executed, None, OfError(message))
            case Links(call, created) =>
              && executed.log == st.log + (if created then [ToolCallCreated(Last(st.run).sequence)] else [])
              && match env(2).toolEnd
                 case Returns(status) => Observed(st, executed, Some(call), OfCall(call, status))
                 case Raises(message) => Observed(st, executed, Some(call), OfError(message))
  {
    var st1, pc1 := DriveTakesStep(st, RecoverRun, env, 0, n);
    var st2, pc2 := DriveTakesStep(st1, pc1, env, 1, n - 1);
    executed := ToolIsObserved(st2, pc2, env, 2, n - 2);
  }

  lemma {:induction false} ToolIsObserved(st: State, pc: Pc, env: nat -> Input, tick: nat, n: nat) returns (st': State)
    requires (pc.AwaitTool? || pc.StoreObservation?) && pc.resuming && n >= 6 && CalmBefore(env, tick, tick + 6)
    requires st.run.status == Running && ToolPending(st.run)
    ensures st'.log == st.log && TakenOn(st', Drive(st, pc, env, tick, n).0)
    ensures Observed(st, st', Last(st.run).toolCall,
                     if pc.StoreObservation? then pc.observation
                     else match env(tick).toolEnd
                          case Returns(status) => OfCall(pc.call, status)
                          case Raises(message) => OfError(message))
  {
    var pc1, t, k := pc, tick, n;
    if pc.AwaitTool? {
      var st1;
      st1, pc1 := DriveTakesStep(st, pc, env, tick, n);
      t, k := tick + 1, n - 1;
    }
    var pc2;
    st', pc2 := DriveTakesStep(st, pc1, env, t, k);
    LimitIsCheckedFirst(st', env, t + 1, k - 1);
  }

  // ---------------------------------------------------------------- one turn of the loop

  /** The run has one more step. */
  predicate StepAdded(st: State, st': State, action: Action, toolCall: Option<nat>, observation: Option<Observation>) {
    st'.run == st.run.(stepCount := st.run.stepCount + 1,
                       steps := st.run.steps + [RunStep(st.run.stepCount + 1, action, toolCall, observation)])
  }

  /** From the request to the saved decision. */
  lemma {:induction false} DecisionIsSaved(st: State, env: nat -> Input, tick: nat,
      n: nat) returns (st': State, pc': Pc)
    requires st.run.status == Running && n >= 3 && CalmBefore(env, tick, tick + 3) && env(tick + 1).proposal.Some?
    ensures var action := env(tick + 1).proposal.value;
            && StepAdded(st, st', action, None, None) && st'.log == st.log + [ModelCalled]
            && pc' == (if action.FinalAnswer? then Complete(action.content) else StartTool(false))
    ensures Drive(st, Build, env, tick, n) == Drive(st', pc', env, tick + 3, n - 3)
  {
    hide Drive;
    var st1, pc1 := DriveTakesStep(st, Build, env, tick, n);
    var st2, pc2 := DriveTakesStep(st1, pc1, env, tick + 1, n - 1);
    st', pc' := DriveTakesStep(st2, pc2, env, tick + 2, n - 2);
  }

  /**
   A turn in which the model answers: the answer is saved as a step, and the run is completed with exactly that
   answer.
   */
  lemma {:induction false} AnswerCompletesRun(st: State, env: nat -> Input, tick: nat, n: nat)
    requires st.run.status == Running && n >= 4 && CalmBefore(env, tick, tick + 4)
    requires env(tick + 1).proposal.Some? && env(tick + 1).proposal.value.FinalAnswer?
    ensures var answer, run := env(tick + 1).proposal.value, st.run;
            Drive(st, Build, env, tick, n).0
            == State(run.(status := Completed, finalAnswer := Some(answer.content), stepCount := run.stepCount + 1,
                          steps := run.steps + [RunStep(run.stepCount + 1, answer, None, None)]), st.log + [ModelCalled])
  {
    hide Drive;
    var st1, pc1 := DecisionIsSaved(st, env, tick, n);
    var st2, pc2 := DriveTakesStep(st1, pc1, env, tick + 3, n - 3);
    OverIsOver(st2, pc2, env, tick + 4, n - 4);
  }

  lemma {:induction false} LimitIsCheckedAgain(st: State, env: nat -> Input, tick: nat, n: nat)
    requires st.run.status == Running && n >= 3 && CalmBefore(env, tick, tick + 3)
    ensures TakenOn(st, Drive(st, CheckLimitAgain, env, tick, n).0)
  {
    hide ModelCalls, Drive;
    var st1, pc1 := DriveTakesStep(st, CheckLimitAgain, env, tick, n);
    if pc1 == Build {
      BuiltRequestIsAsked(st1, env, tick + 1, n - 1);
    } else {
      var st2, pc2 := DriveTakesStep(st1, pc1, env, tick + 1, n - 1);
      OverIsOver(st2, pc2, env, tick + 2, n - 2);
    }
  }

  /** What comes of a tool, in or out of a ToolCall, as the observation of the step. */
  function OutcomeOf(start: ToolStart, end: ToolEnd): Observation {
    match start
    case RaisesAtOnce(message) => OfError(message)
    case Links(call, _) =>
      match end
      case Returns(status) => OfCall(call, status)
      case Raises(message) => OfError(message)
  }

  /**
   A turn in which the model calls a tool: the decision is saved as a step, the tool runs, the step is linked
   to its call and gets what came of it, be it an error, and the run is taken on.
   */
  lemma {:induction false} ToolTurnGoesOn(st: State, env: nat -> Input, tick: nat, n: nat) returns (after: State)
    requires st.run.status == Running && n >= 9 && CalmBefore(env, tick, tick + 9)
    requires env(tick + 1).proposal.Some? && env(tick + 1).proposal.value.CallTool?
    ensures var start, end := env(tick + 3).toolStart, env(tick + 4).toolEnd;
            && StepAdded(st, after, env(tick + 1).proposal.value,
                         if start.Links? then Some(start.call) else None, Some(OutcomeOf(start, end)))
            && after.log == st.log + [ModelCalled]
                            + (if start.Links? && start.created then [ToolCallCreated(st.run.stepCount + 1)] else [])
    ensures TakenOn(after, Drive(st, Build, env, tick, n).0)
  {
    hide Drive, TakenOn;
    var st1, pc1 := DecisionIsSaved(st, env, tick, n);
    var st2, pc2 := DriveTakesStep(st1, pc1, env, tick + 3, n - 3);
    var st3, pc3, t, k := st2, pc2, tick + 4, n - 4;
    if pc2.AwaitTool? {
      st3, pc3 := DriveTakesStep(st2, pc2, env, t, k);
      t, k := t + 1, k - 1;
    }
    var pc4;
    after, pc4 := DriveTakesStep(st3, pc3, env, t, k);
    LimitIsCheckedAgain(after, env, t + 1, k - 1);
  }

  // ---------------------------------------------------------------- exactly when a run fails

  /** What makes the engine give up: a caught exception, or a reply of the model that is no decision. */
  predicate GivesUp(pc: Pc, inp: Input) {
    && InEngine(pc) && pc != MarkFailed && pc != Stopped
    && ((inp.raises && !pc.AwaitTool?) || (pc == CallModel && inp.proposal.None?))
  }

  /**
   After m steps the engine gives up, or is started on a tool step without an observation; and marking the run
   failed goes through.
   */
  predicate FailsAt(st: State, pc: Pc, env: nat -> Input, tick: nat, m: nat) {
    var (st', pc') := Drive(st, pc, env, tick, m);
    && (GivesUp(pc', env(tick + m)) || (pc' == Boundary && ToolPending(st'.run)))
    && !env(tick + m + 1).raises
  }

  predicate Fails(st: State, pc: Pc, env: nat -> Input, tick: nat, n: nat) {
    exists m: nat :: m + 1 < n && FailsAt(st, pc, env, tick, m)
  }

  lemma {:induction false} FailsLater(st: State, pc: Pc, env: nat -> Input, tick: nat, n: nat)
    requires Enabled(st, pc) && n > 0
    ensures var (st', pc') := Step(st, pc, env(tick));
            Fails(st, pc, env, tick, n) <==> (n > 1 && FailsAt(st, pc, env, tick, 0)) || Fails(st', pc', env, tick + 1, n - 1)
  {
    hide Step, GivesUp;
    var (st', pc') := Step(st, pc, env(tick));
    forall m: nat | m > 0
      ensures FailsAt(st, pc, env, tick, m) == FailsAt(st', pc', env, tick + 1, m - 1)
    {
      var a, b := DriveTakesStep(st, pc, env, tick, m);
    }
    if Fails(st, pc, env, tick, n) {
      var m: nat :| m + 1 < n && FailsAt(st, pc, env, tick, m);
      if m > 0 { assert FailsAt(st', pc', env, tick + 1, m - 1); }
    }
    if Fails(st', pc', env, tick + 1, n - 1) {
      var m: nat :| m + 1 < n - 1 && FailsAt(st', pc', env, tick + 1, m);
      assert FailsAt(st, pc, env, tick, m + 1);
    }
  }

  lemma {:induction false} StepMarksFailed(st: State, pc: Pc, inp: Input)
    requires Enabled(st, pc) && PcOk(st.run, pc) && pc != MarkFailed && st.run.status == Running
    ensures var (st', pc') := Step(st, pc, inp);
            && (pc' == MarkFailed <==> GivesUp(pc, inp) || (pc == Boundary && ToolPending(st.run)))
            && (pc' == MarkFailed ==> st'.run.status == Running)
            && st'.run.status != RunFailed
            && (st'.run.status == Running || pc' == Stopped)
  {
  }

  lemma {:induction false} OverFailsNoMore(st: State, pc: Pc, env: nat -> Input, tick: nat, n: nat)
    requires pc == Stopped || pc == Escaped || pc == MarkFailed
    ensures !Fails(st, pc, env, tick, n)
  {
    hide Step;
    forall m: nat
      ensures !FailsAt(st, pc, env, tick, m)
    {
      if pc == MarkFailed {
        if m > 0 {
          var st', pc' := DriveTakesStep(st, pc, env, tick, m);
          MarkingEnds(st, env(tick));
          OverIsOver(st', pc', env, tick + 1, m - 1);
        }
      } else { OverIsOver(st, pc, env, tick, m); }
    }
  }

  lemma MarkingEnds(st: State, inp: Input)
    ensures var (st', pc') := Step(st, MarkFailed, inp);
            if inp.raises then st' == st && pc' == Escaped
            else st' == st.(run := st.run.(status := RunFailed)) && pc' == Stopped
  {
  }

  /**
   From any position on: the run fails exactly when the engine gives up somewhere ahead and the marking goes
   through.
   */
  lemma {:induction false} FailsIff(st: State, pc: Pc, env: nat -> Input, tick: nat, n: nat)
    requires StateOk(st) && PcOk(st.run, pc) && (pc == Escaped || Enabled(st, pc)) && pc != MarkFailed
    requires st.run.status == Running
    ensures Drive(st, pc, env, tick, n).0.run.status == RunFailed <==> Fails(st, pc, env, tick, n)
    decreases n
  {
    hide Step, GivesUp, StateOk, PcOk, FailsAt;
    if pc == Escaped {
      OverIsOver(st, pc, env, tick, n);
      OverFailsNoMore(st, pc, env, tick, n);
    } else if n > 0 {
      var st', pc' := DriveTakesStep(st, pc, env, tick, n);
      StepMarksFailed(st, pc, env(tick));
      StepKeepsStateOk(st, pc, env(tick));
      FailsLater(st, pc, env, tick, n);
      FailsNow(st, pc, env, tick);
      if pc' == MarkFailed {
        OverFailsNoMore(st', pc', env, tick + 1, n - 1);
        if n > 1 { MarkingIsAll(st', env, tick + 1, n - 1); }
      } else if pc' == Stopped {
        OverIsOver(st', pc', env, tick + 1, n - 1);
        OverFailsNoMore(st', pc', env, tick + 1, n - 1);
      } else { FailsIff(st', pc', env, tick + 1, n - 1); }
    }
  }

  lemma FailsNow(st: State, pc: Pc, env: nat -> Input, tick: nat)
    ensures FailsAt(st, pc, env, tick, 0) <==>
              (GivesUp(pc, env(tick)) || (pc == Boundary && ToolPending(st.run))) && !env(tick + 1).raises
  {
    hide Step, GivesUp;
  }

  lemma StepToBoundary(st: State, pc: Pc, inp: Input)
    requires Enabled(st, pc) && Step(st, pc, inp).1 == Boundary
    ensures !ToolPending(Step(st, pc, inp).0.run)
  {
  }

  /** Once a request has taken a step, it never comes to the boundary with a step pending. */
  lemma {:induction false} BoundaryFindsNothingPending(st: State, pc: Pc, env: nat -> Input, tick: nat, m: nat)
    requires m > 0 && Drive(st, pc, env, tick, m).1 == Boundary && Enabled(st, pc)
    ensures !ToolPending(Drive(st, pc, env, tick, m).0.run)
    decreases m
  {
    hide Step;
    var st', pc' := DriveTakesStep(st, pc, env, tick, m);
    if m == 1 || pc' == Stopped || pc' == Escaped || !Enabled(st', pc') { StepToBoundary(st, pc, env(tick)); }
    else { BoundaryFindsNothingPending(st', pc', env, tick + 1, m - 1); }
  }

  /** At the m-th step of this request the engine gives up, and marking the run failed does not raise. */
  predicate GivenUpAt(st: State, pc: Pc, env: nat -> Input, m: nat) {
    GivesUp(Drive(st, pc, env, 0, m).1, env(m)) && !env(m + 1).raises
  }

  /**
   Wherever a request on a running run has got to, and wherever it dies, the run is failed exactly when the
   engine gave up on an exception or an invalid decision, or was started on a tool step that only a recovery
   may take up, and the commit that marks it failed went through.
   */
  lemma {:induction false} RunFailsIff(st: State, pc: Pc, env: nat -> Input, n: nat)
    requires StateOk(st) && st.run.status == Running && IsRequest(pc)
    ensures Drive(st, pc, env, 0, n).0.run.status == RunFailed
            <==> (exists m: nat :: m + 1 < n && GivenUpAt(st, pc, env, m))
                 || (pc == Boundary && ToolPending(st.run) && n > 1 && !env(1).raises)
  {
    hide Step, GivesUp, StateOk, ToolPending;
    FailsIff(st, pc, env, 0, n);
    forall m: nat
      ensures FailsAt(st, pc, env, 0, m) <==>
                GivenUpAt(st, pc, env, m) || (m == 0 && pc == Boundary && ToolPending(st.run) && !env(1).raises)
    {
      if m > 0 && Drive(st, pc, env, 0, m).1 == Boundary { BoundaryFindsNothingPending(st, pc, env, 0, m); }
    }
    if pc == Boundary && ToolPending(st.run) && n > 1 && !env(1).raises { assert FailsAt(st, pc, env, 0, 0); }
  }
}
