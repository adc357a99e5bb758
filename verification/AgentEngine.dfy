/**
 The agent loop and its recovery as the code runs them: methods over the run row and its steps, each
 commit a point the process may not live to see, and each step a point where the code may raise. Every
 method is proved to leave the committed run where the machine of AgentRuns stands after as many steps, so
 the promises proved there are promises of these methods.
 */
module AgentEngine {
  import opened Common
  import opened AgentRuns
  import Tools = ToolProtocol

  class AgentLoopEngine {
    const env: nat -> Input

    var run: AgentRun
    var tick: nat
    var survives: nat
    ghost var log: seq<Event>

    constructor (env: nat -> Input, run: AgentRun, survives: nat)
      ensures this.env == env && this.run == run && this.survives == survives && tick == 0 && log == []
    {
      this.env, this.run, this.survives, tick, log := env, run, survives, 0, [];
    }

    ghost function Ahead(pc: Pc): (State, Pc)
      reads this
    {
      Drive(State(run, log), pc, env, tick, survives)
    }

    ghost predicate At(pc: Pc)
      reads this
    {
      pc == Stopped || pc == Escaped || Enabled(State(run, log), pc)
    }

    /** The process is gone, with steps of the request still to take. */
    ghost predicate Dead(pc: Pc)
      reads this
    {
      survives == 0 && Enabled(State(run, log), pc)
    }

    /** Commit the run, if the process lives to see it. */
    method Commit(next: AgentRun, ghost pc: Pc, ghost nextPc: Pc, ghost seen: seq<Event>) returns (alive: bool, ghost at: Pc)
      requires Enabled(State(run, log), pc) && Step(State(run, log), pc, env(tick)) == (State(next, seen), nextPc)
      modifies this
      ensures Ahead(at) == old(Ahead(pc))
      ensures alive ==> at == nextPc && run == next && log == seen && tick == old(tick) + 1 && survives < old(survives)
      ensures !alive ==> at == pc && Dead(at) && run == old(run) && survives == old(survives)
    {
      hide Step;
      if survives == 0 {
        return false, pc;
      }
      run, survives, tick, log := next, survives - 1, tick + 1, seen;
      return true, nextPc;
    }

    /** The code at this position raises: what the session held is lost. */
    method Raise(ghost pc: Pc) returns (alive: bool, ghost at: Pc)
      requires Enabled(State(run, log), pc) && env(tick).raises && !pc.AwaitTool? && pc != CallModel
      modifies this
      ensures Ahead(at) == old(Ahead(pc)) && (alive ==> at == Handler(pc)) && (!alive ==> Dead(at))
      ensures run == old(run) && survives <= old(survives)
    {
      alive, at := Commit(run, pc, Handler(pc), log);
    }

    /** The failure handler of the engine: nothing catches what it raises itself. */
    method MarkRunFailed() returns (alive: bool, raised: bool, ghost at: Pc)
      modifies this
      ensures Ahead(at) == old(Ahead(MarkFailed))
      ensures alive ==> at == (if raised then Escaped else Stopped)
      ensures !alive ==> Dead(at)
    {
      raised := env(tick).raises;
      if raised { alive, at := Raise(MarkFailed); }
      else { alive, at := Commit(run.(status := RunFailed), MarkFailed, Stopped, log); }
    }

    method StopRunAtLimit() returns (alive: bool, raised: bool, ghost at: Pc)
      modifies this
      ensures Ahead(at) == old(Ahead(StopAtLimit))
      ensures alive ==> at == (if raised then MarkFailed else Stopped)
      ensures !alive ==> Dead(at)
    {
      raised := env(tick).raises;
      if raised { alive, at := Raise(StopAtLimit); }
      else { alive, at := Commit(run.(status := MaxSteps), StopAtLimit, Stopped, log); }
    }

    /** The limit test, before the loop and after every tool. */
    method StepLimitReached(ghost pc: Pc) returns (alive: bool, raised: bool, reached: bool, ghost at: Pc)
      requires pc == CheckLimit || pc == CheckLimitAgain
      modifies this
      ensures Ahead(at) == old(Ahead(pc))
      ensures alive ==> at == (if raised then MarkFailed else if reached then StopAtLimit else Build)
      ensures !alive ==> Dead(at)
      ensures survives <= old(survives)
    {
      raised, reached := env(tick).raises, run.stepCount >= run.maxSteps;
      if raised { alive, at := Raise(pc); }
      else { alive, at := Commit(run, pc, if reached then StopAtLimit else Build, log); }
    }

    /** Answer, memory evaluation and retention are one commit: an exception leaves the run as it was. */
    method CompleteRun(answer: string) returns (alive: bool, raised: bool, ghost at: Pc)
      modifies this
      ensures survives <= old(survives)
      ensures Ahead(at) == old(Ahead(Complete(answer)))
      ensures alive ==> at == (if raised then MarkFailed else Stopped)
      ensures !alive ==> Dead(at)
    {
      raised := env(tick).raises;
      if raised { alive, at := Raise(Complete(answer)); }
      else { alive, at := Commit(run.(status := Completed, finalAnswer := Some(answer)), Complete(answer), Stopped, log); }
    }

    // -------------------------------------------------------------- the tool of a step

    /** Link the call of the pending last step, run it, and say what the model will see of it. */
    method RunTool(resuming: bool) returns (alive: bool, observation: Observation, ghost at: Pc)
      requires run.steps != [] && !env(tick).raises
      modifies this
      ensures Ahead(at) == old(Ahead(StartTool(resuming)))
      ensures alive ==> at == StoreObservation(resuming, observation) && run.steps != []
      ensures !alive ==> Dead(at)
      ensures survives <= old(survives)
    {
      observation := OfError("");
      match env(tick).toolStart {
        case RaisesAtOnce(message) =>
          observation := OfError(message);
          alive, at := Commit(run, StartTool(resuming), StoreObservation(resuming, observation), log);
        case Links(call, created) =>
          var step := run.steps[|run.steps| - 1];
          alive, at := Commit(run.(steps := run.steps[|run.steps| - 1 := step.(toolCall := Some(call))]),
                              StartTool(resuming), AwaitTool(resuming, call),
                              if created then log + [ToolCallCreated(step.sequence)] else log);
          if !alive { return; }
          match env(tick).toolEnd {
            case Returns(status) => observation := OfCall(call, status);
            case Raises(message) => observation := OfError(message);
          }
          alive, at := Commit(run, at, StoreObservation(resuming, observation), log);
      }
    }

    method StoreToolObservation(resuming: bool, observation: Observation) returns (alive: bool, raised: bool, ghost at: Pc)
      requires run.steps != []
      modifies this
      ensures Ahead(at) == old(Ahead(StoreObservation(resuming, observation)))
      ensures alive ==> at == (if raised then (if resuming then Escaped else MarkFailed)
                               else if resuming then Boundary else CheckLimitAgain)
      ensures !alive ==> Dead(at)
      ensures survives <= old(survives)
    {
      raised := env(tick).raises;
      ghost var pc := StoreObservation(resuming, observation);
      if raised { alive, at := Raise(pc); }
      else {
        var latest := run.steps[|run.steps| - 1];
        alive, at := Commit(run.(steps := run.steps[|run.steps| - 1 := latest.(observation := Some(observation))]),
                            pc, if resuming then Boundary else CheckLimitAgain, log);
      }
    }

    /** Run the tool for the pending last step and store what the model will see of it. */
    method ExecuteTool(resuming: bool) returns (alive: bool, raised: bool, ghost at: Pc)
      requires run.steps != []
      modifies this
      ensures Ahead(at) == old(Ahead(StartTool(resuming)))
      ensures alive ==> at == (if raised then (if resuming then Escaped else MarkFailed)
                               else if resuming then Boundary else CheckLimitAgain)
      ensures !alive ==> Dead(at)
      ensures survives <= old(survives)
    {
      raised := env(tick).raises;
      if raised {
        alive, at := Raise(StartTool(resuming));
        return;
      }
      var observation;
      alive, observation, at := RunTool(resuming);
      if alive { alive, raised, at := StoreToolObservation(resuming, observation); }
    }

    // -------------------------------------------------------------- the loop

    /** The committed boundary, if the run can be finished from it without a model call. */
    method FinishCommittedBoundary() returns (alive: bool, raised: bool, finished: bool, ghost at: Pc)
      modifies this
      ensures Ahead(at) == old(Ahead(Boundary))
      ensures alive ==> at == (if raised then MarkFailed else if finished then Stopped else CheckLimit)
      ensures alive && !env(old(tick)).raises ==>
                var before := old(run);
                && (!raised && !finished <==>
                      && before.status == Running
                      && (before.steps == [] || (Last(before).action.CallTool? && Last(before).observation.Some?)))
                && (raised && !EndsInAnswer(before) <==> before.status == Running && ToolPending(before))
      ensures !alive ==> Dead(at)
      ensures survives <= old(survives)
    {
      raised, finished := env(tick).raises, false;
      if raised {
        alive, at := Raise(Boundary);
        return;
      }
      if run.status != Running {
        finished := true;
        alive, at := Commit(run, Boundary, Stopped, log);
      } else if run.steps == [] {
        alive, at := Commit(run, Boundary, CheckLimit, log);
      } else {
        var latest := run.steps[|run.steps| - 1];
        if latest.action.FinalAnswer? {
          finished := true;
          alive, at := Commit(run, Boundary, Complete(latest.action.content), log);
          if alive { alive, raised, at := CompleteRun(latest.action.content); }
        } else if latest.observation.None? {
          raised := true;
          alive, at := Commit(run, Boundary, MarkFailed, log);
        } else {
          alive, at := Commit(run, Boundary, CheckLimit, log);
        }
      }
    }

    /** Build the request and call the model; a run that has ended meanwhile is left alone. */
    method AskModel() returns (alive: bool, raised: bool, decision: Option<Action>, ghost at: Pc)
      modifies this
      ensures Ahead(at) == old(Ahead(Build))
      ensures alive ==> at == (if raised then MarkFailed else if decision.None? then Stopped else RecordDecision(decision.value))
      ensures !alive ==> Dead(at)
      ensures survives <= old(survives) && (alive ==> survives < old(survives))
    {
      raised, decision := env(tick).raises, None;
      if raised {
        alive, at := Commit(run, Build, MarkFailed, log);
        return;
      }
      if run.status != Running {
        alive, at := Commit(run, Build, Stopped, log);
        return;
      }
      alive, at := Commit(run, Build, CallModel, log);
      if !alive { return; }
      raised := env(tick).raises || env(tick).proposal.None?;
      if raised {
        alive, at := Commit(run, CallModel, MarkFailed, log + [ModelCalled]);
        return;
      }
      decision := env(tick).proposal;
      alive, at := Commit(run, CallModel, RecordDecision(decision.value), log + [ModelCalled]);
    }

    /** Save the decision as the next step of the run, which must still be running. */
    method RecordModelDecision(decision: Action) returns (alive: bool, raised: bool, ghost at: Pc)
      modifies this
      ensures Ahead(at) == old(Ahead(RecordDecision(decision)))
      ensures alive ==>
                at == (if raised then MarkFailed
                       else if decision.FinalAnswer? then Complete(decision.content) else StartTool(false))
      ensures alive && !raised ==> run.steps != []
      ensures !alive ==> Dead(at)
      ensures survives <= old(survives)
    {
      raised := env(tick).raises || run.status != Running;
      if raised {
        alive, at := Commit(run, RecordDecision(decision), MarkFailed, log);
        return;
      }
      var sequence := run.stepCount + 1;
      alive, at := Commit(run.(stepCount := sequence, steps := run.steps + [RunStep(sequence, decision, None, None)]),
                          RecordDecision(decision),
                          if decision.FinalAnswer? then Complete(decision.content) else StartTool(false), log);
    }

    /** The engine's own run method: whatever its loop raises marks the run failed. */
    method RunEngine() returns (alive: bool, raised: bool, ghost at: Pc)
      modifies this
      ensures Ahead(at) == old(Ahead(Boundary))
      ensures alive ==> at == (if raised then Escaped else Stopped)
      ensures !alive ==> Dead(at)
    {
      hide Step;
      alive, raised, at := RunLoop();
      if alive && raised {
        alive, raised, at := MarkRunFailed();
      }
    }

    method RunLoop() returns (alive: bool, raised: bool, ghost at: Pc)
      modifies this
      ensures Ahead(at) == old(Ahead(Boundary))
      ensures alive ==> at == (if raised then MarkFailed else Stopped)
      ensures !alive ==> Dead(at)
    {
      hide Step;
      var finished, reached;
      alive, raised, finished, at := FinishCommittedBoundary();
      if !alive || raised || finished { return; }
      alive, raised, reached, at := StepLimitReached(CheckLimit);
      if !alive || raised { return; }
      if reached {
        alive, raised, at := StopRunAtLimit();
        return;
      }
      while true
        invariant alive && !raised && at == Build
        invariant Ahead(at) == old(Ahead(Boundary))
        decreases survives
      {
        var decision;
        alive, raised, decision, at := AskModel();
        if !alive || raised || decision.None? { return; }
        alive, raised, at := RecordModelDecision(decision.value);
        if !alive || raised { return; }
        if decision.value.FinalAnswer? {
          alive, raised, at := CompleteRun(decision.value.content);
          return;
        }
        alive, raised, at := ExecuteTool(false);
        if !alive || raised { return; }
        alive, raised, reached, at := StepLimitReached(CheckLimitAgain);
        if !alive || raised { return; }
        if reached {
          alive, raised, at := StopRunAtLimit();
          return;
        }
      }
    }

    // -------------------------------------------------------------- recovery

    method MarkRunForReview() returns (alive: bool, raised: bool, ghost at: Pc)
      modifies this
      ensures Ahead(at) == old(Ahead(ReviewRun))
      ensures alive ==> at == (if raised then Escaped else Stopped)
      ensures !alive ==> Dead(at)
    {
      raised := env(tick).raises;
      if raised { alive, at := Raise(ReviewRun); }
      else { alive, at := Commit(run.(status := RunNeedsReview), ReviewRun, Stopped, log); }
    }

    method RestoreCallObservation(observation: Observation) returns (alive: bool, raised: bool, ghost at: Pc)
      requires run.steps != []
      modifies this
      ensures Ahead(at) == old(Ahead(RestoreObservation(observation)))
      ensures alive ==> at == (if raised then Escaped else Boundary)
      ensures !alive ==> Dead(at)
    {
      raised := env(tick).raises;
      if raised { alive, at := Raise(RestoreObservation(observation)); }
      else {
        var latest := run.steps[|run.steps| - 1];
        alive, at := Commit(run.(steps := run.steps[|run.steps| - 1 := latest.(observation := Some(observation))]),
                            RestoreObservation(observation), Boundary, log);
      }
    }

    /** Recover the linked ToolCall; only one with a durable result can be resumed from. */
    method RecoverLinkedCall(call: nat) returns (alive: bool, raised: bool, observation: Option<Observation>, ghost at: Pc)
      requires run.steps != []
      modifies this
      ensures Ahead(at) == old(Ahead(RecoverCall(call))) && run.steps != []
      ensures alive ==> at == (if raised then Escaped
                               else if observation.Some? then RestoreObservation(observation.value) else ReviewRun)
      ensures !alive ==> Dead(at)
    {
      var inp := env(tick);
      raised, observation := inp.raises, None;
      if raised {
        alive, at := Raise(RecoverCall(call));
      } else if inp.recoveredCall.Some? && CallEnded(inp.recoveredCall.value) {
        observation := Some(OfCall(call, inp.recoveredCall.value));
        alive, at := Commit(run, RecoverCall(call), RestoreObservation(observation.value), log);
      } else {
        alive, at := Commit(run, RecoverCall(call), ReviewRun, log);
      }
    }

    method ResumeFromCall(call: nat) returns (alive: bool, raised: bool, ghost at: Pc)
      requires run.steps != []
      modifies this
      ensures Ahead(at) == old(Ahead(RecoverCall(call)))
      ensures alive ==> at == (if raised then Escaped else Stopped)
      ensures !alive ==> Dead(at)
    {
      hide Step;
      var observation;
      alive, raised, observation, at := RecoverLinkedCall(call);
      if !alive || raised { return; }
      if observation.Some? {
        alive, raised, at := RestoreCallObservation(observation.value);
        if alive && !raised { alive, raised, at := RunEngine(); }
      } else {
        alive, raised, at := MarkRunForReview();
      }
    }

    method RecoverAgentRun() returns (alive: bool, raised: bool, ghost at: Pc)
      modifies this
      ensures Ahead(at) == old(Ahead(RecoverRun))
      ensures alive ==> at == (if raised then Escaped else Stopped)
      ensures !alive ==> Dead(at)
    {
      raised := env(tick).raises;
      if raised {
        alive, at := Raise(RecoverRun);
        return;
      }
      if env(tick).refused {
        alive, at := Commit(run, RecoverRun, ReviewRun, log);
        if alive { alive, raised, at := MarkRunForReview(); }
        return;
      }
      if run.steps == [] || run.steps[|run.steps| - 1].action.FinalAnswer?
         || run.steps[|run.steps| - 1].observation.Some? {
        alive, at := Commit(run, RecoverRun, Boundary, log);
        if alive { alive, raised, at := RunEngine(); }
        return;
      }
      var latest := run.steps[|run.steps| - 1];
      if latest.toolCall.None? {
        alive, at := Commit(run, RecoverRun, StartTool(true), log);
        if !alive { return; }
        alive, raised, at := ExecuteTool(true);
        if alive && !raised { alive, raised, at := RunEngine(); }
        return;
      }
      alive, at := Commit(run, RecoverRun, RecoverCall(latest.toolCall.value), log);
      if alive { alive, raised, at := ResumeFromCall(latest.toolCall.value); }
    }

    /**
     Called on a reachable running run by a process that lives long enough, recovery returns: with an exception
     exactly when the run is left running, and with every step in order in any case.
     */
    method RecoverReachableRun() returns (raised: bool)
      requires StateOk(State(run, log)) && run.status == Running
      requires survives >= 20 * TurnsLeft(run) + 20
      modifies this
      ensures StateOk(State(run, log)) && (raised <==> run.status == Running)
      ensures ModelCalls(log) <= old(ModelCalls(log)) + old(run.maxSteps - run.stepCount)
    {
      hide Step;
      ghost var st, k := State(run, log), survives;
      RecoveryTerminates(st, Shifted(env, tick), k);
      ShiftedDrive(st, RecoverRun, env, tick, 0, k);
      DriveKeepsStateOk(st, RecoverRun, env, tick, k);
      var alive;
      ghost var at;
      alive, raised, at := RecoverAgentRun();
      assert (State(run, log), at) == Drive(st, RecoverRun, env, old(tick), k);
    }
  }

  function Shifted(env: nat -> Input, offset: nat): nat -> Input { (t: nat) => env(offset + t) }

  lemma {:induction false} ShiftedDrive(st: State, pc: Pc, env: nat -> Input, offset: nat, tick: nat, n: nat)
    ensures Drive(st, pc, Shifted(env, offset), tick, n) == Drive(st, pc, env, offset + tick, n)
    decreases n
  {
    hide Step;
    if n > 0 && Enabled(st, pc) {
      var (st', pc') := Step(st, pc, env(offset + tick));
      ShiftedDrive(st', pc', env, offset, tick + 1, n - 1);
    }
  }
}
