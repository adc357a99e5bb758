/**
 The tool runtime as the code runs it: a session that changes rows and commits, called through the
 methods of the runtime, the authorization service, the approval service and the recovery service.

 The process may die before any commit, before the handler is called, and before the final commit:
 survives counts the steps it still lives through. Each method is proved to leave the committed rows
 exactly where the machine of ToolProtocol stands after that many steps of the same request, so every
 guarantee about histories is a guarantee about these methods.
 */
module ToolRuntime {
  import opened Common
  import opened ToolProtocol
  import opened ToolHistories

  /** Where a request stands, at what tick, and how many steps its process still lives through. */
  datatype Standing = Standing(w: World, pc: Pc, tick: nat, life: nat)

  /** The machine run alone for at most n steps, with the environment's inputs from tick on. */
  function Run(reg: Registry, w: World, pc: Pc, env: nat -> Input, tick: nat, n: nat): Standing
    decreases n
  {
    if n == 0 || !Enabled(w, pc) then Standing(w, pc, tick, n)
    else
      var (w', pc') := Step(reg, w, pc, env(tick));
      Run(reg, w', pc', env, tick + 1, n - 1)
  }

  /** The business write a tool leaves in the session. */
  function WithWrites(db: Db, c: CallId, result: ToolExecution): Db
    requires c < |db.calls|
  {
    if db.calls[c].effect == InternalWrite && result.status == ExecSuccess
    then db.(internalWrites := db.internalWrites + [c]) else db
  }

  // ---------------------------------------------------------------- a batch of recoveries

  /** What the batch query selects. */
  predicate Recoverable(s: Status) {
    s == Proposed || s == Authorized || s == Executing || s == OutcomeUnknown
  }

  /** The stale recoverable calls of a task, in id order; which calls are stale is a matter of the clock. */
  function SelectStale(calls: seq<ToolCall>, task: TaskId, stale: set<CallId>): (r: seq<CallId>)
    ensures forall c: CallId :: c in r <==> c < |calls| && calls[c].task == task && Recoverable(calls[c].status) && c in stale
    ensures forall i, j :: 0 <= i < j < |r| ==> r[i] < r[j]
  {
    if calls == [] then []
    else
      var last := |calls| - 1;
      var rest := SelectStale(calls[..last], task, stale);
      assert forall i :: 0 <= i < |rest| ==> rest[i] in rest;
      rest + (if calls[last].task == task && Recoverable(calls[last].status) && last in stale then [last] else [])
  }

  /** What a batch selects is what neither has ended nor waits for a person. */
  lemma SelectionMeans(calls: seq<ToolCall>, task: TaskId, stale: set<CallId>)
    ensures var r := SelectStale(calls, task, stale);
            && AllBelow(r, |calls|)
            && forall c: CallId :: c in r <==>
                 && c < |calls| && c in stale && calls[c].task == task
                 && !Ended(calls[c].status) && calls[c].status != AwaitingApproval && calls[c].status != NeedsReview
  {
    var r := SelectStale(calls, task, stale);
    assert forall k :: 0 <= k < |r| ==> r[k] in r;
  }

  /** Each selected call in turn, by one process; the rest is dropped when it dies. */
  function RunBatch(reg: Registry, w: World, selected: seq<CallId>, env: nat -> Input, tick: nat, n: nat): World
    decreases |selected|
  {
    if selected == [] then w
    else
      var s := Run(reg, w, Recover(selected[0]), env, tick, n);
      if s.pc.Done? then RunBatch(reg, s.w, selected[1..], env, s.tick, s.life) else s.w
  }

  predicate AllBelow(ids: seq<CallId>, n: nat) {
    forall k :: 0 <= k < |ids| ==> ids[k] < n
  }

  /** A request that has ended or whose process is dead gets no further. */
  lemma StandsStill(reg: Registry, w: World, pc: Pc, env: nat -> Input, tick: nat, n: nat)
    requires n == 0 || pc.Done?
    ensures Run(reg, w, pc, env, tick, n) == Standing(w, pc, tick, n)
  {
  }

  lemma DeadBatch(reg: Registry, w: World, selected: seq<CallId>, env: nat -> Input, tick: nat)
    ensures RunBatch(reg, w, selected, env, tick, 0) == w
  {
    hide Step;
  }

  lemma BatchTakesCall(reg: Registry, w: World, selected: seq<CallId>, i: nat, env: nat -> Input, tick: nat, n: nat)
    requires i < |selected| && AllBelow(selected, |w.db.calls|)
    ensures var s := Run(reg, w, Recover(selected[i]), env, tick, n);
            && AllBelow(selected, |s.w.db.calls|)
            && RunBatch(reg, w, selected[i..], env, tick, n)
               == if s.pc.Done? then RunBatch(reg, s.w, selected[i + 1..], env, s.tick, s.life) else s.w
  {
    hide Step, Run;
    var c := selected[i];
    assert selected[i..][0] == c && selected[i..][1..] == selected[i + 1..];
    forall k | 0 <= k < |selected|
      ensures selected[k] < |Run(reg, w, Recover(c), env, tick, n).w.db.calls|
    {
      RunKeepsIdentity(reg, w, Recover(c), env, tick, n, selected[k]);
    }
  }

  /** Where a recovery goes from an answer of the adapter. */
  function AfterAnswer(c: CallId, answer: Answer): Pc {
    match answer
    case SaysSucceeded(output) => StoreReconciled(c, output)
    case SaysNotFound => EnsurePolicy(c, Reconciled)
    case _ => KeepPending(c)
  }

  class Runtime {
    const reg: Registry
    const env: nat -> Input

    var committed: Db
    var session: Db
    var tick: nat
    var survives: nat
    ghost var log: seq<Event>

    constructor (reg: Registry, env: nat -> Input, db: Db, survives: nat)
      ensures this.reg == reg && this.env == env && committed == session == db && log == []
      ensures tick == 0 && this.survives == survives
    {
      this.reg, this.env, this.survives, tick := reg, env, survives, 0;
      committed, session, log := db, db, [];
    }

    ghost function Observed(): World
      reads this
    {
      World(committed, log)
    }

    /** Where the machine gets from here, standing at pc. */
    ghost function Ahead(pc: Pc): Standing
      reads this
    {
      Run(reg, Observed(), pc, env, tick, survives)
    }

    ghost predicate At(pc: Pc)
      reads this
    {
      session == committed && (pc.Done? || Enabled(Observed(), pc))
    }

    // ---------------------------------------------------------------- the database session

    /** Commit the session, if the process lives to see it; otherwise the transaction is lost. */
    method Commit(ghost pc: Pc, ghost next: Pc, ghost seen: seq<Event>) returns (alive: bool, ghost at: Pc)
      requires Enabled(Observed(), pc)
      requires Step(reg, Observed(), pc, env(tick)) == (World(session, seen), next)
      modifies this
      ensures At(at) && Ahead(at) == old(Ahead(pc))
      ensures alive ==> at == next && committed == old(session) && log == seen && tick == old(tick) + 1
      ensures !alive ==> at == pc && survives == 0 && committed == old(committed) && log == old(log)
    {
      hide Step;
      StepStaysEnabled(reg, Observed(), pc, env(tick));
      if survives == 0 {
        session := committed;
        return false, pc;
      }
      committed, survives, tick, log := session, survives - 1, tick + 1, seen;
      return true, next;
    }

    /** Pass a point where the process may die with nothing new committed; the session keeps its changes. */
    method Pass(ghost pc: Pc, ghost next: Pc, ghost seen: seq<Event>) returns (alive: bool, ghost at: Pc)
      requires Enabled(Observed(), pc)
      requires Step(reg, Observed(), pc, env(tick)) == (World(committed, seen), next)
      modifies this
      ensures at.Done? || Enabled(Observed(), at)
      ensures Ahead(at) == old(Ahead(pc)) && committed == old(committed)
      ensures alive ==> at == next && session == old(session) && log == seen && tick == old(tick) + 1
      ensures !alive ==> at == pc && survives == 0 && session == committed && log == old(log)
    {
      hide Step;
      StepStaysEnabled(reg, Observed(), pc, env(tick));
      if survives == 0 {
        session := committed;
        return false, pc;
      }
      survives, tick, log := survives - 1, tick + 1, seen;
      return true, next;
    }

    method PutCall(c: CallId, row: ToolCall)
      requires c < |session.calls|
      modifies this`session
      ensures session == WithCall(old(session), c, row)
    {
      session := session.(calls := session.calls[c := row]);
    }

    // ---------------------------------------------------------------- authorization and approvals

    method GetOrCreateTaskPolicy(c: CallId, ghost purpose: Purpose) returns (alive: bool, ghost at: Pc)
      requires At(EnsurePolicy(c, purpose))
      modifies this
      ensures At(at) && Ahead(at) == old(Ahead(EnsurePolicy(c, purpose)))
      ensures if alive then at == Decide(c, purpose) else survives == 0
      ensures alive ==>
                var task := old(committed).calls[c].task;
                && committed == old(committed).(policies := committed.policies) && task in committed.policies
                && (task in old(committed).policies ==> committed.policies == old(committed).policies)
                && (task !in old(committed).policies ==> forall tool ::
                      tool in committed.policies[task].allowedTools <==> tool in reg && reg[tool].permission.ReadPermission?)
    {
      var task := session.calls[c].task;
      if task !in session.policies {
        session := session.(policies := session.policies[task := Policy(1, DefaultAllowedTools(reg), true)]);
      }
      alive, at := Commit(EnsurePolicy(c, purpose), Decide(c, purpose), log);
    }

    /** Select an open matching approval, then spend it with a conditional update that decides by its row count. */
    method ConsumeMatchingToolApproval(c: CallId, ghost purpose: Purpose)
        returns (alive: bool, grant: Option<ApprovalId>, ghost at: Pc)
      requires At(SelectApproval(c, purpose))
      modifies this
      ensures At(at) && Ahead(at) == old(Ahead(SelectApproval(c, purpose)))
      ensures alive ==> at == RecordDecision(c, purpose, if grant.Some? then Allowed else RequiresApproval, grant)
      ensures !alive ==> survives == 0
    {
      grant := None;
      var now := env(tick).now;
      var chosen := FindSpendable(session.approvals, c, session.calls[c], now);
      if chosen.None? {
        alive, at := Pass(SelectApproval(c, purpose), RecordDecision(c, purpose, RequiresApproval, None), log);
        return;
      }
      alive, at := Pass(SelectApproval(c, purpose), SpendApproval(c, purpose, chosen.value, now), log);
      if !alive { return; }
      var updated := chosen.value < |session.approvals| && StillSpendable(session.approvals[chosen.value], c, now);
      if updated {
        var spent := session.approvals[chosen.value].(activeSlot := None, consumedAt := Some(now));
        session := session.(approvals := session.approvals[chosen.value := spent]);
        grant := chosen;
      }
      alive, at := Commit(at, RecordDecision(c, purpose, if updated then Allowed else RequiresApproval, grant), log);
    }

    /** The decision itself: the allow list first, then the approval for external writes. */
    method DecideByPolicy(c: CallId, ghost purpose: Purpose, requireExecutionApproval: bool)
        returns (alive: bool, decision: Decision, grant: Option<ApprovalId>, ghost at: Pc)
      requires At(Decide(c, purpose)) && requireExecutionApproval == Executes(purpose)
      modifies this
      ensures At(at) && Ahead(at) == old(Ahead(Decide(c, purpose)))
      ensures if alive then at == RecordDecision(c, purpose, decision, grant) else survives == 0
      ensures alive ==>
                var row := old(committed).calls[c];
                decision == DeniedByPolicy <==> row.tool !in old(committed).policies[row.task].allowedTools
    {
      decision, grant := DeniedByPolicy, None;
      var row := session.calls[c];
      var policy := session.policies[row.task];
      if row.tool !in policy.allowedTools {
        alive, at := Pass(Decide(c, purpose), RecordDecision(c, purpose, DeniedByPolicy, None), log);
      } else if row.effect == ExternalWrite && policy.externalWritesRequireApproval && requireExecutionApproval {
        alive, at := Pass(Decide(c, purpose), SelectApproval(c, purpose), log);
        if !alive { return; }
        alive, grant, at := ConsumeMatchingToolApproval(c, purpose);
        decision := if grant.Some? then Allowed else RequiresApproval;
      } else {
        decision := Allowed;
        alive, at := Pass(Decide(c, purpose), RecordDecision(c, purpose, Allowed, None), log);
      }
    }

    method RecordAuthorization(c: CallId, ghost purpose: Purpose, decision: Decision, grant: Option<ApprovalId>)
        returns (alive: bool, ghost at: Pc)
      requires At(RecordDecision(c, purpose, decision, grant))
      modifies this
      ensures At(at) && Ahead(at) == old(Ahead(RecordDecision(c, purpose, decision, grant)))
      ensures if alive then at == AfterDecision(c, purpose, decision, grant) else survives == 0
    {
      session := session.(authorizations := session.authorizations + [Authorization(c, decision, grant)]);
      alive, at := Commit(RecordDecision(c, purpose, decision, grant), AfterDecision(c, purpose, decision, grant), log);
    }

    method AuthorizeToolCall(c: CallId, ghost purpose: Purpose, requireExecutionApproval: bool)
        returns (alive: bool, decision: Decision, grant: Option<ApprovalId>, ghost at: Pc)
      requires At(EnsurePolicy(c, purpose)) && requireExecutionApproval == Executes(purpose)
      modifies this
      ensures At(at) && Ahead(at) == old(Ahead(EnsurePolicy(c, purpose)))
      ensures if alive then at == AfterDecision(c, purpose, decision, grant) else survives == 0
      ensures alive ==>
                var row := old(committed).calls[c];
                decision == DeniedByPolicy <==>
                  if row.task in old(committed).policies then row.tool !in old(committed).policies[row.task].allowedTools
                  else !(row.tool in reg && reg[row.tool].permission.ReadPermission?)
    {
      hide Step;
      decision, grant := DeniedByPolicy, None;
      alive, at := GetOrCreateTaskPolicy(c, purpose);
      if !alive { return; }
      alive, decision, grant, at := DecideByPolicy(c, purpose, requireExecutionApproval);
      if !alive { return; }
      alive, at := RecordAuthorization(c, purpose, decision, grant);
    }

    /** Revoke the expired approval, insert the new one under the unique slot, and commit both or neither. */
    method InsertToolApproval(c: CallId, actor: string, expired: Option<ApprovalId>, now: Time, seconds: nat)
        returns (alive: bool, outcome: Outcome, ghost at: Pc)
      requires At(GrantApproval(c, actor, expired, now, seconds))
      modifies this
      ensures At(at) && Ahead(at) == old(Ahead(GrantApproval(c, actor, expired, now, seconds)))
      ensures if alive then at == Done(outcome) else survives == 0
    {
      ghost var pc := GrantApproval(c, actor, expired, now, seconds);
      if expired.Some? && expired.value < |session.approvals| {
        var revoked := session.approvals[expired.value].(activeSlot := None, revokedAt := Some(now));
        session := session.(approvals := session.approvals[expired.value := revoked]);
      }
      assert session == Revoked(committed, expired, now);
      if FindActive(session.approvals, c).Some? {
        session := committed;
        outcome := ApprovalRefused;
        alive, at := Pass(pc, Done(ApprovalRefused), log);
        return;
      }
      outcome := ApprovalGranted(|session.approvals|);
      var row := session.calls[c];
      session := session.(approvals := session.approvals +
        [Approval(row.task, c, Some(c), actor, row.tool, row.key, row.fingerprint, now + seconds, None, None)]);
      PutCall(c, row.(status := AwaitingApproval));
      alive, at := Commit(pc, Done(outcome), log);
    }

    method CreateToolApproval(c: CallId, actor: string, seconds: nat)
        returns (alive: bool, outcome: Outcome, ghost at: Pc)
      requires At(CheckApproval(c, actor, seconds))
      modifies this
      ensures At(at) && Ahead(at) == old(Ahead(CheckApproval(c, actor, seconds)))
      ensures if alive then at == Done(outcome) else survives == 0
    {
      var row, now := session.calls[c], env(tick).now;
      var active := FindActive(session.approvals, c);
      if row.tool !in reg || reg[row.tool].effect != ExternalWrite
         || (row.status != AwaitingApproval && row.status != Denied)
         || LatestDecision(session.authorizations, c) != Some(RequiresApproval)
         || (active.Some? && session.approvals[active.value].expiresAt > now) {
        outcome := ApprovalRefused;
        alive, at := Pass(CheckApproval(c, actor, seconds), Done(ApprovalRefused), log);
        return;
      }
      outcome := ApprovalRefused;
      alive, at := Pass(CheckApproval(c, actor, seconds), GrantApproval(c, actor, active, now, seconds), log);
      if !alive { return; }
      alive, outcome, at := InsertToolApproval(c, actor, active, now, seconds);
    }

    method UpdateTaskPolicy(task: TaskId, allowedTools: set<string>) returns (alive: bool, outcome: Outcome, ghost at: Pc)
      requires At(ChangePolicy(task, allowedTools))
      modifies this
      ensures At(at) && Ahead(at) == old(Ahead(ChangePolicy(task, allowedTools)))
      ensures if alive then at == Done(outcome) else survives == 0
    {
      outcome := PolicyRefused;
      if !(allowedTools <= reg.Keys) {
        alive, at := Pass(ChangePolicy(task, allowedTools), Done(PolicyRefused), log);
        return;
      }
      if task !in session.policies {
        session := session.(policies := session.policies[task := Policy(1, DefaultAllowedTools(reg), true)]);
      }
      alive, at := Commit(ChangePolicy(task, allowedTools), WritePolicy(task, allowedTools), log);
      if !alive { return; }
      outcome := PolicyChanged;
      var policy := session.policies[task];
      policy := policy.(version := policy.version + 1, allowedTools := allowedTools);
      session := session.(policies := session.policies[task := policy]);
      alive, at := Commit(at, Done(outcome), log);
    }

    // ---------------------------------------------------------------- execution

    /**
     execute_tool: the handler runs inside a savepoint of the session, so a raised exception takes its
     writes back while everything else the session holds stays.
     */
    method ExecuteTool(c: CallId, ghost grant: Option<ApprovalId>, ghost recovering: bool)
        returns (alive: bool, result: ToolExecution, ghost execution: Execution, ghost at: Pc)
      requires At(Invoke(c, grant, recovering))
      modifies this
      ensures committed == old(committed) && Ahead(at) == old(Ahead(Invoke(c, grant, recovering)))
      ensures at.Done? || Enabled(Observed(), at)
      ensures alive ==> at == Store(c, execution, recovering)
      ensures alive ==> result == Classify(committed.calls[c].effect, committed.calls[c].arguments, execution)
      ensures alive ==> session == WithWrites(committed, c, result)
      ensures !alive ==> survives == 0 && session == committed
    {
      var row, input := session.calls[c], env(tick).execution;
      execution := input;
      result := ToolExecution(ExecError, row.arguments, None, None, None);
      alive, at := Pass(Invoke(c, grant, recovering), Store(c, execution, recovering),
                        if execution.BadArguments? then log
                        else log + [Invoked(c, row.attempts, grant, execution.outcome)]);
      if !alive { return; }
      match input
      case BadArguments(message) =>
        result := ToolExecution(ExecError, row.arguments, None, Some(message), None);
      case Ran(arguments, outcome) =>
        var savepoint := session;
        if row.effect == InternalWrite {
          session := session.(internalWrites := session.internalWrites + [c]);
        }
        match outcome
        case Returned(output) =>
          result := ToolExecution(ExecSuccess, arguments, Some(output), None, None);
        case RaisedError(message) =>
          session := savepoint;
          result := ToolExecution(ExecError, arguments, None, Some(message), None);
        case RaisedUncertain(providerId, message) =>
          session := savepoint;
          if row.effect != ExternalWrite {
            result := ToolExecution(ExecError, arguments, None,
                                    Some("only external-write tools may report an uncertain provider operation"), None);
          } else {
            result := ToolExecution(ExecUnknown, arguments, None, Some(message), Some(providerId));
          }
    }

    /** The final commit: the row, and with it whatever the handler wrote in the session. */
    method StoreResult(c: CallId, result: ToolExecution, ghost execution: Execution, ghost recovering: bool)
        returns (alive: bool, ghost at: Pc)
      requires Enabled(Observed(), Store(c, execution, recovering)) && c < |committed.calls|
      requires result == Classify(committed.calls[c].effect, committed.calls[c].arguments, execution)
      requires session == WithWrites(committed, c, result)
      modifies this
      ensures At(at) && Ahead(at) == old(Ahead(Store(c, execution, recovering)))
      ensures if alive then at == Done(if recovering then RecoveryDone(c) else Finished(c, false)) else survives == 0
    {
      var row := session.calls[c];
      PutCall(c, row.(status := StatusAfter(result.status), arguments := result.arguments, output := result.output,
                      error := result.error, providerId := result.providerId));
      ghost var seen := if result.status == ExecUnknown && result.providerId.Some?
                        then log + [Reported(c, row.attempts, result.providerId.value)] else log;
      assert session == Stored(Observed(), c, execution).db;
      assert Stored(Observed(), c, execution).log == seen;
      alive, at := Commit(Store(c, execution, recovering),
                          Done(if recovering then RecoveryDone(c) else Finished(c, false)), seen);
    }

    /** Call the tool and commit its result together with its business writes. */
    method ExecuteAndStore(c: CallId, ghost grant: Option<ApprovalId>, ghost recovering: bool)
        returns (alive: bool, ghost at: Pc)
      requires At(Invoke(c, grant, recovering))
      modifies this
      ensures At(at) && Ahead(at) == old(Ahead(Invoke(c, grant, recovering)))
      ensures if alive then at == Done(if recovering then RecoveryDone(c) else Finished(c, false)) else survives == 0
    {
      var result;
      ghost var execution;
      alive, result, execution, at := ExecuteTool(c, grant, recovering);
      if !alive { return; }
      alive, at := StoreResult(c, result, execution, recovering);
    }

    method ExecuteAuthorizedRecord(c: CallId, ghost grant: Option<ApprovalId>) returns (alive: bool, ghost at: Pc)
      requires At(MarkAuthorized(c, grant))
      modifies this
      ensures At(at) && Ahead(at) == old(Ahead(MarkAuthorized(c, grant)))
      ensures if alive then at == Done(Finished(c, false)) else survives == 0
    {
      PutCall(c, session.calls[c].(status := Authorized, error := None));
      alive, at := Commit(MarkAuthorized(c, grant), MarkExecuting(c, grant), log);
      if !alive { return; }
      var row := session.calls[c];
      PutCall(c, row.(status := Executing, attempts := row.attempts + 1));
      alive, at := Commit(at, Invoke(c, grant, false), log);
      if !alive { return; }
      alive, at := ExecuteAndStore(c, grant, false);
    }

    method RetryPersistedToolCall(c: CallId, ghost grant: Option<ApprovalId>) returns (alive: bool, ghost at: Pc)
      requires At(MarkRetrying(c, grant))
      modifies this
      ensures At(at) && Ahead(at) == old(Ahead(MarkRetrying(c, grant)))
      ensures if alive then at == Done(RecoveryDone(c)) else survives == 0
    {
      var row := session.calls[c];
      PutCall(c, row.(status := Executing, attempts := row.attempts + 1, error := None));
      alive, at := Commit(MarkRetrying(c, grant), Invoke(c, grant, true), log);
      if !alive { return; }
      alive, at := ExecuteAndStore(c, grant, true);
    }

    /** Set the status and error of a call and commit; the last step of most paths. */
    method SetStatus(c: CallId, status: Status, error: Option<string>, ghost pc: Pc, ghost outcome: Outcome)
        returns (alive: bool, ghost at: Pc)
      requires At(pc) && !pc.Done? && c < |session.calls|
      requires Step(reg, Observed(), pc, env(tick)) ==
                 (Put(Observed(), WithCall(committed, c, committed.calls[c].(status := status, error := error))), Done(outcome))
      modifies this
      ensures At(at) && Ahead(at) == old(Ahead(pc))
      ensures if alive then at == Done(outcome) else survives == 0
      ensures alive ==> committed == WithCall(old(committed), c, old(committed).calls[c].(status := status, error := error))
    {
      PutCall(c, session.calls[c].(status := status, error := error));
      alive, at := Commit(pc, Done(outcome), log);
    }

    // ---------------------------------------------------------------- submission and replay

    /** A replay of the same request: execute what is still waiting, otherwise only count it. */
    method ReplayExisting(c: CallId, executionPending: bool) returns (alive: bool, outcome: Outcome, ghost at: Pc)
      requires At(EnsurePolicy(c, Replay(executionPending)))
      modifies this
      ensures At(at) && Ahead(at) == old(Ahead(EnsurePolicy(c, Replay(executionPending))))
      ensures if alive then at == Done(outcome) else survives == 0
      ensures outcome == ReplayRefused || outcome == Finished(c, !executionPending)
    {
      outcome := Finished(c, !executionPending);
      var decision, grant;
      alive, decision, grant, at := AuthorizeToolCall(c, Replay(executionPending), executionPending);
      if !alive { return; }
      if decision != Allowed {
        outcome := ReplayRefused;
      } else if executionPending {
        alive, at := ExecuteAuthorizedRecord(c, grant);
      } else {
        var existing := session.calls[c];
        PutCall(c, existing.(replays := existing.replays + 1));
        alive, at := Commit(at, Done(outcome), log);
      }
    }

    method ReplayOrConflict(c: CallId, ghost task: TaskId, request: Request, ghost key: string)
        returns (alive: bool, outcome: Outcome, ghost at: Pc)
      requires At(Submit(task, request, key)) && FindCall(committed.calls, task, key) == Some(c) && request.tool in reg
      modifies this
      ensures At(at) && Ahead(at) == old(Ahead(Submit(task, request, key)))
      ensures if alive then at == Done(outcome) else survives == 0
      ensures alive ==> (outcome == IdempotencyConflict <==> old(committed).calls[c].fingerprint != request)
      ensures alive && outcome == IdempotencyConflict ==> committed == old(committed)
      ensures alive && outcome.Finished? ==>
                var waiting := old(committed).calls[c].status == AwaitingApproval || old(committed).calls[c].status == Denied;
                outcome == Finished(c, !waiting)
    {
      var row := session.calls[c];
      if row.fingerprint != request {
        outcome := IdempotencyConflict;
        alive, at := Pass(Submit(task, request, key), Done(outcome), log);
        return;
      }
      if row.tool !in reg {
        outcome := UnknownTool;
        alive, at := Pass(Submit(task, request, key), Done(outcome), log);
        return;
      }
      var executionPending := row.status == AwaitingApproval || row.status == Denied;
      alive, at := Pass(Submit(task, request, key), EnsurePolicy(c, Replay(executionPending)), log);
      outcome := Finished(c, !executionPending);
      if !alive { return; }
      alive, outcome, at := ReplayExisting(c, executionPending);
    }

    /** A new call: authorize it, then execute it or store the refusal. */
    method AuthorizeAndExecute(c: CallId) returns (alive: bool, ghost at: Pc)
      requires At(EnsurePolicy(c, FirstSubmission))
      modifies this
      ensures At(at) && Ahead(at) == old(Ahead(EnsurePolicy(c, FirstSubmission)))
      ensures if alive then at == Done(Finished(c, false)) else survives == 0
    {
      var decision, grant;
      alive, decision, grant, at := AuthorizeToolCall(c, FirstSubmission, true);
      if !alive { return; }
      if decision != Allowed {
        alive, at := SetStatus(c, if decision == RequiresApproval then AwaitingApproval else Denied,
                               Some("refused"), at, Finished(c, false));
        return;
      }
      alive, at := ExecuteAuthorizedRecord(c, grant);
    }

    method RunToolCall(task: TaskId, request: Request, requestedKey: Option<string>, generatedKey: string)
        returns (alive: bool, outcome: Outcome, key: string, ghost at: Pc)
      requires session == committed
      modifies this
      ensures key == if request.tool in reg && reg[request.tool].operationKeyed
                        && requestedKey.Some? && |requestedKey.value| > 0
                     then requestedKey.value else generatedKey
      ensures At(at) && Ahead(at) == old(Run(reg, Observed(), Submit(task, request, key), env, tick, survives))
      ensures if alive then at == Done(outcome) else survives == 0
    {
      key := generatedKey;
      ghost var start := Submit(task, request, key);
      if request.tool !in reg {
        outcome := UnknownTool;
        alive, at := Pass(start, Done(UnknownTool), log);
        return;
      }
      key := ResolveKey(reg[request.tool], requestedKey, generatedKey);
      start := Submit(task, request, key);
      var existing := FindCall(session.calls, task, key);
      if existing.Some? {
        alive, outcome, at := ReplayOrConflict(existing.value, task, request, key);
        return;
      }
      var c := |session.calls|;
      outcome := Finished(c, false);
      session := session.(calls := session.calls + [NewCall(reg, task, request, key)]);
      alive, at := Commit(start, EnsurePolicy(c, FirstSubmission), log);
      if !alive { return; }
      alive, at := AuthorizeAndExecute(c);
    }

    // ---------------------------------------------------------------- recovery

    method MarkCallForReview(c: CallId, reason: string) returns (alive: bool, ghost at: Pc)
      requires At(MarkForReview(c, reason))
      modifies this
      ensures At(at) && Ahead(at) == old(Ahead(MarkForReview(c, reason)))
      ensures if alive then at == Done(RecoveryDone(c)) else survives == 0
    {
      alive, at := SetStatus(c, NeedsReview, Some(reason), MarkForReview(c, reason), RecoveryDone(c));
    }

    /** The provider does not know the operation: authorize again, and only then retry. */
    method RetryAfterNotFound(c: CallId) returns (alive: bool, ghost at: Pc)
      requires At(EnsurePolicy(c, Reconciled))
      modifies this
      ensures At(at) && Ahead(at) == old(Ahead(EnsurePolicy(c, Reconciled)))
      ensures if alive then at == Done(RecoveryDone(c)) else survives == 0
    {
      var decision, grant;
      alive, decision, grant, at := AuthorizeToolCall(c, Reconciled, true);
      if !alive { return; }
      if decision == Allowed {
        alive, at := RetryPersistedToolCall(c, grant);
      } else if decision == RequiresApproval {
        alive, at := SetStatus(c, AwaitingApproval, Some("fresh approval required"), at, RecoveryDone(c));
      } else {
        alive, at := MarkCallForReview(c, "retry authorization failed");
      }
    }

    method StoreReconciledResult(c: CallId, output: Option<string>) returns (alive: bool, ghost at: Pc)
      requires At(StoreReconciled(c, output))
      modifies this
      ensures At(at) && Ahead(at) == old(Ahead(StoreReconciled(c, output)))
      ensures if alive then at == Done(RecoveryDone(c)) else survives == 0
      ensures alive ==>
                var row := old(committed).calls[c];
                committed == WithCall(old(committed), c, row.(status := Succeeded, output := output, error := None))
    {
      PutCall(c, session.calls[c].(status := Succeeded, output := output, error := None));
      alive, at := Commit(StoreReconciled(c, output), Done(RecoveryDone(c)), log);
    }

    /** No answer about the operation: the outcome stays unknown, to be asked for again. */
    method KeepReconciliationPending(c: CallId) returns (alive: bool, ghost at: Pc)
      requires At(KeepPending(c))
      modifies this
      ensures At(at) && Ahead(at) == old(Ahead(KeepPending(c)))
      ensures if alive then at == Done(RecoveryDone(c)) else survives == 0
      ensures alive ==>
                && c < |committed.calls|
                && var row, row' := old(committed).calls[c], committed.calls[c];
                committed == WithCall(old(committed), c, row') && row' == row.(status := OutcomeUnknown, error := row'.error)
    {
      alive, at := SetStatus(c, OutcomeUnknown, Some("query again later"), KeepPending(c), RecoveryDone(c));
    }

    /** What an answer of the adapter makes of the call. */
    method ApplyReconciliation(c: CallId, answer: Answer) returns (alive: bool, ghost at: Pc)
      requires At(AfterAnswer(c, answer))
      modifies this
      ensures At(at) && Ahead(at) == old(Ahead(AfterAnswer(c, answer)))
      ensures if alive then at == Done(RecoveryDone(c)) else survives == 0
      ensures alive && !answer.SaysNotFound? ==>
                && c < |committed.calls|
                && var row, row' := old(committed).calls[c], committed.calls[c];
                && committed == WithCall(old(committed), c, row')
                && row' == if answer.SaysSucceeded? then row.(status := Succeeded, output := answer.output, error := None)
                           else row.(status := OutcomeUnknown, error := row'.error)
    {
      hide Step, Run;
      match answer
      case SaysSucceeded(output) => alive, at := StoreReconciledResult(c, output);
      case SaysNotFound => alive, at := RetryAfterNotFound(c);
      case _ => alive, at := KeepReconciliationPending(c);
    }

    method ReconcileExternalWrite(c: CallId) returns (alive: bool, ghost at: Pc)
      requires At(Reconcile(c))
      modifies this
      ensures At(at) && Ahead(at) == old(Ahead(Reconcile(c)))
      ensures if alive then at == Done(RecoveryDone(c)) else survives == 0
      ensures var row, answer := old(committed).calls[c], env(old(tick)).answer;
              alive && row.tool in reg && reg[row.tool].hasReconciler && row.providerId.Some? && !answer.SaysNotFound? ==>
                && c < |committed.calls|
                && var row' := committed.calls[c];
                && committed == WithCall(old(committed), c, row')
                && row' == if answer.SaysSucceeded? then row.(status := Succeeded, output := answer.output, error := None)
                           else row.(status := OutcomeUnknown, error := row'.error)
    {
      var row := session.calls[c];
      if row.tool !in reg || !reg[row.tool].hasReconciler {
        alive, at := Pass(Reconcile(c), MarkForReview(c, "no reconciliation adapter"), log);
        if alive { alive, at := MarkCallForReview(c, "no reconciliation adapter"); }
        return;
      }
      if row.providerId.None? {
        alive, at := Pass(Reconcile(c), MarkForReview(c, "the provider operation id was not persisted"), log);
        if alive { alive, at := MarkCallForReview(c, "the provider operation id was not persisted"); }
        return;
      }
      var answer := env(tick).answer;
      alive, at := Pass(Reconcile(c), AfterAnswer(c, answer), log + [Answered(c, row.providerId.value, answer)]);
      if !alive { return; }
      alive, at := ApplyReconciliation(c, answer);
    }

    /** A read or an internal write: its lost transaction left nothing behind, so it may run again. */
    method RetryInternally(c: CallId) returns (alive: bool, ghost at: Pc)
      requires At(EnsurePolicy(c, Recovery))
      modifies this
      ensures At(at) && Ahead(at) == old(Ahead(EnsurePolicy(c, Recovery)))
      ensures if alive then at == Done(RecoveryDone(c)) else survives == 0
    {
      var decision, grant;
      alive, decision, grant, at := AuthorizeToolCall(c, Recovery, true);
      if !alive { return; }
      if decision == Allowed {
        alive, at := RetryPersistedToolCall(c, grant);
      } else {
        alive, at := MarkCallForReview(c, "recovery authorization failed");
      }
    }

    /** An external write that stopped somewhere may have happened: nothing is retried, its outcome is unknown. */
    method MarkOutcomeUnknown(c: CallId) returns (alive: bool, ghost at: Pc)
      requires At(MarkUnknown(c))
      modifies this
      ensures At(at) && Ahead(at) == old(Ahead(MarkUnknown(c)))
      ensures if alive then at == Done(RecoveryDone(c)) else survives == 0
    {
      var row := session.calls[c];
      PutCall(c, row.(status := OutcomeUnknown, error := Some("reconcile before retrying")));
      alive, at := Commit(MarkUnknown(c), Done(RecoveryDone(c)),
                          if row.status == Executing then log + [Abandoned(c, row.attempts)] else log);
    }

    method RecoverRecord(c: CallId) returns (alive: bool, ghost at: Pc)
      requires At(Recover(c))
      modifies this
      ensures At(at) && Ahead(at) == old(Ahead(Recover(c)))
      ensures if alive then at == Done(RecoveryDone(c)) else survives == 0
    {
      var row := session.calls[c];
      if row.status == Proposed {
        alive, at := Pass(Recover(c), MarkForReview(c, "the process stopped before authorization"), log);
        if alive { alive, at := MarkCallForReview(c, "the process stopped before authorization"); }
        return;
      }
      if row.status == OutcomeUnknown {
        alive, at := Pass(Recover(c), Reconcile(c), log);
        if alive { alive, at := ReconcileExternalWrite(c); }
        return;
      }
      if row.effect == ExternalWrite {
        alive, at := Pass(Recover(c), MarkUnknown(c), log);
        if alive { alive, at := MarkOutcomeUnknown(c); }
        return;
      }
      if row.tool !in reg {
        alive, at := Pass(Recover(c), MarkForReview(c, "the tool is no longer registered"), log);
        if alive { alive, at := MarkCallForReview(c, "the tool is no longer registered"); }
        return;
      }
      alive, at := Pass(Recover(c), EnsurePolicy(c, Recovery), log);
      if !alive { return; }
      alive, at := RetryInternally(c);
    }

    /** The next call of a batch. */
    method RecoverHeld(selected: seq<CallId>, i: nat) returns (alive: bool)
      requires session == committed && i < |selected| && AllBelow(selected, |committed.calls|)
      modifies this
      ensures session == committed && AllBelow(selected, |committed.calls|)
      ensures old(RunBatch(reg, Observed(), selected[i..], env, tick, survives))
              == if alive then RunBatch(reg, Observed(), selected[i + 1..], env, tick, survives) else Observed()
    {
      hide Step, Run, RunBatch;
      BatchTakesCall(reg, Observed(), selected, i, env, tick, survives);
      ghost var at;
      alive, at := RecoverRecord(selected[i]);
      StandsStill(reg, Observed(), at, env, tick, survives);
      if !alive { DeadBatch(reg, Observed(), selected[i + 1..], env, tick); }
    }

    /** recover_stale_tool_calls: one query, then one call after the other. */
    method RecoverStaleToolCalls(task: TaskId, stale: set<CallId>) returns (alive: bool, selected: seq<CallId>)
      requires session == committed
      modifies this
      ensures selected == SelectStale(old(committed).calls, task, stale) && session == committed
      ensures forall c: CallId :: c in selected <==>
                c < |old(committed).calls| && c in stale && old(committed).calls[c].task == task
                && !Ended(old(committed).calls[c].status)
                && old(committed).calls[c].status != AwaitingApproval && old(committed).calls[c].status != NeedsReview
      ensures Observed() == RunBatch(reg, old(Observed()), selected, env, old(tick), old(survives))
    {
      hide Step, Run;
      hide SelectStale, AllBelow, Ended, Recoverable;
      selected := SelectStale(session.calls, task, stale);
      SelectionMeans(session.calls, task, stale);
      ghost var goal := RunBatch(reg, Observed(), selected, env, tick, survives);
      assert selected[0..] == selected;
      alive := true;
      var i := 0;
      while i < |selected| && alive
        invariant 0 <= i <= |selected| && session == committed && AllBelow(selected, |committed.calls|)
        invariant goal == if alive then RunBatch(reg, Observed(), selected[i..], env, tick, survives) else Observed()
      {
        alive := RecoverHeld(selected, i);
        i := i + 1;
      }
    }
  }

  // ---------------------------------------------------------------- the methods make histories

  /** The other sessions hold selected calls and wait. */
  predicate OthersWait(sys: Sys, x: ActorId) {
    forall y :: y in sys.actors && y != x ==> sys.actors[y].Recover? && sys.actors[y].call < |sys.w.db.calls|
  }

  lemma {:induction false} ActKeepsSerialized(reg: Registry, sys: Sys, x: ActorId, inp: Input)
    requires x in sys.actors && Enabled(sys.w, sys.actors[x]) && OnePerCall(sys) && OthersWait(sys, x)
    ensures OnePerCall(Moved(reg, sys, Act(x, inp))) && OthersWait(Moved(reg, sys, Act(x, inp)), x)
  {
    hide Step;
    StepKeepsTarget(reg, sys.w, sys.actors[x], inp);
  }

  /** The steps of one live request, up to its end or its death, as moves of a history in which the others wait. */
  lemma {:induction false} RunIsHistory(reg: Registry, sys: Sys, x: ActorId, env: nat -> Input, tick: nat, n: nat)
      returns (moves: seq<Move>)
    requires x in sys.actors && Enabled(sys.w, sys.actors[x]) && OnePerCall(sys) && OthersWait(sys, x)
    ensures SerializedRun(reg, sys, moves) && Runs(reg, sys, moves)
    ensures After(reg, sys, moves) == Sys(Run(reg, sys.w, sys.actors[x], env, tick, n).w, sys.actors - {x})
    decreases n
  {
    hide Step;
    var pc := sys.actors[x];
    var m := if n == 0 then Crash(x) else Act(x, env(tick));
    var next := Moved(reg, sys, m);
    var rest := [];
    if n > 0 {
      ActKeepsSerialized(reg, sys, x, env(tick));
      if x in next.actors {
        StepStaysEnabled(reg, sys.w, pc, env(tick));
        rest := RunIsHistory(reg, next, x, env, tick + 1, n - 1);
        assert next.actors - {x} == sys.actors - {x};
      }
    }
    moves := [m] + rest;
    assert moves[1..] == rest;
  }

  /**
   However far a request gets, it creates at most one ToolCall, and only a submission creates one, under its
   own key.
   */
  lemma {:induction false} OneCallPerRequest(reg: Registry, w: World, pc: Pc, env: nat -> Input, tick: nat, n: nat)
    requires Enabled(w, pc)
    ensures var calls := Run(reg, w, pc, env, tick, n).w.db.calls;
            && |w.db.calls| <= |calls| <= |w.db.calls| + 1
            && (|calls| > |w.db.calls| ==>
                  && pc.Submit? && FindCall(w.db.calls, pc.task, pc.key).None?
                  && IsCallOf(calls[|w.db.calls|], pc.task, pc.key))
    decreases n
  {
    if n > 0 {
      var (w', pc') := Step(reg, w, pc, env(tick));
      StepKeepsTarget(reg, w, pc, env(tick));
      if !pc'.Done? {
        StepStaysEnabled(reg, w, pc, env(tick));
        OneCallPerRequest(reg, w', pc', env, tick + 1, n - 1);
        if |w'.db.calls| > |w.db.calls| {
          RunKeepsIdentity(reg, w', pc', env, tick + 1, n - 1, |w.db.calls|);
        }
      }
    }
  }

  lemma {:induction false} RunKeepsIdentity(reg: Registry, w: World, pc: Pc, env: nat -> Input, tick: nat,
      n: nat, c: CallId)
    requires Enabled(w, pc) && c < |w.db.calls|
    ensures var calls := Run(reg, w, pc, env, tick, n).w.db.calls;
            c < |calls| && SameIdentity(w.db.calls[c], calls[c])
    decreases n
  {
    hide Step;
    if n > 0 {
      var (w', pc') := Step(reg, w, pc, env(tick));
      StepKeepsCalls(reg, w, pc, env(tick), c);
      if !pc'.Done? {
        StepStaysEnabled(reg, w, pc, env(tick));
        RunKeepsIdentity(reg, w', pc', env, tick + 1, n - 1, c);
      }
    }
  }

  /** The sessions of a batch: one for each call it still holds, waiting for its turn. */
  function Holding(selected: seq<CallId>): map<ActorId, Pc> {
    map c | c in selected :: Recover(c)
  }

  predicate Selection(w: World, selected: seq<CallId>) {
    && (forall i :: 0 <= i < |selected| ==> selected[i] < |w.db.calls|)
    && (forall i, j :: 0 <= i < j < |selected| ==> selected[i] != selected[j])
  }

  lemma HoldingIsSerialized(w: World, selected: seq<CallId>)
    requires Selection(w, selected)
    ensures OnePerCall(Sys(w, Holding(selected)))
    ensures selected != [] ==> OthersWait(Sys(w, Holding(selected)), selected[0])
  {
    hide Step;
    var sys := Sys(w, Holding(selected));
    forall x | x in sys.actors
      ensures sys.actors[x] == Recover(x) && x < |w.db.calls|
    {
    }
  }

  lemma HoldingShrinks(w: World, selected: seq<CallId>)
    requires Selection(w, selected) && selected != []
    ensures Holding(selected) - {selected[0]} == Holding(selected[1..])
  {
    hide Step;
    assert selected == [selected[0]] + selected[1..];
  }

  lemma HoldingGrows(w: World, front: seq<CallId>, c: CallId)
    requires Selection(w, front + [c])
    ensures c !in Holding(front) && Holding(front)[c := Recover(c)] == Holding(front + [c]) && Selection(w, front)
  {
    hide Step;
    var all := front + [c];
    assert all[|front|] == c && forall i :: 0 <= i < |front| ==> all[i] == front[i];
  }

  lemma {:induction false} SelectOne(reg: Registry, w: World, front: seq<CallId>, c: CallId)
    requires Selection(w, front + [c]) && c < |w.db.calls| && !Ended(w.db.calls[c].status)
    ensures var sys, m := Sys(w, Holding(front)), Begin(c, Recover(c));
            && SerializedRun(reg, sys, [m]) && Runs(reg, sys, [m]) && After(reg, sys, [m]) == Sys(w, Holding(front + [c]))
  {
    hide Step;
    HoldingGrows(w, front, c);
    HoldingIsSerialized(w, front);
    HoldingIsSerialized(w, front + [c]);
    assert Moved(reg, Sys(w, Holding(front)), Begin(c, Recover(c))) == Sys(w, Holding(front + [c]));
    assert [Begin(c, Recover(c))][1..] == [];
  }

  lemma {:induction false} BatchSelects(reg: Registry, w: World, selected: seq<CallId>) returns (moves: seq<Move>)
    requires Selection(w, selected)
    requires forall i :: 0 <= i < |selected| ==> !Ended(w.db.calls[selected[i]].status)
    ensures SerializedRun(reg, Sys(w, map[]), moves) && Runs(reg, Sys(w, map[]), moves)
    ensures After(reg, Sys(w, map[]), moves) == Sys(w, Holding(selected))
    decreases |selected|
  {
    if selected == [] {
      moves := [];
      assert Holding(selected) == map[];
    } else {
      var last := |selected| - 1;
      moves := BatchSelects(reg, w, selected[..last]);
      assert selected == selected[..last] + [selected[last]];
      SelectOne(reg, w, selected[..last], selected[last]);
      var second := [Begin(selected[last], Recover(selected[last]))];
      SerializedRunsJoin(reg, Sys(w, map[]), moves, second);
      moves := moves + second;
    }
  }

  /** The process dies: every call it still holds is let go. */
  lemma {:induction false} BatchDies(reg: Registry, w: World, selected: seq<CallId>) returns (moves: seq<Move>)
    requires Selection(w, selected)
    ensures var sys := Sys(w, Holding(selected));
            SerializedRun(reg, sys, moves) && Runs(reg, sys, moves) && After(reg, sys, moves) == Sys(w, map[])
    decreases |selected|
  {
    HoldingIsSerialized(w, selected);
    if selected == [] {
      moves := [];
    } else {
      HoldingShrinks(w, selected);
      var rest := BatchDies(reg, w, selected[1..]);
      moves := [Crash(selected[0])] + rest;
      assert moves[1..] == rest;
    }
  }

  lemma {:induction false} BatchRuns(reg: Registry, w: World, selected: seq<CallId>, env: nat -> Input,
      tick: nat, n: nat)
      returns (moves: seq<Move>)
    requires Selection(w, selected)
    ensures var sys := Sys(w, Holding(selected));
            && SerializedRun(reg, sys, moves) && Runs(reg, sys, moves)
            && After(reg, sys, moves) == Sys(RunBatch(reg, w, selected, env, tick, n), map[])
    decreases |selected|
  {
    hide Step;
    var sys := Sys(w, Holding(selected));
    HoldingIsSerialized(w, selected);
    if selected == [] {
      moves := [];
    } else {
      var s := Run(reg, w, Recover(selected[0]), env, tick, n);
      HoldingShrinks(w, selected);
      var first := RunIsHistory(reg, sys, selected[0], env, tick, n);
      forall i | 0 <= i < |selected[1..]|
        ensures selected[1..][i] < |s.w.db.calls|
      {
        RunKeepsIdentity(reg, w, Recover(selected[0]), env, tick, n, selected[i + 1]);
      }
      var rest;
      if s.pc.Done? { rest := BatchRuns(reg, s.w, selected[1..], env, s.tick, s.life); }
      else { rest := BatchDies(reg, s.w, selected[1..]); }
      SerializedRunsJoin(reg, sys, first, rest);
      moves := first + rest;
    }
  }

  /**
   A batch is a serialized history when no other request works on a call it holds: it holds every selected
   call from the query on, not only while it recovers it.
   */
  lemma {:induction false} BatchIsAHistory(reg: Registry, w: World, task: TaskId, stale: set<CallId>,
      env: nat -> Input, tick: nat, n: nat)
      returns (moves: seq<Move>)
    ensures SerializedRun(reg, Sys(w, map[]), moves) && Runs(reg, Sys(w, map[]), moves)
    ensures After(reg, Sys(w, map[]), moves)
            == Sys(RunBatch(reg, w, SelectStale(w.db.calls, task, stale), env, tick, n), map[])
  {
    hide Step;
    var selected := SelectStale(w.db.calls, task, stale);
    assert forall i :: 0 <= i < |selected| ==> selected[i] in selected;
    var first := BatchSelects(reg, w, selected);
    var second := BatchRuns(reg, w, selected, env, tick, n);
    SerializedRunsJoin(reg, Sys(w, map[]), first, second);
    moves := first + second;
  }

  function InputsOf(env: (nat, nat) -> Input, request: nat): nat -> Input {
    (t: nat) => env(request, t)
  }

  /** Requests served one after the other on the committed rows, each dying after its own number of steps. */
  function Served(reg: Registry, w: World, requests: seq<(Pc, nat)>, env: (nat, nat) -> Input): World
    decreases |requests|
  {
    if requests == [] then w
    else
      var last := |requests| - 1;
      var before := Served(reg, w, requests[..last], env);
      Run(reg, before, requests[last].0, InputsOf(env, last), 0, requests[last].1).w
  }

  /** Each request is one that the methods above serve, on a call that exists when it starts. */
  predicate Servable(reg: Registry, w: World, requests: seq<(Pc, nat)>, env: (nat, nat) -> Input)
    decreases |requests|
  {
    requests == [] ||
    var last := |requests| - 1;
    && Servable(reg, w, requests[..last], env)
    && Startable(Served(reg, w, requests[..last], env), requests[last].0)
  }

  /**
   Any sequence of method calls with any crashes is a serialized history, so everything ToolGuarantees
   proves of histories holds of the rows these methods leave behind.
   */
  lemma {:induction false} ServingIsAHistory(reg: Registry, w: World, requests: seq<(Pc, nat)>, env: (nat,
      nat) -> Input)
      returns (moves: seq<Move>)
    requires Servable(reg, w, requests, env)
    ensures SerializedRun(reg, Sys(w, map[]), moves) && Runs(reg, Sys(w, map[]), moves)
    ensures After(reg, Sys(w, map[]), moves) == Sys(Served(reg, w, requests, env), map[])
    decreases |requests|
  {
    if requests == [] {
      moves := [];
    } else {
      var last := |requests| - 1;
      var first := ServingIsAHistory(reg, w, requests[..last], env);
      var (pc, n) := requests[last];
      var idle := Sys(Served(reg, w, requests[..last], env), map[]);
      var begun := Sys(idle.w, map[0 := pc]);
      var rest := RunIsHistory(reg, begun, 0, InputsOf(env, last), 0, n);
      assert begun.actors - {0} == map[];
      var second := [Begin(0, pc)] + rest;
      assert Moved(reg, idle, second[0]) == begun && second[1..] == rest;
      assert SerializedRun(reg, idle, second);
      SerializedRunRuns(reg, idle, second);
      SerializedRunsJoin(reg, Sys(w, map[]), first, second);
      moves := first + second;
    }
  }
}
