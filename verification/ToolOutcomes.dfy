/**
 What one request does from its start to its end when no other session interferes: which request a reused
 key answers, what an authorization decides, what an attempt leaves behind, what a recovery makes of each
 status and each adapter answer. Everything is said of the rows and the log before and after, never of the
 positions in between.
 */
module ToolOutcomes {
  import opened Common
  import opened ToolProtocol
  import opened ToolHistories
  import opened ToolSafety
  import opened ToolRuntime

  // ---------------------------------------------------------------- one request, step by step

  lemma RunSteps(reg: Registry, w: World, pc: Pc, env: nat -> Input, tick: nat, n: nat)
    requires Enabled(w, pc)
    ensures n == 0 ==> Run(reg, w, pc, env, tick, n) == Standing(w, pc, tick, n)
    ensures n > 0 ==> var (w', pc') := Step(reg, w, pc, env(tick));
                      Run(reg, w, pc, env, tick, n) == Run(reg, w', pc', env, tick + 1, n - 1)
  {
    hide Step;
  }

  // ---------------------------------------------------------------- what an attempt leaves behind

  /** One attempt at c, under this grant, whose tool call went like this: the row, the log and the business writes. */
  predicate Attempted(w: World, c: CallId, attempt: nat, grant: Option<ApprovalId>, execution: Execution, w': World) {
    && c < |w.db.calls| == |w'.db.calls|
    && var row, row' := w.db.calls[c], w'.db.calls[c];
    && w'.db == w.db.(calls := w.db.calls[c := row'], internalWrites := w'.db.internalWrites)
    && SameIdentity(row, row') && row'.attempts == attempt && row'.replays == row.replays
    && match execution
       case BadArguments(message) =>
         && row'.status == Failed && row'.error == Some(message) && row'.output.None? && row'.providerId.None?
         && row'.arguments == row.arguments && w'.log == w.log && w'.db.internalWrites == w.db.internalWrites
       case Ran(arguments, outcome) =>
         row'.arguments == arguments && OutcomeStored(w, c, attempt, grant, outcome, w')
  }

  predicate OutcomeStored(w: World, c: CallId, attempt: nat, grant: Option<ApprovalId>,
      outcome: HandlerOutcome, w': World)
    requires c < |w.db.calls| == |w'.db.calls|
  {
    var row, row' := w.db.calls[c], w'.db.calls[c];
    var invoked := w.log + [Invoked(c, attempt, grant, outcome)];
    match outcome
    case Returned(output) =>
      && row'.status == Succeeded && row'.output == Some(output) && row'.error.None? && row'.providerId.None?
      && w'.log == invoked
      && w'.db.internalWrites == w.db.internalWrites + (if row.effect == InternalWrite then [c] else [])
    case RaisedError(message) =>
      && row'.status == Failed && row'.output.None? && row'.error == Some(message) && row'.providerId.None?
      && w'.log == invoked && w'.db.internalWrites == w.db.internalWrites
    case RaisedUncertain(id, message) =>
      && row'.output.None? && row'.error.Some? && w'.db.internalWrites == w.db.internalWrites
      && if row.effect == ExternalWrite then
           && row'.status == OutcomeUnknown && row'.providerId == Some(id) && row'.error == Some(message)
           && w'.log == invoked + [Reported(c, attempt, id)]
         else row'.status == Failed && row'.providerId.None? && w'.log == invoked
  }

  lemma ResultIsStored(w: World, c: CallId, grant: Option<ApprovalId>, execution: Execution)
    requires c < |w.db.calls|
    ensures var w1 := if execution.BadArguments? then w
                      else Note(w, Invoked(c, w.db.calls[c].attempts, grant, execution.outcome));
            Attempted(w, c, w.db.calls[c].attempts, grant, execution, Stored(w1, c, execution))
  {
    hide Step;
  }

  lemma {:induction false} InvocationEnds(reg: Registry, w: World, c: CallId, grant: Option<ApprovalId>,
      recovering: bool,
                                          env: nat -> Input, tick: nat, n: nat)
    requires var pc := Invoke(c, grant, recovering); Enabled(w, pc) && Run(reg, w, pc, env, tick, n).pc.Done?
    ensures var s := Run(reg, w, Invoke(c, grant, recovering), env, tick, n);
            && s.pc == Done(if recovering then RecoveryDone(c) else Finished(c, false))
            && Attempted(w, c, w.db.calls[c].attempts, grant, env(tick).execution, s.w)
  {
    hide Run, Stored, Attempted;
    RunSteps(reg, w, Invoke(c, grant, recovering), env, tick, n);
    var execution := env(tick).execution;
    var w1 := Step(reg, w, Invoke(c, grant, recovering), env(tick)).0;
    RunSteps(reg, w1, Store(c, execution, recovering), env, tick + 1, n - 1);
    var end := Done(if recovering then RecoveryDone(c) else Finished(c, false));
    StandsStill(reg, Stored(w1, c, execution), end, env, tick + 2, n - 2);
    ResultIsStored(w, c, grant, execution);
  }

  lemma {:induction false} AttemptEnds(reg: Registry, w: World, c: CallId, grant: Option<ApprovalId>,
                                       env: nat -> Input, tick: nat, n: nat)
    requires Enabled(w, MarkAuthorized(c, grant)) && Run(reg, w, MarkAuthorized(c, grant), env, tick, n).pc.Done?
    ensures var s := Run(reg, w, MarkAuthorized(c, grant), env, tick, n);
            && s.pc == Done(Finished(c, false))
            && Attempted(w, c, w.db.calls[c].attempts + 1, grant, env(tick + 2).execution, s.w)
  {
    hide Run;
    RunSteps(reg, w, MarkAuthorized(c, grant), env, tick, n);
    var w1 := Step(reg, w, MarkAuthorized(c, grant), env(tick)).0;
    RunSteps(reg, w1, MarkExecuting(c, grant), env, tick + 1, n - 1);
    var w2 := Step(reg, w1, MarkExecuting(c, grant), env(tick + 1)).0;
    InvocationEnds(reg, w2, c, grant, false, env, tick + 2, n - 2);
  }

  lemma {:induction false} RetryEnds(reg: Registry, w: World, c: CallId, grant: Option<ApprovalId>,
                                     env: nat -> Input, tick: nat, n: nat)
    requires Enabled(w, MarkRetrying(c, grant)) && Run(reg, w, MarkRetrying(c, grant), env, tick, n).pc.Done?
    ensures var s := Run(reg, w, MarkRetrying(c, grant), env, tick, n);
            && s.pc == Done(RecoveryDone(c))
            && Attempted(w, c, w.db.calls[c].attempts + 1, grant, env(tick + 1).execution, s.w)
  {
    hide Run;
    RunSteps(reg, w, MarkRetrying(c, grant), env, tick, n);
    var w1 := Step(reg, w, MarkRetrying(c, grant), env(tick)).0;
    InvocationEnds(reg, w1, c, grant, true, env, tick + 1, n - 1);
  }

  // ---------------------------------------------------------------- what an authorization decides

  /** The policy of the task, or the read-only one it gets when it has none, lists the tool. */
  predicate Listed(reg: Registry, w: World, task: TaskId, tool: string) {
    if task in w.db.policies then tool in w.db.policies[task].allowedTools
    else tool in reg && reg[tool].permission.ReadPermission?
  }

  /** A one-time approval of exactly this call, neither spent nor revoked nor expired. */
  predicate OpenFor(w: World, a: ApprovalId, c: CallId, now: Time) {
    && a < |w.db.approvals| && c < |w.db.calls|
    && var ap, row := w.db.approvals[a], w.db.calls[c];
    && ap.call == c && ap.task == row.task && ap.tool == row.tool && ap.key == row.key && ap.fingerprint == row.fingerprint
    && ap.activeSlot == Some(c) && ap.consumedAt.None? && ap.revokedAt.None? && now < ap.expiresAt
  }

  /** The approval is used up, and no other is touched. */
  function Spent(approvals: seq<Approval>, a: ApprovalId, now: Time): seq<Approval>
    requires a < |approvals|
  {
    approvals[a := approvals[a].(activeSlot := None, consumedAt := Some(now))]
  }

  /** Running the call needs an approval: it writes outside and the policy, or the default one, asks for it. */
  predicate NeedsApproval(w: World, c: CallId) {
    && c < |w.db.calls| && w.db.calls[c].effect == ExternalWrite
    && (w.db.calls[c].task in w.db.policies ==> w.db.policies[w.db.calls[c].task].externalWritesRequireApproval)
  }

  /** The decision about c at this time, by the policy first and the approvals second, and what it writes. */
  ghost predicate Decided(reg: Registry, w: World, c: CallId, toExecute: bool, now: Time,
                    decision: Decision, grant: Option<ApprovalId>, w': World)
    requires c < |w.db.calls|
  {
    var row := w.db.calls[c];
    var asks := NeedsApproval(w, c) && toExecute;
    && (decision == DeniedByPolicy <==> !Listed(reg, w, row.task, row.tool))
    && (decision == RequiresApproval <==>
          Listed(reg, w, row.task, row.tool) && asks && forall a :: 0 <= a < |w.db.approvals| ==> !OpenFor(w, a, c, now))
    && (grant.Some? <==> decision == Allowed && asks)
    && (grant.Some? ==> OpenFor(w, grant.value, c, now))
    && w'.log == w.log
    && w'.db == w.db.(authorizations := w.db.authorizations + [Authorization(c, decision, grant)],
                      approvals := w'.db.approvals, policies := w'.db.policies)
    && w'.db.approvals == (if grant.None? then w.db.approvals else Spent(w.db.approvals, grant.value, now))
    && PolicyEnsured(reg, w, row.task, w')
  }

  /** The task has a policy: its own, or a new one that lists the read tools and asks for approvals. */
  ghost predicate PolicyEnsured(reg: Registry, w: World, task: TaskId, w': World) {
    && task in w'.db.policies
    && (task in w.db.policies ==> w'.db.policies == w.db.policies)
    && (task !in w.db.policies ==>
          && w'.db.policies == w.db.policies[task := w'.db.policies[task]]
          && w'.db.policies[task].version == 1 && w'.db.policies[task].externalWritesRequireApproval
          && forall tool :: tool in w'.db.policies[task].allowedTools <==> tool in reg && reg[tool].permission.ReadPermission?)
  }

  lemma {:induction false} ApprovalLookupEnds(reg: Registry, w: World, c: CallId, purpose: Purpose,
      env: nat -> Input, tick: nat, n: nat)
      returns (decision: Decision, grant: Option<ApprovalId>, w': World, tick': nat, n': nat)
    requires Enabled(w, SelectApproval(c, purpose)) && Run(reg, w, SelectApproval(c, purpose), env, tick, n).pc.Done?
    ensures var now := env(tick).now;
            && decision == (if grant.Some? then Allowed else RequiresApproval)
            && (grant.None? ==> w' == w && forall a :: 0 <= a < |w.db.approvals| ==> !OpenFor(w, a, c, now))
            && (grant.Some? ==>
                  OpenFor(w, grant.value, c, now) && w' == w.(db := w.db.(approvals := Spent(w.db.approvals, grant.value, now))))
    ensures Run(reg, w, SelectApproval(c, purpose), env, tick, n)
            == Run(reg, w', RecordDecision(c, purpose, decision, grant), env, tick', n')
  {
    hide Run;
    RunSteps(reg, w, SelectApproval(c, purpose), env, tick, n);
    var now := env(tick).now;
    grant := FindSpendable(w.db.approvals, c, w.db.calls[c], now);
    decision, w', tick', n' := RequiresApproval, w, tick + 1, n - 1;
    if grant.Some? {
      var chosen := grant.value;
      RunSteps(reg, w, SpendApproval(c, purpose, chosen, now), env, tick', n');
      w' := Step(reg, w, SpendApproval(c, purpose, chosen, now), env(tick')).0;
      decision, tick', n' := Allowed, tick' + 1, n' - 1;
    } else {
      forall a | 0 <= a < |w.db.approvals|
        ensures !OpenFor(w, a, c, now)
      {
        assert !Spendable(w.db.approvals[a], c, w.db.calls[c], now);
      }
    }
  }

  /** From the policy to the decision about to be recorded; only an approval it spends has changed. */
  lemma {:induction false} DecisionEnds(reg: Registry, w: World, c: CallId, purpose: Purpose,
      env: nat -> Input, tick: nat, n: nat)
      returns (decision: Decision, grant: Option<ApprovalId>, w': World, tick': nat, n': nat)
    requires Enabled(w, Decide(c, purpose)) && Run(reg, w, Decide(c, purpose), env, tick, n).pc.Done?
    ensures Decided(reg, w, c, Executes(purpose), env(tick + 1).now, decision, grant, Recorded(w', c, decision, grant))
    ensures Enabled(w', RecordDecision(c, purpose, decision, grant))
    ensures Run(reg, w, Decide(c, purpose), env, tick, n)
            == Run(reg, w', RecordDecision(c, purpose, decision, grant), env, tick', n')
  {
    hide Run;
    RunSteps(reg, w, Decide(c, purpose), env, tick, n);
    var next := DecideStep(reg, w, c, purpose);
    if next.SelectApproval? {
      decision, grant, w', tick', n' := ApprovalLookupEnds(reg, w, c, purpose, env, tick + 1, n - 1);
    } else {
      decision, grant, w', tick', n' := next.decision, None, w, tick + 1, n - 1;
    }
  }

  function Recorded(w: World, c: CallId, decision: Decision, grant: Option<ApprovalId>): World {
    w.(db := w.db.(authorizations := w.db.authorizations + [Authorization(c, decision, grant)]))
  }

  lemma {:induction false} PolicyEnds(reg: Registry, w: World, c: CallId, purpose: Purpose, env: nat -> Input,
      tick: nat, n: nat)
      returns (w': World)
    requires Enabled(w, EnsurePolicy(c, purpose)) && Run(reg, w, EnsurePolicy(c, purpose), env, tick, n).pc.Done?
    ensures w' == w.(db := w.db.(policies := w'.db.policies)) && PolicyEnsured(reg, w, w.db.calls[c].task, w')
    ensures n > 0 && Enabled(w', Decide(c, purpose))
    ensures Run(reg, w, EnsurePolicy(c, purpose), env, tick, n) == Run(reg, w', Decide(c, purpose), env, tick + 1, n - 1)
  {
    hide Run;
    RunSteps(reg, w, EnsurePolicy(c, purpose), env, tick, n);
    w' := Step(reg, w, EnsurePolicy(c, purpose), env(tick)).0;
  }

  lemma {:induction false} RecordingEnds(reg: Registry, w: World, c: CallId, purpose: Purpose,
      decision: Decision, grant: Option<ApprovalId>,
                                         env: nat -> Input, tick: nat, n: nat)
    requires var pc := RecordDecision(c, purpose, decision, grant); Enabled(w, pc) && Run(reg, w, pc, env, tick, n).pc.Done?
    ensures n > 0
    ensures Run(reg, w, RecordDecision(c, purpose, decision, grant), env, tick, n)
            == Run(reg, Recorded(w, c, decision, grant), AfterDecision(c, purpose, decision, grant), env, tick + 1, n - 1)
  {
    hide Run;
    RunSteps(reg, w, RecordDecision(c, purpose, decision, grant), env, tick, n);
  }

  lemma PolicyFirst(reg: Registry, w: World, w1: World, c: CallId, toExecute: bool, now: Time,
                    decision: Decision, grant: Option<ApprovalId>, w': World)
    requires c < |w.db.calls| && w1 == w.(db := w.db.(policies := w1.db.policies))
    requires PolicyEnsured(reg, w, w.db.calls[c].task, w1)
    requires Decided(reg, w1, c, toExecute, now, decision, grant, w')
    ensures Decided(reg, w, c, toExecute, now, decision, grant, w')
  {
    forall a | 0 <= a < |w.db.approvals|
      ensures OpenFor(w, a, c, now) == OpenFor(w1, a, c, now)
    {
    }
  }

  /**
   Every authorization of a request that lives to see it: the decision recorded is the one its policy row asks
   for.
   */
  lemma {:induction false} AuthorizationEnds(reg: Registry, w: World, c: CallId, purpose: Purpose,
      env: nat -> Input, tick: nat, n: nat)
      returns (decision: Decision, grant: Option<ApprovalId>, w': World, tick': nat, n': nat)
    requires Enabled(w, EnsurePolicy(c, purpose)) && Run(reg, w, EnsurePolicy(c, purpose), env, tick, n).pc.Done?
    ensures Decided(reg, w, c, Executes(purpose), env(tick + 2).now, decision, grant, w')
    ensures Run(reg, w, EnsurePolicy(c, purpose), env, tick, n)
            == Run(reg, w', AfterDecision(c, purpose, decision, grant), env, tick', n')
  {
    hide Run, Step, Decided, AfterDecision;
    var w1 := PolicyEnds(reg, w, c, purpose, env, tick, n);
    var w2;
    decision, grant, w2, tick', n' := DecisionEnds(reg, w1, c, purpose, env, tick + 1, n - 1);
    RecordingEnds(reg, w2, c, purpose, decision, grant, env, tick', n');
    w' := Recorded(w2, c, decision, grant);
    tick', n' := tick' + 1, n' - 1;
    PolicyFirst(reg, w, w1, c, Executes(purpose), env(tick + 2).now, decision, grant, w');
  }

  // ---------------------------------------------------------------- which request a reused key answers

  /** The unique constraint on task and key. */
  predicate UniqueKeys(calls: seq<ToolCall>) {
    forall c, d :: 0 <= c < d < |calls| ==> calls[c].task != calls[d].task || calls[c].key != calls[d].key
  }

  lemma SubmissionAddsFreeKey(reg: Registry, w: World, pc: Pc, inp: Input)
    requires Enabled(w, pc) && pc.Submit? && UniqueKeys(w.db.calls)
    ensures UniqueKeys(Step(reg, w, pc, inp).0.db.calls)
  {
  }

  lemma {:induction false} StepKeepsUniqueKeys(reg: Registry, w: World, pc: Pc, inp: Input)
    requires Enabled(w, pc) && UniqueKeys(w.db.calls)
    ensures UniqueKeys(Step(reg, w, pc, inp).0.db.calls)
  {
    hide Step;
    if pc.Submit? {
      SubmissionAddsFreeKey(reg, w, pc, inp);
    } else {
      StepKeepsTarget(reg, w, pc, inp);
      forall c | 0 <= c < |w.db.calls|
        ensures SameIdentity(w.db.calls[c], Step(reg, w, pc, inp).0.db.calls[c])
      {
        StepKeepsCalls(reg, w, pc, inp, c);
      }
    }
  }

  /** Two calls of a task never share a key, however the sessions interleave and die. */
  lemma {:induction false} AlwaysUniqueKeys(reg: Registry, sys: Sys, moves: seq<Move>)
    requires UniqueKeys(sys.w.db.calls) && Runs(reg, sys, moves)
    ensures UniqueKeys(After(reg, sys, moves).w.db.calls)
    decreases |moves|
  {
    hide Step;
    if moves != [] {
      if moves[0].Act? { StepKeepsUniqueKeys(reg, sys.w, sys.actors[moves[0].actor], moves[0].inp); }
      AlwaysUniqueKeys(reg, Moved(reg, sys, moves[0]), moves[1..]);
    }
  }

  /** A row of this task under this key. */
  predicate Holds(calls: seq<ToolCall>, c: CallId, task: TaskId, key: string) {
    c < |calls| && calls[c].task == task && calls[c].key == key
  }

  lemma KeyIsFound(calls: seq<ToolCall>, c: CallId, task: TaskId, key: string)
    requires UniqueKeys(calls) && Holds(calls, c, task, key)
    ensures FindCall(calls, task, key) == Some(c)
  {
    assert IsCallOf(calls[c], task, key);
  }

  lemma StepFinishesOwnCall(reg: Registry, w: World, pc: Pc, inp: Input)
    requires Enabled(w, pc) && !pc.Submit?
    ensures var pc' := Step(reg, w, pc, inp).1;
            !pc'.Submit? && pc' != Done(IdempotencyConflict) && pc' != Done(UnknownTool)
            && (pc'.Done? && pc'.outcome.Finished? ==> HasCall(pc) && pc'.outcome.call == pc.call)
  {
  }

  /** Past its first step a submission cannot conflict any more, and what it finishes is the call it works on. */
  lemma {:induction false} EndsWithOwnCall(reg: Registry, w: World, pc: Pc, env: nat -> Input, tick: nat, n: nat)
    requires Enabled(w, pc) && !pc.Submit?
    ensures var pc' := Run(reg, w, pc, env, tick, n).pc;
            pc' != Done(IdempotencyConflict) && pc' != Done(UnknownTool)
            && (pc'.Done? && pc'.outcome.Finished? ==> HasCall(pc) && pc'.outcome.call == pc.call)
    decreases n
  {
    hide Step;
    if n > 0 {
      var (w', pc') := Step(reg, w, pc, env(tick));
      StepFinishesOwnCall(reg, w, pc, env(tick));
      StepKeepsTarget(reg, w, pc, env(tick));
      if !pc'.Done? {
        StepStaysEnabled(reg, w, pc, env(tick));
        EndsWithOwnCall(reg, w', pc', env, tick + 1, n - 1);
      }
    }
  }

  lemma SubmitStarts(reg: Registry, w: World, task: TaskId, request: Request, key: string, inp: Input)
    requires UniqueKeys(w.db.calls)
    ensures var (w', pc') := Step(reg, w, Submit(task, request, key), inp);
            && (request.tool !in reg ==> w' == w && pc' == Done(UnknownTool))
            && (forall c: CallId :: request.tool in reg && Holds(w.db.calls, c, task, key) ==>
                  w' == w && pc' == Reused(reg, c, w.db.calls[c], request))
            && (request.tool in reg && (forall c: CallId :: !Holds(w.db.calls, c, task, key)) ==>
                  pc' == EnsurePolicy(|w.db.calls|, FirstSubmission) && Created(reg, w, task, request, key, w'))
  {
    forall c: CallId | Holds(w.db.calls, c, task, key)
      ensures FindCall(w.db.calls, task, key) == Some(c)
    {
      KeyIsFound(w.db.calls, c, task, key);
    }
    var found := FindCall(w.db.calls, task, key);
    if found.Some? { assert Holds(w.db.calls, found.value, task, key); }
  }

  /** Where a submission under the key of this row goes. */
  function Reused(reg: Registry, c: CallId, row: ToolCall, request: Request): Pc {
    if row.fingerprint != request then Done(IdempotencyConflict)
    else if row.tool !in reg then Done(UnknownTool)
    else EnsurePolicy(c, Replay(row.status == AwaitingApproval || row.status == Denied))
  }

  /** One new proposed row for the request. */
  predicate Created(reg: Registry, w: World, task: TaskId, request: Request, key: string, w': World) {
    && request.tool in reg && |w'.db.calls| == |w.db.calls| + 1
    && var row := w'.db.calls[|w.db.calls|];
    && w'.log == w.log && w'.db == w.db.(calls := w.db.calls + [row])
    && row.task == task && row.key == key && row.fingerprint == request
    && row.tool == request.tool && row.effect == reg[request.tool].effect && row.arguments == request.arguments
    && row.status == Proposed && row.attempts == row.replays == 0
    && row.output.None? && row.error.None? && row.providerId.None?
  }

  /**
   A reused key conflicts exactly when it belongs to another request of the task, and then nothing at all
   happens; a tool is unknown exactly when neither the request's nor the saved call's is registered.
   */
  lemma {:induction false} ConflictsIff(reg: Registry, w: World, task: TaskId, request: Request, key: string,
                                        env: nat -> Input, tick: nat, n: nat)
    requires UniqueKeys(w.db.calls)
    ensures var s := Run(reg, w, Submit(task, request, key), env, tick, n);
            && (s.pc == Done(IdempotencyConflict) <==>
                  n > 0 && request.tool in reg
                  && exists c: CallId :: Holds(w.db.calls, c, task, key) && w.db.calls[c].fingerprint != request)
            && (s.pc == Done(UnknownTool) <==>
                  n > 0 && (request.tool !in reg || exists c: CallId ::
                    Holds(w.db.calls, c, task, key) && w.db.calls[c].fingerprint == request && w.db.calls[c].tool !in reg))
            && (s.pc == Done(IdempotencyConflict) || s.pc == Done(UnknownTool) ==> s.w == w)
  {
    hide Run, Step;
    var pc := Submit(task, request, key);
    RunSteps(reg, w, pc, env, tick, n);
    if n > 0 {
      var (w', pc') := Step(reg, w, pc, env(tick));
      SubmitStarts(reg, w, task, request, key, env(tick));
      forall c: CallId, d: CallId | Holds(w.db.calls, c, task, key) && Holds(w.db.calls, d, task, key)
        ensures c == d
      {
      }
      if pc'.Done? { StandsStill(reg, w', pc', env, tick + 1, n - 1); }
      else {
        StepStaysEnabled(reg, w, pc, env(tick));
        EndsWithOwnCall(reg, w', pc', env, tick + 1, n - 1);
      }
    }
  }

  /**
   A submission that finishes has finished a call of its own task, key and request; wherever it dies, it
   finishes no other.
   */
  lemma {:induction false} FinishesOwnRequest(reg: Registry, w: World, task: TaskId, request: Request, key: string,
                                              env: nat -> Input, tick: nat, n: nat)
    requires UniqueKeys(w.db.calls)
    ensures var s := Run(reg, w, Submit(task, request, key), env, tick, n);
            s.pc.Done? && s.pc.outcome.Finished? ==>
              var c := s.pc.outcome.call;
              Holds(s.w.db.calls, c, task, key) && s.w.db.calls[c].fingerprint == request
  {
    hide Run, Step;
    var pc := Submit(task, request, key);
    RunSteps(reg, w, pc, env, tick, n);
    if n > 0 {
      var (w', pc') := Step(reg, w, pc, env(tick));
      SubmitStarts(reg, w, task, request, key, env(tick));
      if pc'.Done? { StandsStill(reg, w', pc', env, tick + 1, n - 1); }
      else {
        StepStaysEnabled(reg, w, pc, env(tick));
        EndsWithOwnCall(reg, w', pc', env, tick + 1, n - 1);
        RunKeepsIdentity(reg, w', pc', env, tick + 1, n - 1, pc'.call);
      }
    }
  }

  // ---------------------------------------------------------------- how a submission ends

  /** The row of c now has this status and says why; nothing else has changed. */
  predicate Marked(w: World, c: CallId, status: Status, w': World) {
    && c < |w.db.calls| == |w'.db.calls|
    && w'.log == w.log && w'.db == w.db.(calls := w'.db.calls)
    && w'.db.calls[c].error.Some?
    && w'.db.calls == w.db.calls[c := w.db.calls[c].(status := status, error := w'.db.calls[c].error)]
  }

  lemma {:induction false} RefusalEnds(reg: Registry, w: World, c: CallId, decision: Decision,
      env: nat -> Input, tick: nat, n: nat)
    requires Enabled(w, Refuse(c, decision)) && Run(reg, w, Refuse(c, decision), env, tick, n).pc.Done?
    ensures var s := Run(reg, w, Refuse(c, decision), env, tick, n);
            && s.pc == Done(Finished(c, false))
            && Marked(w, c, if decision == RequiresApproval then AwaitingApproval else Denied, s.w)
  {
    hide Run;
    RunSteps(reg, w, Refuse(c, decision), env, tick, n);
    StandsStill(reg, Step(reg, w, Refuse(c, decision), env(tick)).0, Done(Finished(c, false)), env, tick + 1, n - 1);
  }

  /**
   A first submission that lives to its end creates its row, decides, and then: off the list the row is
   denied, for want of an approval it waits, and in neither case anything is invoked or written; allowed, it
   makes one attempt with whatever result the tool has.
   */
  lemma {:induction false} FirstSubmissionEnds(reg: Registry, w: World, task: TaskId, request: Request, key: string,
                                               env: nat -> Input, tick: nat, n: nat)
      returns (created: World, decision: Decision, grant: Option<ApprovalId>, decided: World, t: nat)
    requires UniqueKeys(w.db.calls) && request.tool in reg && forall c: CallId :: !Holds(w.db.calls, c, task, key)
    requires Run(reg, w, Submit(task, request, key), env, tick, n).pc.Done?
    ensures Created(reg, w, task, request, key, created)
    ensures Decided(reg, created, |w.db.calls|, true, env(tick + 3).now, decision, grant, decided)
    ensures var s, c := Run(reg, w, Submit(task, request, key), env, tick, n), |w.db.calls|;
            && s.pc == Done(Finished(c, false))
            && (decision == DeniedByPolicy ==> Marked(decided, c, Denied, s.w))
            && (decision == RequiresApproval ==> Marked(decided, c, AwaitingApproval, s.w))
            && (decision == Allowed ==> Attempted(decided, c, 1, grant, env(t).execution, s.w))
  {
    hide Run, Step, Decided, Attempted;
    var c := |w.db.calls|;
    RunSteps(reg, w, Submit(task, request, key), env, tick, n);
    SubmitStarts(reg, w, task, request, key, env(tick));
    StepStaysEnabled(reg, w, Submit(task, request, key), env(tick));
    created := Step(reg, w, Submit(task, request, key), env(tick)).0;
    var t', n';
    decision, grant, decided, t', n' := AuthorizationEnds(reg, created, c, FirstSubmission, env, tick + 1, n - 1);
    DecidedKeepsCalls(reg, created, c, true, env(tick + 3).now, decision, grant, decided);
    t := t' + 2;
    if decision == Allowed { AttemptEnds(reg, decided, c, grant, env, t', n'); }
    else { RefusalEnds(reg, decided, c, decision, env, t', n'); }
  }

  lemma DecidedKeepsCalls(reg: Registry, w: World, c: CallId, toExecute: bool, now: Time,
                          decision: Decision, grant: Option<ApprovalId>, w': World)
    requires c < |w.db.calls| && Decided(reg, w, c, toExecute, now, decision, grant, w')
    ensures w'.db.calls == w.db.calls && w'.log == w.log && w'.db.internalWrites == w.db.internalWrites
  {
  }

  lemma {:induction false} CountingEnds(reg: Registry, w: World, c: CallId, env: nat -> Input, tick: nat, n: nat)
    requires Enabled(w, CountReplay(c)) && Run(reg, w, CountReplay(c), env, tick, n).pc.Done?
    ensures var s := Run(reg, w, CountReplay(c), env, tick, n);
            s.pc == Done(Finished(c, true)) && CountedOnly(w, c, s.w)
  {
    hide Run;
    RunSteps(reg, w, CountReplay(c), env, tick, n);
    StandsStill(reg, Step(reg, w, CountReplay(c), env(tick)).0, Done(Finished(c, true)), env, tick + 1, n - 1);
  }

  /** One more replay on the row of c, and nothing else. */
  predicate CountedOnly(w: World, c: CallId, w': World) {
    && c < |w.db.calls| && w'.log == w.log
    && w'.db == w.db.(calls := w.db.calls[c := w.db.calls[c].(replays := w.db.calls[c].replays + 1)])
  }

  lemma {:induction false} ReplayStarts(reg: Registry, w: World, c: CallId, request: Request,
      env: nat -> Input, tick: nat, n: nat)
    requires UniqueKeys(w.db.calls) && c < |w.db.calls| && w.db.calls[c].fingerprint == request
    requires request.tool in reg && w.db.calls[c].tool in reg
    ensures var row := w.db.calls[c];
            var next := EnsurePolicy(c, Replay(row.status == AwaitingApproval || row.status == Denied));
            Run(reg, w, Submit(row.task, request, row.key), env, tick, n)
            == if n == 0 then Standing(w, Submit(row.task, request, row.key), tick, n)
               else Run(reg, w, next, env, tick + 1, n - 1)
  {
    hide Run, Step;
    var row := w.db.calls[c];
    RunSteps(reg, w, Submit(row.task, request, row.key), env, tick, n);
    SubmitStarts(reg, w, row.task, request, row.key, env(tick));
    assert Holds(w.db.calls, c, row.task, row.key);
  }

  /**
   A replay that lives to its end decides again. Refused, it leaves the row alone. Allowed, a call that waits
   or was denied makes an attempt with its saved arguments; any other call only has its replay counted.
   */
  lemma {:induction false} ReplayEnds(reg: Registry, w: World, c: CallId, request: Request, env: nat -> Input,
      tick: nat, n: nat)
      returns (decision: Decision, grant: Option<ApprovalId>, decided: World, t: nat)
    requires UniqueKeys(w.db.calls) && c < |w.db.calls| && w.db.calls[c].fingerprint == request
    requires request.tool in reg && w.db.calls[c].tool in reg
    requires Run(reg, w, Submit(w.db.calls[c].task, request, w.db.calls[c].key), env, tick, n).pc.Done?
    ensures var row := w.db.calls[c];
            var waiting := row.status == AwaitingApproval || row.status == Denied;
            var s := Run(reg, w, Submit(row.task, request, row.key), env, tick, n);
            && Decided(reg, w, c, waiting, env(tick + 3).now, decision, grant, decided)
            && (decision != Allowed ==> s.pc == Done(ReplayRefused) && s.w == decided)
            && (decision == Allowed && waiting ==>
                  s.pc == Done(Finished(c, false)) && Attempted(decided, c, row.attempts + 1, grant, env(t).execution, s.w))
            && (decision == Allowed && !waiting ==> s.pc == Done(Finished(c, true)) && CountedOnly(decided, c, s.w))
  {
    hide Run, Step, Decided, Attempted, CountedOnly;
    var row := w.db.calls[c];
    var waiting := row.status == AwaitingApproval || row.status == Denied;
    ReplayStarts(reg, w, c, request, env, tick, n);
    var t', n';
    decision, grant, decided, t', n' := AuthorizationEnds(reg, w, c, Replay(waiting), env, tick + 1, n - 1);
    DecidedKeepsCalls(reg, w, c, waiting, env(tick + 3).now, decision, grant, decided);
    t := t' + 2;
    if decision != Allowed { StandsStill(reg, decided, Done(ReplayRefused), env, t', n'); }
    else if waiting { AttemptEnds(reg, decided, c, grant, env, t', n'); }
    else { CountingEnds(reg, decided, c, env, t', n'); }
  }

  /** The positions of a replay that will not execute. */
  predicate OnlyCounts(pc: Pc) {
    ((pc.EnsurePolicy? || pc.Decide? || pc.RecordDecision?) && pc.purpose == Replay(false)) || pc.CountReplay?
  }

  /** What such a replay of c may have done so far, wherever it stands. */
  predicate CountedAtMost(w: World, c: CallId, w': World, pc': Pc) {
    && c < |w.db.calls| && w'.log == w.log && w'.db.internalWrites == w.db.internalWrites
    && var row := w.db.calls[c];
    && w'.db.calls == if pc' == Done(Finished(c, true)) then w.db.calls[c := row.(replays := row.replays + 1)] else w.db.calls
  }

  lemma OnlyCountsStep(reg: Registry, w: World, pc: Pc, inp: Input)
    requires Enabled(w, pc) && OnlyCounts(pc)
    ensures var (w', pc') := Step(reg, w, pc, inp);
            CountedAtMost(w, pc.call, w', pc') && (pc'.Done? || (OnlyCounts(pc') && pc'.call == pc.call))
  {
  }

  lemma {:induction false} OnlyCountsRun(reg: Registry, w: World, pc: Pc, env: nat -> Input, tick: nat, n: nat)
    requires Enabled(w, pc) && OnlyCounts(pc)
    ensures var s := Run(reg, w, pc, env, tick, n); CountedAtMost(w, pc.call, s.w, s.pc)
    decreases n
  {
    hide Step, Run;
    RunSteps(reg, w, pc, env, tick, n);
    if n > 0 {
      var (w', pc') := Step(reg, w, pc, env(tick));
      OnlyCountsStep(reg, w, pc, env(tick));
      if pc'.Done? { StandsStill(reg, w', pc', env, tick + 1, n - 1); }
      else {
        StepStaysEnabled(reg, w, pc, env(tick));
        OnlyCountsRun(reg, w', pc', env, tick + 1, n - 1);
      }
    }
  }

  /**
   The request of a call that neither waits nor was denied is never executed by a replay, wherever the
   process dies: nothing is invoked, no business write is committed, no call row changes before the replay
   ends as replayed, and then only its replays count has gone up by one.
   */
  lemma {:induction false} SettledReplayNeverExecutes(reg: Registry, w: World, c: CallId, request: Request,
      env: nat -> Input, tick: nat, n: nat)
    requires UniqueKeys(w.db.calls) && c < |w.db.calls| && w.db.calls[c].fingerprint == request
    requires request.tool in reg && w.db.calls[c].tool in reg
    requires w.db.calls[c].status != AwaitingApproval && w.db.calls[c].status != Denied
    ensures var row := w.db.calls[c];
            var s := Run(reg, w, Submit(row.task, request, row.key), env, tick, n);
            CountedAtMost(w, c, s.w, s.pc)
  {
    hide Run, Step;
    ReplayStarts(reg, w, c, request, env, tick, n);
    if n > 0 { OnlyCountsRun(reg, w, EnsurePolicy(c, Replay(false)), env, tick + 1, n - 1); }
  }

  /** Whatever was submitted: an answer marked as replayed came without executing anything. */
  lemma {:induction false} ReplayedAnswerExecutedNothing(reg: Registry, w: World, task: TaskId,
      request: Request, key: string,
                                                         env: nat -> Input, tick: nat, n: nat)
    requires UniqueKeys(w.db.calls)
    ensures var s := Run(reg, w, Submit(task, request, key), env, tick, n);
            s.pc.Done? && s.pc.outcome.Finished? && s.pc.outcome.replayed ==> CountedAtMost(w, s.pc.outcome.call, s.w, s.pc)
  {
    hide Run, Step, Decided, Attempted;
    var s := Run(reg, w, Submit(task, request, key), env, tick, n);
    if s.pc.Done? && s.pc.outcome.Finished? && s.pc.outcome.replayed {
      var c := s.pc.outcome.call;
      ConflictsIff(reg, w, task, request, key, env, tick, n);
      StandsStill(reg, w, Submit(task, request, key), env, tick, 0);
      if d: CallId :| Holds(w.db.calls, d, task, key) {
        var decision, grant, decided, t := ReplayEnds(reg, w, d, request, env, tick, n);
        SettledReplayNeverExecutes(reg, w, d, request, env, tick, n);
      } else {
        var created, decision, grant, decided, t := FirstSubmissionEnds(reg, w, task, request, key, env, tick, n);
      }
    }
  }
}
