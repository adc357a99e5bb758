/**
 Where the guarantees stop: concrete histories that the code allows. Each one meets every hypothesis of
 the guarantee it bounds except the one it gives up.
 */
module ToolLimits {
  import opened Common
  import opened ToolProtocol
  import opened ToolHistories
  import opened ToolSafety
  import opened ToolRuntime

  const SEND := Request("send", "hello", None)
  const NOTE := Request("note", "done", None)
  const REGISTRY: Registry := map[
    "send" := ToolDefinition(WritePermission, ExternalWrite, true, true),
    "note" := ToolDefinition(WritePermission, InternalWrite, true, false)]

  function Start(requireApproval: bool): World {
    World(Db([], [], [], map[0 := Policy(1, {"send", "note"}, requireApproval)], []), [])
  }

  // ---------------------------------------------------------------- running with one fixed input

  /** Run for n steps in an environment that always says the same. */
  function Go(inp: Input, w: World, pc: Pc, n: nat): (World, Pc)
    decreases n
  {
    if n == 0 || !Enabled(w, pc) then (w, pc)
    else var (w', pc') := Step(REGISTRY, w, pc, inp); Go(inp, w', pc', n - 1)
  }

  lemma OneStep(inp: Input, w: World, pc: Pc, n: nat)
    requires n > 0 && Enabled(w, pc)
    ensures var (w', pc') := Step(REGISTRY, w, pc, inp); Go(inp, w, pc, n) == Go(inp, w', pc', n - 1)
  {
  }

  lemma {:induction false} GoIsRun(inp: Input, w: World, pc: Pc, env: nat -> Input, tick: nat, n: nat)
    requires forall t: nat :: env(t) == inp
    ensures Go(inp, w, pc, n) == (Run(REGISTRY, w, pc, env, tick, n).w, Run(REGISTRY, w, pc, env, tick, n).pc)
    decreases n
  {
    if n > 0 && Enabled(w, pc) {
      var (w', pc') := Step(REGISTRY, w, pc, inp);
      GoIsRun(inp, w', pc', env, tick + 1, n - 1);
    }
  }

  /** One call, of this tool, under a policy of task 0 that allows it. */
  predicate OneCall(w: World, tool: string, requireApproval: bool, status: Status, attempts: nat, providerId: Option<string>) {
    && |w.db.calls| == 1 && tool in REGISTRY && w.db.policies == Start(requireApproval).db.policies
    && var row := w.db.calls[0];
    && row.task == 0 && row.tool == tool && row.effect == REGISTRY[tool].effect && row.key == "k"
    && row.status == status && row.attempts == attempts && row.providerId == providerId
  }

  function WithDecision(w: World, decision: Decision): World {
    w.(db := w.db.(authorizations := w.db.authorizations + [Authorization(0, decision, None)]))
  }

  /** Where no approval is asked for, authorization takes three steps and leaves the call alone. */
  lemma AuthorizationPasses(inp: Input, w: World, purpose: Purpose, n: nat)
    requires |w.db.calls| == 1 && w.db.policies == Start(false).db.policies && n >= 3
    requires w.db.calls[0].task == 0 && w.db.calls[0].tool in REGISTRY
    ensures Go(inp, w, EnsurePolicy(0, purpose), n)
            == Go(inp, WithDecision(w, Allowed), AfterDecision(0, purpose, Allowed, None), n - 3)
  {
    OneStep(inp, w, EnsurePolicy(0, purpose), n);
    OneStep(inp, w, Decide(0, purpose), n - 1);
    OneStep(inp, w, RecordDecision(0, purpose, Allowed, None), n - 2);
  }

  // ---------------------------------------------------------------- a not_found about an earlier attempt

  const UNCERTAIN := RaisedUncertain("op-1", "timeout")
  const TIMEOUT := Input(0, Ran("hello", UNCERTAIN), SaysNotFound)

  /** The first attempt reaches the provider and times out: its operation id is stored. */
  lemma FirstAttemptTimesOut() returns (w: World)
    ensures w == Go(TIMEOUT, Start(false), Submit(0, SEND, "k"), 8).0
    ensures OneCall(w, "send", false, OutcomeUnknown, 1, Some("op-1"))
    ensures w.log == [Invoked(0, 1, None, UNCERTAIN), Reported(0, 1, "op-1")]
  {
    OneStep(TIMEOUT, Start(false), Submit(0, SEND, "k"), 8);
    w := Step(REGISTRY, Start(false), Submit(0, SEND, "k"), TIMEOUT).0;
    assert OneCall(w, "send", false, Proposed, 0, None);
    AuthorizationPasses(TIMEOUT, w, FirstSubmission, 7);
    w := AttemptTimesOut(WithDecision(w, Allowed), 4);
  }

  lemma AttemptTimesOut(w: World, n: nat) returns (w': World)
    requires OneCall(w, "send", false, Proposed, 0, None) && w.log == [] && n == 4
    ensures w' == Go(TIMEOUT, w, MarkAuthorized(0, None), n).0
    ensures OneCall(w', "send", false, OutcomeUnknown, 1, Some("op-1"))
    ensures w'.log == [Invoked(0, 1, None, UNCERTAIN), Reported(0, 1, "op-1")]
  {
    OneStep(TIMEOUT, w, MarkAuthorized(0, None), n);
    w' := Step(REGISTRY, w, MarkAuthorized(0, None), TIMEOUT).0;
    OneStep(TIMEOUT, w', MarkExecuting(0, None), n - 1);
    w' := Step(REGISTRY, w', MarkExecuting(0, None), TIMEOUT).0;
    OneStep(TIMEOUT, w', Invoke(0, None, false), n - 2);
    w' := Step(REGISTRY, w', Invoke(0, None, false), TIMEOUT).0;
    OneStep(TIMEOUT, w', Store(0, TIMEOUT.execution, false), n - 3);
    w' := Step(REGISTRY, w', Store(0, TIMEOUT.execution, false), TIMEOUT).0;
  }

  /** A recovery asks about the stored id, is told not_found and retries; the process dies inside the handler. */
  lemma {:induction false} RetryDiesInsideTheHandler(w: World, attempts: nat) returns (w': World)
    requires OneCall(w, "send", false, OutcomeUnknown, attempts, Some("op-1"))
    ensures w' == Go(TIMEOUT, w, Recover(0), 7).0
    ensures OneCall(w', "send", false, Executing, attempts + 1, Some("op-1"))
    ensures w'.log == w.log + [Answered(0, "op-1", SaysNotFound), Invoked(0, attempts + 1, None, UNCERTAIN)]
  {
    OneStep(TIMEOUT, w, Recover(0), 7);
    OneStep(TIMEOUT, w, Reconcile(0), 6);
    w' := Step(REGISTRY, w, Reconcile(0), TIMEOUT).0;
    AuthorizationPasses(TIMEOUT, w', Reconciled, 5);
    w' := WithDecision(w', Allowed);
    OneStep(TIMEOUT, w', MarkRetrying(0, None), 2);
    w' := Step(REGISTRY, w', MarkRetrying(0, None), TIMEOUT).0;
    OneStep(TIMEOUT, w', Invoke(0, None, true), 1);
    w' := Step(REGISTRY, w', Invoke(0, None, true), TIMEOUT).0;
  }

  /** The next recovery finds it executing and only marks the outcome unknown; the old id stays on the row. */
  lemma AbandonKeepsOldId(w: World, attempts: nat) returns (w': World)
    requires OneCall(w, "send", false, Executing, attempts, Some("op-1"))
    ensures w' == Go(TIMEOUT, w, Recover(0), 2).0
    ensures OneCall(w', "send", false, OutcomeUnknown, attempts, Some("op-1")) && w'.log == w.log + [Abandoned(0, attempts)]
  {
    OneStep(TIMEOUT, w, Recover(0), 2);
    OneStep(TIMEOUT, w, MarkUnknown(0), 1);
    w' := Step(REGISTRY, w, MarkUnknown(0), TIMEOUT).0;
  }

  function AlwaysTimesOut(): (nat, nat) -> Input { (r: nat, t: nat) => TIMEOUT }

  predicate Reached(served: seq<(Pc, nat)>, w: World) {
    && Servable(REGISTRY, Start(false), served, AlwaysTimesOut())
    && w == Served(REGISTRY, Start(false), served, AlwaysTimesOut())
  }

  lemma ServesNext(served: seq<(Pc, nat)>, w: World, pc: Pc, n: nat) returns (all: seq<(Pc, nat)>)
    requires Reached(served, w) && Startable(w, pc)
    ensures Reached(all, Go(TIMEOUT, w, pc, n).0)
  {
    all := served + [(pc, n)];
    assert all[..|served|] == served && all[|served|] == (pc, n);
    GoIsRun(TIMEOUT, w, pc, InputsOf(AlwaysTimesOut(), |served|), 0, n);
  }

  lemma ServeFirstAttempt() returns (served: seq<(Pc, nat)>, w: World)
    ensures Reached(served, w) && OneCall(w, "send", false, OutcomeUnknown, 1, Some("op-1"))
    ensures w.log == [Invoked(0, 1, None, UNCERTAIN), Reported(0, 1, "op-1")]
  {
    w := FirstAttemptTimesOut();
    served := ServesNext([], Start(false), Submit(0, SEND, "k"), 8);
  }

  lemma ServeRetry(served: seq<(Pc, nat)>, w: World, attempts: nat) returns (all: seq<(Pc, nat)>, w': World)
    requires Reached(served, w) && OneCall(w, "send", false, OutcomeUnknown, attempts, Some("op-1"))
    ensures Reached(all, w') && OneCall(w', "send", false, Executing, attempts + 1, Some("op-1"))
    ensures w'.log == w.log + [Answered(0, "op-1", SaysNotFound), Invoked(0, attempts + 1, None, UNCERTAIN)]
  {
    w' := RetryDiesInsideTheHandler(w, attempts);
    all := ServesNext(served, w, Recover(0), 7);
  }

  lemma ServeAbandon(served: seq<(Pc, nat)>, w: World, attempts: nat) returns (all: seq<(Pc, nat)>, w': World)
    requires Reached(served, w) && OneCall(w, "send", false, Executing, attempts, Some("op-1"))
    ensures Reached(all, w') && OneCall(w', "send", false, OutcomeUnknown, attempts, Some("op-1"))
    ensures w'.log == w.log + [Abandoned(0, attempts)]
  {
    w' := AbandonKeepsOldId(w, attempts);
    all := ServesNext(served, w, Recover(0), 2);
  }

  /**
   A not_found answer is about the stored id, not about the latest invocation. Here the second attempt is
   cut short after its handler was called; the third is made on a not_found for the first attempt's id.
   */
  lemma RetryOnStaleNotFound() returns (sys: Sys, moves: seq<Move>)
    ensures Initial(sys) && SerializedRun(REGISTRY, sys, moves) && Runs(REGISTRY, sys, moves)
    ensures After(REGISTRY, sys, moves).w.log ==
              [Invoked(0, 1, None, UNCERTAIN), Reported(0, 1, "op-1"), Answered(0, "op-1", SaysNotFound),
               Invoked(0, 2, None, UNCERTAIN), Abandoned(0, 2), Answered(0, "op-1", SaysNotFound),
               Invoked(0, 3, None, UNCERTAIN)]
  {
    var r1, w1 := ServeFirstAttempt();
    var r2, w2 := ServeRetry(r1, w1, 1);
    var r3, w3 := ServeAbandon(r2, w2, 2);
    var r4, w4 := ServeRetry(r3, w3, 2);
    sys := Sys(Start(false), map[]);
    moves := ServingIsAHistory(REGISTRY, Start(false), r4, AlwaysTimesOut());
  }

  // ---------------------------------------------------------------- two sessions on one call

  lemma MoveFirst(sys: Sys, m: Move, rest: seq<Move>)
    requires CanMove(sys, m) && Runs(REGISTRY, Moved(REGISTRY, sys, m), rest)
    ensures Runs(REGISTRY, sys, [m] + rest)
    ensures After(REGISTRY, sys, [m] + rest) == After(REGISTRY, Moved(REGISTRY, sys, m), rest)
  {
  }

  /** Let session x take n steps while the other sessions stand still. */
  lemma {:induction false} LetRun(inp: Input, sys: Sys, x: ActorId, n: nat) returns (moves: seq<Move>)
    requires x in sys.actors && Enabled(sys.w, sys.actors[x])
    ensures Runs(REGISTRY, sys, moves)
    ensures var (w', pc') := Go(inp, sys.w, sys.actors[x], n);
            After(REGISTRY, sys, moves) == Sys(w', if pc'.Done? then sys.actors - {x} else sys.actors[x := pc'])
    decreases n
  {
    hide Step;
    if n == 0 {
      moves := [];
      assert sys.actors == sys.actors[x := sys.actors[x]];
    } else {
      var (w', pc') := Step(REGISTRY, sys.w, sys.actors[x], inp);
      var next := Moved(REGISTRY, sys, Act(x, inp));
      var rest := [];
      if !pc'.Done? {
        StepStaysEnabled(REGISTRY, sys.w, sys.actors[x], inp);
        rest := LetRun(inp, next, x, n - 1);
        assert next.actors - {x} == sys.actors - {x};
      }
      MoveFirst(sys, Act(x, inp), rest);
      moves := [Act(x, inp)] + rest;
    }
  }

  lemma {:induction false} RunsJoin(sys: Sys, first: seq<Move>, second: seq<Move>)
    requires Runs(REGISTRY, sys, first) && Runs(REGISTRY, After(REGISTRY, sys, first), second)
    ensures Runs(REGISTRY, sys, first + second)
    ensures After(REGISTRY, sys, first + second) == After(REGISTRY, After(REGISTRY, sys, first), second)
    decreases |first|
  {
    if first == [] { assert first + second == second; }
    else {
      assert (first + second)[0] == first[0] && (first + second)[1..] == first[1..] + second;
      RunsJoin(Moved(REGISTRY, sys, first[0]), first[1..], second);
    }
  }

  /** Extend a run by letting a new request x take its first n steps. */
  lemma BeginAndRun(sys0: Sys, moves: seq<Move>, inp: Input, x: ActorId, pc: Pc, n: nat) returns (all: seq<Move>)
    requires Runs(REGISTRY, sys0, moves)
    requires var sys := After(REGISTRY, sys0, moves); x !in sys.actors && Startable(sys.w, pc) && Enabled(sys.w, pc)
    ensures Runs(REGISTRY, sys0, all)
    ensures var sys := After(REGISTRY, sys0, moves);
            var (w', pc') := Go(inp, sys.w, pc, n);
            After(REGISTRY, sys0, all) == Sys(w', if pc'.Done? then sys.actors else sys.actors[x := pc'])
  {
    var sys := After(REGISTRY, sys0, moves);
    var begun := Moved(REGISTRY, sys, Begin(x, pc));
    var rest := LetRun(inp, begun, x, n);
    assert ([Begin(x, pc)] + rest)[1..] == rest;
    assert begun.actors - {x} == sys.actors;
    RunsJoin(sys0, moves, [Begin(x, pc)] + rest);
    all := moves + ([Begin(x, pc)] + rest);
  }

  /** Extend a run by letting the live request x take n more steps. */
  lemma KeepRunning(sys0: Sys, moves: seq<Move>, inp: Input, x: ActorId, n: nat) returns (all: seq<Move>)
    requires Runs(REGISTRY, sys0, moves)
    requires var sys := After(REGISTRY, sys0, moves); x in sys.actors && Enabled(sys.w, sys.actors[x])
    ensures Runs(REGISTRY, sys0, all)
    ensures var sys := After(REGISTRY, sys0, moves);
            var (w', pc') := Go(inp, sys.w, sys.actors[x], n);
            After(REGISTRY, sys0, all) == Sys(w', if pc'.Done? then sys.actors - {x} else sys.actors[x := pc'])
  {
    var rest := LetRun(inp, After(REGISTRY, sys0, moves), x, n);
    RunsJoin(sys0, moves, rest);
    all := moves + rest;
  }

  const WRITES := Input(0, Ran("done", Returned("ok")), SaysUnknown)

  /** The first attempt at the internal write dies while executing. */
  lemma NoteDiesExecuting() returns (w: World)
    ensures Go(WRITES, Start(false), Submit(0, NOTE, "k"), 6) == (w, Invoke(0, None, false))
    ensures OneCall(w, "note", false, Executing, 1, None) && w.db.internalWrites == []
  {
    OneStep(WRITES, Start(false), Submit(0, NOTE, "k"), 6);
    w := Step(REGISTRY, Start(false), Submit(0, NOTE, "k"), WRITES).0;
    AuthorizationPasses(WRITES, w, FirstSubmission, 5);
    w := WithDecision(w, Allowed);
    OneStep(WRITES, w, MarkAuthorized(0, None), 2);
    w := Step(REGISTRY, w, MarkAuthorized(0, None), WRITES).0;
    OneStep(WRITES, w, MarkExecuting(0, None), 1);
    w := Step(REGISTRY, w, MarkExecuting(0, None), WRITES).0;
  }

  lemma {:induction false} RetryInvokesAndStores(w: World, attempts: nat) returns (w': World)
    requires OneCall(w, "note", false, Executing, attempts, None)
    ensures Go(WRITES, w, Invoke(0, None, true), 2) == (w', Done(RecoveryDone(0)))
    ensures OneCall(w', "note", false, Succeeded, attempts, None)
    ensures w'.db.internalWrites == w.db.internalWrites + [0]
  {
    OneStep(WRITES, w, Invoke(0, None, true), 2);
    w' := Step(REGISTRY, w, Invoke(0, None, true), WRITES).0;
    OneStep(WRITES, w', Store(0, WRITES.execution, true), 1);
    w' := Step(REGISTRY, w', Store(0, WRITES.execution, true), WRITES).0;
  }

  /** A recovery that has already decided to retry commits the write, whatever the row says by now. */
  lemma {:induction false} RetryCommits(w: World, status: Status, attempts: nat) returns (w': World)
    requires OneCall(w, "note", false, status, attempts, None)
    ensures Go(WRITES, w, EnsurePolicy(0, Recovery), 6) == (w', Done(RecoveryDone(0)))
    ensures OneCall(w', "note", false, Succeeded, attempts + 1, None)
    ensures w'.db.internalWrites == w.db.internalWrites + [0]
  {
    AuthorizationPasses(WRITES, w, Recovery, 6);
    w' := WithDecision(w, Allowed);
    OneStep(WRITES, w', MarkRetrying(0, None), 3);
    w' := Step(REGISTRY, w', MarkRetrying(0, None), WRITES).0;
    w' := RetryInvokesAndStores(w', attempts + 1);
  }

  /** A recovery of the executing call that has looked at the row and not written yet. */
  lemma StartRecovery(sys: Sys, moves: seq<Move>, x: ActorId) returns (all: seq<Move>)
    requires Runs(REGISTRY, sys, moves)
    requires var now := After(REGISTRY, sys, moves);
             OneCall(now.w, "note", false, Executing, 1, None) && x !in now.actors
    ensures Runs(REGISTRY, sys, all)
    ensures var now := After(REGISTRY, sys, moves);
            After(REGISTRY, sys, all) == Sys(now.w, now.actors[x := EnsurePolicy(0, Recovery)])
  {
    var w := After(REGISTRY, sys, moves).w;
    OneStep(WRITES, w, Recover(0), 1);
    all := BeginAndRun(sys, moves, WRITES, x, Recover(0), 1);
  }

  lemma FinishRecovery(sys: Sys, moves: seq<Move>, x: ActorId, status: Status, attempts: nat)
      returns (all: seq<Move>, w': World)
    requires Runs(REGISTRY, sys, moves)
    requires var now := After(REGISTRY, sys, moves);
             && OneCall(now.w, "note", false, status, attempts, None)
             && x in now.actors && now.actors[x] == EnsurePolicy(0, Recovery)
    ensures Runs(REGISTRY, sys, all)
    ensures var now := After(REGISTRY, sys, moves);
            && After(REGISTRY, sys, all) == Sys(w', now.actors - {x})
            && w'.db.internalWrites == now.w.db.internalWrites + [0]
    ensures OneCall(w', "note", false, Succeeded, attempts + 1, None)
  {
    w' := RetryCommits(After(REGISTRY, sys, moves).w, status, attempts);
    all := KeepRunning(sys, moves, WRITES, x, 6);
  }

  /** The call is executing and nobody works on it. */
  lemma ExecutingAlone() returns (sys: Sys, moves: seq<Move>)
    ensures Initial(sys) && Runs(REGISTRY, sys, moves)
    ensures var now := After(REGISTRY, sys, moves);
            && OneCall(now.w, "note", false, Executing, 1, None) && now.w.db.internalWrites == [] && now.actors == map[]
  {
    sys := Sys(Start(false), map[]);
    var w := NoteDiesExecuting();
    moves := BeginAndRun(sys, [], WRITES, 0, Submit(0, NOTE, "k"), 6);
    var now := After(REGISTRY, sys, moves);
    assert Moved(REGISTRY, now, Crash(0)) == Sys(w, map[]);
    assert [Crash(0)][1..] == [];
    RunsJoin(sys, moves, [Crash(0)]);
    moves := moves + [Crash(0)];
  }

  lemma BothRecoveriesLook() returns (sys: Sys, moves: seq<Move>)
    ensures Initial(sys) && Runs(REGISTRY, sys, moves)
    ensures var now := After(REGISTRY, sys, moves);
            && OneCall(now.w, "note", false, Executing, 1, None) && now.w.db.internalWrites == []
            && 1 in now.actors && now.actors[1] == EnsurePolicy(0, Recovery)
            && 2 in now.actors && now.actors[2] == EnsurePolicy(0, Recovery)
  {
    sys, moves := ExecutingAlone();
    moves := StartRecovery(sys, moves, 1);
    moves := StartRecovery(sys, moves, 2);
  }

  /**
   Without serialization the exactly-once claim fails: two recoveries of one stale call both find it
   executing, and both commit its business write.
   */
  lemma ConcurrentRecoveriesWriteTwice() returns (sys: Sys, moves: seq<Move>)
    ensures Initial(sys) && Runs(REGISTRY, sys, moves)
    ensures var db := After(REGISTRY, sys, moves).w.db; |db.calls| == 1 && CommittedWrites(db, 0) == 2
  {
    sys, moves := BothRecoveriesLook();
    var w;
    moves, w := FinishRecovery(sys, moves, 1, Executing, 1);
    moves, w := FinishRecovery(sys, moves, 2, Succeeded, 2);
    assert w.db.internalWrites == [0, 0];
  }

  lemma RecoveryDecidesToRetry(w: World, status: Status, attempts: nat)
    requires OneCall(w, "note", false, status, attempts, None) && (status == Executing || status == Succeeded)
    ensures Go(WRITES, w, Recover(0), 7) == Go(WRITES, w, EnsurePolicy(0, Recovery), 6)
  {
    OneStep(WRITES, w, Recover(0), 7);
  }

  /** Recovery repeats an internal write whatever result the row has got since it was selected. */
  lemma {:induction false} RecoveryRepeats(w: World, status: Status, attempts: nat) returns (w': World)
    requires OneCall(w, "note", false, status, attempts, None) && (status == Executing || status == Succeeded)
    ensures Go(WRITES, w, Recover(0), 7) == (w', Done(RecoveryDone(0)))
    ensures OneCall(w', "note", false, Succeeded, attempts + 1, None)
    ensures w'.db.internalWrites == w.db.internalWrites + [0]
  {
    hide Step, Go;
    RecoveryDecidesToRetry(w, status, attempts);
    w' := RetryCommits(w, status, attempts);
  }

  /**
   A batch holds its selection while it works on other calls. Another recovery finishes the call in the
   meantime; the batch then reads it as succeeded and commits its business write a second time. No two of
   the three recoveries' steps interleave: what is shared is only the selection.
   */
  lemma StaleSelectionWritesTwice() returns (sys: Sys, moves: seq<Move>, selected: Sys, finished: Sys)
    ensures Initial(sys) && Runs(REGISTRY, sys, moves)
    ensures OneCall(selected.w, "note", false, Executing, 1, None) && selected.actors == map[1 := Recover(0)]
    ensures OneCall(finished.w, "note", false, Succeeded, 2, None) && finished.actors == map[1 := Recover(0)]
    ensures var db := After(REGISTRY, sys, moves).w.db; |db.calls| == 1 && CommittedWrites(db, 0) == 2
  {
    sys, moves := ExecutingAlone();
    moves := BeginAndRun(sys, moves, WRITES, 1, Recover(0), 0);
    selected := After(REGISTRY, sys, moves);
    var w := RecoveryRepeats(selected.w, Executing, 1);
    moves := BeginAndRun(sys, moves, WRITES, 2, Recover(0), 7);
    finished := After(REGISTRY, sys, moves);
    w := RecoveryRepeats(finished.w, Succeeded, 2);
    moves := KeepRunning(sys, moves, WRITES, 1, 7);
    assert w.db.internalWrites == [0, 0];
  }

  // ---------------------------------------------------------------- spending races with revoking

  function Clock(now: Time): Input { Input(now, BadArguments(""), SaysUnknown) }

  function Granted(now: Time, seconds: nat): Approval {
    Approval(0, 0, Some(0), "operator", "send", "k", SEND, now + seconds, None, None)
  }

  /** The call waits for approval and its latest authorization said so. */
  predicate Waiting(w: World) {
    && OneCall(w, "send", true, AwaitingApproval, 0, None) && w.db.calls[0].fingerprint == SEND
    && LatestDecision(w.db.authorizations, 0) == Some(RequiresApproval)
  }

  lemma SubmissionWaits() returns (w: World)
    ensures Go(Clock(0), Start(true), Submit(0, SEND, "k"), 6) == (w, Done(Finished(0, false)))
    ensures Waiting(w) && w.db.approvals == []
  {
    OneStep(Clock(0), Start(true), Submit(0, SEND, "k"), 6);
    w := Step(REGISTRY, Start(true), Submit(0, SEND, "k"), Clock(0)).0;
    OneStep(Clock(0), w, EnsurePolicy(0, FirstSubmission), 5);
    OneStep(Clock(0), w, Decide(0, FirstSubmission), 4);
    OneStep(Clock(0), w, SelectApproval(0, FirstSubmission), 3);
    OneStep(Clock(0), w, RecordDecision(0, FirstSubmission, RequiresApproval, None), 2);
    w := WithDecision(w, RequiresApproval);
    OneStep(Clock(0), w, Refuse(0, RequiresApproval), 1);
    w := Step(REGISTRY, w, Refuse(0, RequiresApproval), Clock(0)).0;
  }

  lemma OperatorGrants(w: World) returns (w': World)
    requires Waiting(w) && w.db.approvals == []
    ensures Go(Clock(0), w, CheckApproval(0, "operator", 10), 2) == (w', Done(ApprovalGranted(0)))
    ensures Waiting(w') && w'.db.approvals == [Granted(0, 10)]
  {
    OneStep(Clock(0), w, CheckApproval(0, "operator", 10), 2);
    OneStep(Clock(0), w, GrantApproval(0, "operator", None, 0, 10), 1);
    w' := Step(REGISTRY, w, GrantApproval(0, "operator", None, 0, 10), Clock(0)).0;
  }

  /** A replay has selected the approval before it expires and not yet updated it. */
  lemma ReplaySelects(w: World)
    requires Waiting(w) && w.db.approvals == [Granted(0, 10)]
    ensures Go(Clock(5), w, Submit(0, SEND, "k"), 4) == (w, SpendApproval(0, Replay(true), 0, 5))
  {
  }

  /** A second grant has read it after it expired and not yet revoked it. */
  lemma SecondGrantReads(w: World)
    requires Waiting(w) && w.db.approvals == [Granted(0, 10)]
    ensures Go(Clock(20), w, CheckApproval(0, "operator", 10), 1) == (w, GrantApproval(0, "operator", Some(0), 20, 10))
  {
  }

  lemma BothSessionsHaveRead() returns (sys: Sys, moves: seq<Move>)
    ensures sys == Sys(Start(true), map[]) && Runs(REGISTRY, sys, moves)
    ensures var now := After(REGISTRY, sys, moves);
            && Waiting(now.w) && now.w.db.approvals == [Granted(0, 10)]
            && 1 in now.actors && now.actors[1] == SpendApproval(0, Replay(true), 0, 5)
            && 2 in now.actors && now.actors[2] == GrantApproval(0, "operator", Some(0), 20, 10)
  {
    sys := Sys(Start(true), map[]);
    var w1 := SubmissionWaits();
    moves := BeginAndRun(sys, [], Clock(0), 0, Submit(0, SEND, "k"), 6);
    var w2 := OperatorGrants(w1);
    moves := BeginAndRun(sys, moves, Clock(0), 0, CheckApproval(0, "operator", 10), 2);
    ReplaySelects(w2);
    moves := BeginAndRun(sys, moves, Clock(5), 1, Submit(0, SEND, "k"), 4);
    SecondGrantReads(w2);
    moves := BeginAndRun(sys, moves, Clock(20), 2, CheckApproval(0, "operator", 10), 1);
  }

  lemma SpendingGoesThrough(w: World) returns (w': World)
    requires Waiting(w) && w.db.approvals == [Granted(0, 10)]
    ensures Go(Clock(20), w, SpendApproval(0, Replay(true), 0, 5), 1) == (w', RecordDecision(0, Replay(true), Allowed, Some(0)))
    ensures Waiting(w') && w'.db.approvals == [Granted(0, 10).(activeSlot := None, consumedAt := Some(5))]
  {
    OneStep(Clock(20), w, SpendApproval(0, Replay(true), 0, 5), 1);
    w' := Step(REGISTRY, w, SpendApproval(0, Replay(true), 0, 5), Clock(20)).0;
  }

  lemma RevokingFollows(w: World) returns (w': World)
    requires Waiting(w) && w.db.approvals == [Granted(0, 10).(activeSlot := None, consumedAt := Some(5))]
    ensures Go(Clock(20), w, GrantApproval(0, "operator", Some(0), 20, 10), 1) == (w', Done(ApprovalGranted(1)))
    ensures |w'.db.approvals| == 2 && w'.db.approvals[0].consumedAt == Some(5) && w'.db.approvals[0].revokedAt == Some(20)
  {
    OneStep(Clock(20), w, GrantApproval(0, "operator", Some(0), 20, 10), 1);
    w' := Step(REGISTRY, w, GrantApproval(0, "operator", Some(0), 20, 10), Clock(20)).0;
  }

  /**
   Without serialization an approval can end up both consumed and revoked: the spending update checks
   its conditions again, the revoking one does not.
   */
  lemma ConsumedAndRevoked() returns (sys: Sys, moves: seq<Move>)
    ensures Initial(sys) && PoliciesRequireApproval(sys.w.db) && Runs(REGISTRY, sys, moves)
    ensures var approvals := After(REGISTRY, sys, moves).w.db.approvals;
            |approvals| == 2 && approvals[0].consumedAt == Some(5) && approvals[0].revokedAt == Some(20)
  {
    hide Step;
    sys, moves := BothSessionsHaveRead();
    var w := SpendingGoesThrough(After(REGISTRY, sys, moves).w);
    moves := KeepRunning(sys, moves, Clock(20), 1, 1);
    w := RevokingFollows(w);
    moves := KeepRunning(sys, moves, Clock(20), 2, 1);
  }
}
