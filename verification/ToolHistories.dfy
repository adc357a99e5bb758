/**
 Histories of the tool runtime: any number of sessions, each at its own position, moving one step at
 a time in any order and dying at any moment. This module holds the system and the facts about one
 step that every invariant needs: what it can change and what it must leave alone.
 */
module ToolHistories {
  import opened Common
  import opened ToolProtocol

  type ActorId = nat

  datatype Sys = Sys(w: World, actors: map<ActorId, Pc>)

  datatype Move =
    | Begin(actor: ActorId, pc: Pc)
    | Act(actor: ActorId, inp: Input)
    | Crash(actor: ActorId)

  predicate Enabled(w: World, pc: Pc) {
    !pc.Done? && CallExists(w, pc) && (pc.Decide? ==> HasPolicy(w, pc.call))
  }

  /**
   A recovery starts when its call is selected: a batch selects all its calls in one query and holds them
   from then on, each waiting at Recover for its turn.
   */
  predicate Startable(w: World, pc: Pc) {
    IsRequest(pc) && CallExists(w, pc) && (pc.Recover? ==> !Ended(w.db.calls[pc.call].status))
  }

  predicate CanMove(sys: Sys, m: Move) {
    match m
    case Begin(a, pc) => a !in sys.actors && Startable(sys.w, pc)
    case Act(a, _) => a in sys.actors && Enabled(sys.w, sys.actors[a])
    case Crash(a) => a in sys.actors
  }

  function Moved(reg: Registry, sys: Sys, m: Move): Sys
    requires CanMove(sys, m)
  {
    match m
    case Begin(a, pc) => sys.(actors := sys.actors[a := pc])
    case Act(a, inp) =>
      var (w', pc') := Step(reg, sys.w, sys.actors[a], inp);
      Sys(w', if pc'.Done? then sys.actors - {a} else sys.actors[a := pc'])
    case Crash(a) => sys.(actors := sys.actors - {a})
  }

  /** Nothing has been submitted yet; task policies may already exist. */
  predicate Initial(sys: Sys) {
    && sys.w.db.calls == [] && sys.w.db.approvals == [] && sys.w.db.authorizations == []
    && sys.w.db.internalWrites == [] && sys.w.log == [] && sys.actors == map[]
  }

  predicate PoliciesRequireApproval(db: Db) {
    forall t :: t in db.policies ==> db.policies[t].externalWritesRequireApproval
  }

  /** No two sessions work on one call: requests for it are serialized. */
  predicate OnePerCall(sys: Sys) {
    forall x, y :: x in sys.actors && y in sys.actors && x != y
      && Target(sys.w.db, sys.actors[x]).Some?
      ==> Target(sys.w.db, sys.actors[x]) != Target(sys.w.db, sys.actors[y])
  }

  /** The moves can be made one after the other from sys. */
  predicate Runs(reg: Registry, sys: Sys, moves: seq<Move>)
    decreases |moves|
  {
    moves == [] || (CanMove(sys, moves[0]) && Runs(reg, Moved(reg, sys, moves[0]), moves[1..]))
  }

  function After(reg: Registry, sys: Sys, moves: seq<Move>): Sys
    requires Runs(reg, sys, moves)
    decreases |moves|
  {
    if moves == [] then sys else After(reg, Moved(reg, sys, moves[0]), moves[1..])
  }

  /** ... and requests for one call are serialized all along. */
  predicate SerializedRun(reg: Registry, sys: Sys, moves: seq<Move>)
    decreases |moves|
  {
    && OnePerCall(sys)
    && (moves == [] || (CanMove(sys, moves[0]) && SerializedRun(reg, Moved(reg, sys, moves[0]), moves[1..])))
  }

  lemma {:induction false} SerializedRunRuns(reg: Registry, sys: Sys, moves: seq<Move>)
    requires SerializedRun(reg, sys, moves)
    ensures Runs(reg, sys, moves)
    decreases |moves|
  {
    if moves != [] { SerializedRunRuns(reg, Moved(reg, sys, moves[0]), moves[1..]); }
  }

  lemma {:induction false} SerializedRunsJoin(reg: Registry, sys: Sys, first: seq<Move>, second: seq<Move>)
    requires SerializedRun(reg, sys, first) && Runs(reg, sys, first)
    requires SerializedRun(reg, After(reg, sys, first), second) && Runs(reg, After(reg, sys, first), second)
    ensures SerializedRun(reg, sys, first + second) && Runs(reg, sys, first + second)
    ensures After(reg, sys, first + second) == After(reg, After(reg, sys, first), second)
    decreases |first|
  {
    if first == [] {
      assert first + second == second;
    } else {
      assert (first + second)[0] == first[0] && (first + second)[1..] == first[1..] + second;
      SerializedRunsJoin(reg, Moved(reg, sys, first[0]), first[1..], second);
    }
  }

  // ---------------------------------------------------------------- what one step can change

  /** The columns of a ToolCall row that identify the request never change. */
  predicate SameIdentity(r: ToolCall, r': ToolCall) {
    r.task == r'.task && r.tool == r'.tool && r.effect == r'.effect && r.key == r'.key && r.fingerprint == r'.fingerprint
  }

  predicate SameScope(a: Approval, a': Approval) {
    && a.task == a'.task && a.call == a'.call && a.actor == a'.actor && a.tool == a'.tool
    && a.key == a'.key && a.fingerprint == a'.fingerprint && a.expiresAt == a'.expiresAt
  }

  /** The positions up to the authorization decision. */
  predicate Deciding(pc: Pc) {
    pc.Submit? || pc.EnsurePolicy? || pc.Decide? || pc.SelectApproval? || pc.SpendApproval? || pc.RecordDecision?
  }

  /** The positions from the decision to the stored result. */
  predicate Attempting(pc: Pc) {
    pc.Refuse? || pc.MarkAuthorized? || pc.MarkExecuting? || pc.MarkRetrying? || pc.Invoke? || pc.Store? || pc.CountReplay?
  }

  /** Positions whose step writes the row of the call. */
  predicate WritesRow(pc: Pc) {
    pc.Refuse? || pc.MarkAuthorized? || pc.MarkExecuting? || pc.MarkRetrying? || pc.Store? || pc.CountReplay?
    || pc.MarkForReview? || pc.MarkUnknown? || pc.StoreReconciled? || pc.KeepPending? || pc.AwaitFreshApproval?
    || pc.GrantApproval?
  }

  lemma StepLeavesCalls(reg: Registry, w: World, pc: Pc, inp: Input)
    requires Enabled(w, pc) && !pc.Submit? && !WritesRow(pc)
    ensures Step(reg, w, pc, inp).0.db.calls == w.db.calls
  {
  }

  /** The row of c is the row it was, unless it is the step's own; and it is the same call in any case. */
  predicate CallKept(w: World, w': World, pc: Pc, c: CallId)
    requires c < |w.db.calls|
  {
    && |w.db.calls| <= |w'.db.calls|
    && SameIdentity(w.db.calls[c], w'.db.calls[c])
    && (Target(w.db, pc) != Some(c) || pc.Submit? ==> w'.db.calls[c] == w.db.calls[c])
  }

  lemma SubmitAddsRow(reg: Registry, w: World, pc: Pc, inp: Input, c: CallId)
    requires Enabled(w, pc) && pc.Submit? && c < |w.db.calls|
    ensures CallKept(w, Step(reg, w, pc, inp).0, pc, c)
  {
  }

  lemma AttemptWritesOwnRow(reg: Registry, w: World, pc: Pc, inp: Input, c: CallId)
    requires Enabled(w, pc) && Attempting(pc) && WritesRow(pc) && c < |w.db.calls|
    ensures CallKept(w, Step(reg, w, pc, inp).0, pc, c)
  {
  }

  lemma RecoveryWritesOwnRow(reg: Registry, w: World, pc: Pc, inp: Input, c: CallId)
    requires Enabled(w, pc) && !Attempting(pc) && WritesRow(pc) && c < |w.db.calls|
    ensures CallKept(w, Step(reg, w, pc, inp).0, pc, c)
  {
  }

  /** Rows are only added, identities are immutable, and only the step's own call changes. */
  lemma {:induction false} StepKeepsCalls(reg: Registry, w: World, pc: Pc, inp: Input, c: CallId)
    requires Enabled(w, pc) && c < |w.db.calls|
    ensures CallKept(w, Step(reg, w, pc, inp).0, pc, c)
  {
    hide Step;
    if pc.Submit? { SubmitAddsRow(reg, w, pc, inp, c); }
    else if !WritesRow(pc) { StepLeavesCalls(reg, w, pc, inp); }
    else if Attempting(pc) { AttemptWritesOwnRow(reg, w, pc, inp, c); }
    else { RecoveryWritesOwnRow(reg, w, pc, inp, c); }
  }

  /** The event a step adds to the log, if any, is about the step's own call. */
  lemma StepAddsOneEvent(reg: Registry, w: World, pc: Pc, inp: Input)
    requires Enabled(w, pc)
    ensures var w' := Step(reg, w, pc, inp).0;
            || w'.log == w.log
            || (|w'.log| == |w.log| + 1 && w'.log[..|w.log|] == w.log
                && Some(w'.log[|w.log|].call) == Target(w.db, pc)
                && (w'.log[|w.log|].Invoked? <==> pc.Invoke?))
  {
  }

  lemma StepKeepsPolicies(reg: Registry, w: World, pc: Pc, inp: Input)
    requires Enabled(w, pc)
    ensures var w' := Step(reg, w, pc, inp).0;
            && w.db.policies.Keys <= w'.db.policies.Keys
            && (PoliciesRequireApproval(w.db) ==> PoliciesRequireApproval(w'.db))
  {
  }

  /** Only spending and granting touch the approvals. */
  lemma StepLeavesApprovals(reg: Registry, w: World, pc: Pc, inp: Input)
    requires Enabled(w, pc) && !pc.SpendApproval? && !pc.GrantApproval?
    ensures Step(reg, w, pc, inp).0.db.approvals == w.db.approvals
  {
  }

  /**
   Approvals are only added. Whoever runs when, an old approval keeps its scope, and a consumption once
   recorded is never altered; only a spending step consumes.
   */
  lemma StepKeepsApprovals(reg: Registry, w: World, pc: Pc, inp: Input, a: ApprovalId)
    requires Enabled(w, pc) && a < |w.db.approvals|
    ensures var w' := Step(reg, w, pc, inp).0;
            && |w.db.approvals| <= |w'.db.approvals|
            && SameScope(w.db.approvals[a], w'.db.approvals[a])
            && (w.db.approvals[a].consumedAt.Some? ==>
                  w'.db.approvals[a].consumedAt == w.db.approvals[a].consumedAt)
            && (w'.db.approvals[a].consumedAt != w.db.approvals[a].consumedAt ==>
                  pc.SpendApproval? && pc.chosen == a)
  {
    if !pc.SpendApproval? && !pc.GrantApproval? { StepLeavesApprovals(reg, w, pc, inp); }
  }

  predicate OnPolicy(pc: Pc) { pc.ChangePolicy? || pc.WritePolicy? }

  /** A request that has a call keeps it; only a submission creates one. */
  predicate TargetKept(w: World, pc: Pc, w': World, pc': Pc)
    requires !pc.Done?
  {
    && !pc'.Submit?
    && (pc'.Decide? ==> pc.EnsurePolicy?)
    && (OnPolicy(pc) ==> OnPolicy(pc') || pc'.Done?)
    && (!OnPolicy(pc) && !pc'.Done? ==>
          && !OnPolicy(pc')
          && (!pc.Submit? ==> pc'.call == pc.call)
          && (pc.Submit? ==> (
                && pc'.EnsurePolicy? && pc'.call < |w'.db.calls|
                && Some(pc'.call) == (if Target(w.db, pc).Some? then Target(w.db, pc) else Some(|w.db.calls|)))))
    && |w'.db.calls| == |w.db.calls| + (if pc.Submit? && pc'.EnsurePolicy? && Target(w.db, pc).None? then 1 else 0)
  }

  lemma StepKeepsTargetWhileDeciding(reg: Registry, w: World, pc: Pc, inp: Input)
    requires Deciding(pc) && Enabled(w, pc)
    ensures TargetKept(w, pc, Step(reg, w, pc, inp).0, Step(reg, w, pc, inp).1)
  {
  }

  lemma StepKeepsTargetWhileAttempting(reg: Registry, w: World, pc: Pc, inp: Input)
    requires Attempting(pc) && Enabled(w, pc)
    ensures TargetKept(w, pc, Step(reg, w, pc, inp).0, Step(reg, w, pc, inp).1)
  {
  }

  /** The positions of the two requests that no agent makes. */
  predicate Administrative(pc: Pc) { OnPolicy(pc) || pc.CheckApproval? || pc.GrantApproval? }

  lemma StepKeepsTargetOfAdministration(reg: Registry, w: World, pc: Pc, inp: Input)
    requires Administrative(pc) && Enabled(w, pc)
    ensures TargetKept(w, pc, Step(reg, w, pc, inp).0, Step(reg, w, pc, inp).1)
  {
  }

  lemma StepKeepsTargetWhileRecovering(reg: Registry, w: World, pc: Pc, inp: Input)
    requires !Deciding(pc) && !Attempting(pc) && !Administrative(pc) && Enabled(w, pc)
    ensures TargetKept(w, pc, Step(reg, w, pc, inp).0, Step(reg, w, pc, inp).1)
  {
  }

  lemma {:induction false} StepKeepsTarget(reg: Registry, w: World, pc: Pc, inp: Input)
    requires Enabled(w, pc)
    ensures TargetKept(w, pc, Step(reg, w, pc, inp).0, Step(reg, w, pc, inp).1)
  {
    hide Step;
    if Deciding(pc) { StepKeepsTargetWhileDeciding(reg, w, pc, inp); }
    else if Attempting(pc) { StepKeepsTargetWhileAttempting(reg, w, pc, inp); }
    else if Administrative(pc) { StepKeepsTargetOfAdministration(reg, w, pc, inp); }
    else { StepKeepsTargetWhileRecovering(reg, w, pc, inp); }
  }

  lemma StepPreparesDecision(reg: Registry, w: World, pc: Pc, inp: Input)
    requires Enabled(w, pc) && pc.EnsurePolicy?
    ensures HasPolicy(Step(reg, w, pc, inp).0, pc.call)
  {
  }

  lemma StepStaysEnabled(reg: Registry, w: World, pc: Pc, inp: Input)
    requires Enabled(w, pc)
    ensures var (w', pc') := Step(reg, w, pc, inp); pc'.Done? || Enabled(w', pc')
  {
    hide Step;
    StepKeepsTarget(reg, w, pc, inp);
    if pc.EnsurePolicy? { StepPreparesDecision(reg, w, pc, inp); }
  }

  lemma {:induction false} FindCallGrows(calls: seq<ToolCall>, calls': seq<ToolCall>, task: TaskId, key: string)
    requires |calls| <= |calls'|
    requires forall c :: 0 <= c < |calls| ==> SameIdentity(calls[c], calls'[c])
    ensures FindCall(calls, task, key).Some? ==> FindCall(calls', task, key).Some?
    ensures |calls| == |calls'| ==> FindCall(calls, task, key) == FindCall(calls', task, key)
    decreases |calls|
  {
    if |calls| > 0 && |calls| == |calls'| {
      FindCallGrows(calls[..|calls| - 1], calls'[..|calls| - 1], task, key);
    }
  }

  lemma {:induction false} StepKeepsCallExisting(reg: Registry, w: World, pc: Pc, inp: Input, other: Pc)
    requires Enabled(w, pc) && CallExists(w, other)
    ensures CallExists(Step(reg, w, pc, inp).0, other)
  {
    hide Step, SameIdentity, Enabled;
    if !other.Submit? && Target(w.db, other).Some? { StepKeepsCalls(reg, w, pc, inp, other.call); }
  }

  lemma {:induction false} StepKeepsHasPolicy(reg: Registry, w: World, pc: Pc, inp: Input, c: CallId)
    requires Enabled(w, pc) && HasPolicy(w, c)
    ensures HasPolicy(Step(reg, w, pc, inp).0, c)
  {
    hide Step, Enabled, Target;
    StepKeepsCalls(reg, w, pc, inp, c);
    StepKeepsPolicies(reg, w, pc, inp);
  }

  /** Another session's step never disables this one. */
  lemma {:induction false} StepKeepsOthersEnabled(reg: Registry, w: World, pc: Pc, inp: Input, other: Pc)
    requires Enabled(w, pc) && Enabled(w, other)
    ensures Enabled(Step(reg, w, pc, inp).0, other)
  {
    hide Step, CallExists, HasPolicy;
    StepKeepsCallExisting(reg, w, pc, inp, other);
    if other.Decide? { StepKeepsHasPolicy(reg, w, pc, inp, other.call); }
  }

  predicate AllEnabled(sys: Sys) {
    forall x :: x in sys.actors ==> Enabled(sys.w, sys.actors[x])
  }

  lemma {:induction false} MoveKeepsAllEnabled(reg: Registry, sys: Sys, m: Move)
    requires CanMove(sys, m) && AllEnabled(sys)
    ensures AllEnabled(Moved(reg, sys, m))
  {
    hide Step;
    if m.Act? {
      var pc := sys.actors[m.actor];
      StepStaysEnabled(reg, sys.w, pc, m.inp);
      forall x | x in sys.actors && x != m.actor
        ensures Enabled(Step(reg, sys.w, pc, m.inp).0, sys.actors[x])
      {
        StepKeepsOthersEnabled(reg, sys.w, pc, m.inp, sys.actors[x]);
      }
    }
  }

  /**
   No session is ever stuck: in every reachable state of every interleaving, with crashes, each live
   request can take its next step.
   */
  lemma {:induction false} NeverStuck(reg: Registry, sys: Sys, moves: seq<Move>)
    requires AllEnabled(sys) && Runs(reg, sys, moves)
    ensures AllEnabled(After(reg, sys, moves))
    decreases |moves|
  {
    if moves != [] {
      MoveKeepsAllEnabled(reg, sys, moves[0]);
      NeverStuck(reg, Moved(reg, sys, moves[0]), moves[1..]);
    }
  }

  // ---------------------------------------------------------------- every request ends

  /** An upper bound on the steps a request still takes. */
  function StepsLeft(pc: Pc): nat {
    match pc
    case Recover(_) => 13
    case Reconcile(_) => 12
    case Submit(_, _, _) => 11
    case EnsurePolicy(_, _) => 10
    case Decide(_, _) => 9
    case SelectApproval(_, _) => 8
    case SpendApproval(_, _, _, _) => 7
    case RecordDecision(_, _, _, _) => 6
    case MarkAuthorized(_, _) => 5
    case MarkExecuting(_, _) => 4
    case MarkRetrying(_, _) => 4
    case Invoke(_, _, _) => 3
    case CheckApproval(_, _, _) => 3
    case ChangePolicy(_, _) => 3
    case Done(_) => 0
    case _ => 1
  }

  lemma StepsRunOutWhileDeciding(reg: Registry, w: World, pc: Pc, inp: Input)
    requires Deciding(pc) && Enabled(w, pc)
    ensures StepsLeft(Step(reg, w, pc, inp).1) < StepsLeft(pc)
  {
  }

  lemma StepsRunOutWhileAttempting(reg: Registry, w: World, pc: Pc, inp: Input)
    requires Attempting(pc) && Enabled(w, pc)
    ensures StepsLeft(Step(reg, w, pc, inp).1) < StepsLeft(pc)
  {
  }

  lemma {:induction false} StepsRunOut(reg: Registry, w: World, pc: Pc, inp: Input)
    requires Enabled(w, pc)
    ensures StepsLeft(Step(reg, w, pc, inp).1) < StepsLeft(pc)
  {
    if Deciding(pc) { StepsRunOutWhileDeciding(reg, w, pc, inp); }
    else if Attempting(pc) { StepsRunOutWhileAttempting(reg, w, pc, inp); }
  }
}
