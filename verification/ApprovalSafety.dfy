/**
 One-time approvals under every interleaving and crash: an external write is invoked only on a consumed
 approval of its own, each approval backs at most one invocation, and the unique slot tells exactly
 which approvals can still be spent.
 */
module ApprovalSafety {
  import opened Common
  import opened ToolProtocol
  import opened ToolHistories

  // ---------------------------------------------------------------- the invariant

  /** An approval copies the scope of its call; its slot says whether it is still open. */
  predicate ApprovalOk(db: Db, a: ApprovalId)
    requires a < |db.approvals|
  {
    var ap := db.approvals[a];
    && ap.call < |db.calls|
    && var row := db.calls[ap.call];
    && ap.task == row.task && ap.tool == row.tool && ap.key == row.key && ap.fingerprint == row.fingerprint
    && (ap.activeSlot.Some? <==> ap.consumedAt.None? && ap.revokedAt.None?)
    && (ap.activeSlot.Some? ==> ap.activeSlot.value == ap.call)
    && (ap.consumedAt.Some? ==> ap.consumedAt.value < ap.expiresAt)
  }

  predicate ApprovalsOk(db: Db) {
    forall a :: 0 <= a < |db.approvals| ==> ApprovalOk(db, a)
  }

  /** The unique constraint on the slot column. */
  predicate UniqueSlots(approvals: seq<Approval>) {
    forall a, b :: 0 <= a < b < |approvals| && approvals[a].activeSlot.Some?
      ==> approvals[a].activeSlot != approvals[b].activeSlot
  }

  /** The approval a request has spent and not yet used for an invocation. */
  function Held(pc: Pc): Option<ApprovalId> {
    match pc
    case RecordDecision(_, _, _, grant) => grant
    case MarkAuthorized(_, grant) => grant
    case MarkExecuting(_, grant) => grant
    case MarkRetrying(_, grant) => grant
    case Invoke(_, grant, _) => grant
    case _ => None
  }

  /** The request will invoke the handler unless it dies. */
  predicate WillInvoke(pc: Pc) {
    match pc
    case RecordDecision(_, purpose, decision, _) => decision == Allowed && Executes(purpose)
    case MarkAuthorized(_, _) => true
    case MarkExecuting(_, _) => true
    case MarkRetrying(_, _) => true
    case Invoke(_, _, _) => true
    case _ => false
  }

  predicate ConsumedFor(db: Db, a: ApprovalId, c: CallId) {
    a < |db.approvals| && db.approvals[a].call == c && db.approvals[a].consumedAt.Some?
  }

  predicate EventBacked(w: World, e: Event) {
    e.Invoked? ==>
      && e.call < |w.db.calls|
      && (w.db.calls[e.call].effect == ExternalWrite ==> e.approval.Some?)
      && (e.approval.Some? ==> ConsumedFor(w.db, e.approval.value, e.call))
  }

  predicate LogBacked(w: World) {
    forall i :: 0 <= i < |w.log| ==> EventBacked(w, w.log[i])
  }

  /** No approval stands behind two invocations. */
  predicate DistinctGrants(log: seq<Event>) {
    forall i, j :: 0 <= i < j < |log| && log[i].Invoked? && log[j].Invoked? && log[i].approval.Some?
      ==> log[i].approval != log[j].approval
  }

  predicate Unused(log: seq<Event>, a: ApprovalId) {
    forall i :: 0 <= i < |log| && log[i].Invoked? ==> log[i].approval != Some(a)
  }

  predicate PcBacked(w: World, pc: Pc) {
    && (Held(pc).Some? ==> ConsumedFor(w.db, Held(pc).value, pc.call) && Unused(w.log, Held(pc).value))
    && (WillInvoke(pc) && External(w, pc.call) ==> Held(pc).Some?)
    && (pc.SelectApproval? || pc.SpendApproval? ==> Executes(pc.purpose))
    && (pc.SpendApproval? ==> pc.chosen < |w.db.approvals| && w.db.approvals[pc.chosen].call == pc.call)
  }

  predicate SessionsBacked(sys: Sys) {
    && (forall x :: x in sys.actors ==> PcBacked(sys.w, sys.actors[x]))
    && (forall x, y :: x in sys.actors && y in sys.actors && x != y && Held(sys.actors[x]).Some?
          ==> Held(sys.actors[x]) != Held(sys.actors[y]))
  }

  predicate Safe(sys: Sys) {
    && TableOk(sys) && PoliciesRequireApproval(sys.w.db)
    && LogBacked(sys.w) && DistinctGrants(sys.w.log)
    && SessionsBacked(sys)
  }

  // ---------------------------------------------------------------- one step keeps it

  /** Spending and granting: the rows they write and the one a grant adds. */
  lemma WritingKeepsApprovalsOk(reg: Registry, w: World, pc: Pc, inp: Input, a: ApprovalId)
    requires Enabled(w, pc) && ApprovalsOk(w.db) && (pc.SpendApproval? || pc.GrantApproval?)
    requires a < |Step(reg, w, pc, inp).0.db.approvals|
    ensures ApprovalOk(Step(reg, w, pc, inp).0.db, a)
  {
    if a < |w.db.approvals| { assert ApprovalOk(w.db, a); }
  }

  lemma StepKeepsApprovalsOk(reg: Registry, w: World, pc: Pc, inp: Input)
    requires Enabled(w, pc) && ApprovalsOk(w.db)
    ensures ApprovalsOk(Step(reg, w, pc, inp).0.db)
  {
    hide Step;
    var w' := Step(reg, w, pc, inp).0;
    forall a: nat | a < |w'.db.approvals|
      ensures ApprovalOk(w'.db, a)
    {
      if pc.SpendApproval? || pc.GrantApproval? {
        WritingKeepsApprovalsOk(reg, w, pc, inp, a);
      } else {
        StepLeavesApprovals(reg, w, pc, inp);
        assert ApprovalOk(w.db, a);
        StepKeepsCalls(reg, w, pc, inp, w.db.approvals[a].call);
      }
    }
  }

  lemma StepKeepsUniqueSlots(reg: Registry, w: World, pc: Pc, inp: Input)
    requires Enabled(w, pc) && UniqueSlots(w.db.approvals)
    ensures UniqueSlots(Step(reg, w, pc, inp).0.db.approvals)
  {
  }

  lemma StepKeepsConsumed(reg: Registry, w: World, pc: Pc, inp: Input, a: ApprovalId, c: CallId)
    requires Enabled(w, pc) && ConsumedFor(w.db, a, c)
    ensures ConsumedFor(Step(reg, w, pc, inp).0.db, a, c)
  {
  }

  lemma StepKeepsEventBacked(reg: Registry, w: World, pc: Pc, inp: Input, e: Event)
    requires Enabled(w, pc) && EventBacked(w, e)
    ensures EventBacked(Step(reg, w, pc, inp).0, e)
  {
    hide Step;
    if e.Invoked? {
      StepKeepsCalls(reg, w, pc, inp, e.call);
      if e.approval.Some? { StepKeepsConsumed(reg, w, pc, inp, e.approval.value, e.call); }
    }
  }

  lemma StepKeepsDistinctGrants(reg: Registry, w: World, pc: Pc, inp: Input)
    requires Enabled(w, pc) && DistinctGrants(w.log) && PcBacked(w, pc)
    ensures DistinctGrants(Step(reg, w, pc, inp).0.log)
  {
  }

  lemma StepKeepsLogBacked(reg: Registry, w: World, pc: Pc, inp: Input)
    requires Enabled(w, pc) && LogBacked(w) && PcBacked(w, pc)
    ensures LogBacked(Step(reg, w, pc, inp).0)
  {
    var w' := Step(reg, w, pc, inp).0;
    StepAddsOneEvent(reg, w, pc, inp);
    forall i | 0 <= i < |w'.log|
      ensures EventBacked(w', w'.log[i])
    {
      if i < |w.log| {
        assert w'.log[i] == w.log[i];
        StepKeepsEventBacked(reg, w, pc, inp, w.log[i]);
      }
    }
  }

  /** What a request holds next was held before, or is the approval it has just spent. */
  predicate GrantMoved(w: World, pc: Pc, w': World, pc': Pc)
    requires !pc.Done? && (pc.SpendApproval? ==> pc.chosen < |w.db.approvals|)
  {
    Held(pc').Some? ==> (
      || (Held(pc') == Held(pc) && pc'.call == pc.call && !pc.Invoke?)
      || (pc.SpendApproval? && Held(pc') == Some(pc.chosen) && pc'.call == pc.call
          && w.db.approvals[pc.chosen].consumedAt.None?
          && ConsumedFor(w'.db, pc.chosen, pc.call)))
  }

  lemma StepMovesGrantWhileDeciding(reg: Registry, w: World, pc: Pc, inp: Input)
    requires Deciding(pc) && Enabled(w, pc) && PcBacked(w, pc)
    ensures GrantMoved(w, pc, Step(reg, w, pc, inp).0, Step(reg, w, pc, inp).1)
  {
  }

  lemma StepMovesGrantOtherwise(reg: Registry, w: World, pc: Pc, inp: Input)
    requires !Deciding(pc) && Enabled(w, pc) && PcBacked(w, pc)
    ensures GrantMoved(w, pc, Step(reg, w, pc, inp).0, Step(reg, w, pc, inp).1)
  {
  }

  lemma {:induction false} StepMovesGrant(reg: Registry, w: World, pc: Pc, inp: Input)
    requires Enabled(w, pc) && PcBacked(w, pc)
    ensures GrantMoved(w, pc, Step(reg, w, pc, inp).0, Step(reg, w, pc, inp).1)
  {
    hide Step;
    if Deciding(pc) { StepMovesGrantWhileDeciding(reg, w, pc, inp); } else { StepMovesGrantOtherwise(reg, w, pc, inp); }
  }

  /** The call is an external write. */
  predicate External(w: World, c: CallId) {
    c < |w.db.calls| && w.db.calls[c].effect == ExternalWrite
  }

  /** The positions from which a step can lead on to an invocation. */
  predicate FeedsInvocation(pc: Pc) {
    pc.Decide? || pc.SpendApproval? || (WillInvoke(pc) && !pc.Invoke?)
  }

  lemma StepFeedsInvocation(reg: Registry, w: World, pc: Pc, inp: Input)
    requires Enabled(w, pc)
    ensures WillInvoke(Step(reg, w, pc, inp).1) ==> FeedsInvocation(pc)
  {
  }

  /** Where approval is required, a request is only sent on to invoke an external write with a grant. */
  lemma StepRequiresGrant(reg: Registry, w: World, pc: Pc, inp: Input)
    requires Enabled(w, pc) && PcBacked(w, pc) && PoliciesRequireApproval(w.db)
    ensures var pc' := Step(reg, w, pc, inp).1;
            WillInvoke(pc') ==> !pc.Submit? && pc'.call == pc.call && (External(w, pc.call) ==> Held(pc').Some?)
  {
    StepFeedsInvocation(reg, w, pc, inp);
    if FeedsInvocation(pc) {
      match pc
      case Decide(c, purpose) => assert w.db.policies[w.db.calls[c].task].externalWritesRequireApproval;
      case SpendApproval(_, _, _, _) =>
      case RecordDecision(_, purpose, _, _) =>
      case MarkAuthorized(_, _) =>
      case MarkExecuting(_, _) =>
      case MarkRetrying(_, _) =>
    }
  }

  /** An approval is only looked for by a request that executes, and among the approvals of its call. */
  lemma StepChoosesOwnApproval(reg: Registry, w: World, pc: Pc, inp: Input)
    requires Enabled(w, pc) && PcBacked(w, pc)
    ensures var pc' := Step(reg, w, pc, inp).1;
            && (pc'.SelectApproval? || pc'.SpendApproval? ==> Executes(pc'.purpose))
            && (pc'.SpendApproval? ==>
                  pc'.chosen < |w.db.approvals| && w.db.approvals[pc'.chosen].call == pc'.call)
  {
  }

  /** An approval not consumed yet has backed no invocation. */
  lemma OpenIsUnused(w: World, a: ApprovalId)
    requires LogBacked(w) && a < |w.db.approvals| && w.db.approvals[a].consumedAt.None?
    ensures Unused(w.log, a)
  {
  }

  lemma {:induction false} StepKeepsPcBacked(reg: Registry, w: World, pc: Pc, inp: Input)
    requires Enabled(w, pc) && PcBacked(w, pc) && LogBacked(w) && PoliciesRequireApproval(w.db)
    ensures var (w', pc') := Step(reg, w, pc, inp); PcBacked(w', pc')
  {
    var (w', pc') := Step(reg, w, pc, inp);
    StepMovesGrant(reg, w, pc, inp);
    StepRequiresGrant(reg, w, pc, inp);
    StepChoosesOwnApproval(reg, w, pc, inp);
    StepAddsOneEvent(reg, w, pc, inp);
    StepKeepsTarget(reg, w, pc, inp);
    if Held(pc').Some? {
      if Held(pc') == Held(pc) { StepKeepsConsumed(reg, w, pc, inp, Held(pc).value, pc.call); }
      else { OpenIsUnused(w, pc.chosen); }
      forall i | 0 <= i < |w'.log| && w'.log[i].Invoked?
        ensures w'.log[i].approval != Held(pc')
      {
        if i < |w.log| { assert w'.log[i] == w.log[i]; }
      }
    }
    if WillInvoke(pc') { StepKeepsCalls(reg, w, pc, inp, pc'.call); }
    if pc'.SpendApproval? { StepKeepsApprovals(reg, w, pc, inp, pc'.chosen); }
  }

  /** An approval that the stepping request does not hold stays unused. */
  lemma StepKeepsUnused(reg: Registry, w: World, pc: Pc, inp: Input, a: ApprovalId)
    requires Enabled(w, pc) && Unused(w.log, a) && Held(pc) != Some(a)
    ensures Unused(Step(reg, w, pc, inp).0.log, a)
  {
    var w' := Step(reg, w, pc, inp).0;
    StepAddsOneEvent(reg, w, pc, inp);
    forall i | 0 <= i < |w'.log| && w'.log[i].Invoked?
      ensures w'.log[i].approval != Some(a)
    {
      if i < |w.log| { assert w'.log[i] == w.log[i]; }
    }
  }

  /** The requests that do not step keep what they hold. */
  lemma {:induction false} StepKeepsOthersBacked(reg: Registry, w: World, pc: Pc, inp: Input, other: Pc)
    requires Enabled(w, pc) && Enabled(w, other) && PcBacked(w, pc) && PcBacked(w, other)
    requires Held(other).Some? ==> Held(other) != Held(pc)
    ensures PcBacked(Step(reg, w, pc, inp).0, other)
  {
    hide Step;
    if Held(other).Some? {
      StepKeepsConsumed(reg, w, pc, inp, Held(other).value, other.call);
      StepKeepsUnused(reg, w, pc, inp, Held(other).value);
    }
    if WillInvoke(other) { StepKeepsCalls(reg, w, pc, inp, other.call); }
    if other.SpendApproval? { StepKeepsApprovals(reg, w, pc, inp, other.chosen); }
  }

  lemma {:induction false} ActKeepsSessionsBacked(reg: Registry, sys: Sys, x: ActorId, inp: Input)
    requires Safe(sys) && x in sys.actors
    ensures SessionsBacked(Moved(reg, sys, Act(x, inp)))
  {
    hide Step;
    var pc := sys.actors[x];
    var sys' := Moved(reg, sys, Act(x, inp));
    StepKeepsPcBacked(reg, sys.w, pc, inp);
    StepMovesGrant(reg, sys.w, pc, inp);
    forall y | y in sys'.actors
      ensures PcBacked(sys'.w, sys'.actors[y])
    {
      if y != x { StepKeepsOthersBacked(reg, sys.w, pc, inp, sys.actors[y]); }
    }
    forall y, z | y in sys'.actors && z in sys'.actors && y != z && Held(sys'.actors[y]).Some?
      ensures Held(sys'.actors[y]) != Held(sys'.actors[z])
    {
      assert y != x ==> PcBacked(sys.w, sys.actors[y]);
      assert z != x ==> PcBacked(sys.w, sys.actors[z]);
    }
  }

  lemma {:induction false} MoveKeepsSafe(reg: Registry, sys: Sys, m: Move)
    requires CanMove(sys, m) && Safe(sys)
    ensures Safe(Moved(reg, sys, m))
  {
    hide Step;
    MoveKeepsTableOk(reg, sys, m);
    match m
    case Act(x, inp) =>
      var pc := sys.actors[x];
      StepKeepsPolicies(reg, sys.w, pc, inp);
      StepKeepsLogBacked(reg, sys.w, pc, inp);
      StepKeepsDistinctGrants(reg, sys.w, pc, inp);
      ActKeepsSessionsBacked(reg, sys, x, inp);
    case Begin(x, pc) =>
      assert Held(pc).None?;
      assert SessionsBacked(Moved(reg, sys, m));
    case Crash(x) =>
  }

  lemma {:induction false} AlwaysSafe(reg: Registry, sys: Sys, moves: seq<Move>)
    requires Safe(sys) && Runs(reg, sys, moves)
    ensures Safe(After(reg, sys, moves))
    decreases |moves|
  {
    if moves != [] {
      MoveKeepsSafe(reg, sys, moves[0]);
      AlwaysSafe(reg, Moved(reg, sys, moves[0]), moves[1..]);
    }
  }

  /** The part of the invariant that does not depend on what the policies say. */
  predicate TableOk(sys: Sys) {
    AllEnabled(sys) && ApprovalsOk(sys.w.db) && UniqueSlots(sys.w.db.approvals)
  }

  lemma MoveKeepsTableOk(reg: Registry, sys: Sys, m: Move)
    requires CanMove(sys, m) && TableOk(sys)
    ensures TableOk(Moved(reg, sys, m))
  {
    hide Step;
    MoveKeepsAllEnabled(reg, sys, m);
    if m.Act? {
      StepKeepsApprovalsOk(reg, sys.w, sys.actors[m.actor], m.inp);
      StepKeepsUniqueSlots(reg, sys.w, sys.actors[m.actor], m.inp);
    }
  }

  lemma {:induction false} AlwaysTableOk(reg: Registry, sys: Sys, moves: seq<Move>)
    requires TableOk(sys) && Runs(reg, sys, moves)
    ensures TableOk(After(reg, sys, moves))
    decreases |moves|
  {
    if moves != [] {
      MoveKeepsTableOk(reg, sys, moves[0]);
      AlwaysTableOk(reg, Moved(reg, sys, moves[0]), moves[1..]);
    }
  }
}
