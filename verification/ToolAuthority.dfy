/**
 What the policy of a task has to do with what its tools do. In any interleaving each request reads the
 policy row once before it acts; this module notes what it found there and shows that whatever the request
 records, invokes, writes and leaves behind is what that finding calls for.
 */
module ToolAuthority {
  import opened Common
  import opened ToolProtocol
  import opened ToolHistories

  /** What a request finds: the tool is not listed, listed but in need of an approval, or listed and free to run. */
  datatype Finding = OffList | AsksApproval | Free

  /** The finding of a request about to decide on this call, from the policy row of its task as it is now. */
  function FoundBy(policy: Policy, row: ToolCall, onlyCounts: bool): Finding {
    if row.tool !in policy.allowedTools then OffList
    else if row.effect == ExternalWrite && policy.externalWritesRequireApproval && !onlyCounts then AsksApproval
    else Free
  }

  /** A system and what each of its sessions has found since it began. */
  datatype Audited = Audited(sys: Sys, found: map<ActorId, Finding>)

  function AuditedMove(reg: Registry, a: Audited, m: Move): Audited
    requires CanMove(a.sys, m)
  {
    Audited(Moved(reg, a.sys, m),
            match m
            case Begin(x, _) => a.found - {x}
            case Crash(x) => a.found
            case Act(x, _) =>
              var pc, db := a.sys.actors[x], a.sys.w.db;
              if pc.Decide? then
                var row := db.calls[pc.call];
                a.found[x := FoundBy(db.policies[row.task], row, pc.purpose == Replay(false))]
              else a.found)
  }

  function AuditAfter(reg: Registry, a: Audited, moves: seq<Move>): Audited
    requires Runs(reg, a.sys, moves)
    decreases |moves|
  {
    if moves == [] then a else AuditAfter(reg, AuditedMove(reg, a, moves[0]), moves[1..])
  }

  lemma {:induction false} AuditFollows(reg: Registry, a: Audited, moves: seq<Move>)
    requires Runs(reg, a.sys, moves)
    ensures AuditAfter(reg, a, moves).sys == After(reg, a.sys, moves)
    decreases |moves|
  {
    if moves != [] { AuditFollows(reg, AuditedMove(reg, a, moves[0]), moves[1..]); }
  }

  // ---------------------------------------------------------------- the invariant

  /** Where a request may stand, given what it has found. */
  predicate Follows(pc: Pc, found: Option<Finding>) {
    match pc
    case SelectApproval(_, _) => found == Some(AsksApproval)
    case SpendApproval(_, _, _, _) => found == Some(AsksApproval)
    case RecordDecision(_, _, decision, grant) => found.Some? && Fitting(found.value, decision, grant)
    case Refuse(_, decision) => found.Some? && decision != Allowed && Fitting(found.value, decision, None)
    case MarkAuthorized(_, grant) => found.Some? && Fitting(found.value, Allowed, grant)
    case MarkExecuting(_, grant) => found.Some? && Fitting(found.value, Allowed, grant)
    case MarkRetrying(_, grant) => found.Some? && Fitting(found.value, Allowed, grant)
    case Invoke(_, grant, _) => found.Some? && Fitting(found.value, Allowed, grant)
    case Store(_, _, _) => found.Some? && found.value != OffList
    case CountReplay(_) => found.Some? && found.value != OffList
    case AwaitFreshApproval(_) => found == Some(AsksApproval)
    case MarkForReview(_, _) => true
    case _ => found.None?
  }

  /** The decision and grant a finding calls for. */
  predicate Fitting(found: Finding, decision: Decision, grant: Option<ApprovalId>) {
    && (decision == DeniedByPolicy <==> found == OffList)
    && (decision == RequiresApproval ==> found == AsksApproval)
    && (grant.Some? <==> found == AsksApproval && decision == Allowed)
  }

  function At<T>(found: map<ActorId, T>, x: ActorId): Option<T> {
    if x in found then Some(found[x]) else None
  }

  predicate AuditOk(a: Audited) {
    forall x :: x in a.sys.actors ==> Follows(a.sys.actors[x], At(a.found, x))
  }

  function FoundNext(w: World, pc: Pc, found: Option<Finding>): Option<Finding>
    requires Enabled(w, pc)
  {
    if pc.Decide? then
      var row := w.db.calls[pc.call];
      Some(FoundBy(w.db.policies[row.task], row, pc.purpose == Replay(false)))
    else found
  }

  lemma DecidingFollows(reg: Registry, w: World, pc: Pc, inp: Input, found: Option<Finding>)
    requires Enabled(w, pc) && Deciding(pc) && Follows(pc, found)
    ensures var pc' := Step(reg, w, pc, inp).1; pc'.Done? || Follows(pc', FoundNext(w, pc, found))
  {
  }

  lemma AttemptingFollows(reg: Registry, w: World, pc: Pc, inp: Input, found: Option<Finding>)
    requires Enabled(w, pc) && Attempting(pc) && Follows(pc, found)
    ensures var pc' := Step(reg, w, pc, inp).1; pc'.Done? || Follows(pc', FoundNext(w, pc, found))
  {
  }

  lemma RecoveringFollows(reg: Registry, w: World, pc: Pc, inp: Input, found: Option<Finding>)
    requires Enabled(w, pc) && !Deciding(pc) && !Attempting(pc) && Follows(pc, found)
    ensures var pc' := Step(reg, w, pc, inp).1; pc'.Done? || Follows(pc', FoundNext(w, pc, found))
  {
  }

  lemma {:induction false} StepFollows(reg: Registry, w: World, pc: Pc, inp: Input, found: Option<Finding>)
    requires Enabled(w, pc) && Follows(pc, found)
    ensures var pc' := Step(reg, w, pc, inp).1; pc'.Done? || Follows(pc', FoundNext(w, pc, found))
  {
    hide Step, Follows;
    if Deciding(pc) { DecidingFollows(reg, w, pc, inp, found); }
    else if Attempting(pc) { AttemptingFollows(reg, w, pc, inp, found); }
    else { RecoveringFollows(reg, w, pc, inp, found); }
  }

  lemma {:induction false} MoveKeepsAudit(reg: Registry, a: Audited, m: Move)
    requires CanMove(a.sys, m) && AuditOk(a)
    ensures AuditOk(AuditedMove(reg, a, m))
  {
    hide Step, Follows;
    if m.Act? { StepFollows(reg, a.sys.w, a.sys.actors[m.actor], m.inp, At(a.found, m.actor)); }
    else if m.Begin? { assert Follows(m.pc, None) by { BeginsWithoutFinding(m.pc); } }
  }

  lemma BeginsWithoutFinding(pc: Pc)
    requires IsRequest(pc)
    ensures Follows(pc, None)
  {
    hide Step;
  }

  lemma {:induction false} AlwaysAudited(reg: Registry, a: Audited, moves: seq<Move>)
    requires AuditOk(a) && Runs(reg, a.sys, moves)
    ensures AuditOk(AuditAfter(reg, a, moves))
    decreases |moves|
  {
    hide Step;
    if moves != [] {
      MoveKeepsAudit(reg, a, moves[0]);
      AlwaysAudited(reg, AuditedMove(reg, a, moves[0]), moves[1..]);
    }
  }

  // ---------------------------------------------------------------- what follows from a finding

  lemma {:induction false} AuditedHistory(reg: Registry, sys: Sys, moves: seq<Move>, x: ActorId, inp: Input)
      returns (now: Sys, found: Option<Finding>)
    requires Initial(sys) && Runs(reg, sys, moves) && CanMove(After(reg, sys, moves), Act(x, inp))
    ensures now == After(reg, sys, moves) && found == At(AuditAfter(reg, Audited(sys, map[]), moves).found, x)
    ensures x in now.actors && Enabled(now.w, now.actors[x]) && Follows(now.actors[x], found)
  {
    hide Step, Follows;
    AuditFollows(reg, Audited(sys, map[]), moves);
    AlwaysAudited(reg, Audited(sys, map[]), moves);
    now, found := After(reg, sys, moves), At(AuditAfter(reg, Audited(sys, map[]), moves).found, x);
  }

  lemma StepAuthorizes(reg: Registry, w: World, pc: Pc, inp: Input)
    requires Enabled(w, pc)
    ensures Step(reg, w, pc, inp).0.db.authorizations
            == if pc.RecordDecision? then w.db.authorizations + [Authorization(pc.call, pc.decision, pc.grant)]
               else w.db.authorizations
  {
  }

  /**
   In every interleaving, an authorization row is only written by a request that has read its policy. It
   says denied exactly when the tool was not listed; allowed without an approval when the tool was listed and
   free to run; and where an approval was asked for, allowed exactly with one.
   */
  lemma {:induction false} AuthorizationsFollowThePolicy(reg: Registry, sys: Sys, moves: seq<Move>, x: ActorId,
      inp: Input)
    requires Initial(sys) && Runs(reg, sys, moves) && CanMove(After(reg, sys, moves), Act(x, inp))
    ensures var now, found := After(reg, sys, moves), AuditAfter(reg, Audited(sys, map[]), moves).found;
            var before, after := now.w.db.authorizations, Moved(reg, now, Act(x, inp)).w.db.authorizations;
            after != before ==>
              && x in found && |after| == |before| + 1 && after[..|before|] == before
              && var row := after[|before|];
              && (row.decision == DeniedByPolicy <==> found[x] == OffList)
              && (found[x] == Free ==> row.decision == Allowed && row.approval.None?)
              && (found[x] == AsksApproval ==> (row.decision == Allowed <==> row.approval.Some?))
  {
    hide Step, AuditAfter, After;
    var now, found := AuditedHistory(reg, sys, moves, x, inp);
    StepAuthorizes(reg, now.w, now.actors[x], inp);
  }

  lemma StepExecutes(reg: Registry, w: World, pc: Pc, inp: Input)
    requires Enabled(w, pc)
    ensures var w' := Step(reg, w, pc, inp).0;
            && (w'.db.internalWrites != w.db.internalWrites ==> pc.Store?)
            && (|w'.log| == |w.log| + 1 && w'.log[|w.log|].Invoked? ==> pc.Invoke? && w'.log[|w.log|].approval == pc.grant)
            && (w'.log == w.log || |w'.log| == |w.log| + 1)
  {
  }

  /**
   In every interleaving, the handler is invoked and a business write committed only by a request that found
   the tool listed when it decided; and where it found that an approval was needed, it invokes with one.
   */
  lemma {:induction false} OnlyListedToolsRun(reg: Registry, sys: Sys, moves: seq<Move>, x: ActorId, inp: Input)
    requires Initial(sys) && Runs(reg, sys, moves) && CanMove(After(reg, sys, moves), Act(x, inp))
    ensures var now, found := After(reg, sys, moves), AuditAfter(reg, Audited(sys, map[]), moves).found;
            var w, w' := now.w, Moved(reg, now, Act(x, inp)).w;
            && (w'.db.internalWrites != w.db.internalWrites ==> x in found && found[x] != OffList)
            && (w'.log != w.log && w'.log[|w'.log| - 1].Invoked? ==>
                  x in found && found[x] != OffList
                  && (found[x] == AsksApproval <==> w'.log[|w'.log| - 1].approval.Some?))
  {
    hide Step, AuditAfter, After;
    var now, found := AuditedHistory(reg, sys, moves, x, inp);
    StepExecutes(reg, now.w, now.actors[x], inp);
  }

  lemma RefusedEnds(reg: Registry, w: World, pc: Pc, inp: Input)
    requires Enabled(w, pc) && Follows(pc, Some(OffList))
    ensures var (w', pc') := Step(reg, w, pc, inp);
            pc'.Done? ==> (
              || pc' == Done(ReplayRefused)
              || (pc.call < |w'.db.calls| && pc' == Done(Finished(pc.call, false)) && w'.db.calls[pc.call].status == Denied)
              || (pc.call < |w'.db.calls| && pc' == Done(RecoveryDone(pc.call)) && w'.db.calls[pc.call].status == NeedsReview))
  {
  }

  /**
   In every interleaving, a request that found its tool off the list ends in one of three ways: a replay is
   refused, a first submission leaves its call denied, a recovery leaves its call for review.
   */
  lemma {:induction false} OffListEndsRefused(reg: Registry, sys: Sys, moves: seq<Move>, x: ActorId, inp: Input)
    requires Initial(sys) && Runs(reg, sys, moves) && CanMove(After(reg, sys, moves), Act(x, inp))
    ensures var now, found := After(reg, sys, moves), AuditAfter(reg, Audited(sys, map[]), moves).found;
            var (w', pc') := Step(reg, now.w, now.actors[x], inp);
            x in found && found[x] == OffList && pc'.Done? ==>
              var outcome, calls := pc'.outcome, w'.db.calls;
              || outcome == ReplayRefused
              || (outcome.Finished? && outcome.call < |calls| && calls[outcome.call].status == Denied)
              || (outcome.RecoveryDone? && outcome.call < |calls| && calls[outcome.call].status == NeedsReview)
  {
    hide Step, AuditAfter, After;
    var now, found := AuditedHistory(reg, sys, moves, x, inp);
    if found == Some(OffList) {
      RefusedEnds(reg, now.w, now.actors[x], inp);
    }
  }
}
