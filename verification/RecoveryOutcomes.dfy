/**
 What a recovery makes of a call, by the status it finds and the answer of the adapter, and what the two
 administrative requests do: granting an approval and changing a policy. Each is alone on its rows and lives
 to its end; what is said is said of the rows and the log before and after.
 */
module RecoveryOutcomes {
  import opened Common
  import opened ToolProtocol
  import opened ToolHistories
  import opened ToolRuntime
  import opened ToolOutcomes
  import opened ApprovalSafety

  // ---------------------------------------------------------------- the last commit of a recovery

  lemma {:induction false} ReviewEnds(reg: Registry, w: World, c: CallId, reason: string, env: nat -> Input,
      tick: nat, n: nat)
    requires Enabled(w, MarkForReview(c, reason)) && Run(reg, w, MarkForReview(c, reason), env, tick, n).pc.Done?
    ensures var s := Run(reg, w, MarkForReview(c, reason), env, tick, n);
            s.pc == Done(RecoveryDone(c)) && Marked(w, c, NeedsReview, s.w)
  {
    hide Run;
    RunSteps(reg, w, MarkForReview(c, reason), env, tick, n);
    StandsStill(reg, Step(reg, w, MarkForReview(c, reason), env(tick)).0, Done(RecoveryDone(c)), env, tick + 1, n - 1);
  }

  lemma {:induction false} WaitingEnds(reg: Registry, w: World, c: CallId, env: nat -> Input, tick: nat, n: nat)
    requires Enabled(w, AwaitFreshApproval(c)) && Run(reg, w, AwaitFreshApproval(c), env, tick, n).pc.Done?
    ensures var s := Run(reg, w, AwaitFreshApproval(c), env, tick, n);
            s.pc == Done(RecoveryDone(c)) && Marked(w, c, AwaitingApproval, s.w)
  {
    hide Run;
    RunSteps(reg, w, AwaitFreshApproval(c), env, tick, n);
    StandsStill(reg, Step(reg, w, AwaitFreshApproval(c), env(tick)).0, Done(RecoveryDone(c)), env, tick + 1, n - 1);
  }

  lemma {:induction false} PendingEnds(reg: Registry, w: World, c: CallId, env: nat -> Input, tick: nat, n: nat)
    requires Enabled(w, KeepPending(c)) && Run(reg, w, KeepPending(c), env, tick, n).pc.Done?
    ensures var s := Run(reg, w, KeepPending(c), env, tick, n);
            s.pc == Done(RecoveryDone(c)) && Marked(w, c, OutcomeUnknown, s.w)
  {
    hide Run;
    RunSteps(reg, w, KeepPending(c), env, tick, n);
    StandsStill(reg, Step(reg, w, KeepPending(c), env(tick)).0, Done(RecoveryDone(c)), env, tick + 1, n - 1);
  }

  /** The provider's result is the result of the call. */
  predicate Confirmed(w: World, c: CallId, output: Option<string>, w': World) {
    && c < |w.db.calls| && w'.log == w.log
    && w'.db == w.db.(calls := w.db.calls[c := w.db.calls[c].(status := Succeeded, output := output, error := None)])
  }

  lemma {:induction false} ConfirmationEnds(reg: Registry, w: World, c: CallId, output: Option<string>,
      env: nat -> Input, tick: nat, n: nat)
    requires Enabled(w, StoreReconciled(c, output)) && Run(reg, w, StoreReconciled(c, output), env, tick, n).pc.Done?
    ensures var s := Run(reg, w, StoreReconciled(c, output), env, tick, n);
            s.pc == Done(RecoveryDone(c)) && Confirmed(w, c, output, s.w)
  {
    hide Run;
    RunSteps(reg, w, StoreReconciled(c, output), env, tick, n);
    StandsStill(reg, Step(reg, w, StoreReconciled(c, output), env(tick)).0, Done(RecoveryDone(c)), env, tick + 1, n - 1);
  }

  lemma {:induction false} AbandoningEnds(reg: Registry, w: World, c: CallId, env: nat -> Input, tick: nat, n: nat)
    requires Enabled(w, MarkUnknown(c)) && Run(reg, w, MarkUnknown(c), env, tick, n).pc.Done?
    ensures var s := Run(reg, w, MarkUnknown(c), env, tick, n);
            s.pc == Done(RecoveryDone(c)) && Marked(Left(w, c), c, OutcomeUnknown, s.w)
  {
    hide Run;
    RunSteps(reg, w, MarkUnknown(c), env, tick, n);
    StandsStill(reg, Step(reg, w, MarkUnknown(c), env(tick)).0, Done(RecoveryDone(c)), env, tick + 1, n - 1);
  }

  /** An attempt found executing is abandoned. */
  function Left(w: World, c: CallId): World
    requires c < |w.db.calls|
  {
    var row := w.db.calls[c];
    w.(log := w.log + if row.status == Executing then [Abandoned(c, row.attempts)] else [])
  }

  // ---------------------------------------------------------------- reconciliation

  /** The outcome of this call can be asked for. */
  predicate Askable(reg: Registry, row: ToolCall) {
    row.tool in reg && reg[row.tool].hasReconciler && row.providerId.Some?
  }

  function Asked(w: World, c: CallId, answer: Answer): World
    requires c < |w.db.calls| && w.db.calls[c].providerId.Some?
  {
    w.(log := w.log + [Answered(c, w.db.calls[c].providerId.value, answer)])
  }

  lemma {:induction false} AskingEnds(reg: Registry, w: World, c: CallId, env: nat -> Input, tick: nat, n: nat)
    requires c < |w.db.calls| && w.db.calls[c].status == OutcomeUnknown && Askable(reg, w.db.calls[c])
    requires Run(reg, w, Recover(c), env, tick, n).pc.Done?
    ensures n > 1
    ensures var answer := env(tick + 1).answer;
            var next := match answer
                        case SaysSucceeded(output) => StoreReconciled(c, output)
                        case SaysNotFound => EnsurePolicy(c, Reconciled)
                        case _ => KeepPending(c);
            Run(reg, w, Recover(c), env, tick, n) == Run(reg, Asked(w, c, answer), next, env, tick + 2, n - 2)
  {
    hide Run;
    RunSteps(reg, w, Recover(c), env, tick, n);
    RunSteps(reg, w, Reconcile(c), env, tick + 1, n - 1);
  }

  /**
   A call whose outcome is unknown and can be asked for. What the adapter says settles it: a success is the
   result of the call, with that output; no answer about the operation leaves everything but the error text
   as it was.
   */
  lemma {:induction false} ReconciliationEnds(reg: Registry, w: World, c: CallId, env: nat -> Input, tick: nat, n: nat)
    requires c < |w.db.calls| && w.db.calls[c].status == OutcomeUnknown && Askable(reg, w.db.calls[c])
    requires Run(reg, w, Recover(c), env, tick, n).pc.Done? && !env(tick + 1).answer.SaysNotFound?
    ensures var s, answer := Run(reg, w, Recover(c), env, tick, n), env(tick + 1).answer;
            && s.pc == Done(RecoveryDone(c))
            && (answer.SaysSucceeded? ==> Confirmed(Asked(w, c, answer), c, answer.output, s.w))
            && (!answer.SaysSucceeded? ==> Marked(Asked(w, c, answer), c, OutcomeUnknown, s.w))
  {
    hide Run, Step;
    var answer := env(tick + 1).answer;
    AskingEnds(reg, w, c, env, tick, n);
    if answer.SaysSucceeded? { ConfirmationEnds(reg, Asked(w, c, answer), c, answer.output, env, tick + 2, n - 2); }
    else { PendingEnds(reg, Asked(w, c, answer), c, env, tick + 2, n - 2); }
  }

  /**
   Told that the provider does not know the operation, a recovery decides again: off the list the call needs
   review, for want of an approval it waits for one, and only allowed is it tried once more.
   */
  lemma {:induction false} RetryAfterNotFoundEnds(reg: Registry, w: World, c: CallId, env: nat -> Input,
      tick: nat, n: nat)
      returns (decision: Decision, grant: Option<ApprovalId>, decided: World, t: nat)
    requires c < |w.db.calls| && w.db.calls[c].status == OutcomeUnknown && Askable(reg, w.db.calls[c])
    requires Run(reg, w, Recover(c), env, tick, n).pc.Done? && env(tick + 1).answer.SaysNotFound?
    ensures Decided(reg, Asked(w, c, SaysNotFound), c, true, env(tick + 4).now, decision, grant, decided)
    ensures var s := Run(reg, w, Recover(c), env, tick, n);
            && s.pc == Done(RecoveryDone(c))
            && (decision == DeniedByPolicy ==> Marked(decided, c, NeedsReview, s.w))
            && (decision == RequiresApproval ==> Marked(decided, c, AwaitingApproval, s.w))
            && (decision == Allowed ==> Attempted(decided, c, w.db.calls[c].attempts + 1, grant, env(t).execution, s.w))
  {
    hide Run, Step, Decided, Attempted, Marked;
    var asked := Asked(w, c, SaysNotFound);
    AskingEnds(reg, w, c, env, tick, n);
    var t', n';
    decision, grant, decided, t', n' := AuthorizationEnds(reg, asked, c, Reconciled, env, tick + 2, n - 2);
    DecidedKeepsCalls(reg, asked, c, true, env(tick + 4).now, decision, grant, decided);
    t := t' + 1;
    match decision
    case Allowed => RetryEnds(reg, decided, c, grant, env, t', n');
    case RequiresApproval => WaitingEnds(reg, decided, c, env, t', n');
    case DeniedByPolicy => ReviewEnds(reg, decided, c, "retry authorization failed", env, t', n');
  }

  /** Reconciliation alone makes a call succeeded exactly when the adapter says so, and never by invoking it. */
  lemma {:induction false} SucceedsByReconciliationIff(reg: Registry, w: World, c: CallId, env: nat -> Input,
      tick: nat, n: nat)
    requires c < |w.db.calls| && w.db.calls[c].status == OutcomeUnknown && Askable(reg, w.db.calls[c])
    requires Run(reg, w, Recover(c), env, tick, n).pc.Done?
    ensures var s, answer := Run(reg, w, Recover(c), env, tick, n), env(tick + 1).answer;
            && c < |s.w.db.calls| && |w.log| < |s.w.log| && s.w.log[..|w.log|] == w.log
            && var row, row' := w.db.calls[c], s.w.db.calls[c];
            && s.w.log[|w.log|] == Answered(c, row.providerId.value, answer)
            && (|s.w.log| == |w.log| + 1 && row'.status == Succeeded <==> answer.SaysSucceeded?)
            && (answer.SaysSucceeded? ==> row'.output == answer.output && row'.error.None? && row'.attempts == row.attempts)
            && (answer.SaysPending? || answer.SaysUnknown? || answer.AdapterFailed? ==>
                  && row'.status == OutcomeUnknown && row'.attempts == row.attempts && row'.providerId == row.providerId
                  && |s.w.log| == |w.log| + 1)
  {
    hide Run, Step;
    if env(tick + 1).answer.SaysNotFound? {
      var decision, grant, decided, t := RetryAfterNotFoundEnds(reg, w, c, env, tick, n);
    } else {
      ReconciliationEnds(reg, w, c, env, tick, n);
    }
  }

  // ---------------------------------------------------------------- the other recoveries

  /** A call that nobody can decide about is handed to a person. */
  predicate OnlyReview(reg: Registry, row: ToolCall) {
    || row.status == Proposed
    || (row.status == OutcomeUnknown && !Askable(reg, row))
    || (row.status != OutcomeUnknown && row.effect != ExternalWrite && row.tool !in reg)
  }

  lemma {:induction false} ReviewedRecoveryEnds(reg: Registry, w: World, c: CallId, env: nat -> Input,
      tick: nat, n: nat)
    requires c < |w.db.calls| && OnlyReview(reg, w.db.calls[c]) && Run(reg, w, Recover(c), env, tick, n).pc.Done?
    ensures var s := Run(reg, w, Recover(c), env, tick, n);
            s.pc == Done(RecoveryDone(c)) && Marked(w, c, NeedsReview, s.w)
  {
    hide Run;
    RunSteps(reg, w, Recover(c), env, tick, n);
    var pc1 := Step(reg, w, Recover(c), env(tick)).1;
    if pc1.MarkForReview? { ReviewEnds(reg, w, c, pc1.reason, env, tick + 1, n - 1); }
    else {
      RunSteps(reg, w, Reconcile(c), env, tick + 1, n - 1);
      var pc2 := Step(reg, w, Reconcile(c), env(tick + 1)).1;
      ReviewEnds(reg, w, c, pc2.reason, env, tick + 2, n - 2);
    }
  }

  /** An external write that may have been sent is never retried, only marked unknown. */
  lemma {:induction false} ExternalRecoveryEnds(reg: Registry, w: World, c: CallId, env: nat -> Input,
      tick: nat, n: nat)
    requires c < |w.db.calls| && w.db.calls[c].effect == ExternalWrite
    requires w.db.calls[c].status != Proposed && w.db.calls[c].status != OutcomeUnknown
    requires Run(reg, w, Recover(c), env, tick, n).pc.Done?
    ensures var s := Run(reg, w, Recover(c), env, tick, n);
            s.pc == Done(RecoveryDone(c)) && Marked(Left(w, c), c, OutcomeUnknown, s.w)
  {
    hide Run;
    RunSteps(reg, w, Recover(c), env, tick, n);
    AbandoningEnds(reg, w, c, env, tick + 1, n - 1);
  }

  /** A read or an internal write is tried again when its task's policy still lists it, and reviewed otherwise. */
  lemma {:induction false} RepeatedRecoveryEnds(reg: Registry, w: World, c: CallId, env: nat -> Input,
      tick: nat, n: nat)
      returns (decision: Decision, grant: Option<ApprovalId>, decided: World, t: nat)
    requires c < |w.db.calls| && w.db.calls[c].effect != ExternalWrite && w.db.calls[c].tool in reg
    requires w.db.calls[c].status != Proposed && w.db.calls[c].status != OutcomeUnknown
    requires Run(reg, w, Recover(c), env, tick, n).pc.Done?
    ensures Decided(reg, w, c, true, env(tick + 3).now, decision, grant, decided) && decision != RequiresApproval
    ensures var s := Run(reg, w, Recover(c), env, tick, n);
            && s.pc == Done(RecoveryDone(c))
            && (decision == DeniedByPolicy ==> Marked(decided, c, NeedsReview, s.w))
            && (decision == Allowed ==> Attempted(decided, c, w.db.calls[c].attempts + 1, grant, env(t).execution, s.w))
  {
    hide Run, Step, Attempted, Marked;
    RecoveryRepeats(reg, w, c, env, tick, n);
    var t', n';
    decision, grant, decided, t', n' := AuthorizationEnds(reg, w, c, Recovery, env, tick + 1, n - 1);
    t := t' + 1;
    match decision
    case Allowed => RetryEnds(reg, decided, c, grant, env, t', n');
    case DeniedByPolicy => ReviewEnds(reg, decided, c, "recovery authorization failed", env, t', n');
  }

  lemma {:induction false} RecoveryRepeats(reg: Registry, w: World, c: CallId, env: nat -> Input, tick: nat, n: nat)
    requires c < |w.db.calls| && w.db.calls[c].effect != ExternalWrite && w.db.calls[c].tool in reg
    requires w.db.calls[c].status != Proposed && w.db.calls[c].status != OutcomeUnknown
    requires Run(reg, w, Recover(c), env, tick, n).pc.Done?
    ensures n > 0 && Run(reg, w, Recover(c), env, tick, n) == Run(reg, w, EnsurePolicy(c, Recovery), env, tick + 1, n - 1)
  {
    hide Run;
    RunSteps(reg, w, Recover(c), env, tick, n);
  }

  // ---------------------------------------------------------------- approvals and policies

  /** The authorization recorded last for c asks for an approval. */
  predicate LastAsksApproval(authorizations: seq<Authorization>, c: CallId) {
    exists i :: 0 <= i < |authorizations| && authorizations[i].call == c && authorizations[i].decision == RequiresApproval
      && forall j :: i < j < |authorizations| ==> authorizations[j].call != c
  }

  lemma {:induction false} LatestIsLast(authorizations: seq<Authorization>, c: CallId)
    ensures LatestDecision(authorizations, c) == Some(RequiresApproval) <==> LastAsksApproval(authorizations, c)
    decreases |authorizations|
  {
    if authorizations != [] {
      var last, rest := |authorizations| - 1, authorizations[..|authorizations| - 1];
      if authorizations[last].call != c {
        LatestIsLast(rest, c);
        if LastAsksApproval(rest, c) {
          var i :| 0 <= i < |rest| && rest[i].call == c && rest[i].decision == RequiresApproval
                   && forall j :: i < j < |rest| ==> rest[j].call != c;
          assert authorizations[i] == rest[i] && forall j :: i < j < |authorizations| ==> authorizations[j].call != c;
        }
        if LastAsksApproval(authorizations, c) {
          var i :| 0 <= i < |authorizations| && authorizations[i].call == c && authorizations[i].decision == RequiresApproval
                   && forall j :: i < j < |authorizations| ==> authorizations[j].call != c;
          assert rest[i] == authorizations[i];
        }
      }
    }
  }

  /**
   An approval may be granted: for an external write that waits or was denied, whose last decision asked for
   one and that has none in force.
   */
  predicate Grantable(reg: Registry, w: World, c: CallId, now: Time)
    requires c < |w.db.calls|
  {
    var row := w.db.calls[c];
    && row.tool in reg && reg[row.tool].effect == ExternalWrite
    && (row.status == AwaitingApproval || row.status == Denied)
    && LastAsksApproval(w.db.authorizations, c)
    && forall a :: 0 <= a < |w.db.approvals| && w.db.approvals[a].activeSlot == Some(c) ==> w.db.approvals[a].expiresAt <= now
  }

  /** One new approval of exactly this call, in force for so long; whatever was expired in its slot is revoked. */
  predicate Granted(w: World, c: CallId, actor: string, now: Time, seconds: nat, w': World)
    requires c < |w.db.calls|
  {
    var row, approvals := w.db.calls[c], w.db.approvals;
    && w'.log == w.log && |w'.db.approvals| == |approvals| + 1
    && w'.db == w.db.(calls := w.db.calls[c := row.(status := AwaitingApproval)], approvals := w'.db.approvals)
    && w'.db.approvals[|approvals|] ==
         Approval(row.task, c, Some(c), actor, row.tool, row.key, row.fingerprint, now + seconds, None, None)
    && forall a :: 0 <= a < |approvals| ==>
         w'.db.approvals[a] == if approvals[a].activeSlot == Some(c)
                               then approvals[a].(activeSlot := None, revokedAt := Some(now)) else approvals[a]
  }

  lemma GrantingEnds(w: World, c: CallId, actor: string, now: Time, seconds: nat)
    requires c < |w.db.calls| && UniqueSlots(w.db.approvals)
    ensures var (w', pc') := GrantStep(w, c, actor, FindActive(w.db.approvals, c), now, seconds);
            pc' == Done(ApprovalGranted(|w.db.approvals|)) && Granted(w, c, actor, now, seconds, w')
  {
    hide Step;
  }

  lemma CheckDecides(reg: Registry, w: World, c: CallId, actor: string, seconds: nat, now: Time)
    requires c < |w.db.calls| && UniqueSlots(w.db.approvals)
    ensures CheckApprovalStep(reg, w, c, actor, seconds, now)
            == if Grantable(reg, w, c, now) then GrantApproval(c, actor, FindActive(w.db.approvals, c), now, seconds)
               else Done(ApprovalRefused)
  {
    hide Step;
    LatestIsLast(w.db.authorizations, c);
  }

  /** An approval is granted exactly when the call needs one and has none in force; otherwise nothing changes. */
  lemma {:induction false} ApprovalGrantedIff(reg: Registry, w: World, c: CallId, actor: string, seconds: nat,
      env: nat -> Input, tick: nat, n: nat)
    requires c < |w.db.calls| && UniqueSlots(w.db.approvals)
    requires Run(reg, w, CheckApproval(c, actor, seconds), env, tick, n).pc.Done?
    ensures var s, now := Run(reg, w, CheckApproval(c, actor, seconds), env, tick, n), env(tick).now;
            if Grantable(reg, w, c, now)
            then s.pc == Done(ApprovalGranted(|w.db.approvals|)) && Granted(w, c, actor, now, seconds, s.w)
            else s.pc == Done(ApprovalRefused) && s.w == w
  {
    hide Run, GrantStep, CheckApprovalStep, Grantable, Granted, LastAsksApproval;
    var now, active := env(tick).now, FindActive(w.db.approvals, c);
    RunSteps(reg, w, CheckApproval(c, actor, seconds), env, tick, n);
    CheckDecides(reg, w, c, actor, seconds, now);
    if Grantable(reg, w, c, now) {
      RunSteps(reg, w, GrantApproval(c, actor, active, now, seconds), env, tick + 1, n - 1);
      GrantingEnds(w, c, actor, now, seconds);
      var granted := Done(ApprovalGranted(|w.db.approvals|));
      StandsStill(reg, GrantStep(w, c, actor, active, now, seconds).0, granted, env, tick + 2, n - 2);
    } else {
      StandsStill(reg, w, Done(ApprovalRefused), env, tick + 1, n - 1);
    }
  }

  /**
   A policy is changed exactly when every tool it lists is registered; then it lists these tools and is one
   version on.
   */
  lemma {:induction false} PolicyChangedIff(reg: Registry, w: World, task: TaskId, allowed: set<string>,
      env: nat -> Input, tick: nat, n: nat)
    requires Run(reg, w, ChangePolicy(task, allowed), env, tick, n).pc.Done?
    ensures var s := Run(reg, w, ChangePolicy(task, allowed), env, tick, n);
            if forall tool :: tool in allowed ==> tool in reg then
              && s.pc == Done(PolicyChanged) && task in s.w.db.policies
              && s.w == w.(db := w.db.(policies := w.db.policies[task := s.w.db.policies[task]]))
              && var before := if task in w.db.policies then w.db.policies[task] else Policy(1, {}, true);
              && var after := s.w.db.policies[task];
              && after.allowedTools == allowed && after.version == before.version + 1
              && after.externalWritesRequireApproval == before.externalWritesRequireApproval
            else s.pc == Done(PolicyRefused) && s.w == w
  {
    hide Run;
    RunSteps(reg, w, ChangePolicy(task, allowed), env, tick, n);
    var (w1, pc1) := Step(reg, w, ChangePolicy(task, allowed), env(tick));
    if pc1.Done? { StandsStill(reg, w1, pc1, env, tick + 1, n - 1); }
    else {
      RunSteps(reg, w1, WritePolicy(task, allowed), env, tick + 1, n - 1);
      var w2 := Step(reg, w1, WritePolicy(task, allowed), env(tick + 1)).0;
      StandsStill(reg, w2, Done(PolicyChanged), env, tick + 2, n - 2);
      assert w2 == w.(db := w.db.(policies := w.db.policies[task := w2.db.policies[task]]));
    }
  }
}
