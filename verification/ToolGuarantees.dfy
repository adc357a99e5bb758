/**
 The promises of the reliable tool runtime, as statements about every history that starts from an
 empty table: what a call's effect, its invocations, its approvals and its provider id can be.
 */
module ToolGuarantees {
  import opened Common
  import opened ToolProtocol
  import opened ToolHistories
  import opened ApprovalSafety
  import opened ToolSafety

  // ---------------------------------------------------------------- serialized requests per call

  lemma InitialCallsOk(sys: Sys)
    requires Initial(sys)
    ensures CallsOk(sys) && TableOk(sys) && (PoliciesRequireApproval(sys.w.db) ==> Safe(sys))
  {
  }

  /**
   An internal write is committed at most once, and it has been committed exactly when its call is
   succeeded, whatever was submitted, replayed, recovered or cut short.
   */
  lemma InternalWriteCommittedIffSucceeded(reg: Registry, sys: Sys, moves: seq<Move>, c: CallId)
    requires Initial(sys) && SerializedRun(reg, sys, moves)
    ensures Runs(reg, sys, moves)
    ensures var db := After(reg, sys, moves).w.db;
            c < |db.calls| && db.calls[c].effect == InternalWrite ==>
              CommittedWrites(db, c) == (if db.calls[c].status == Succeeded then 1 else 0)
  {
    InitialCallsOk(sys);
    AlwaysCallsOk(reg, sys, moves);
    var end := After(reg, sys, moves);
    if c < |end.w.db.calls| { assert RowOk(end.w, c); }
  }

  /** Between any two invocations of an external write the reconciler has answered not_found for that call. */
  lemma NotFoundBetweenInvocations(reg: Registry, sys: Sys, moves: seq<Move>, c: CallId, i: nat, j: nat)
    requires Initial(sys) && SerializedRun(reg, sys, moves)
    ensures Runs(reg, sys, moves)
    ensures var w := After(reg, sys, moves).w;
            (c < |w.db.calls| && w.db.calls[c].effect == ExternalWrite && i < j < |w.log|
             && w.log[i].Invoked? && w.log[j].Invoked? && w.log[i].call == c == w.log[j].call)
            ==> NotFoundBetween(w.log, c, i, j)
  {
    InitialCallsOk(sys);
    AlwaysCallsOk(reg, sys, moves);
    var end := After(reg, sys, moves);
    if c < |end.w.db.calls| { assert RowOk(end.w, c); }
  }

  /**
   While a call is proposed, authorized, denied or waiting for approval, no invocation is outstanding: the
   last one, if any, has been answered not_found. And attempt_count never falls behind the invocations.
   */
  lemma WaitingMeansNothingOutstanding(reg: Registry, sys: Sys, moves: seq<Move>, c: CallId)
    requires Initial(sys) && SerializedRun(reg, sys, moves)
    ensures Runs(reg, sys, moves)
    ensures var w := After(reg, sys, moves).w;
            c < |w.db.calls| ==>
              && Invocations(w.log, c) <= w.db.calls[c].attempts
              && (Quiet(w.db.calls[c].status) && w.db.calls[c].effect == ExternalWrite ==> Cleared(w.log, c))
  {
    InitialCallsOk(sys);
    AlwaysCallsOk(reg, sys, moves);
    var end := After(reg, sys, moves);
    if c < |end.w.db.calls| { assert RowOk(end.w, c); }
  }

  /**
   What a reconciliation asks about. The provider id on a call whose outcome is unknown was reported by
   the attempt counted last exactly when that attempt was not abandoned by a recovery that found it
   executing; otherwise it belongs to an earlier attempt, and a not_found answer says nothing about the
   latest invocation.
   */
  lemma ProviderIdIsLatestIffNotAbandoned(reg: Registry, sys: Sys, moves: seq<Move>, c: CallId)
    requires Initial(sys) && SerializedRun(reg, sys, moves)
    ensures Runs(reg, sys, moves)
    ensures var w := After(reg, sys, moves).w;
            c < |w.db.calls| && w.db.calls[c].status == OutcomeUnknown && w.db.calls[c].providerId.Some? ==>
              var row := w.db.calls[c];
              Reported(c, row.attempts, row.providerId.value) in w.log <==> Abandoned(c, row.attempts) !in w.log
  {
    InitialCallsOk(sys);
    AlwaysCallsOk(reg, sys, moves);
    var end := After(reg, sys, moves);
    if c < |end.w.db.calls| { assert RowOk(end.w, c); }
  }

  // ---------------------------------------------------------------- revocation needs serialized requests

  predicate NeverBoth(approvals: seq<Approval>) {
    forall a :: 0 <= a < |approvals| ==> approvals[a].consumedAt.None? || approvals[a].revokedAt.None?
  }

  /** The approval a grant is about to revoke still occupies the slot of its call. */
  predicate RevokesActive(db: Db, pc: Pc) {
    pc.GrantApproval? && pc.expired.Some? ==>
      pc.expired.value < |db.approvals| && db.approvals[pc.expired.value].activeSlot == Some(pc.call)
  }

  predicate RevocationOk(sys: Sys) {
    && NeverBoth(sys.w.db.approvals)
    && (forall x :: x in sys.actors ==> RevokesActive(sys.w.db, sys.actors[x]))
  }

  lemma StepLeadsToGrant(reg: Registry, w: World, pc: Pc, inp: Input)
    requires Enabled(w, pc) && !pc.CheckApproval?
    ensures !Step(reg, w, pc, inp).1.GrantApproval?
  {
  }

  lemma CheckFindsActive(reg: Registry, w: World, pc: Pc, inp: Input)
    requires Enabled(w, pc) && pc.CheckApproval?
    ensures RevokesActive(w.db, Step(reg, w, pc, inp).1)
  {
  }

  lemma WritingKeepsNeverBoth(reg: Registry, w: World, pc: Pc, inp: Input)
    requires Enabled(w, pc) && ApprovalsOk(w.db) && NeverBoth(w.db.approvals) && RevokesActive(w.db, pc)
    requires pc.SpendApproval? || pc.GrantApproval?
    ensures NeverBoth(Step(reg, w, pc, inp).0.db.approvals)
  {
    if pc.GrantApproval? && pc.expired.Some? { assert ApprovalOk(w.db, pc.expired.value); }
  }

  lemma {:induction false} StepKeepsNeverBoth(reg: Registry, w: World, pc: Pc, inp: Input)
    requires Enabled(w, pc) && ApprovalsOk(w.db) && NeverBoth(w.db.approvals) && RevokesActive(w.db, pc)
    ensures NeverBoth(Step(reg, w, pc, inp).0.db.approvals)
    ensures RevokesActive(Step(reg, w, pc, inp).0.db, Step(reg, w, pc, inp).1)
  {
    hide Step;
    if pc.SpendApproval? || pc.GrantApproval? { WritingKeepsNeverBoth(reg, w, pc, inp); }
    else { StepLeavesApprovals(reg, w, pc, inp); }
    if pc.CheckApproval? { CheckFindsActive(reg, w, pc, inp); } else { StepLeadsToGrant(reg, w, pc, inp); }
  }

  lemma StepKeepsOthersRevocation(reg: Registry, w: World, pc: Pc, inp: Input, other: Pc)
    requires Enabled(w, pc) && RevokesActive(w.db, pc) && RevokesActive(w.db, other)
    requires Target(w.db, other).Some? ==> Target(w.db, other) != Target(w.db, pc)
    ensures RevokesActive(Step(reg, w, pc, inp).0.db, other)
  {
  }

  lemma {:induction false} AlwaysRevocationOk(reg: Registry, sys: Sys, moves: seq<Move>)
    requires TableOk(sys) && RevocationOk(sys) && SerializedRun(reg, sys, moves)
    ensures Runs(reg, sys, moves) && RevocationOk(After(reg, sys, moves))
    decreases |moves|
  {
    hide Step;
    if moves != [] {
      var m := moves[0];
      MoveKeepsTableOk(reg, sys, m);
      if m.Act? {
        var pc := sys.actors[m.actor];
        StepKeepsNeverBoth(reg, sys.w, pc, m.inp);
        forall y | y in sys.actors && y != m.actor
          ensures RevokesActive(Step(reg, sys.w, pc, m.inp).0.db, sys.actors[y])
        {
          StepKeepsOthersRevocation(reg, sys.w, pc, m.inp, sys.actors[y]);
        }
      }
      AlwaysRevocationOk(reg, Moved(reg, sys, m), moves[1..]);
    }
  }

  /** With serialized requests per call no approval is both consumed and revoked. */
  lemma ConsumedOrRevokedNotBoth(reg: Registry, sys: Sys, moves: seq<Move>, a: ApprovalId)
    requires Initial(sys) && SerializedRun(reg, sys, moves)
    ensures Runs(reg, sys, moves)
    ensures var approvals := After(reg, sys, moves).w.db.approvals;
            a < |approvals| ==> approvals[a].consumedAt.None? || approvals[a].revokedAt.None?
  {
    InitialCallsOk(sys);
    AlwaysRevocationOk(reg, sys, moves);
  }

  // ---------------------------------------------------------------- any interleaving

  /**
   The slot column is set exactly while an approval is neither consumed nor revoked, and a call has at
   most one such approval: even when requests for the call interleave.
   */
  lemma SlotMarksTheOneOpenApproval(reg: Registry, sys: Sys, moves: seq<Move>, a: ApprovalId, b: ApprovalId)
    requires Initial(sys) && Runs(reg, sys, moves)
    ensures var approvals := After(reg, sys, moves).w.db.approvals;
            && (a < |approvals| ==>
                  ((approvals[a].activeSlot == Some(approvals[a].call)) <==>
                     (approvals[a].consumedAt.None? && approvals[a].revokedAt.None?))
                  && (approvals[a].activeSlot.None? || approvals[a].activeSlot == Some(approvals[a].call)))
            && (a < |approvals| && b < |approvals| && a != b && approvals[a].call == approvals[b].call ==>
                  approvals[a].activeSlot.None? || approvals[b].activeSlot.None?)
  {
    InitialCallsOk(sys);
    AlwaysTableOk(reg, sys, moves);
    var db := After(reg, sys, moves).w.db;
    if a < |db.approvals| { assert ApprovalOk(db, a); }
    if b < |db.approvals| { assert ApprovalOk(db, b); }
  }

  /** The call an approval was granted for is the only one it can back: same task, tool, key, fingerprint. */
  predicate ScopedTo(a: Approval, c: CallId, row: ToolCall) {
    && a.call == c && a.task == row.task && a.tool == row.tool && a.key == row.key
    && a.fingerprint == row.fingerprint
  }

  /**
   Under every interleaving and crash, an invocation of an external write stands on an approval scoped to
   exactly that call and consumed before it expired, and no other invocation stands on the same approval.
   */
  lemma InvocationsStandOnOwnApprovals(reg: Registry, sys: Sys, moves: seq<Move>, i: nat, j: nat)
    requires Initial(sys) && PoliciesRequireApproval(sys.w.db) && Runs(reg, sys, moves)
    ensures var w := After(reg, sys, moves).w;
            i < |w.log| && w.log[i].Invoked? ==>
              var e := w.log[i];
              && e.call < |w.db.calls|
              && (w.db.calls[e.call].effect == ExternalWrite ==>
                    && e.approval.Some? && e.approval.value < |w.db.approvals|
                    && var ap := w.db.approvals[e.approval.value];
                    && ScopedTo(ap, e.call, w.db.calls[e.call])
                    && ap.consumedAt.Some? && ap.consumedAt.value < ap.expiresAt
                    && (j < |w.log| && j != i && w.log[j].Invoked? ==> w.log[j].approval != e.approval))
  {
    InitialCallsOk(sys);
    AlwaysSafe(reg, sys, moves);
    var w := After(reg, sys, moves).w;
    if i < |w.log| && w.log[i].Invoked? {
      assert EventBacked(w, w.log[i]);
      if w.db.calls[w.log[i].call].effect == ExternalWrite { assert ApprovalOk(w.db, w.log[i].approval.value); }
    }
  }

  /** The approvals of c that have been consumed. */
  function ConsumedOf(approvals: seq<Approval>, c: CallId): set<ApprovalId> {
    set a: ApprovalId | 0 <= a < |approvals| && approvals[a].call == c && approvals[a].consumedAt.Some?
  }

  /** The approvals the invocations of c stand on. */
  function BackingOf(log: seq<Event>, c: CallId): set<ApprovalId> {
    set i | 0 <= i < |log| && log[i].Invoked? && log[i].call == c && log[i].approval.Some? :: log[i].approval.value
  }

  /** The approval the last event of the log adds to the backing of c, if it does. */
  function Backing(e: Event, c: CallId): set<ApprovalId> {
    if e.Invoked? && e.call == c && e.approval.Some? then {e.approval.value} else {}
  }

  lemma BackingGrows(log: seq<Event>, c: CallId)
    requires log != []
    ensures BackingOf(log, c) == BackingOf(log[..|log| - 1], c) + Backing(log[|log| - 1], c)
  {
  }

  lemma {:induction false} DistinctGrantsCountInvocations(log: seq<Event>, c: CallId)
    requires DistinctGrants(log)
    requires forall i :: 0 <= i < |log| && log[i].Invoked? && log[i].call == c ==> log[i].approval.Some?
    ensures |BackingOf(log, c)| == Invocations(log, c)
    decreases |log|
  {
    if log == [] {
      assert BackingOf(log, c) == {};
    } else {
      var rest, last := log[..|log| - 1], log[|log| - 1];
      DistinctGrantsCountInvocations(rest, c);
      BackingGrows(log, c);
      if last.Invoked? && last.call == c {
        forall i | 0 <= i < |rest| && rest[i].Invoked? && rest[i].approval.Some?
          ensures rest[i].approval.value != last.approval.value
        {
          assert log[i] == rest[i];
        }
        assert last.approval.value !in BackingOf(rest, c);
      }
    }
  }

  lemma SubsetIsNoLarger<T>(s: set<T>, t: set<T>)
    requires s <= t
    ensures |s| <= |t|
  {
    assert t == s + (t - s);
  }

  /** Handler invocations of an external write never outnumber its consumed approvals, in any interleaving. */
  lemma InvocationsNeverOutnumberApprovals(reg: Registry, sys: Sys, moves: seq<Move>, c: CallId)
    requires Initial(sys) && PoliciesRequireApproval(sys.w.db) && Runs(reg, sys, moves)
    ensures var w := After(reg, sys, moves).w;
            c < |w.db.calls| && w.db.calls[c].effect == ExternalWrite ==>
              Invocations(w.log, c) <= |ConsumedOf(w.db.approvals, c)|
  {
    InitialCallsOk(sys);
    AlwaysSafe(reg, sys, moves);
    var w := After(reg, sys, moves).w;
    if c < |w.db.calls| && w.db.calls[c].effect == ExternalWrite {
      forall i | 0 <= i < |w.log| && w.log[i].Invoked? && w.log[i].call == c
        ensures w.log[i].approval.Some? && w.log[i].approval.value in ConsumedOf(w.db.approvals, c)
      {
        assert EventBacked(w, w.log[i]);
      }
      DistinctGrantsCountInvocations(w.log, c);
      assert BackingOf(w.log, c) <= ConsumedOf(w.db.approvals, c);
      SubsetIsNoLarger(BackingOf(w.log, c), ConsumedOf(w.db.approvals, c));
    }
  }

  /** A consumption is final: no later move of any session spends the approval again or undoes it. */
  lemma {:induction false} SpentOnceForAll(reg: Registry, sys: Sys, moves: seq<Move>, a: ApprovalId)
    requires AllEnabled(sys) && Runs(reg, sys, moves)
    requires a < |sys.w.db.approvals| && sys.w.db.approvals[a].consumedAt.Some?
    ensures var approvals := After(reg, sys, moves).w.db.approvals;
            && a < |approvals| && approvals[a].consumedAt == sys.w.db.approvals[a].consumedAt
            && SameScope(sys.w.db.approvals[a], approvals[a])
    decreases |moves|
  {
    if moves != [] {
      var m := moves[0];
      MoveKeepsAllEnabled(reg, sys, m);
      if m.Act? { StepKeepsApprovals(reg, sys.w, sys.actors[m.actor], m.inp, a); }
      SpentOnceForAll(reg, Moved(reg, sys, m), moves[1..], a);
    }
  }

  /** Only a session working on the approval's own call consumes it, and only while it is open and unexpired. */
  lemma OnlyItsCallSpends(reg: Registry, sys: Sys, m: Move, a: ApprovalId)
    requires Safe(sys) && CanMove(sys, m) && a < |sys.w.db.approvals|
    ensures a < |Moved(reg, sys, m).w.db.approvals|
    ensures Moved(reg, sys, m).w.db.approvals[a].consumedAt != sys.w.db.approvals[a].consumedAt ==>
              && m.Act? && sys.actors[m.actor].SpendApproval?
              && var pc := sys.actors[m.actor];
              && pc.call < |sys.w.db.calls| && ScopedTo(sys.w.db.approvals[a], pc.call, sys.w.db.calls[pc.call])
              && sys.w.db.approvals[a].activeSlot.Some? && pc.now < sys.w.db.approvals[a].expiresAt
  {
    assert ApprovalOk(sys.w.db, a);
    if m.Act? {
      StepKeepsApprovals(reg, sys.w, sys.actors[m.actor], m.inp, a);
    }
  }
}
