/**
 What a ToolCall keeps over every history in which requests for one call are serialized, other calls
 run in any interleaving, and any session may die between two commits.
 */
module ToolSafety {
  import opened Common
  import opened ToolProtocol
  import opened ToolHistories

  // ---------------------------------------------------------------- reading the log

  /** The last invocation of c, if any, has been followed by a not_found answer about c. */
  predicate Cleared(log: seq<Event>, c: CallId)
    decreases |log|
  {
    if log == [] then true
    else
      var last := log[|log| - 1];
      if last.Invoked? && last.call == c then false
      else if last.Answered? && last.call == c && last.answer == SaysNotFound then true
      else Cleared(log[..|log| - 1], c)
  }

  predicate NotFoundBetween(log: seq<Event>, c: CallId, i: nat, j: nat) {
    exists k :: i < k < j && k < |log| && log[k].Answered? && log[k].call == c && log[k].answer == SaysNotFound
  }

  /** Between any two invocations of c the reconciler has answered not_found. */
  predicate SeparatedByNotFound(log: seq<Event>, c: CallId) {
    forall i, j :: 0 <= i < j < |log| && log[i].Invoked? && log[j].Invoked? && log[i].call == c == log[j].call
      ==> NotFoundBetween(log, c, i, j)
  }

  function Invocations(log: seq<Event>, c: CallId): nat {
    if log == [] then 0
    else Invocations(log[..|log| - 1], c) + (if log[|log| - 1].Invoked? && log[|log| - 1].call == c then 1 else 0)
  }

  function CommittedWrites(db: Db, c: CallId): nat { multiset(db.internalWrites)[c] }

  lemma {:induction false} ClearedMeansNotFoundSince(log: seq<Event>, c: CallId, i: nat)
    requires i < |log| && log[i].Invoked? && log[i].call == c && Cleared(log, c)
    ensures NotFoundBetween(log, c, i, |log|)
    decreases |log|
  {
    var last := log[|log| - 1];
    if last.Answered? && last.call == c && last.answer == SaysNotFound {
    } else {
      var rest := log[..|log| - 1];
      ClearedMeansNotFoundSince(rest, c, i);
      var k :| i < k < |rest| && rest[k].Answered? && rest[k].call == c && rest[k].answer == SaysNotFound;
      assert log[k] == rest[k];
    }
  }

  lemma AppendKeepsSeparation(log: seq<Event>, e: Event, c: CallId)
    requires SeparatedByNotFound(log, c) && (e.Invoked? && e.call == c ==> Cleared(log, c))
    ensures SeparatedByNotFound(log + [e], c)
  {
    var log' := log + [e];
    forall i, j | 0 <= i < j < |log'| && log'[i].Invoked? && log'[j].Invoked? && log'[i].call == c == log'[j].call
      ensures NotFoundBetween(log', c, i, j)
    {
      assert log'[i] == log[i];
      if j < |log| {
        assert log'[j] == log[j];
        assert NotFoundBetween(log, c, i, j);
        var k :| i < k < j && log[k].Answered? && log[k].call == c && log[k].answer == SaysNotFound;
        assert log'[k] == log[k];
      } else {
        ClearedMeansNotFoundSince(log, c, i);
        var k :| i < k < |log| && log[k].Answered? && log[k].call == c && log[k].answer == SaysNotFound;
        assert log'[k] == log[k];
      }
    }
  }

  lemma AppendForCounting(log: seq<Event>, e: Event, c: CallId)
    ensures Invocations(log + [e], c) == Invocations(log, c) + (if e.Invoked? && e.call == c then 1 else 0)
    ensures Cleared(log + [e], c) ==
            if e.Invoked? && e.call == c then false
            else if e.Answered? && e.call == c && e.answer == SaysNotFound then true
            else Cleared(log, c)
  {
  }

  // ---------------------------------------------------------------- the invariant of one call

  /** No attempt is under way and none may have happened unseen: the handler may be invoked. */
  predicate Quiet(s: Status) {
    s == Proposed || s == Authorized || s == AwaitingApproval || s == Denied
  }

  /** Which provider id the row holds: the one its current attempt reported, unless that attempt was abandoned. */
  predicate ProviderIdOk(log: seq<Event>, c: CallId, row: ToolCall) {
    && (forall i :: 0 <= i < |log| && log[i].call == c && (log[i].Reported? || log[i].Abandoned?) ==>
          log[i].attempt <= row.attempts && (row.status == Executing ==> log[i].attempt < row.attempts))
    && (row.status != Executing && row.providerId.Some? ==>
          (Reported(c, row.attempts, row.providerId.value) in log <==> Abandoned(c, row.attempts) !in log))
  }

  predicate RowOk(w: World, c: CallId)
    requires c < |w.db.calls|
  {
    CallOk(w.log, c, w.db.calls[c], CommittedWrites(w.db, c))
  }

  /** The row, the log and the number of committed business writes of one call agree. */
  predicate CallOk(log: seq<Event>, c: CallId, row: ToolCall, writes: nat) {
    && writes == (if row.effect == InternalWrite && row.status == Succeeded then 1 else 0)
    && (row.effect == ExternalWrite ==> SeparatedByNotFound(log, c))
    && (row.effect != ExternalWrite ==> row.providerId.None?)
    && (Quiet(row.status) && row.effect == ExternalWrite ==> Cleared(log, c))
    && (row.status == OutcomeUnknown ==> row.effect == ExternalWrite)
    && Invocations(log, c) <= row.attempts
    && ProviderIdOk(log, c, row)
  }

  /** What a request's position says about the row it works on, when nobody else works on it. */
  predicate PcFits(w: World, pc: Pc)
    requires CallExists(w, pc)
  {
    HasCall(pc) ==> Fits(pc, w.db.calls[pc.call], Cleared(w.log, pc.call), Invocations(w.log, pc.call))
  }

  predicate HasCall(pc: Pc) { !pc.Submit? && !OnPolicy(pc) && !pc.Done? }

  predicate Fits(pc: Pc, row: ToolCall, cleared: bool, invoked: nat)
    requires HasCall(pc)
  {
    var clear := row.effect == ExternalWrite ==> cleared;
    match pc
    case EnsurePolicy(_, p) => PurposeFits(row, p, clear)
    case Decide(_, p) => PurposeFits(row, p, clear)
    case SelectApproval(_, p) => PurposeFits(row, p, clear)
    case SpendApproval(_, p, _, _) => PurposeFits(row, p, clear)
    case RecordDecision(_, p, _, _) => PurposeFits(row, p, clear)
    case Refuse(_, _) => row.status == Proposed
    case MarkAuthorized(_, _) =>
      clear && (row.status == Proposed || row.status == AwaitingApproval || row.status == Denied)
    case MarkExecuting(_, _) => clear && row.status == Authorized
    case MarkRetrying(_, _) => RetryFits(row, clear)
    case Invoke(_, _, _) => clear && row.status == Executing && invoked < row.attempts
    case Store(_, _, _) => row.status == Executing
    case MarkForReview(_, _) => !Ended(row.status) && (row.effect == ExternalWrite ==> row.status != Executing)
    case MarkUnknown(_) => !Ended(row.status) && row.effect == ExternalWrite
    case Recover(_) => !Ended(row.status)
    case Reconcile(_) => row.status == OutcomeUnknown
    case StoreReconciled(_, _) => row.status == OutcomeUnknown
    case KeepPending(_) => row.status == OutcomeUnknown
    case AwaitFreshApproval(_) => row.status == OutcomeUnknown && clear
    case GrantApproval(_, _, _, _, _) => row.status == AwaitingApproval || row.status == Denied
    case _ => true
  }

  predicate RetryFits(row: ToolCall, cleared: bool) {
    (row.status == OutcomeUnknown && cleared) || (row.effect != ExternalWrite && !Ended(row.status))
  }

  predicate PurposeFits(row: ToolCall, purpose: Purpose, cleared: bool) {
    match purpose
    case FirstSubmission => row.status == Proposed && cleared
    case Replay(executes) => executes ==> (row.status == AwaitingApproval || row.status == Denied) && cleared
    case Recovery => row.effect != ExternalWrite && !Ended(row.status)
    case Reconciled => row.status == OutcomeUnknown && cleared
  }

  /** Logged events and committed writes are about existing calls. */
  predicate Known(w: World) {
    && (forall i :: 0 <= i < |w.log| ==> w.log[i].call < |w.db.calls|)
    && (forall i :: 0 <= i < |w.db.internalWrites| ==> w.db.internalWrites[i] < |w.db.calls|)
  }

  predicate CallsOk(sys: Sys) {
    && AllEnabled(sys) && Known(sys.w)
    && (forall c :: 0 <= c < |sys.w.db.calls| ==> RowOk(sys.w, c))
    && (forall x :: x in sys.actors ==> PcFits(sys.w, sys.actors[x]))
  }

  // ---------------------------------------------------------------- one step keeps it

  lemma {:induction false} NoEventsNothingCounted(log: seq<Event>, c: CallId)
    requires forall i :: 0 <= i < |log| ==> log[i].call != c
    ensures Cleared(log, c) && Invocations(log, c) == 0
    decreases |log|
  {
    if log != [] { NoEventsNothingCounted(log[..|log| - 1], c); }
  }

  lemma OtherEventKeepsCall(log: seq<Event>, c: CallId, row: ToolCall, writes: nat, e: Event)
    requires CallOk(log, c, row, writes) && e.call != c
    ensures CallOk(log + [e], c, row, writes)
    ensures Cleared(log + [e], c) == Cleared(log, c) && Invocations(log + [e], c) == Invocations(log, c)
  {
    AppendForCounting(log, e, c);
    if row.effect == ExternalWrite { AppendKeepsSeparation(log, e, c); }
  }

  lemma OtherEventsKeepRowOk(w: World, w': World, c: CallId, e: Event)
    requires c < |w.db.calls| && c < |w'.db.calls| && RowOk(w, c)
    requires w'.db.calls[c] == w.db.calls[c] && CommittedWrites(w'.db, c) == CommittedWrites(w.db, c)
    requires w'.log == w.log || (e.call != c && w'.log == w.log + [e])
    ensures RowOk(w', c)
    ensures Cleared(w'.log, c) == Cleared(w.log, c) && Invocations(w'.log, c) == Invocations(w.log, c)
  {
    if w'.log != w.log { OtherEventKeepsCall(w.log, c, w.db.calls[c], CommittedWrites(w.db, c), e); }
  }

  /** The log after a step, as the log before it and possibly one event about the step's call. */
  lemma StepLog(reg: Registry, w: World, pc: Pc, inp: Input) returns (e: Event)
    requires Enabled(w, pc)
    ensures var w' := Step(reg, w, pc, inp).0;
            w'.log == w.log || (w'.log == w.log + [e] && Target(w.db, pc) == Some(e.call))
  {
    hide Step;
    var w' := Step(reg, w, pc, inp).0;
    StepAddsOneEvent(reg, w, pc, inp);
    if w'.log == w.log { e := Abandoned(0, 0); }
    else {
      e := w'.log[|w.log|];
      assert w'.log == w'.log[..|w.log|] + [e];
    }
  }

  lemma StepCommitsOwnWrite(reg: Registry, w: World, pc: Pc, inp: Input)
    requires Enabled(w, pc)
    ensures var w' := Step(reg, w, pc, inp).0;
            || w'.db.internalWrites == w.db.internalWrites
            || (pc.Store? && w'.db.internalWrites == w.db.internalWrites + [pc.call]
                && w.db.calls[pc.call].effect == InternalWrite && w'.db.calls[pc.call].status == Succeeded)
  {
  }

  lemma {:induction false} StepKeepsOtherRow(reg: Registry, w: World, pc: Pc, inp: Input, c: CallId)
    requires Enabled(w, pc) && c < |w.db.calls| && RowOk(w, c) && Target(w.db, pc) != Some(c)
    ensures var w' := Step(reg, w, pc, inp).0;
            && c < |w'.db.calls| && RowOk(w', c) && w'.db.calls[c] == w.db.calls[c]
            && Cleared(w'.log, c) == Cleared(w.log, c) && Invocations(w'.log, c) == Invocations(w.log, c)
  {
    hide Step;
    var w' := Step(reg, w, pc, inp).0;
    StepKeepsCalls(reg, w, pc, inp, c);
    StepCommitsOwnWrite(reg, w, pc, inp);
    var e := StepLog(reg, w, pc, inp);
    OtherEventsKeepRowOk(w, w', c, e);
  }

  lemma StepKeepsKnown(reg: Registry, w: World, pc: Pc, inp: Input)
    requires Enabled(w, pc) && Known(w)
    ensures Known(Step(reg, w, pc, inp).0)
  {
    hide Step;
    StepCommitsOwnWrite(reg, w, pc, inp);
    StepKeepsTarget(reg, w, pc, inp);
    var e := StepLog(reg, w, pc, inp);
  }

  lemma SubmitKeepsRows(reg: Registry, w: World, pc: Pc, inp: Input, c: CallId)
    requires Enabled(w, pc) && pc.Submit? && Known(w)
    requires forall d :: 0 <= d < |w.db.calls| ==> RowOk(w, d)
    requires c < |Step(reg, w, pc, inp).0.db.calls|
    ensures RowOk(Step(reg, w, pc, inp).0, c)
  {
    var w' := Step(reg, w, pc, inp).0;
    assert w'.log == w.log && w'.db.internalWrites == w.db.internalWrites;
    if c < |w.db.calls| {
      StepKeepsCalls(reg, w, pc, inp, c);
      OtherEventsKeepRowOk(w, w', c, Abandoned(0, 0));
    } else {
      NoEventsNothingCounted(w.log, c);
      assert c !in w.db.internalWrites;
    }
  }

  /** Recovery abandons an attempt that may have reached the provider. */
  lemma AbandonKeepsCall(log: seq<Event>, c: CallId, row: ToolCall, writes: nat, row': ToolCall)
    requires CallOk(log, c, row, writes) && row.effect == ExternalWrite && row.status == Executing
    requires row' == row.(status := OutcomeUnknown, error := row'.error)
    ensures CallOk(log + [Abandoned(c, row.attempts)], c, row', writes)
  {
    var e := Abandoned(c, row.attempts);
    AppendForCounting(log, e, c);
    AppendKeepsSeparation(log, e, c);
  }

  lemma MarkUnknownKeepsRow(reg: Registry, w: World, pc: Pc, inp: Input)
    requires Enabled(w, pc) && pc.MarkUnknown? && RowOk(w, pc.call) && PcFits(w, pc)
    ensures RowOk(Step(reg, w, pc, inp).0, pc.call)
  {
    var w', row := Step(reg, w, pc, inp).0, w.db.calls[pc.call];
    if row.status == Executing {
      AbandonKeepsCall(w.log, pc.call, row, CommittedWrites(w.db, pc.call), w'.db.calls[pc.call]);
    }
  }

  /** The attempt reports the provider's id with its unknown outcome. */
  lemma ReportKeepsCall(log: seq<Event>, c: CallId, row: ToolCall, writes: nat, row': ToolCall, id: string)
    requires CallOk(log, c, row, writes) && row.effect == ExternalWrite && row.status == Executing
    requires row' == row.(status := OutcomeUnknown, arguments := row'.arguments, output := row'.output,
                          error := row'.error, providerId := Some(id))
    ensures CallOk(log + [Reported(c, row.attempts, id)], c, row', writes)
  {
    var e := Reported(c, row.attempts, id);
    AppendForCounting(log, e, c);
    AppendKeepsSeparation(log, e, c);
    assert e in log + [e] && Abandoned(c, row.attempts) !in log;
  }

  lemma StoreUnknownKeepsRow(reg: Registry, w: World, pc: Pc, inp: Input)
    requires Enabled(w, pc) && pc.Store? && RowOk(w, pc.call) && PcFits(w, pc)
    requires w.db.calls[pc.call].effect == ExternalWrite
    requires pc.execution.Ran? && pc.execution.outcome.RaisedUncertain?
    ensures RowOk(Step(reg, w, pc, inp).0, pc.call)
  {
    var w', row := Step(reg, w, pc, inp).0, w.db.calls[pc.call];
    ReportKeepsCall(w.log, pc.call, row, CommittedWrites(w.db, pc.call), w'.db.calls[pc.call],
                    pc.execution.outcome.providerId);
  }

  /** An attempt that ends leaves no provider id and, for an internal write, exactly its own write. */
  lemma EndKeepsCall(log: seq<Event>, c: CallId, row: ToolCall, row': ToolCall)
    requires CallOk(log, c, row, 0) && row.status == Executing && (row'.status == Succeeded || row'.status == Failed)
    requires row' == row.(status := row'.status, arguments := row'.arguments, output := row'.output,
                          error := row'.error, providerId := None)
    ensures CallOk(log, c, row', if row.effect == InternalWrite && row'.status == Succeeded then 1 else 0)
  {
  }

  lemma StoreEndedKeepsRow(reg: Registry, w: World, pc: Pc, inp: Input)
    requires Enabled(w, pc) && pc.Store? && RowOk(w, pc.call) && PcFits(w, pc)
    requires w.db.calls[pc.call].effect == ExternalWrite ==>
               pc.execution.Ran? ==> !pc.execution.outcome.RaisedUncertain?
    ensures RowOk(Step(reg, w, pc, inp).0, pc.call)
  {
    var w' := Step(reg, w, pc, inp).0;
    assert w'.log == w.log;
    EndKeepsCall(w.log, pc.call, w.db.calls[pc.call], w'.db.calls[pc.call]);
  }

  lemma {:induction false} StoreKeepsRow(reg: Registry, w: World, pc: Pc, inp: Input)
    requires Enabled(w, pc) && pc.Store? && RowOk(w, pc.call) && PcFits(w, pc)
    ensures RowOk(Step(reg, w, pc, inp).0, pc.call)
  {
    hide Step;
    if w.db.calls[pc.call].effect == ExternalWrite && pc.execution.Ran? && pc.execution.outcome.RaisedUncertain? {
      StoreUnknownKeepsRow(reg, w, pc, inp);
    } else {
      StoreEndedKeepsRow(reg, w, pc, inp);
    }
  }

  lemma ReconcileKeepsRow(reg: Registry, w: World, pc: Pc, inp: Input)
    requires Enabled(w, pc) && pc.Reconcile? && RowOk(w, pc.call) && PcFits(w, pc)
    ensures RowOk(Step(reg, w, pc, inp).0, pc.call)
  {
    var w' := Step(reg, w, pc, inp).0;
    var row := w.db.calls[pc.call];
    if w'.log != w.log {
      var e := Answered(pc.call, row.providerId.value, inp.answer);
      AppendForCounting(w.log, e, pc.call);
      AppendKeepsSeparation(w.log, e, pc.call);
      assert w'.log == w.log + [e];
    }
  }

  /** An invocation is logged for an attempt already counted, on a cleared log when the effect is external. */
  lemma InvokeKeepsRow(reg: Registry, w: World, pc: Pc, inp: Input)
    requires Enabled(w, pc) && pc.Invoke? && RowOk(w, pc.call) && PcFits(w, pc)
    ensures RowOk(Step(reg, w, pc, inp).0, pc.call)
  {
    var w' := Step(reg, w, pc, inp).0;
    if w'.log != w.log {
      var e := Invoked(pc.call, w.db.calls[pc.call].attempts, pc.grant, inp.execution.outcome);
      assert w'.log == w.log + [e];
      AppendForCounting(w.log, e, pc.call);
      if w.db.calls[pc.call].effect == ExternalWrite { AppendKeepsSeparation(w.log, e, pc.call); }
      assert ProviderIdOk(w'.log, pc.call, w.db.calls[pc.call]);
    }
  }

  lemma StepLeavesRow(reg: Registry, w: World, pc: Pc, inp: Input)
    requires Enabled(w, pc) && HasCall(pc) && !WritesRow(pc) && !pc.Reconcile? && !pc.Invoke?
    ensures var w' := Step(reg, w, pc, inp).0;
            w'.log == w.log && w'.db.internalWrites == w.db.internalWrites && w'.db.calls == w.db.calls
  {
  }

  lemma GrantKeepsRow(reg: Registry, w: World, pc: Pc, inp: Input)
    requires Enabled(w, pc) && pc.GrantApproval? && RowOk(w, pc.call) && PcFits(w, pc)
    ensures RowOk(Step(reg, w, pc, inp).0, pc.call)
  {
  }

  lemma StatusStepKeepsRow(reg: Registry, w: World, pc: Pc, inp: Input)
    requires Enabled(w, pc) && (pc.Refuse? || pc.MarkAuthorized? || pc.StoreReconciled? || pc.KeepPending?)
    requires RowOk(w, pc.call) && PcFits(w, pc)
    ensures RowOk(Step(reg, w, pc, inp).0, pc.call)
  {
  }

  lemma ReviewStepKeepsRow(reg: Registry, w: World, pc: Pc, inp: Input)
    requires Enabled(w, pc) && (pc.MarkForReview? || pc.AwaitFreshApproval? || pc.CountReplay?)
    requires RowOk(w, pc.call) && PcFits(w, pc)
    ensures RowOk(Step(reg, w, pc, inp).0, pc.call)
  {
  }

  lemma AttemptStepKeepsRow(reg: Registry, w: World, pc: Pc, inp: Input)
    requires Enabled(w, pc) && (pc.MarkExecuting? || pc.MarkRetrying?) && RowOk(w, pc.call) && PcFits(w, pc)
    ensures RowOk(Step(reg, w, pc, inp).0, pc.call)
  {
  }

  lemma {:induction false} StepKeepsOwnRow(reg: Registry, w: World, pc: Pc, inp: Input)
    requires Enabled(w, pc) && HasCall(pc) && RowOk(w, pc.call) && PcFits(w, pc)
    ensures pc.call < |Step(reg, w, pc, inp).0.db.calls|
    ensures RowOk(Step(reg, w, pc, inp).0, pc.call)
  {
    hide Step;
    StepKeepsCalls(reg, w, pc, inp, pc.call);
    if pc.Invoke? { InvokeKeepsRow(reg, w, pc, inp); }
    else if pc.Store? { StoreKeepsRow(reg, w, pc, inp); }
    else if pc.MarkUnknown? { MarkUnknownKeepsRow(reg, w, pc, inp); }
    else if pc.Reconcile? { ReconcileKeepsRow(reg, w, pc, inp); }
    else if pc.GrantApproval? { GrantKeepsRow(reg, w, pc, inp); }
    else if pc.MarkExecuting? || pc.MarkRetrying? { AttemptStepKeepsRow(reg, w, pc, inp); }
    else if pc.MarkForReview? || pc.AwaitFreshApproval? || pc.CountReplay? { ReviewStepKeepsRow(reg, w, pc, inp); }
    else if WritesRow(pc) { StatusStepKeepsRow(reg, w, pc, inp); }
    else { StepLeavesRow(reg, w, pc, inp); }
  }

  // ---------------------------------------------------------------- positions stay right

  /** Steps that leave the row alone: the next position asks no more of it than was checked. */
  lemma ReadStepKeepsFits(reg: Registry, w: World, pc: Pc, inp: Input)
    requires Enabled(w, pc) && HasCall(pc) && RowOk(w, pc.call) && PcFits(w, pc)
    requires !WritesRow(pc) && !pc.Reconcile? && !pc.Invoke? && !pc.RecordDecision?
    ensures var (w', pc') := Step(reg, w, pc, inp); CallExists(w', pc') && PcFits(w', pc')
  {
    var (w', pc') := Step(reg, w, pc, inp);
    StepLeavesRow(reg, w, pc, inp);
    StepKeepsTarget(reg, w, pc, inp);
    if HasCall(pc') {
      var row, cleared, invoked := w.db.calls[pc.call], Cleared(w.log, pc.call), Invocations(w.log, pc.call);
      assert Fits(pc, row, cleared, invoked);
      assert Fits(pc', row, cleared, invoked);
    }
  }

  lemma RecordKeepsFits(reg: Registry, w: World, pc: Pc, inp: Input)
    requires Enabled(w, pc) && pc.RecordDecision? && RowOk(w, pc.call) && PcFits(w, pc)
    ensures var (w', pc') := Step(reg, w, pc, inp); CallExists(w', pc') && PcFits(w', pc')
  {
  }

  lemma ReconcileKeepsFits(reg: Registry, w: World, pc: Pc, inp: Input)
    requires Enabled(w, pc) && pc.Reconcile? && PcFits(w, pc)
    ensures var (w', pc') := Step(reg, w, pc, inp); CallExists(w', pc') && PcFits(w', pc')
  {
  }

  lemma AttemptKeepsFits(reg: Registry, w: World, pc: Pc, inp: Input)
    requires Enabled(w, pc) && HasCall(pc) && RowOk(w, pc.call) && PcFits(w, pc)
    requires pc.MarkAuthorized? || pc.MarkExecuting? || pc.MarkRetrying? || pc.Invoke?
    ensures var (w', pc') := Step(reg, w, pc, inp); CallExists(w', pc') && PcFits(w', pc')
  {
  }

  /** The request that steps: its next position fits the row as it has just been left. */
  lemma {:induction false} StepKeepsOwnFits(reg: Registry, w: World, pc: Pc, inp: Input)
    requires Enabled(w, pc) && HasCall(pc) && RowOk(w, pc.call) && PcFits(w, pc)
    ensures var (w', pc') := Step(reg, w, pc, inp); CallExists(w', pc') && PcFits(w', pc')
  {
    hide Step;
    if pc.RecordDecision? { RecordKeepsFits(reg, w, pc, inp); }
    else if pc.Reconcile? { ReconcileKeepsFits(reg, w, pc, inp); }
    else if pc.MarkAuthorized? || pc.MarkExecuting? || pc.MarkRetrying? || pc.Invoke? {
      AttemptKeepsFits(reg, w, pc, inp);
    } else if !WritesRow(pc) { ReadStepKeepsFits(reg, w, pc, inp); }
    else { LastStepIsDone(reg, w, pc, inp); }
  }

  lemma LastStepIsDone(reg: Registry, w: World, pc: Pc, inp: Input)
    requires Enabled(w, pc) && WritesRow(pc)
    ensures pc.MarkAuthorized? || pc.MarkExecuting? || pc.MarkRetrying? || Step(reg, w, pc, inp).1.Done?
  {
  }

  lemma SubmitKeepsFits(reg: Registry, w: World, pc: Pc, inp: Input)
    requires Enabled(w, pc) && pc.Submit? && Known(w)
    requires forall c :: 0 <= c < |w.db.calls| ==> RowOk(w, c)
    ensures var (w', pc') := Step(reg, w, pc, inp); CallExists(w', pc') && PcFits(w', pc')
  {
    var (w', pc') := Step(reg, w, pc, inp);
    if pc'.EnsurePolicy? {
      if pc'.call < |w.db.calls| { assert RowOk(w, pc'.call); }
      else { NoEventsNothingCounted(w.log, pc'.call); }
    }
  }

  /** The requests that do not step work on other calls, whose rows and events stay as they are. */
  lemma {:induction false} StepKeepsOthersFit(reg: Registry, w: World, pc: Pc, inp: Input, other: Pc)
    requires Enabled(w, pc) && Enabled(w, other) && PcFits(w, other)
    requires forall c :: 0 <= c < |w.db.calls| ==> RowOk(w, c)
    requires Target(w.db, other).Some? ==> Target(w.db, other) != Target(w.db, pc)
    ensures var w' := Step(reg, w, pc, inp).0; CallExists(w', other) && PcFits(w', other)
  {
    hide Step;
    StepKeepsOthersEnabled(reg, w, pc, inp, other);
    if !other.Submit? && !OnPolicy(other) { StepKeepsOtherRow(reg, w, pc, inp, other.call); }
  }

  lemma {:induction false} ActKeepsCallsOk(reg: Registry, sys: Sys, x: ActorId, inp: Input)
    requires CallsOk(sys) && OnePerCall(sys) && x in sys.actors
    ensures CallsOk(Moved(reg, sys, Act(x, inp)))
  {
    hide Step;
    var w, pc := sys.w, sys.actors[x];
    var (w', pc') := Step(reg, w, pc, inp);
    var sys' := Moved(reg, sys, Act(x, inp));
    MoveKeepsAllEnabled(reg, sys, Act(x, inp));
    StepKeepsKnown(reg, w, pc, inp);
    forall c | 0 <= c < |w'.db.calls|
      ensures RowOk(w', c)
    {
      if pc.Submit? { SubmitKeepsRows(reg, w, pc, inp, c); }
      else {
        StepKeepsTarget(reg, w, pc, inp);
        if Target(w.db, pc) == Some(c) { StepKeepsOwnRow(reg, w, pc, inp); }
        else { StepKeepsOtherRow(reg, w, pc, inp, c); }
      }
    }
    forall y | y in sys'.actors
      ensures PcFits(sys'.w, sys'.actors[y])
    {
      if y != x { StepKeepsOthersFit(reg, w, pc, inp, sys.actors[y]); }
      else if pc.Submit? { SubmitKeepsFits(reg, w, pc, inp); }
      else if OnPolicy(pc) { StepKeepsTarget(reg, w, pc, inp); }
      else { StepKeepsOwnFits(reg, w, pc, inp); }
    }
  }

  lemma {:induction false} MoveKeepsCallsOk(reg: Registry, sys: Sys, m: Move)
    requires CallsOk(sys) && OnePerCall(sys) && CanMove(sys, m)
    ensures CallsOk(Moved(reg, sys, m))
  {
    hide Step;
    if m.Act? { ActKeepsCallsOk(reg, sys, m.actor, m.inp); }
  }

  lemma {:induction false} AlwaysCallsOk(reg: Registry, sys: Sys, moves: seq<Move>)
    requires CallsOk(sys) && SerializedRun(reg, sys, moves)
    ensures Runs(reg, sys, moves) && CallsOk(After(reg, sys, moves))
    decreases |moves|
  {
    if moves != [] {
      MoveKeepsCallsOk(reg, sys, moves[0]);
      AlwaysCallsOk(reg, Moved(reg, sys, moves[0]), moves[1..]);
    }
  }
}
