/**
 What a succeeded call rests on: in every serialized history, its last invocation returned, or the adapter
 has said succeeded since; and the stored output is the one that was returned or reported.
 */
module ToolConfirmation {
  import opened Common
  import opened ToolProtocol
  import opened ToolHistories
  import opened ToolSafety
  import opened ToolGuarantees

  /** The latest word on c, from the handler or from an adapter that knows of a success, is this output. */
  predicate ConfirmedBy(log: seq<Event>, c: CallId, output: Option<string>)
    decreases |log|
  {
    if log == [] then false
    else
      var last := log[|log| - 1];
      if last.Invoked? && last.call == c then last.outcome.Returned? && output == Some(last.outcome.output)
      else if last.Answered? && last.call == c && last.answer.SaysSucceeded? then output == last.answer.output
      else ConfirmedBy(log[..|log| - 1], c, output)
  }

  /** A request about to store a success has it in the log. */
  predicate StoresConfirmed(log: seq<Event>, pc: Pc) {
    match pc
    case Store(c, Ran(_, Returned(output)), _) => ConfirmedBy(log, c, Some(output))
    case StoreReconciled(c, output) => ConfirmedBy(log, c, output)
    case _ => true
  }

  predicate RowConfirmed(w: World, c: CallId)
    requires c < |w.db.calls|
  {
    w.db.calls[c].status == Succeeded ==> ConfirmedBy(w.log, c, w.db.calls[c].output)
  }

  predicate AllConfirmed(sys: Sys) {
    && (forall c :: 0 <= c < |sys.w.db.calls| ==> RowConfirmed(sys.w, c))
    && (forall x :: x in sys.actors ==> StoresConfirmed(sys.w.log, sys.actors[x]))
  }

  lemma OneMoreEvent(log: seq<Event>, e: Event, c: CallId, output: Option<string>)
    ensures ConfirmedBy(log + [e], c, output)
            == if e.Invoked? && e.call == c then e.outcome.Returned? && output == Some(e.outcome.output)
               else if e.Answered? && e.call == c && e.answer.SaysSucceeded? then output == e.answer.output
               else ConfirmedBy(log, c, output)
  {
  }

  /** What another call's request logs says nothing about this one. */
  lemma {:induction false} OthersSayNothing(reg: Registry, w: World, pc: Pc, inp: Input, c: CallId,
      output: Option<string>)
    requires Enabled(w, pc) && Target(w.db, pc) != Some(c)
    ensures ConfirmedBy(Step(reg, w, pc, inp).0.log, c, output) == ConfirmedBy(w.log, c, output)
  {
    hide Step;
    var e := StepLog(reg, w, pc, inp);
    OneMoreEvent(w.log, e, c, output);
  }

  lemma {:induction false} StoringConfirms(reg: Registry, w: World, pc: Pc, inp: Input)
    requires Enabled(w, pc) && pc.Store? && StoresConfirmed(w.log, pc)
    ensures pc.call < |Step(reg, w, pc, inp).0.db.calls| && RowConfirmed(Step(reg, w, pc, inp).0, pc.call)
  {
  }

  lemma {:induction false} ReconcilingConfirms(reg: Registry, w: World, pc: Pc, inp: Input)
    requires Enabled(w, pc) && pc.StoreReconciled? && StoresConfirmed(w.log, pc)
    ensures pc.call < |Step(reg, w, pc, inp).0.db.calls| && RowConfirmed(Step(reg, w, pc, inp).0, pc.call)
  {
  }

  /** No other step makes a call succeeded, and none that logs something works on a succeeded one. */
  lemma {:induction false} OtherStepsConfirmNothing(reg: Registry, w: World, pc: Pc, inp: Input)
    requires Enabled(w, pc) && HasCall(pc) && !pc.Store? && !pc.StoreReconciled? && PcFits(w, pc)
    ensures var w' := Step(reg, w, pc, inp).0;
            && pc.call < |w'.db.calls|
            && (w'.db.calls[pc.call].status == Succeeded ==>
                  && w.db.calls[pc.call].status == Succeeded && w'.db.calls[pc.call].output == w.db.calls[pc.call].output
                  && w'.log == w.log)
  {
  }

  lemma {:induction false} StepKeepsOwnConfirmed(reg: Registry, w: World, pc: Pc, inp: Input)
    requires Enabled(w, pc) && HasCall(pc) && PcFits(w, pc) && StoresConfirmed(w.log, pc) && RowConfirmed(w, pc.call)
    ensures pc.call < |Step(reg, w, pc, inp).0.db.calls| && RowConfirmed(Step(reg, w, pc, inp).0, pc.call)
  {
    hide Step;
    if pc.Store? { StoringConfirms(reg, w, pc, inp); }
    else if pc.StoreReconciled? { ReconcilingConfirms(reg, w, pc, inp); }
    else { OtherStepsConfirmNothing(reg, w, pc, inp); }
  }

  lemma {:induction false} StepLeadsToStoring(reg: Registry, w: World, pc: Pc, inp: Input)
    requires Enabled(w, pc) && !pc.Invoke? && !pc.Reconcile?
    ensures var pc' := Step(reg, w, pc, inp).1; !pc'.Store? && !pc'.StoreReconciled?
  {
  }

  lemma {:induction false} HearingConfirms(reg: Registry, w: World, pc: Pc, inp: Input)
    requires Enabled(w, pc) && (pc.Invoke? || pc.Reconcile?)
    ensures var (w', pc') := Step(reg, w, pc, inp); StoresConfirmed(w'.log, pc')
  {
  }

  lemma {:induction false} StepKeepsStoring(reg: Registry, w: World, pc: Pc, inp: Input)
    requires Enabled(w, pc)
    ensures var (w', pc') := Step(reg, w, pc, inp); StoresConfirmed(w'.log, pc')
  {
    hide Step;
    if pc.Invoke? || pc.Reconcile? { HearingConfirms(reg, w, pc, inp); } else { StepLeadsToStoring(reg, w, pc, inp); }
  }

  lemma {:induction false} SubmissionIsNotSucceeded(reg: Registry, w: World, pc: Pc, inp: Input, c: CallId)
    requires Enabled(w, pc) && pc.Submit? && c < |Step(reg, w, pc, inp).0.db.calls|
    ensures var w' := Step(reg, w, pc, inp).0;
            w'.log == w.log && (w'.db.calls[c].status == Succeeded ==> c < |w.db.calls| && w'.db.calls[c] == w.db.calls[c])
  {
  }

  lemma {:induction false} StepKeepsRowConfirmed(reg: Registry, w: World, pc: Pc, inp: Input, c: CallId)
    requires Enabled(w, pc) && (HasCall(pc) ==> PcFits(w, pc)) && StoresConfirmed(w.log, pc)
    requires c < |Step(reg, w, pc, inp).0.db.calls| && forall d :: 0 <= d < |w.db.calls| ==> RowConfirmed(w, d)
    ensures RowConfirmed(Step(reg, w, pc, inp).0, c)
  {
    hide Step, PcFits, StoresConfirmed, ConfirmedBy;
    if c < |w.db.calls| { assert RowConfirmed(w, c); }
    if pc.Submit? { SubmissionIsNotSucceeded(reg, w, pc, inp, c); }
    else {
      StepKeepsTarget(reg, w, pc, inp);
      if Target(w.db, pc) == Some(c) { StepKeepsOwnConfirmed(reg, w, pc, inp); }
      else {
        StepKeepsCalls(reg, w, pc, inp, c);
        OthersSayNothing(reg, w, pc, inp, c, w.db.calls[c].output);
      }
    }
  }

  lemma {:induction false} StepKeepsOthersConfirmed(reg: Registry, w: World, pc: Pc, inp: Input, other: Pc)
    requires Enabled(w, pc) && StoresConfirmed(w.log, other)
    requires Target(w.db, other).Some? ==> Target(w.db, other) != Target(w.db, pc)
    ensures StoresConfirmed(Step(reg, w, pc, inp).0.log, other)
  {
    hide Step;
    match other
    case Store(c, Ran(_, Returned(output)), _) => OthersSayNothing(reg, w, pc, inp, c, Some(output));
    case StoreReconciled(c, output) => OthersSayNothing(reg, w, pc, inp, c, output);
    case _ =>
  }

  lemma {:induction false} MoveKeepsConfirmed(reg: Registry, sys: Sys, m: Move)
    requires CallsOk(sys) && AllConfirmed(sys) && OnePerCall(sys) && CanMove(sys, m)
    ensures AllConfirmed(Moved(reg, sys, m))
  {
    hide Step, StoresConfirmed, RowOk, PcFits;
    match m
    case Begin(x, pc) => assert StoresConfirmed(sys.w.log, pc) by { RequestStoresNothing(sys.w.log, pc); }
    case Crash(x) =>
    case Act(x, inp) =>
      var w, pc := sys.w, sys.actors[x];
      var sys' := Moved(reg, sys, m);
      StepKeepsStoring(reg, w, pc, inp);
      forall c | 0 <= c < |sys'.w.db.calls|
        ensures RowConfirmed(sys'.w, c)
      {
        StepKeepsRowConfirmed(reg, w, pc, inp, c);
      }
      forall y | y in sys'.actors
        ensures StoresConfirmed(sys'.w.log, sys'.actors[y])
      {
        if y != x { StepKeepsOthersConfirmed(reg, w, pc, inp, sys.actors[y]); }
      }
  }

  lemma RequestStoresNothing(log: seq<Event>, pc: Pc)
    requires IsRequest(pc)
    ensures StoresConfirmed(log, pc)
  {
    hide Step;
  }

  lemma {:induction false} AlwaysConfirmed(reg: Registry, sys: Sys, moves: seq<Move>)
    requires CallsOk(sys) && AllConfirmed(sys) && SerializedRun(reg, sys, moves)
    ensures Runs(reg, sys, moves) && AllConfirmed(After(reg, sys, moves))
    decreases |moves|
  {
    hide Step, CallsOk, AllConfirmed;
    if moves != [] {
      MoveKeepsConfirmed(reg, sys, moves[0]);
      MoveKeepsCallsOk(reg, sys, moves[0]);
      AlwaysConfirmed(reg, Moved(reg, sys, moves[0]), moves[1..]);
    }
  }

  /**
   A call is succeeded only on the word of its handler or of its provider: its last invocation returned the
   stored output, or an adapter answer since then says succeeded with that output.
   */
  lemma SucceededMeansConfirmed(reg: Registry, sys: Sys, moves: seq<Move>, c: CallId)
    requires Initial(sys) && SerializedRun(reg, sys, moves)
    ensures Runs(reg, sys, moves)
    ensures var w := After(reg, sys, moves).w;
            c < |w.db.calls| && w.db.calls[c].status == Succeeded ==> ConfirmedBy(w.log, c, w.db.calls[c].output)
  {
    InitialCallsOk(sys);
    AlwaysConfirmed(reg, sys, moves);
    var end := After(reg, sys, moves);
    if c < |end.w.db.calls| { assert RowConfirmed(end.w, c); }
  }
}
