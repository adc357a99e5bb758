/**
 Histories of the memory store: evaluations, explicit creations, retirements, maintenance passes and
 startup backfills, in any order and number, for any tasks. The current view, the revision chains, the
 journal and the tombstones agree in every state they reach.
 */
module MemoryHistories {
  import opened Common
  import opened MemoryRecords
  import opened MemoryRetention

  datatype Operation =
    | Evaluation(task: TaskRef, candidate: Candidate, evidence: Evidence, now: Time)
    | Creation(memory: Memory, owners: Owners)
    | Retirement(id: nat, reason: string, now: Time)
    | WorkEnded(endedRun: Option<nat>, endedTask: Option<nat>, reason: string, now: Time)
    | Maintenance(task: TaskRef, limits: Limits, now: Time)
    | Startup

  /** One operation; retiring a memory that does not exist is refused. */
  function Apply(text: Text, s: Store, op: Operation): (r: Store)
    requires |s.revisions| == |s.memories|
    ensures |r.revisions| == |r.memories| >= |s.memories|
  {
    match op
    case Evaluation(task, c, e, now) => Evaluate(text, s, task, c, e, now)
    case Creation(m, owners) => Create(s, m, owners)
    case Retirement(id, reason, now) => if id < |s.memories| then Retire(s, id, reason, now) else s
    case WorkEnded(run, task, reason, now) => RetireWorking(s, run, task, reason, now)
    case Maintenance(task, limits, now) => Maintain(s, task, limits, now)
    case Startup => Backfill(s)
  }

  function After(text: Text, s: Store, ops: seq<Operation>): (r: Store)
    requires |s.revisions| == |s.memories|
    ensures |r.revisions| == |r.memories| >= |s.memories|
  {
    if ops == [] then s else Apply(text, After(text, s, ops[..|ops| - 1]), ops[|ops| - 1])
  }

  function Evaluations(ops: seq<Operation>): nat {
    if ops == [] then 0 else Evaluations(ops[..|ops| - 1]) + (if ops[|ops| - 1].Evaluation? then 1 else 0)
  }

  // ---------------------------------------------------------------- the journal

  lemma AppendedRow(journal: seq<JournalRow>, row: JournalRow, id: nat)
    ensures Written(journal + [row], id) == Written(journal, id) + (if Writes(row, id) then [row.content] else [])
    ensures SupersedeCount(journal + [row], id)
            == SupersedeCount(journal, id) + (if row.memory == Some(id) && row.action == Superseded then 1 else 0)
  {
  }

  predicate RefersBelow(journal: seq<JournalRow>, n: nat) {
    forall r :: 0 <= r < |journal| && journal[r].memory.Some? ==> journal[r].memory.value < n
  }

  lemma {:induction false} NotYetWritten(journal: seq<JournalRow>, id: nat)
    requires RefersBelow(journal, id)
    ensures Written(journal, id) == [] && SupersedeCount(journal, id) == 0
    decreases |journal|
  {
    if journal != [] { NotYetWritten(journal[..|journal| - 1], id); }
  }

  function Masked(journal: seq<JournalRow>, purge: seq<nat>): (r: seq<JournalRow>)
    ensures |r| == |journal|
  {
    seq(|journal|, r requires 0 <= r < |journal| => Purged(journal[r], purge))
  }

  /** Purging masks what was written, and forgets no row. */
  lemma {:induction false} MaskedJournal(journal: seq<JournalRow>, purge: seq<nat>, id: nat)
    ensures |Written(Masked(journal, purge), id)| == |Written(journal, id)|
    ensures id !in purge ==> Written(Masked(journal, purge), id) == Written(journal, id)
    ensures id in purge ==> forall i :: 0 <= i < |Written(journal, id)| ==> Written(Masked(journal, purge), id)[i] == MARKER
    ensures SupersedeCount(Masked(journal, purge), id) == SupersedeCount(journal, id)
    decreases |journal|
  {
    if journal != [] {
      var rest := journal[..|journal| - 1];
      MaskedJournal(rest, purge, id);
      assert Masked(journal, purge)[..|journal| - 1] == Masked(rest, purge);
    }
  }

  // ---------------------------------------------------------------- every operation keeps the store

  lemma CreatedIsOk(m: Memory, journal: seq<JournalRow>, id: nat)
    requires m.version == 1 && m.status == Active
    requires Written(journal, id) == [] || Written(journal, id) == [m.content]
    requires SupersedeCount(journal, id) == 0
    ensures RowOk(m, [RevisionOf(m, m.createdAt, None)], journal, false, id)
  {
  }

  lemma SupersededIsOk(m: Memory, revisions: seq<Revision>, journal: seq<JournalRow>, row: JournalRow, id: nat, c: Candidate, now: Time)
    requires RowOk(m, revisions, journal, false, id) && m.kind == Fact
    requires row.memory == Some(id) && row.action == Superseded && row.content == c.content
    ensures var m' := m.(version := m.version + 1, content := c.content, source := c.source, importance := c.importance);
            RowOk(m', CloseCurrent(m, revisions, now) + [RevisionOf(m', now, None)], journal + [row], false, id)
  {
  }

  /** A journaled row about nothing, or one that only confirms what is stored, leaves this memory as it was. */
  lemma UnwrittenIsOk(m: Memory, revisions: seq<Revision>, journal: seq<JournalRow>, row: JournalRow, cleaned: bool, id: nat)
    requires RowOk(m, revisions, journal, cleaned, id) && !Writes(row, id)
    requires cleaned && row.memory == Some(id) ==> row.content == MARKER && row.evaluatorOutput.None?
    ensures RowOk(m, revisions, journal + [row], cleaned, id)
  {
  }

  lemma EvaluationKeepsNames(text: Text, s: Store, task: TaskRef, c: Candidate, e: Evidence, now: Time)
    requires StoreOk(s)
    ensures var s' := Evaluate(text, s, task, c, e, now);
            && |s'.revisions| == |s'.memories| && s'.cleaned == s.cleaned
            && (forall a, b :: 0 <= a < b < |s'.memories| ==>
                  !IsNamed(s'.memories[b], s'.memories[a].contract, s'.memories[a].kind, s'.memories[a].key))
            && RefersBelow(s'.journal, |s'.memories|)
  {
  }

  lemma EvaluationCreates(text: Text, s: Store, task: TaskRef, c: Candidate, e: Evidence, now: Time)
    requires StoreOk(s) && |Evaluate(text, s, task, c, e, now).memories| > |s.memories|
    ensures MemoryOk(Evaluate(text, s, task, c, e, now), |s.memories|)
  {
    var effect, id := EvaluationEffect(text, s, task, c, e, now), |s.memories|;
    var row := RowOf(s, task, c, e, effect);
    NotYetWritten(s.journal, id);
    AppendedRow(s.journal, row, id);
    CreatedIsOk(NewMemory(task, c, now), s.journal + [row], id);
  }

  /** An old memory is superseded, or it is left alone and the new row does not write it. */
  lemma EvaluationTouches(text: Text, s: Store, task: TaskRef, c: Candidate, e: Evidence, now: Time, id: nat)
    requires |s.revisions| == |s.memories| && id < |s.memories|
    ensures var effect := EvaluationEffect(text, s, task, c, e, now);
            var row := RowOf(s, task, c, e, effect);
            if effect.action == Superseded && effect.memory == Some(id) then
              && effect.store == Supersede(s, id, c, now)
              && row.memory == Some(id) && row.action == Superseded && row.content == (if id in s.cleaned then MARKER else c.content)
              && s.memories[id].kind == Fact && s.memories[id].status == Active
            else
              && id < |effect.store.memories| && id < |effect.store.revisions|
              && effect.store.cleaned == s.cleaned && effect.store.journal == s.journal
              && effect.store.memories[id] == s.memories[id] && effect.store.revisions[id] == s.revisions[id]
              && !Writes(row, id)
              && (id in s.cleaned && row.memory == Some(id) ==> row.content == MARKER && row.evaluatorOutput.None?)
  {
  }

  lemma ActiveIsNotCleaned(s: Store, id: nat)
    requires StoreOk(s) && id < |s.memories| && s.memories[id].status == Active
    ensures id !in s.cleaned
  {
    assert MemoryOk(s, id);
  }

  lemma EvaluationKeepsMemory(text: Text, s: Store, task: TaskRef, c: Candidate, e: Evidence, now: Time, id: nat)
    requires StoreOk(s) && id < |s.memories|
    ensures MemoryOk(Evaluate(text, s, task, c, e, now), id)
  {
    hide EvaluationEffect, RowOf, RowOk, CloseCurrent, Writes;
    if s.memories[id].status == Active { ActiveIsNotCleaned(s, id); }
    var effect := EvaluationEffect(text, s, task, c, e, now);
    var row := RowOf(s, task, c, e, effect);
    assert MemoryOk(s, id);
    EvaluationTouches(text, s, task, c, e, now, id);
    if effect.action == Superseded && effect.memory == Some(id) {
      SupersededIsOk(s.memories[id], s.revisions[id], s.journal, row, id, c, now);
    } else {
      UnwrittenIsOk(s.memories[id], s.revisions[id], s.journal, row, id in s.cleaned, id);
    }
  }

  lemma EvaluationKeepsStore(text: Text, s: Store, task: TaskRef, c: Candidate, e: Evidence, now: Time)
    requires StoreOk(s)
    ensures StoreOk(Evaluate(text, s, task, c, e, now))
  {
    var s' := Evaluate(text, s, task, c, e, now);
    EvaluationKeepsNames(text, s, task, c, e, now);
    forall id: nat | id < |s'.memories| ensures MemoryOk(s', id) {
      if id < |s.memories| {
        EvaluationKeepsMemory(text, s, task, c, e, now, id);
      } else {
        EvaluationCreates(text, s, task, c, e, now);
      }
    }
  }

  lemma CreationKeepsStore(s: Store, m: Memory, owners: Owners)
    requires StoreOk(s)
    ensures StoreOk(Create(s, m, owners))
  {
    var s', n := Create(s, m, owners), |s.memories|;
    var scoped := ResolveScope(m, owners);
    if scoped.Some? && FindNamed(s.memories, m.contract, m.kind, m.key).None? {
      var created := scoped.value.(version := 1, status := Active, retiredAt := None, retirementReason := None);
      NotYetWritten(s.journal, n);
      CreatedIsOk(created, s.journal, n);
      assert s' == WithMemory(s, created);
      assert MemoryOk(s', n);
      forall id: nat | id < n ensures MemoryOk(s', id) { assert MemoryOk(s, id); }
    }
  }

  /** Retiring, singly or by the end of a run or a task, changes only the status and what comes with it. */
  lemma RetiringKeepsStore(s: Store, s': Store)
    requires StoreOk(s) && s' == s.(memories := s'.memories) && |s'.memories| == |s.memories|
    requires forall id :: 0 <= id < |s.memories| ==>
               || s'.memories[id] == s.memories[id]
               || (s.memories[id].status == Active && exists reason, now :: s'.memories[id] == RetiredAs(s.memories[id], reason, now))
    ensures StoreOk(s')
  {
    forall id: nat | id < |s.memories| ensures MemoryOk(s', id) { assert MemoryOk(s, id); }
  }

  lemma MaintenanceKeepsMemory(s: Store, task: TaskRef, limits: Limits, now: Time, id: nat)
    requires StoreOk(s) && id < |s.memories|
    ensures MemoryOk(Maintain(s, task, limits, now), id)
  {
    var plan := PlanOf(s, task, limits, now);
    var s' := Maintain(s, task, limits, now);
    assert MemoryOk(s, id);
    assert s'.journal == Masked(s.journal, plan.purge);
    MaskedJournal(s.journal, plan.purge, id);
    RetireListMeans(s, task, limits, now, id);
    PurgeListMeans(s, task, limits, now, id);
    if id in s'.cleaned {
      forall r | 0 <= r < |s'.journal| && s'.journal[r].memory == Some(id)
        ensures s'.journal[r].content == MARKER && s'.journal[r].evaluatorOutput.None?
      {
        assert s.journal[r].memory == Some(id);
      }
    }
  }

  lemma {:induction false} MaintenanceKeepsStore(s: Store, task: TaskRef, limits: Limits, now: Time)
    requires StoreOk(s)
    ensures StoreOk(Maintain(s, task, limits, now))
  {
    var s' := Maintain(s, task, limits, now);
    forall id: nat | id < |s.memories| ensures MemoryOk(s', id) { MaintenanceKeepsMemory(s, task, limits, now, id); }
    forall id | id in s'.cleaned ensures id < |s.memories| { PurgeListMeans(s, task, limits, now, id); }
    forall r | 0 <= r < |s'.journal| && s'.journal[r].memory.Some?
      ensures s'.journal[r].memory.value < |s.memories|
    {
      assert s.journal[r].memory == s'.journal[r].memory;
    }
  }

  /** Starting up again changes nothing: no memory lacks revisions but the purged ones. */
  lemma BackfillChangesNothing(s: Store)
    requires StoreOk(s)
    ensures Backfill(s) == s
  {
    forall id: nat | id < |s.memories| ensures Backfill(s).revisions[id] == s.revisions[id] { assert MemoryOk(s, id); }
    assert Backfill(s).revisions == s.revisions;
  }

  lemma OperationKeepsStore(text: Text, s: Store, op: Operation)
    requires StoreOk(s)
    ensures StoreOk(Apply(text, s, op))
  {
    match op
    case Evaluation(task, c, e, now) => EvaluationKeepsStore(text, s, task, c, e, now);
    case Creation(m, owners) => CreationKeepsStore(s, m, owners);
    case Retirement(id, reason, now) => RetiringKeepsStore(s, Apply(text, s, op));
    case WorkEnded(run, task, reason, now) => RetiringKeepsStore(s, Apply(text, s, op));
    case Maintenance(task, limits, now) => MaintenanceKeepsStore(s, task, limits, now);
    case Startup => BackfillChangesNothing(s);
  }

  lemma {:induction false} HistoriesKeepStore(text: Text, s: Store, ops: seq<Operation>)
    requires StoreOk(s)
    ensures StoreOk(After(text, s, ops))
    decreases |ops|
  {
    if ops != [] {
      HistoriesKeepStore(text, s, ops[..|ops| - 1]);
      OperationKeepsStore(text, After(text, s, ops[..|ops| - 1]), ops[|ops| - 1]);
    }
  }

  // ---------------------------------------------------------------- the current view, the chain and the journal agree

  /**
   After any history, a memory holds what its latest writing row says, purged or not, and its version
   counts the rows that superseded it.
   */
  lemma {:induction false} CurrentViewIsLatestWrite(text: Text, ops: seq<Operation>, id: nat)
    requires id < |After(text, EMPTY, ops).memories|
    ensures var s := After(text, EMPTY, ops);
            var written := Written(s.journal, id);
            && (written != [] ==> s.memories[id].content == written[|written| - 1])
            && s.memories[id].version == 1 + SupersedeCount(s.journal, id)
  {
    HistoriesKeepStore(text, EMPTY, ops);
    assert MemoryOk(After(text, EMPTY, ops), id);
  }

  /**
   Until its purge a memory has revisions 1..version without a gap, each closed exactly when the next
   begins, the last one open with the current content; and they are the written contents in order.
   */
  lemma {:induction false} ChainReplaysTheJournal(text: Text, ops: seq<Operation>, id: nat)
    requires var s := After(text, EMPTY, ops);
             id < |s.memories| && id !in s.cleaned
    ensures var s := After(text, EMPTY, ops);
            HoldsCurrent(s.memories[id], s.revisions[id]) && Replays(s.revisions[id], Written(s.journal, id))
  {
    HistoriesKeepStore(text, EMPTY, ops);
    assert MemoryOk(After(text, EMPTY, ops), id);
  }

  // ---------------------------------------------------------------- the journal is append-only

  /** A row is as it was, or its payload is masked because the memory it names is purged. */
  predicate SameOrMasked(before: JournalRow, after: JournalRow, cleaned: set<nat>) {
    || after == before
    || (before.memory.Some? && before.memory.value in cleaned && after == before.(content := MARKER, evaluatorOutput := None))
  }

  predicate Extends(before: Store, after: Store) {
    && before.cleaned <= after.cleaned
    && |before.journal| <= |after.journal|
    && forall r :: 0 <= r < |before.journal| ==> SameOrMasked(before.journal[r], after.journal[r], after.cleaned)
  }

  lemma OperationExtends(text: Text, s: Store, op: Operation)
    requires |s.revisions| == |s.memories|
    ensures Extends(s, Apply(text, s, op))
    ensures |Apply(text, s, op).journal| == |s.journal| + (if op.Evaluation? then 1 else 0)
  {
  }

  /** Every evaluation journals exactly one row, nothing else does, and no later operation rewrites it but a purge. */
  lemma {:induction false} JournalIsAppendOnly(text: Text, s: Store, ops: seq<Operation>)
    requires |s.revisions| == |s.memories|
    ensures Extends(s, After(text, s, ops))
    ensures |After(text, s, ops).journal| == |s.journal| + Evaluations(ops)
    decreases |ops|
  {
    if ops != [] {
      var mid := After(text, s, ops[..|ops| - 1]);
      JournalIsAppendOnly(text, s, ops[..|ops| - 1]);
      OperationExtends(text, mid, ops[|ops| - 1]);
      forall r | 0 <= r < |s.journal|
        ensures SameOrMasked(s.journal[r], After(text, s, ops).journal[r], After(text, s, ops).cleaned)
      {
        assert SameOrMasked(s.journal[r], mid.journal[r], mid.cleaned);
        assert SameOrMasked(mid.journal[r], After(text, s, ops).journal[r], After(text, s, ops).cleaned);
      }
    }
  }

  // ---------------------------------------------------------------- retired and purged memories

  /** Untouched, or purged: only the payload of a retired memory ever changes, and only to the marker. */
  predicate FrozenButPurged(before: Store, after: Store, id: nat)
    requires id < |before.memories|
  {
    && id < |after.memories|
    && (|| (after.memories[id] == before.memories[id] && (id in after.cleaned ==> id in before.cleaned))
        || (id in after.cleaned && after.memories[id] == before.memories[id].(content := MARKER)))
  }

  lemma OperationFreezesRetired(text: Text, s: Store, op: Operation, id: nat)
    requires StoreOk(s) && id < |s.memories| && s.memories[id].status == Retired
    ensures FrozenButPurged(s, Apply(text, s, op), id)
  {
    assert MemoryOk(s, id);
    match op {
      case Evaluation(task, c, e, now) => EvaluationTouches(text, s, task, c, e, now, id);
      case Maintenance(task, limits, now) =>
        RetireListMeans(s, task, limits, now, id);
        PurgeListMeans(s, task, limits, now, id);
      case _ =>
    }
  }

  /** No history reactivates or rewrites a retired memory; it can only be purged. */
  lemma {:induction false} RetiredStaysRetired(text: Text, s: Store, ops: seq<Operation>, id: nat)
    requires StoreOk(s) && id < |s.memories| && s.memories[id].status == Retired
    ensures FrozenButPurged(s, After(text, s, ops), id)
    decreases |ops|
  {
    if ops != [] {
      RetiredStaysRetired(text, s, ops[..|ops| - 1], id);
      HistoriesKeepStore(text, s, ops[..|ops| - 1]);
      OperationFreezesRetired(text, After(text, s, ops[..|ops| - 1]), ops[|ops| - 1], id);
    }
  }

  /**
   Once purged, always purged: the memory never changes again, it has no revisions, and no journal row
   that names it, old or new, carries a payload.
   */
  lemma {:induction false} PurgedStaysPurged(text: Text, s: Store, ops: seq<Operation>, id: nat)
    requires StoreOk(s) && id in s.cleaned
    ensures var after := After(text, s, ops);
            && id in after.cleaned
            && after.memories[id] == s.memories[id]
            && after.memories[id].status == Retired && after.memories[id].content == MARKER
            && after.revisions[id] == []
            && PayloadGone(after.journal, id)
  {
    assert MemoryOk(s, id);
    RetiredStaysRetired(text, s, ops, id);
    JournalIsAppendOnly(text, s, ops);
    HistoriesKeepStore(text, s, ops);
    assert MemoryOk(After(text, s, ops), id);
  }

  // ---------------------------------------------------------------- replays

  lemma {:induction false} UpdateKeepsFound(memories: seq<Memory>, id: nat, m: Memory, contract: nat, kind: Kind, key: string)
    requires id < |memories| && m.contract == memories[id].contract && m.kind == memories[id].kind && m.key == memories[id].key
    ensures FindNamed(memories[id := m], contract, kind, key) == FindNamed(memories, contract, kind, key)
    decreases |memories|
  {
    var last := |memories| - 1;
    if id < last {
      assert memories[id := m][..last] == memories[..last][id := m];
      UpdateKeepsFound(memories[..last], id, m, contract, kind, key);
    } else {
      assert memories[id := m][..last] == memories[..last];
    }
  }

  /**
   Evaluating a candidate again right after it was stored, whatever the evidence is by then, journals the
   replay and changes no memory and no revision.
   */
  lemma ReplayStoresNothing(text: Text, s: Store, task: TaskRef, c: Candidate, e: Evidence, now: Time, e': Evidence, later: Time)
    requires |s.revisions| == |s.memories|
    requires EvaluationEffect(text, s, task, c, e, now).verdict == Accept
    ensures var first := Evaluate(text, s, task, c, e, now);
            var second := Evaluate(text, first, task, c, e', later);
            && second.memories == first.memories && second.revisions == first.revisions
            && second.journal[|first.journal|].action in {NotStored, AlreadyStored}
  {
    var effect := EvaluationEffect(text, s, task, c, e, now);
    if effect.action == Superseded {
      var id := effect.memory.value;
      UpdateKeepsFound(s.memories, id, effect.store.memories[id], task.contract, c.kind, c.key);
    }
  }
}
