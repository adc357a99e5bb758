/**
 What the memory store admits, rewrites, retires and purges, said of the rows before and after each
 operation and of what the operation was given, not of how the services decide it.
 */
module MemoryOutcomes {
  import opened Common
  import opened MemoryRecords
  import opened MemoryRetention
  import H = MemoryHistories

  // ---------------------------------------------------------------- what an evaluation may store

  /** The memory goes by the candidate's name. */
  predicate Named(s: Store, id: nat, task: TaskRef, c: Candidate) {
    id < |s.memories| && s.memories[id].contract == task.contract && s.memories[id].kind == c.kind && s.memories[id].key == c.key
  }

  /** The ids of the candidate are those of its lifetime: none, the task's own, or a run of the task. */
  predicate InScope(task: TaskRef, c: Candidate, runOfTask: bool) {
    && (c.scope == ContractScope ==> c.task.None? && c.run.None?)
    && (c.scope == TaskScope ==> c.task == Some(task.id) && c.run.None?)
    && (c.scope == RunScope ==> c.task.None? && c.run.Some? && runOfTask)
  }

  /**
   Fit to be stored, novelty aside: in scope, informative, free of secrets, and of a provenance that is
   accepted, or left by the rules to a semantic evaluator that accepted it.
   */
  predicate Admissible(text: Text, task: TaskRef, c: Candidate, e: Evidence) {
    && InScope(task, c, e.runOfTask)
    && 24 <= |text.strip(c.relevance)| && !e.sensitive
    && (e.provenance == Accept || (e.provenance == NeedsReview && e.semanticRequired && e.semantic == Some(Accept)))
  }

  /** A memory of the same lifetime says the same already. */
  predicate Repeats(text: Text, m: Memory, task: TaskRef, c: Candidate) {
    && m.contract == task.contract && m.kind == c.kind && m.scope == c.scope && m.task == c.task && m.run == c.run
    && var known, answer := text.normalize(m.content), text.normalize(c.relevance);
    (|| known == text.normalize(c.content)
     || (|answer| <= |known| && known[|known| - |answer|..] == answer)
     || (|text.canonical(c.content)| > 0 && text.canonical(m.content) == text.canonical(c.content)))
  }

  predicate Novel(text: Text, s: Store, task: TaskRef, c: Candidate) {
    forall id :: 0 <= id < |s.memories| ==> !Repeats(text, s.memories[id], task, c)
  }

  predicate FreeName(s: Store, task: TaskRef, c: Candidate) {
    forall id :: 0 <= id < |s.memories| ==> !Named(s, id, task, c)
  }

  lemma RulesMean(text: Text, s: Store, task: TaskRef, c: Candidate, e: Evidence)
    ensures HasDuplicate(text, s, task, c) <==> !Novel(text, s, task, c)
    ensures forall check: bool ::
              FirstVerdict(text, s, task, c, e, check) == Accept
              <==> Admissible(text, task, c, e) && (check ==> Novel(text, s, task, c))
  {
    forall id | 0 <= id < |s.memories|
      ensures DuplicateOf(text, s.memories[id], task, c) <==> Repeats(text, s.memories[id], task, c)
    {
    }
  }

  lemma NameMeans(s: Store, task: TaskRef, c: Candidate)
    ensures FindNamed(s.memories, task.contract, c.kind, c.key).None? <==> FreeName(s, task, c)
    ensures StoreOk(s) ==> forall id: nat :: Named(s, id, task, c) ==>
              FindNamed(s.memories, task.contract, c.kind, c.key) == Some(id)
  {
    var found := FindNamed(s.memories, task.contract, c.kind, c.key);
    if found.Some? { assert Named(s, found.value, task, c); }
    forall id: nat | Named(s, id, task, c)
      ensures IsNamed(s.memories[id], task.contract, c.kind, c.key)
    {
    }
  }

  predicate OneMoreRow(s: Store, s': Store, row: JournalRow) {
    s'.journal == s.journal + [row] && s'.cleaned == s.cleaned
  }

  /**
   A memory is added exactly when its name is free and the candidate is admissible and novel; it is active,
   holds exactly the candidate in one open revision, and the journal says it was stored.
   */
  lemma AddedIff(text: Text, s: Store, task: TaskRef, c: Candidate, e: Evidence, now: Time)
    requires |s.revisions| == |s.memories|
    ensures var s' := Evaluate(text, s, task, c, e, now);
            if FreeName(s, task, c) && Admissible(text, task, c, e) && Novel(text, s, task, c) then
              && s'.memories == s.memories + [Memory(task.contract, c.kind, c.scope, c.task, c.run, c.key, c.content,
                                                     c.source, c.importance, 1, Active, now, None, None, None)]
              && s'.revisions == s.revisions + [[Revision(1, c.content, c.source, c.importance, now, None)]]
              && OneMoreRow(s, s', JournalRow(Some(|s.memories|), c.kind, c.key, c.content, Accept, Stored, e.output))
            else |s'.memories| == |s.memories|
  {
    hide FirstVerdict;
    RulesMean(text, s, task, c, e);
    NameMeans(s, task, c);
  }

  /** An evaluation stores exactly in that case, and writes at all only what is admissible. */
  lemma EvaluationStoresIff(text: Text, s: Store, task: TaskRef, c: Candidate, e: Evidence, now: Time)
    requires |s.revisions| == |s.memories|
    ensures var action := EvaluationEffect(text, s, task, c, e, now).action;
            && (action == Stored <==> FreeName(s, task, c) && Admissible(text, task, c, e) && Novel(text, s, task, c))
            && (action == NotStored || Admissible(text, task, c, e))
  {
    hide FirstVerdict;
    RulesMean(text, s, task, c, e);
    NameMeans(s, task, c);
  }

  /** What lets a trusted tool replace the content of this memory. */
  predicate MayReplace(text: Text, m: Memory, c: Candidate) {
    && text.normalize(m.content) != text.normalize(c.content)
    && m.status == Active && m.kind == Fact && m.scope == c.scope && m.task == c.task && m.run == c.run
    && |c.source| >= 5 && c.source[..5] == "tool:"
  }

  /**
   The memory of the candidate's name is rewritten exactly when the candidate is admissible and a trusted
   tool reports another content for an active fact of the same lifetime: then its current revision is closed
   and the next one opened with the new content.
   */
  lemma RewrittenIff(text: Text, s: Store, task: TaskRef, c: Candidate, e: Evidence, now: Time, id: nat)
    requires StoreOk(s) && Named(s, id, task, c)
    ensures var s', m, chain := Evaluate(text, s, task, c, e, now), s.memories[id], s.revisions[id];
            if Admissible(text, task, c, e) && MayReplace(text, m, c) then
              && s'.memories == s.memories[id := m.(version := m.version + 1, content := c.content, source := c.source,
                                                    importance := c.importance)]
              && chain != []
              && s'.revisions == s.revisions[id :=
                   chain[..|chain| - 1] + [chain[|chain| - 1].(validTo := Some(now)),
                                           Revision(m.version + 1, c.content, c.source, c.importance, now, None)]]
              && OneMoreRow(s, s', JournalRow(Some(id), c.kind, c.key, c.content, Accept, Superseded, e.output))
            else s'.memories == s.memories && s'.revisions == s.revisions
  {
    hide FirstVerdict;
    RulesMean(text, s, task, c, e);
    NameMeans(s, task, c);
    assert MemoryOk(s, id);
    assert TOOL_PREFIX <= c.source <==> |c.source| >= 5 && c.source[..5] == "tool:";
    if Admissible(text, task, c, e) && MayReplace(text, s.memories[id], c) { ChainGrows(s, id, c, now); }
  }

  lemma ChainGrows(s: Store, id: nat, c: Candidate, now: Time)
    requires StoreOk(s) && id < |s.memories| && id !in s.cleaned
    ensures var m, chain := s.memories[id], s.revisions[id];
            && chain != []
            && Supersede(s, id, c, now).revisions == s.revisions[id :=
                 chain[..|chain| - 1] + [chain[|chain| - 1].(validTo := Some(now)),
                                         Revision(m.version + 1, c.content, c.source, c.importance, now, None)]]
  {
    assert MemoryOk(s, id);
    var m, chain := s.memories[id], s.revisions[id];
    var last := chain[|chain| - 1].(validTo := Some(now));
    var next := Revision(m.version + 1, c.content, c.source, c.importance, now, None);
    assert chain[|chain| - 1 := last] + [next] == chain[..|chain| - 1] + [last, next];
  }

  /** The journal row of an evaluation that stored nothing; the payload of a purged memory stays masked in it. */
  predicate Unstored(s: Store, task: TaskRef, c: Candidate, e: Evidence, row: JournalRow) {
    && row.kind == c.kind && row.key == c.key
    && if exists id :: id in s.cleaned && Named(s, id, task, c) then row.content == MARKER && row.evaluatorOutput.None?
       else row.content == c.content && row.evaluatorOutput == e.output
  }

  /** The memory of the candidate's name has the candidate's content already. */
  predicate Holds(text: Text, s: Store, id: nat, task: TaskRef, c: Candidate) {
    Named(s, id, task, c) && text.normalize(s.memories[id].content) == text.normalize(c.content)
  }

  /**
   Whatever is neither added nor rewritten leaves every memory and every revision as it was. The journal says
   already stored, with the memory, exactly when an admissible candidate repeats the content under its own
   name, and otherwise not stored, which is never an acceptance.
   */
  lemma OtherwiseOnlyJournaled(text: Text, s: Store, task: TaskRef, c: Candidate, e: Evidence, now: Time)
    requires StoreOk(s)
    requires !(FreeName(s, task, c) && Admissible(text, task, c, e) && Novel(text, s, task, c))
    requires forall id: nat :: Named(s, id, task, c) ==> !(Admissible(text, task, c, e) && MayReplace(text, s.memories[id], c))
    ensures var s' := Evaluate(text, s, task, c, e, now);
            && s'.memories == s.memories && s'.revisions == s.revisions
            && |s'.journal| == |s.journal| + 1
            && var row := s'.journal[|s.journal|];
            && OneMoreRow(s, s', row) && Unstored(s, task, c, e, row)
            && (forall id: nat :: Admissible(text, task, c, e) && Holds(text, s, id, task, c) ==>
                  row.action == AlreadyStored && row.memory == Some(id) && row.verdict == Accept)
            && (row.action == AlreadyStored ==> Admissible(text, task, c, e) && exists id: nat :: Holds(text, s, id, task, c))
            && (row.action != AlreadyStored ==> row.action == NotStored && row.memory.None? && row.verdict != Accept)
  {
    hide FirstVerdict;
    RulesMean(text, s, task, c, e);
    NameMeans(s, task, c);
    var found := FindNamed(s.memories, task.contract, c.kind, c.key);
    if found.Some? {
      assert Named(s, found.value, task, c);
      assert Holds(text, s, found.value, task, c)
             <==> text.normalize(s.memories[found.value].content) == text.normalize(c.content);
      assert TOOL_PREFIX <= c.source <==> |c.source| >= 5 && c.source[..5] == "tool:";
    }
  }

  /**
   An evaluation is left for review exactly when the rules reject nothing and nobody accepts or rejects what
   they leave open.
   */
  lemma ReviewedIff(text: Text, s: Store, task: TaskRef, c: Candidate, e: Evidence, now: Time)
    requires |s.revisions| == |s.memories|
    ensures var journal := Evaluate(text, s, task, c, e, now).journal;
            && |journal| == |s.journal| + 1
            && (journal[|s.journal|].verdict == NeedsReview <==>
                  && InScope(task, c, e.runOfTask) && 24 <= |text.strip(c.relevance)| && !e.sensitive
                  && (FreeName(s, task, c) ==> Novel(text, s, task, c))
                  && e.provenance == NeedsReview
                  && (e.semanticRequired && e.semantic.Some? ==> e.semantic == Some(NeedsReview)))
  {
    RulesMean(text, s, task, c, e);
    NameMeans(s, task, c);
  }

  // ---------------------------------------------------------------- creation, retirement, startup

  /** The lifetime an explicit creation may ask for, given who owns the ids it names. */
  predicate Creatable(m: Memory, owners: Owners) {
    && (m.scope == ContractScope ==> m.kind != Working && m.task.None? && m.run.None?)
    && (m.scope == TaskScope ==> m.task.Some? && m.run.None? && owners.taskInContract)
    && (m.scope == RunScope ==> m.kind == Working && m.run.Some? && owners.taskOfRun.Some?
                                && (m.task.Some? ==> m.task == owners.taskOfRun))
  }

  /**
   An explicit creation adds one active memory with one open revision, exactly when its lifetime holds and its
   name is free.
   */
  lemma CreatedIff(s: Store, m: Memory, owners: Owners)
    ensures var s' := Create(s, m, owners);
            if Creatable(m, owners) && forall id :: 0 <= id < |s.memories| ==>
                 s.memories[id].contract != m.contract || s.memories[id].kind != m.kind || s.memories[id].key != m.key
            then
              var created := m.(task := if m.scope == RunScope then owners.taskOfRun else m.task,
                                version := 1, status := Active, retiredAt := None, retirementReason := None);
              && s'.memories == s.memories + [created]
              && s'.revisions == s.revisions + [[Revision(1, m.content, m.source, m.importance, m.createdAt, None)]]
              && s'.journal == s.journal && s'.cleaned == s.cleaned
            else s' == s
  {
    var found := FindNamed(s.memories, m.contract, m.kind, m.key);
    if found.None? {
      assert forall id :: 0 <= id < |s.memories| ==> !IsNamed(s.memories[id], m.contract, m.kind, m.key);
    }
  }

  /** Retiring touches nothing but the status of one active memory and when and why it was retired. */
  lemma RetiredOnce(s: Store, id: nat, reason: string, now: Time)
    requires id < |s.memories|
    ensures var s', m := Retire(s, id, reason, now), s.memories[id];
            && s' == s.(memories := s'.memories)
            && s'.memories == s.memories[id :=
                 if m.status == Active
                 then m.(status := Retired, retiredAt := Some(now), retirementReason := Some(reason)) else m]
  {
  }

  /** The end of a run or a task retires its active working memories and nothing else. */
  lemma EndRetiresWorking(s: Store, run: Option<nat>, task: Option<nat>, reason: string, now: Time)
    ensures var s' := RetireWorking(s, run, task, reason, now);
            && s' == s.(memories := s'.memories) && |s'.memories| == |s.memories|
            && forall id :: 0 <= id < |s.memories| ==>
                 var m := s.memories[id];
                 s'.memories[id] ==
                   if m.kind == Working && m.status == Active
                      && ((run.Some? && m.run.Some? && m.run.value == run.value)
                          || (task.Some? && m.task.Some? && m.task.value == task.value))
                   then m.(status := Retired, retiredAt := Some(now), retirementReason := Some(reason)) else m
  {
  }

  /**
   Startup gives a memory a first revision exactly when it has none and was not purged; a retired one gets it
   closed.
   */
  lemma BackfillGivesFirstRevision(s: Store)
    requires |s.revisions| == |s.memories|
    ensures var s' := Backfill(s);
            && s' == s.(revisions := s'.revisions) && |s'.revisions| == |s.revisions|
            && forall id :: 0 <= id < |s.memories| ==>
                 var m := s.memories[id];
                 s'.revisions[id] ==
                   if s.revisions[id] != [] || id in s.cleaned then s.revisions[id]
                   else [Revision(m.version, m.content, m.source, m.importance, m.createdAt,
                                  if m.status == Active then None else m.retiredAt)]
  {
  }

  // ---------------------------------------------------------------- over whole histories

  /** The r-th evaluation of a history was of an admissible candidate. */
  predicate AdmittedBy(text: Text, ops: seq<H.Operation>, r: nat, k: nat) {
    && k < |ops| && ops[k].Evaluation? && H.Evaluations(ops[..k]) == r
    && Admissible(text, ops[k].task, ops[k].candidate, ops[k].evidence)
  }

  lemma NewRowIsAdmitted(text: Text, s: Store, task: TaskRef, c: Candidate, e: Evidence, now: Time)
    requires |s.revisions| == |s.memories|
    ensures var journal := Evaluate(text, s, task, c, e, now).journal;
            |journal| == |s.journal| + 1 && journal[..|s.journal|] == s.journal
            && (journal[|s.journal|].action == Stored || journal[|s.journal|].action == Superseded ==>
                  Admissible(text, task, c, e))
  {
    hide FirstVerdict;
    RulesMean(text, s, task, c, e);
  }

  lemma NewRowsAreAdmitted(text: Text, s: Store, op: H.Operation)
    requires |s.revisions| == |s.memories|
    ensures var journal := H.Apply(text, s, op).journal;
            && |journal| == |s.journal| + (if op.Evaluation? then 1 else 0)
            && (forall r :: 0 <= r < |s.journal| ==> journal[r].action == s.journal[r].action)
            && (op.Evaluation? && (journal[|s.journal|].action == Stored || journal[|s.journal|].action == Superseded) ==>
                  Admissible(text, op.task, op.candidate, op.evidence))
  {
    hide Evaluate, Maintain, Backfill, Create;
    H.OperationExtends(text, s, op);
    forall r | 0 <= r < |s.journal|
      ensures H.Apply(text, s, op).journal[r].action == s.journal[r].action
    {
      assert H.SameOrMasked(s.journal[r], H.Apply(text, s, op).journal[r], H.Apply(text, s, op).cleaned);
    }
    if op.Evaluation? { NewRowIsAdmitted(text, s, op.task, op.candidate, op.evidence, op.now); }
  }

  /**
   In every history, what was stored or superseded was admissible when it was evaluated: no secret, no noise,
   nothing unproven.
   */
  lemma {:induction false} OnlyAdmissibleIsStored(text: Text, ops: seq<H.Operation>, r: nat)
    requires r < |H.After(text, EMPTY, ops).journal|
    requires var action := H.After(text, EMPTY, ops).journal[r].action; action == Stored || action == Superseded
    ensures exists k: nat :: AdmittedBy(text, ops, r, k)
    decreases |ops|
  {
    hide H.Apply, Admissible;
    var last := |ops| - 1;
    var before := ops[..last];
    var s := H.After(text, EMPTY, before);
    H.JournalIsAppendOnly(text, EMPTY, before);
    NewRowsAreAdmitted(text, s, ops[last]);
    if r < |s.journal| {
      OnlyAdmissibleIsStored(text, before, r);
      var k: nat :| AdmittedBy(text, before, r, k);
      assert ops[..k] == before[..k];
      assert AdmittedBy(text, ops, r, k);
    } else {
      assert AdmittedBy(text, ops, r, last);
    }
  }

  // ---------------------------------------------------------------- what a maintenance pass retires and purges

  /** A memory of the task that has outlived its date. */
  predicate Outlived(s: Store, task: TaskRef, id: nat, now: Time) {
    && id < |s.memories|
    && var m := s.memories[id];
    && m.contract == task.contract && m.task == Some(task.id) && m.scope != ContractScope
    && m.status == Active && m.expiresAt.Some? && m.expiresAt.value <= now
  }

  /** An episode the runtime recorded for the task that is still in force. */
  predicate Episode(s: Store, task: TaskRef, id: nat, now: Time) {
    && id < |s.memories|
    && var m := s.memories[id];
    && m.contract == task.contract && m.task == Some(task.id) && m.scope == TaskScope
    && m.kind == Episodic && m.source == "agent_runtime"
    && m.status == Active && (m.expiresAt.Some? ==> now < m.expiresAt.value)
  }

  predicate Above(s: Store, a: nat, b: nat)
    requires a < |s.memories| && b < |s.memories|
  {
    s.memories[a].importance > s.memories[b].importance || (s.memories[a].importance == s.memories[b].importance && b < a)
  }

  /** Another episode of the task with the same content. */
  predicate SaysTheSame(s: Store, task: TaskRef, id: nat, other: nat, now: Time)
    requires id < |s.memories| && other < |s.memories|
  {
    other != id && Episode(s, task, other, now) && s.memories[other].content == s.memories[id].content
  }

  /** The best episode of the task with its content. */
  predicate Best(s: Store, task: TaskRef, id: nat, now: Time) {
    && Episode(s, task, id, now)
    && forall other :: 0 <= other < |s.memories| && SaysTheSame(s, task, id, other, now) ==> Above(s, id, other)
  }

  /** The best episodes that rank above this memory. */
  function Better(s: Store, task: TaskRef, id: nat, now: Time): set<nat>
    requires id < |s.memories|
  {
    set other: nat | other < |s.memories| && Best(s, task, other, now) && Above(s, other, id)
  }

  /** Why a pass retires a memory, if it does. */
  function Reason(s: Store, task: TaskRef, id: nat, limit: nat, now: Time): Option<string>
    requires id < |s.memories|
  {
    if Outlived(s, task, id, now) then Some("expired")
    else if !Episode(s, task, id, now) then None
    else if !Best(s, task, id, now) then Some("duplicate_episode")
    else if |Better(s, task, id, now)| >= limit then Some("episode_capacity")
    else None
  }

  /** The payload of a retired working or episodic memory of the task is due for purging. */
  predicate Due(s: Store, task: TaskRef, id: nat, limits: Limits, now: Time) {
    && id < |s.memories| && limits.purge && id !in s.cleaned
    && var m := s.memories[id];
    && m.contract == task.contract && m.task == Some(task.id) && m.scope != ContractScope && m.kind != Fact
    && m.status == Retired && m.retiredAt.Some? && m.retiredAt.value + limits.retentionDays * 86400 <= now
  }

  lemma OrderMeans(s: Store, task: TaskRef, id: nat, now: Time)
    ensures Episode(s, task, id, now) <==> id in Order(s, task) && id < |s.memories| && IsEpisode(s.memories[id], now)
    ensures Outlived(s, task, id, now) <==> id in Order(s, task) && id < |s.memories| && IsExpired(s.memories[id], now)
  {
    hide Scan, ByRank;
  }

  /** The episodes the pass has kept before the cut are the best ones. */
  lemma EpisodesAreBest(s: Store, task: TaskRef, id: nat, now: Time)
    ensures id in Scan(s.memories, Order(s, task), now).episodes <==> Best(s, task, id, now)
  {
    hide Scan, Order;
    var order := Order(s, task);
    var p := Scan(s.memories, order, now);
    ScanOk(s.memories, order, now);
    OrderMeans(s, task, id, now);
    if id in p.episodes {
      var i :| 0 <= i < |p.episodes| && p.episodes[i] == id;
      forall other | 0 <= other < |s.memories| && SaysTheSame(s, task, id, other, now)
        ensures Above(s, id, other)
      {
        DuplicateIsBelow(s, task, id, other, now);
      }
    } else if Best(s, task, id, now) {
      RejectedHasBetter(s, task, id, now);
    }
  }

  lemma DuplicateIsBelow(s: Store, task: TaskRef, id: nat, other: nat, now: Time)
    requires id in Scan(s.memories, Order(s, task), now).episodes && id < |s.memories|
    requires Episode(s, task, other, now) && other != id && s.memories[other].content == s.memories[id].content
    ensures Above(s, id, other)
  {
    hide Scan, Order;
    var order := Order(s, task);
    var p := Scan(s.memories, order, now);
    ScanOk(s.memories, order, now);
    OrderMeans(s, task, other, now);
    var i :| 0 <= i < |p.episodes| && p.episodes[i] == id;
    var k :| 0 <= k < |order| && order[k] == other;
    assert Decided(s.memories, now, p, order[k]);
    assert RetiredRightly(s.memories, now, p, other);
    var j :| 0 <= j < |p.episodes| && p.episodes[j] == p.retire[other].representative;
  }

  lemma RejectedHasBetter(s: Store, task: TaskRef, id: nat, now: Time)
    requires Episode(s, task, id, now) && id !in Scan(s.memories, Order(s, task), now).episodes
    ensures !Best(s, task, id, now)
  {
    hide Scan, Order;
    var order := Order(s, task);
    var p := Scan(s.memories, order, now);
    ScanOk(s.memories, order, now);
    OrderMeans(s, task, id, now);
    var k :| 0 <= k < |order| && order[k] == id;
    assert Decided(s.memories, now, p, order[k]) && RetiredRightly(s.memories, now, p, id);
    var other := p.retire[id].representative;
    var j :| 0 <= j < |p.episodes| && p.episodes[j] == other;
    OrderMeans(s, task, other, now);
    assert SaysTheSame(s, task, id, other, now) && !Above(s, id, other);
  }

  function Members(ids: seq<nat>): set<nat> { set id | id in ids }

  lemma {:induction false} DistinctCount(ids: seq<nat>)
    requires NoRepeats(ids)
    ensures |Members(ids)| == |ids|
    decreases |ids|
  {
    if ids != [] {
      var last := |ids| - 1;
      DistinctCount(ids[..last]);
      assert ids == ids[..last] + [ids[last]];
      assert Members(ids) == Members(ids[..last]) + {ids[last]};
    }
  }

  lemma BetterAreBefore(s: Store, task: TaskRef, now: Time, i: nat, other: nat)
    requires i < |Scan(s.memories, Order(s, task), now).episodes|
    ensures var episodes := Scan(s.memories, Order(s, task), now).episodes;
            episodes[i] < |s.memories| && (other in Better(s, task, episodes[i], now) <==> other in episodes[..i])
  {
    hide Scan, Order, Best;
    var episodes := Scan(s.memories, Order(s, task), now).episodes;
    ScanOk(s.memories, Order(s, task), now);
    EpisodesAreBest(s, task, other, now);
    if other in episodes {
      var j :| 0 <= j < |episodes| && episodes[j] == other;
      if j < i {
        assert RanksAbove(s.memories, episodes[j], episodes[i]) && episodes[..i][j] == other;
      } else {
        assert i < j ==> RanksAbove(s.memories, episodes[i], episodes[j]);
      }
    }
  }

  /** The place of a kept episode is the number of better ones. */
  lemma PlaceIsRank(s: Store, task: TaskRef, now: Time, i: nat)
    requires i < |Scan(s.memories, Order(s, task), now).episodes|
    ensures var id := Scan(s.memories, Order(s, task), now).episodes[i];
            id < |s.memories| && |Better(s, task, id, now)| == i
  {
    hide Scan, Order, Better;
    var episodes := Scan(s.memories, Order(s, task), now).episodes;
    ScanOk(s.memories, Order(s, task), now);
    RankedNoRepeats(s.memories, episodes);
    forall other: nat
      ensures other in Better(s, task, episodes[i], now) <==> other in Members(episodes[..i])
    {
      BetterAreBefore(s, task, now, i, other);
    }
    DistinctCount(episodes[..i]);
    assert Better(s, task, episodes[i], now) == Members(episodes[..i]);
  }

  lemma InOverflow(episodes: seq<nat>, limit: nat, id: nat)
    ensures id in Overflow(episodes, limit) <==> exists i :: limit <= i < |episodes| && episodes[i] == id
  {
    if id in Overflow(episodes, limit) {
      var k :| 0 <= k < |episodes[limit..]| && episodes[limit..][k] == id;
      assert episodes[limit + k] == id;
    }
    if i :| limit <= i < |episodes| && episodes[i] == id { assert episodes[limit..][i - limit] == id; }
  }

  /** The episodes beyond the limit are the best ones with that many better ones. */
  lemma OverflowMeans(s: Store, task: TaskRef, limit: nat, now: Time, id: nat)
    ensures id in Overflow(Scan(s.memories, Order(s, task), now).episodes, limit)
            <==> Best(s, task, id, now) && |Better(s, task, id, now)| >= limit
  {
    hide Scan, Order, Best, Better, Overflow;
    var episodes := Scan(s.memories, Order(s, task), now).episodes;
    ScanOk(s.memories, Order(s, task), now);
    RankedNoRepeats(s.memories, episodes);
    EpisodesAreBest(s, task, id, now);
    InOverflow(episodes, limit, id);
    if id in episodes {
      var i :| 0 <= i < |episodes| && episodes[i] == id;
      PlaceIsRank(s, task, now, i);
    }
  }

  /** What the pass itself retires, before the cut. */
  lemma PassRetires(s: Store, task: TaskRef, now: Time, id: nat)
    ensures var retire := Scan(s.memories, Order(s, task), now).retire;
            && (id in retire <==> Outlived(s, task, id, now) || (Episode(s, task, id, now) && !Best(s, task, id, now)))
            && (id in retire && Outlived(s, task, id, now) ==> retire[id] == Expired)
            && (id in retire && !Outlived(s, task, id, now) ==> retire[id].DuplicateEpisode?)
  {
    hide Scan, Order, Best;
    var order := Order(s, task);
    var p := Scan(s.memories, order, now);
    ScanOk(s.memories, order, now);
    OrderMeans(s, task, id, now);
    EpisodesAreBest(s, task, id, now);
    if id in order {
      var k :| 0 <= k < |order| && order[k] == id;
      assert Decided(s.memories, now, p, order[k]);
    }
    if id in p.retire { assert RetiredRightly(s.memories, now, p, id); }
  }

  /** The retire list of a pass, reason by reason. */
  lemma RetiredIff(s: Store, task: TaskRef, limits: Limits, now: Time, id: nat)
    requires id < |s.memories|
    ensures var retire := PlanOf(s, task, limits, now).retire;
            && (id in retire <==> Reason(s, task, id, limits.episodes, now).Some?)
            && (id in retire ==> Reason(s, task, id, limits.episodes, now) == Some(ReasonText(retire[id])))
  {
    hide Scan, Order, Better, Overflow;
    PassRetires(s, task, now, id);
    OverflowMeans(s, task, limits.episodes, now, id);
    assert !(Outlived(s, task, id, now) && Episode(s, task, id, now));
  }

  /**
   What a maintenance pass does to every row of the store. It retires what has outlived its date, the episodes
   that repeat a better one, and the best ones with as many better ones as the limit allows; it purges what is
   due; and it touches nothing else.
   */
  lemma MaintainedExactly(s: Store, task: TaskRef, limits: Limits, now: Time, id: nat)
    requires |s.revisions| == |s.memories| && id < |s.memories|
    ensures var s', m := Maintain(s, task, limits, now), s.memories[id];
            && |s'.memories| == |s.memories| == |s'.revisions| && |s'.journal| == |s.journal|
            && s'.memories[id] == (
                 match Reason(s, task, id, limits.episodes, now)
                 case Some(reason) => m.(status := Retired, retiredAt := Some(now), retirementReason := Some(reason))
                 case None => if Due(s, task, id, limits, now) then m.(content := "[retired payload purged]") else m)
            && s'.revisions[id] == (if Due(s, task, id, limits, now) then [] else s.revisions[id])
            && (id in s'.cleaned <==> id in s.cleaned || Due(s, task, id, limits, now))
            && forall r :: 0 <= r < |s.journal| && s.journal[r].memory == Some(id) ==>
                 s'.journal[r] == if Due(s, task, id, limits, now)
                                  then s.journal[r].(content := "[retired payload purged]", evaluatorOutput := None)
                                  else s.journal[r]
  {
    hide Scan, Order, Best, Better, RetireList, PurgeList;
    RetiredIff(s, task, limits, now, id);
    PurgeListMeans(s, task, limits, now, id);
    assert id in PlanOf(s, task, limits, now).purge <==> Due(s, task, id, limits, now);
  }
}
