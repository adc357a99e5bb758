/**
 The memory store as rows: the current view of each memory, its revision chain, the journal of every
 evaluation, and the tombstones of purged payloads. Each operation is a function on the whole store.
 Ids are positions; the text normalizations are parameters.
 */
module MemoryRecords {
  import opened Common

  const MARKER := "[retired payload purged]"
  const RUNTIME_SOURCE := "agent_runtime"
  const TOOL_PREFIX := "tool:"
  const MIN_OUTCOME_LENGTH: nat := 24
  const DAY: int := 86400

  datatype Kind = Working | Episodic | Fact
  datatype Scope = ContractScope | TaskScope | RunScope
  datatype MemoryStatus = Active | Retired

  datatype Memory = Memory(
    contract: nat, kind: Kind, scope: Scope, task: Option<nat>, run: Option<nat>, key: string,
    content: string, source: string, importance: int, version: nat, status: MemoryStatus,
    createdAt: Time, expiresAt: Option<Time>, retiredAt: Option<Time>, retirementReason: Option<string>)

  datatype Revision = Revision(
    version: nat, content: string, source: string, importance: int, validFrom: Time, validTo: Option<Time>)

  datatype Verdict = Accept | Reject | NeedsReview
  datatype StorageAction = NotStored | Stored | Superseded | AlreadyStored

  datatype JournalRow = JournalRow(
    memory: Option<nat>, kind: Kind, key: string, content: string,
    verdict: Verdict, action: StorageAction, evaluatorOutput: Option<string>)

  /** revisions[m] are the revision rows of memory m by version; cleaned are the memories with a cleanup record. */
  datatype Store = Store(memories: seq<Memory>, revisions: seq<seq<Revision>>, journal: seq<JournalRow>, cleaned: set<nat>)

  datatype TaskRef = TaskRef(contract: nat, id: nat)

  datatype Candidate = Candidate(
    kind: Kind, scope: Scope, task: Option<nat>, run: Option<nat>, key: string,
    content: string, source: string, importance: int, relevance: string)

  /** What the evaluator learns outside the store: provenance, the run's owner, secrets, an optional semantic verdict. */
  datatype Evidence = Evidence(
    provenance: Verdict, semanticRequired: bool, runOfTask: bool, sensitive: bool,
    semantic: Option<Verdict>, output: Option<string>)

  /** Whitespace folding with case folding, and the alphanumeric skeleton; blank is the stripped text's length. */
  datatype Text = Text(normalize: string -> string, canonical: string -> string, strip: string -> string)

  // ---------------------------------------------------------------- deterministic rules

  predicate ScopeOk(task: TaskRef, c: Candidate, e: Evidence) {
    match c.scope
    case ContractScope => c.task.None? && c.run.None?
    case TaskScope => c.task == Some(task.id) && c.run.None?
    case RunScope => c.run.Some? && e.runOfTask && c.task.None?
  }

  predicate EndsWith(s: string, suffix: string) {
    |suffix| <= |s| && s[|s| - |suffix|..] == suffix
  }

  predicate SameScope(m: Memory, task: TaskRef, c: Candidate) {
    m.contract == task.contract && m.kind == c.kind && m.scope == c.scope && m.task == c.task && m.run == c.run
  }

  predicate DuplicateOf(text: Text, m: Memory, task: TaskRef, c: Candidate) {
    SameScope(m, task, c) &&
    (|| text.normalize(m.content) == text.normalize(c.content)
     || EndsWith(text.normalize(m.content), text.normalize(c.relevance))
     || (text.canonical(c.content) != "" && text.canonical(m.content) == text.canonical(c.content)))
  }

  predicate HasDuplicate(text: Text, s: Store, task: TaskRef, c: Candidate) {
    exists m :: 0 <= m < |s.memories| && DuplicateOf(text, s.memories[m], task, c)
  }

  function RuleVerdict(text: Text, s: Store, task: TaskRef, c: Candidate, e: Evidence, checkDuplicate: bool): Verdict {
    if !ScopeOk(task, c, e) || e.provenance == Reject || |text.strip(c.relevance)| < MIN_OUTCOME_LENGTH || e.sensitive
       || (checkDuplicate && HasDuplicate(text, s, task, c)) then Reject
    else if e.provenance == NeedsReview then NeedsReview
    else Accept
  }

  /** The rules, then the semantic evaluator if one is there and the rules asked for it. */
  function FirstVerdict(text: Text, s: Store, task: TaskRef, c: Candidate, e: Evidence, checkDuplicate: bool): Verdict {
    var v := RuleVerdict(text, s, task, c, e, checkDuplicate);
    if v == NeedsReview && e.semanticRequired && e.semantic.Some? then e.semantic.value else v
  }

  // ---------------------------------------------------------------- storing

  predicate IsNamed(m: Memory, contract: nat, kind: Kind, key: string) {
    m.contract == contract && m.kind == kind && m.key == key
  }

  function FindNamed(memories: seq<Memory>, contract: nat, kind: Kind, key: string): (found: Option<nat>)
    ensures found.Some? ==> found.value < |memories| && IsNamed(memories[found.value], contract, kind, key)
    ensures found.None? ==> forall m :: 0 <= m < |memories| ==> !IsNamed(memories[m], contract, kind, key)
  {
    if memories == [] then None
    else if IsNamed(memories[|memories| - 1], contract, kind, key) then Some(|memories| - 1)
    else FindNamed(memories[..|memories| - 1], contract, kind, key)
  }

  function RevisionOf(m: Memory, validFrom: Time, validTo: Option<Time>): Revision {
    Revision(m.version, m.content, m.source, m.importance, validFrom, validTo)
  }

  function WithMemory(s: Store, m: Memory): Store {
    s.(memories := s.memories + [m], revisions := s.revisions + [[RevisionOf(m, m.createdAt, None)]])
  }

  function NewMemory(task: TaskRef, c: Candidate, now: Time): Memory {
    Memory(task.contract, c.kind, c.scope, c.task, c.run, c.key, c.content, c.source, c.importance,
           1, Active, now, None, None, None)
  }

  predicate CanAutoSupersede(m: Memory, c: Candidate) {
    && m.status == Active && c.kind == Fact && TOOL_PREFIX <= c.source
    && m.scope == c.scope && m.task == c.task && m.run == c.run
  }

  /** Close the revision of the current version at now, creating it first for a memory that has none. */
  function CloseCurrent(m: Memory, revisions: seq<Revision>, now: Time): seq<Revision> {
    if revisions != [] && revisions[|revisions| - 1].version == m.version
    then revisions[|revisions| - 1 := revisions[|revisions| - 1].(validTo := Some(now))]
    else revisions + [RevisionOf(m, m.createdAt, Some(now))]
  }

  function Supersede(s: Store, id: nat, c: Candidate, now: Time): Store
    requires id < |s.memories| && id < |s.revisions|
  {
    var m := s.memories[id];
    var m' := m.(version := m.version + 1, content := c.content, source := c.source, importance := c.importance);
    s.(memories := s.memories[id := m'],
       revisions := s.revisions[id := CloseCurrent(m, s.revisions[id], now) + [RevisionOf(m', now, None)]])
  }

  datatype Effect = Effect(store: Store, verdict: Verdict, action: StorageAction, memory: Option<nat>)

  /** What an evaluation does to the memories, before it is journaled. */
  function EvaluationEffect(text: Text, s: Store, task: TaskRef, c: Candidate, e: Evidence, now: Time): Effect
    requires |s.revisions| == |s.memories|
  {
    var existing := FindNamed(s.memories, task.contract, c.kind, c.key);
    var verdict := FirstVerdict(text, s, task, c, e, existing.None?);
    if verdict != Accept then Effect(s, verdict, NotStored, None)
    else if existing.None? then Effect(WithMemory(s, NewMemory(task, c, now)), Accept, Stored, Some(|s.memories|))
    else
      var m := s.memories[existing.value];
      if text.normalize(m.content) == text.normalize(c.content) then Effect(s, Accept, AlreadyStored, existing)
      else if CanAutoSupersede(m, c) then Effect(Supersede(s, existing.value, c, now), Accept, Superseded, existing)
      else Effect(s, Reject, NotStored, None)
  }

  /** The journal row; a replay about a purged memory must not bring its payload back. */
  function RowOf(s: Store, task: TaskRef, c: Candidate, e: Evidence, effect: Effect): JournalRow {
    var existing := FindNamed(s.memories, task.contract, c.kind, c.key);
    var row := JournalRow(effect.memory, c.kind, c.key, c.content, effect.verdict, effect.action, e.output);
    if existing.Some? && existing.value in s.cleaned then row.(content := MARKER, evaluatorOutput := None) else row
  }

  function Evaluate(text: Text, s: Store, task: TaskRef, c: Candidate, e: Evidence, now: Time): Store
    requires |s.revisions| == |s.memories|
  {
    var effect := EvaluationEffect(text, s, task, c, e, now);
    effect.store.(journal := effect.store.journal + [RowOf(s, task, c, e, effect)])
  }

  /** What the tables say of the ids an explicit creation names: both must belong to the active contract. */
  datatype Owners = Owners(taskInContract: bool, taskOfRun: Option<nat>)

  /** The lifetime boundary of an explicit creation, with the ids it is stored under; None stands for a refusal. */
  function ResolveScope(m: Memory, owners: Owners): Option<Memory> {
    match m.scope
    case ContractScope => if m.kind != Working && m.task.None? && m.run.None? then Some(m) else None
    case TaskScope => if m.task.Some? && m.run.None? && owners.taskInContract then Some(m) else None
    case RunScope =>
      if m.kind == Working && m.run.Some? && owners.taskOfRun.Some? && (m.task.None? || m.task == owners.taskOfRun)
      then Some(m.(task := owners.taskOfRun)) else None
  }

  /** An explicitly created memory; its scope must hold and its key must be free. */
  function Create(s: Store, m: Memory, owners: Owners): Store {
    if ResolveScope(m, owners).None? || FindNamed(s.memories, m.contract, m.kind, m.key).Some? then s
    else
      WithMemory(s, ResolveScope(m, owners).value
                      .(version := 1, status := Active, retiredAt := None, retirementReason := None))
  }

  // ---------------------------------------------------------------- retiring

  function RetiredAs(m: Memory, reason: string, now: Time): Memory {
    if m.status == Retired then m
    else m.(status := Retired, retiredAt := Some(now), retirementReason := Some(reason))
  }

  function Retire(s: Store, id: nat, reason: string, now: Time): Store
    requires id < |s.memories|
  {
    s.(memories := s.memories[id := RetiredAs(s.memories[id], reason, now)])
  }

  /** The end of a run or of a task retires its active working memories. */
  predicate BelongsToEnded(m: Memory, run: Option<nat>, task: Option<nat>) {
    m.kind == Working && m.status == Active && ((run.Some? && m.run == run) || (task.Some? && m.task == task))
  }

  function RetireWorking(s: Store, run: Option<nat>, task: Option<nat>, reason: string, now: Time): (r: Store)
    ensures |r.memories| == |s.memories|
  {
    s.(memories := seq(|s.memories|, m requires 0 <= m < |s.memories| =>
         if BelongsToEnded(s.memories[m], run, task) then RetiredAs(s.memories[m], reason, now) else s.memories[m]))
  }

  /** Startup: a first revision for memories that have none and were not purged. */
  function Backfill(s: Store): (r: Store)
    requires |s.revisions| == |s.memories|
    ensures |r.revisions| == |r.memories|
  {
    s.(revisions := seq(|s.memories|, m requires 0 <= m < |s.memories| =>
         if s.revisions[m] == [] && m !in s.cleaned
         then [RevisionOf(s.memories[m], s.memories[m].createdAt,
                          if s.memories[m].status == Retired then s.memories[m].retiredAt else None)]
         else s.revisions[m]))
  }

  // ---------------------------------------------------------------- what every store satisfies

  /** Versions 1..n in order, each closed exactly when the next begins, the last one open. */
  predicate ChainOk(revisions: seq<Revision>) {
    && revisions != []
    && (forall i :: 0 <= i < |revisions| ==> revisions[i].version == i + 1)
    && (forall i :: 0 <= i < |revisions| - 1 ==> revisions[i].validTo == Some(revisions[i + 1].validFrom))
    && revisions[|revisions| - 1].validTo.None?
  }

  predicate HoldsCurrent(m: Memory, revisions: seq<Revision>) {
    && ChainOk(revisions) && |revisions| == m.version
    && var last := revisions[|revisions| - 1];
       last.content == m.content && last.source == m.source && last.importance == m.importance
  }

  predicate Writes(row: JournalRow, id: nat) {
    row.memory == Some(id) && (row.action == Stored || row.action == Superseded)
  }

  /** The contents that evaluations stored in this memory, in the order of their journal rows. */
  function Written(journal: seq<JournalRow>, id: nat): seq<string> {
    if journal == [] then []
    else Written(journal[..|journal| - 1], id)
         + (if Writes(journal[|journal| - 1], id) then [journal[|journal| - 1].content] else [])
  }

  function SupersedeCount(journal: seq<JournalRow>, id: nat): nat {
    if journal == [] then 0
    else SupersedeCount(journal[..|journal| - 1], id)
         + (if journal[|journal| - 1].memory == Some(id) && journal[|journal| - 1].action == Superseded then 1 else 0)
  }

  predicate PayloadGone(journal: seq<JournalRow>, id: nat) {
    forall r :: 0 <= r < |journal| && journal[r].memory == Some(id) ==>
      journal[r].content == MARKER && journal[r].evaluatorOutput.None?
  }

  /** The latest written content, if any, is this one. */
  predicate EndsAt(written: seq<string>, content: string) {
    written != [] ==> written[|written| - 1] == content
  }

  /** The revisions are the written contents in order, after a first one for a memory created by hand. */
  predicate Replays(revisions: seq<Revision>, written: seq<string>) {
    && |written| <= |revisions| <= |written| + 1
    && forall i :: 0 <= i < |written| ==> revisions[|revisions| - |written| + i].content == written[i]
  }

  predicate MemoryOk(s: Store, id: nat)
    requires id < |s.memories| && |s.revisions| == |s.memories|
  {
    RowOk(s.memories[id], s.revisions[id], s.journal, id in s.cleaned, id)
  }

  predicate RowOk(m: Memory, revisions: seq<Revision>, journal: seq<JournalRow>, cleaned: bool, id: nat) {
    && (m.status == Retired ==> m.retiredAt.Some?)
    && (m.kind != Fact ==> m.version == 1)
    && EndsAt(Written(journal, id), m.content)
    && m.version == 1 + SupersedeCount(journal, id)
    && (if cleaned
        then m.status == Retired && m.kind != Fact && m.content == MARKER && revisions == [] && PayloadGone(journal, id)
        else HoldsCurrent(m, revisions) && Replays(revisions, Written(journal, id)))
  }

  predicate StoreOk(s: Store) {
    && |s.revisions| == |s.memories|
    && (forall id :: id in s.cleaned ==> id < |s.memories|)
    && (forall r :: 0 <= r < |s.journal| && s.journal[r].memory.Some? ==> s.journal[r].memory.value < |s.memories|)
    && (forall a, b :: 0 <= a < b < |s.memories| ==>
          !IsNamed(s.memories[b], s.memories[a].contract, s.memories[a].kind, s.memories[a].key))
    && (forall id :: 0 <= id < |s.memories| ==> MemoryOk(s, id))
  }

  const EMPTY := Store([], [], [], {})
}
