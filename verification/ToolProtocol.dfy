/**
 The durable life of a ToolCall, as a machine whose steps are the points at which the process can die
 or another session can interleave: every database commit, the select and the update of an approval
 as two steps, and the moment the handler or the reconciliation adapter has been called but nothing
 has been stored yet.

 A World is what survives a crash: the committed rows, and a log of what the outside world saw.
 A Pc is the private position of one request; losing it is a crash.
 */
module ToolProtocol {
  import opened Common

  type TaskId = nat
  type CallId = nat
  type ApprovalId = nat

  datatype Permission = ReadPermission | WritePermission
  datatype Effect = ReadEffect | InternalWrite | ExternalWrite
  datatype Status =
    | Proposed | Authorized | Executing | Succeeded | Failed | Denied
    | AwaitingApproval | OutcomeUnknown | NeedsReview

  datatype ToolDefinition =
    ToolDefinition(permission: Permission, effect: Effect, operationKeyed: bool, hasReconciler: bool)

  /** The registry is fixed for the life of the process. */
  type Registry = map<string, ToolDefinition>

  /** What the request fingerprint hashes; the hash is taken to be collision-free. */
  datatype Request = Request(tool: string, arguments: string, planStep: Option<nat>)

  datatype ToolCall = ToolCall(
    task: TaskId, tool: string, effect: Effect, key: string, fingerprint: Request,
    arguments: string, status: Status, attempts: nat, replays: nat,
    output: Option<string>, error: Option<string>, providerId: Option<string>)

  datatype Approval = Approval(
    task: TaskId, call: CallId, activeSlot: Option<CallId>, actor: string,
    tool: string, key: string, fingerprint: Request,
    expiresAt: Time, consumedAt: Option<Time>, revokedAt: Option<Time>)

  datatype Decision = Allowed | DeniedByPolicy | RequiresApproval

  datatype Authorization = Authorization(call: CallId, decision: Decision, approval: Option<ApprovalId>)

  datatype Policy = Policy(version: nat, allowedTools: set<string>, externalWritesRequireApproval: bool)

  /** Committed rows. Ids are positions; internalWrites lists the calls whose business write was committed. */
  datatype Db = Db(
    calls: seq<ToolCall>, approvals: seq<Approval>, authorizations: seq<Authorization>,
    policies: map<TaskId, Policy>, internalWrites: seq<CallId>)

  datatype Answer = SaysSucceeded(output: Option<string>) | SaysNotFound | SaysPending | SaysUnknown | AdapterFailed

  /** What an observer outside the process saw, in order; attempt is the attempt_count of the row. */
  datatype Event =
    | Invoked(call: CallId, attempt: nat, approval: Option<ApprovalId>, outcome: HandlerOutcome)
    | Answered(call: CallId, providerId: string, answer: Answer)
    | Reported(call: CallId, attempt: nat, providerId: string)
    | Abandoned(call: CallId, attempt: nat)

  datatype World = World(db: Db, log: seq<Event>)

  datatype HandlerOutcome =
    | Returned(output: string)
    | RaisedUncertain(providerId: string, message: string)
    | RaisedError(message: string)

  /** What calling the tool does: the arguments do not validate, or the handler runs. */
  datatype Execution = BadArguments(message: string) | Ran(arguments: string, outcome: HandlerOutcome)

  datatype ExecutionStatus = ExecSuccess | ExecError | ExecDenied | ExecUnknown

  datatype ToolExecution = ToolExecution(
    status: ExecutionStatus, arguments: string, output: Option<string>,
    error: Option<string>, providerId: Option<string>)

  /** Everything the environment decides at one step. */
  datatype Input = Input(now: Time, execution: Execution, answer: Answer)

  /** What an authorization is asked for. */
  datatype Purpose = FirstSubmission | Replay(executes: bool) | Recovery | Reconciled

  datatype Outcome =
    | Finished(call: CallId, replayed: bool)
    | UnknownTool | IdempotencyConflict | ReplayRefused
    | RecoveryDone(call: CallId)
    | ApprovalGranted(approval: ApprovalId) | ApprovalRefused
    | PolicyChanged | PolicyRefused

  datatype Pc =
    | Submit(task: TaskId, request: Request, key: string)
    | EnsurePolicy(call: CallId, purpose: Purpose)
    | Decide(call: CallId, purpose: Purpose)
    | SelectApproval(call: CallId, purpose: Purpose)
    | SpendApproval(call: CallId, purpose: Purpose, chosen: ApprovalId, now: Time)
    | RecordDecision(call: CallId, purpose: Purpose, decision: Decision, grant: Option<ApprovalId>)
    | Refuse(call: CallId, decision: Decision)
    | MarkAuthorized(call: CallId, grant: Option<ApprovalId>)
    | MarkExecuting(call: CallId, grant: Option<ApprovalId>)
    | MarkRetrying(call: CallId, grant: Option<ApprovalId>)
    | Invoke(call: CallId, grant: Option<ApprovalId>, recovering: bool)
    | Store(call: CallId, execution: Execution, recovering: bool)
    | CountReplay(call: CallId)
    | Recover(call: CallId)
    | MarkForReview(call: CallId, reason: string)
    | MarkUnknown(call: CallId)
    | Reconcile(call: CallId)
    | StoreReconciled(call: CallId, output: Option<string>)
    | KeepPending(call: CallId)
    | AwaitFreshApproval(call: CallId)
    | CheckApproval(call: CallId, actor: string, seconds: nat)
    | GrantApproval(call: CallId, actor: string, expired: Option<ApprovalId>, now: Time, seconds: nat)
    | ChangePolicy(task: TaskId, allowedTools: set<string>)
    | WritePolicy(task: TaskId, allowedTools: set<string>)
    | Done(outcome: Outcome)

  /** The requests a session can start with. */
  predicate IsRequest(pc: Pc) {
    pc.Submit? || pc.Recover? || pc.CheckApproval? || pc.ChangePolicy?
  }

  /** The call has a result: nobody selects it for recovery. */
  predicate Ended(s: Status) { s == Succeeded || s == Failed || s == Denied }

  // ---------------------------------------------------------------- small computations

  function ResolveKey(definition: ToolDefinition, requested: Option<string>, generated: string): string {
    if definition.operationKeyed && requested.Some? && requested.value != "" then requested.value else generated
  }

  predicate IsCallOf(row: ToolCall, task: TaskId, key: string) {
    row.task == task && row.key == key
  }

  /** The row with this task and key: the pair is unique in the table. */
  function FindCall(calls: seq<ToolCall>, task: TaskId, key: string): (found: Option<CallId>)
    ensures found.Some? ==> found.value < |calls| && IsCallOf(calls[found.value], task, key)
    ensures found.None? ==> forall c :: 0 <= c < |calls| ==> !IsCallOf(calls[c], task, key)
  {
    if calls == [] then None
    else if IsCallOf(calls[|calls| - 1], task, key) then Some(|calls| - 1)
    else FindCall(calls[..|calls| - 1], task, key)
  }

  function DefaultAllowedTools(reg: Registry): set<string> {
    set name | name in reg && reg[name].permission.ReadPermission?
  }

  /** An approval that consume_matching_tool_approval may spend for this call at this time. */
  predicate Spendable(a: Approval, c: CallId, row: ToolCall, now: Time) {
    && a.activeSlot == Some(c) && a.task == row.task && a.call == c
    && a.tool == row.tool && a.key == row.key && a.fingerprint == row.fingerprint
    && a.consumedAt.None? && a.revokedAt.None? && now < a.expiresAt
  }

  function FindSpendable(approvals: seq<Approval>, c: CallId, row: ToolCall, now: Time): (found: Option<ApprovalId>)
    ensures found.Some? ==> found.value < |approvals| && Spendable(approvals[found.value], c, row, now)
    ensures found.None? ==> forall a :: 0 <= a < |approvals| ==> !Spendable(approvals[a], c, row, now)
  {
    if approvals == [] then None
    else if Spendable(approvals[|approvals| - 1], c, row, now) then Some(|approvals| - 1)
    else FindSpendable(approvals[..|approvals| - 1], c, row, now)
  }

  /** The condition of the spending UPDATE, evaluated against the row as it is then. */
  predicate StillSpendable(a: Approval, c: CallId, now: Time) {
    a.activeSlot == Some(c) && a.consumedAt.None? && a.revokedAt.None? && now < a.expiresAt
  }

  /** The approval occupying the unique active slot of a call. */
  function FindActive(approvals: seq<Approval>, c: CallId): (found: Option<ApprovalId>)
    ensures found.Some? ==> found.value < |approvals| && approvals[found.value].activeSlot == Some(c)
    ensures found.None? ==> forall a :: 0 <= a < |approvals| ==> approvals[a].activeSlot != Some(c)
  {
    if approvals == [] then None
    else if approvals[|approvals| - 1].activeSlot == Some(c) then Some(|approvals| - 1)
    else FindActive(approvals[..|approvals| - 1], c)
  }

  function LatestDecision(auths: seq<Authorization>, c: CallId): Option<Decision> {
    if auths == [] then None
    else if auths[|auths| - 1].call == c then Some(auths[|auths| - 1].decision)
    else LatestDecision(auths[..|auths| - 1], c)
  }

  predicate Executes(purpose: Purpose) { purpose != Replay(false) }

  /** The result of execute_tool for a registered tool whose own permission is granted. */
  function Classify(effect: Effect, saved: string, execution: Execution): ToolExecution {
    match execution
    case BadArguments(message) => ToolExecution(ExecError, saved, None, Some(message), None)
    case Ran(arguments, Returned(output)) => ToolExecution(ExecSuccess, arguments, Some(output), None, None)
    case Ran(arguments, RaisedError(message)) => ToolExecution(ExecError, arguments, None, Some(message), None)
    case Ran(arguments, RaisedUncertain(providerId, message)) =>
      if effect != ExternalWrite then
        ToolExecution(ExecError, arguments, None,
                      Some("only external-write tools may report an uncertain provider operation"), None)
      else
        ToolExecution(ExecUnknown, arguments, None, Some(message), Some(providerId))
  }

  function StatusAfter(s: ExecutionStatus): Status {
    match s
    case ExecSuccess => Succeeded
    case ExecError => Failed
    case ExecDenied => Denied
    case ExecUnknown => OutcomeUnknown
  }

  // ---------------------------------------------------------------- state updates

  function WithCall(db: Db, c: CallId, row: ToolCall): Db
    requires c < |db.calls|
  {
    db.(calls := db.calls[c := row])
  }

  function WithApproval(db: Db, a: ApprovalId, row: Approval): Db
    requires a < |db.approvals|
  {
    db.(approvals := db.approvals[a := row])
  }

  function Put(w: World, db: Db): World { w.(db := db) }

  function Note(w: World, e: Event): World { w.(log := w.log + [e]) }

  function NewCall(reg: Registry, task: TaskId, request: Request, key: string): ToolCall
    requires request.tool in reg
  {
    ToolCall(task, request.tool, reg[request.tool].effect, key, request, request.arguments,
             Proposed, 0, 0, None, None, None)
  }

  /** The final commit of an attempt: row, business write and (for an unknown outcome) provider id together. */
  function Stored(w: World, c: CallId, execution: Execution): World
    requires c < |w.db.calls|
  {
    var row := w.db.calls[c];
    var result := Classify(row.effect, row.arguments, execution);
    var row' := row.(status := StatusAfter(result.status), arguments := result.arguments,
                     output := result.output, error := result.error, providerId := result.providerId);
    var writes := if row.effect == InternalWrite && result.status == ExecSuccess
                  then w.db.internalWrites + [c] else w.db.internalWrites;
    var w' := Put(w, WithCall(w.db, c, row').(internalWrites := writes));
    if result.status == ExecUnknown && result.providerId.Some?
    then Note(w', Reported(c, row.attempts, result.providerId.value)) else w'
  }

  /** Revoke the expired approval read earlier, if any: an update by primary key, with no condition. */
  function Revoked(db: Db, expired: Option<ApprovalId>, now: Time): Db {
    if expired.Some? && expired.value < |db.approvals| then
      WithApproval(db, expired.value, db.approvals[expired.value].(activeSlot := None, revokedAt := Some(now)))
    else db
  }

  // ---------------------------------------------------------------- one step of one request

  /** Where a request goes once its authorization row is committed. */
  function AfterDecision(c: CallId, purpose: Purpose, decision: Decision, grant: Option<ApprovalId>): Pc {
    match purpose
    case FirstSubmission =>
      if decision == Allowed then MarkAuthorized(c, grant) else Refuse(c, decision)
    case Replay(executes) =>
      if decision != Allowed then Done(ReplayRefused)
      else if executes then MarkAuthorized(c, grant)
      else CountReplay(c)
    case Recovery =>
      if decision == Allowed then MarkRetrying(c, grant) else MarkForReview(c, "recovery authorization failed")
    case Reconciled =>
      if decision == Allowed then MarkRetrying(c, grant)
      else if decision == RequiresApproval then AwaitFreshApproval(c)
      else MarkForReview(c, "retry authorization failed")
  }

  function SubmitStep(reg: Registry, w: World, task: TaskId, request: Request, key: string): (World, Pc) {
    if request.tool !in reg then (w, Done(UnknownTool))
    else match FindCall(w.db.calls, task, key)
      case None =>
        (Put(w, w.db.(calls := w.db.calls + [NewCall(reg, task, request, key)])),
         EnsurePolicy(|w.db.calls|, FirstSubmission))
      case Some(c) =>
        var row := w.db.calls[c];
        if row.fingerprint != request then (w, Done(IdempotencyConflict))
        else if row.tool !in reg then (w, Done(UnknownTool))
        else (w, EnsurePolicy(c, Replay(row.status == AwaitingApproval || row.status == Denied)))
  }

  /** _recover_record looks at the row as it is by then, and does not ask whether it still has to be recovered. */
  function RecoverStep(reg: Registry, w: World, c: CallId): Pc
    requires c < |w.db.calls|
  {
    var row := w.db.calls[c];
    match row.status
    case Proposed => MarkForReview(c, "the process stopped before authorization")
    case OutcomeUnknown => Reconcile(c)
    case _ =>
      if row.effect == ExternalWrite then MarkUnknown(c)
      else if row.tool !in reg then MarkForReview(c, "the tool is no longer registered")
      else EnsurePolicy(c, Recovery)
  }

  function ReconcileStep(reg: Registry, w: World, c: CallId, answer: Answer): (World, Pc)
    requires c < |w.db.calls|
  {
    var row := w.db.calls[c];
    if row.tool !in reg || !reg[row.tool].hasReconciler then
      (w, MarkForReview(c, "no reconciliation adapter"))
    else if row.providerId.None? then
      (w, MarkForReview(c, "the provider operation id was not persisted"))
    else
      (Note(w, Answered(c, row.providerId.value, answer)),
       match answer
       case SaysSucceeded(output) => StoreReconciled(c, output)
       case SaysNotFound => EnsurePolicy(c, Reconciled)
       case _ => KeepPending(c))
  }

  predicate HasPolicy(w: World, c: CallId) {
    c < |w.db.calls| && w.db.calls[c].task in w.db.policies
  }

  function DecideStep(reg: Registry, w: World, c: CallId, purpose: Purpose): Pc
    requires HasPolicy(w, c)
  {
    var row := w.db.calls[c];
    var policy := w.db.policies[row.task];
    if row.tool !in policy.allowedTools then RecordDecision(c, purpose, DeniedByPolicy, None)
    else if row.effect == ExternalWrite && policy.externalWritesRequireApproval && Executes(purpose) then
      SelectApproval(c, purpose)
    else RecordDecision(c, purpose, Allowed, None)
  }

  function SpendStep(w: World, c: CallId, purpose: Purpose, chosen: ApprovalId, now: Time): (World, Pc) {
    if chosen < |w.db.approvals| && StillSpendable(w.db.approvals[chosen], c, now) then
      (Put(w, WithApproval(w.db, chosen, w.db.approvals[chosen].(activeSlot := None, consumedAt := Some(now)))),
       RecordDecision(c, purpose, Allowed, Some(chosen)))
    else (w, RecordDecision(c, purpose, RequiresApproval, None))
  }

  /** create_tool_approval up to its reads: which expired approval it will revoke. */
  function CheckApprovalStep(reg: Registry, w: World, c: CallId, actor: string, seconds: nat, now: Time): Pc
    requires c < |w.db.calls|
  {
    var row := w.db.calls[c];
    var active := FindActive(w.db.approvals, c);
    if row.tool !in reg || reg[row.tool].effect != ExternalWrite then Done(ApprovalRefused)
    else if row.status != AwaitingApproval && row.status != Denied then Done(ApprovalRefused)
    else if LatestDecision(w.db.authorizations, c) != Some(RequiresApproval) then Done(ApprovalRefused)
    else if active.Some? && w.db.approvals[active.value].expiresAt > now then Done(ApprovalRefused)
    else GrantApproval(c, actor, active, now, seconds)
  }

  /** create_tool_approval's writes: revoke, insert under the unique slot, mark the call, in one transaction. */
  function GrantStep(w: World, c: CallId, actor: string, expired: Option<ApprovalId>, now: Time, seconds: nat): (World, Pc)
    requires c < |w.db.calls|
  {
    var row := w.db.calls[c];
    var db := Revoked(w.db, expired, now);
    if FindActive(db.approvals, c).Some? then (w, Done(ApprovalRefused))
    else
      var approval := Approval(row.task, c, Some(c), actor, row.tool, row.key, row.fingerprint,
                               now + seconds, None, None);
      (Put(w, WithCall(db.(approvals := db.approvals + [approval]), c, row.(status := AwaitingApproval))),
       Done(ApprovalGranted(|db.approvals|)))
  }

  predicate CallExists(w: World, pc: Pc) {
    Target(w.db, pc).Some? ==> Target(w.db, pc).value < |w.db.calls|
  }

  /** The call a request is working on; a submission works on the row that already has its key. */
  function Target(db: Db, pc: Pc): Option<CallId> {
    match pc
    case Submit(task, _, key) => FindCall(db.calls, task, key)
    case ChangePolicy(_, _) => None
    case WritePolicy(_, _) => None
    case Done(_) => None
    case _ => Some(pc.call)
  }

  /** One step: the environment's input decides everything the code cannot. */
  function Step(reg: Registry, w: World, pc: Pc, inp: Input): (World, Pc)
    requires !pc.Done? && CallExists(w, pc)
    requires pc.Decide? ==> HasPolicy(w, pc.call)
  {
    match pc
    case Submit(task, request, key) => SubmitStep(reg, w, task, request, key)
    case EnsurePolicy(c, purpose) =>
      var task := w.db.calls[c].task;
      var w' := if task in w.db.policies then w
                else Put(w, w.db.(policies := w.db.policies[task := Policy(1, DefaultAllowedTools(reg), true)]));
      (w', Decide(c, purpose))
    case Decide(c, purpose) => (w, DecideStep(reg, w, c, purpose))
    case SelectApproval(c, purpose) =>
      var found := FindSpendable(w.db.approvals, c, w.db.calls[c], inp.now);
      (w, if found.Some? then SpendApproval(c, purpose, found.value, inp.now)
          else RecordDecision(c, purpose, RequiresApproval, None))
    case SpendApproval(c, purpose, chosen, now) => SpendStep(w, c, purpose, chosen, now)
    case RecordDecision(c, purpose, decision, grant) =>
      (Put(w, w.db.(authorizations := w.db.authorizations + [Authorization(c, decision, grant)])),
       AfterDecision(c, purpose, decision, grant))
    case Refuse(c, decision) =>
      var status := if decision == RequiresApproval then AwaitingApproval else Denied;
      (Put(w, WithCall(w.db, c, w.db.calls[c].(status := status, error := Some("refused")))),
       Done(Finished(c, false)))
    case MarkAuthorized(c, grant) =>
      (Put(w, WithCall(w.db, c, w.db.calls[c].(status := Authorized, error := None))), MarkExecuting(c, grant))
    case MarkExecuting(c, grant) =>
      var row := w.db.calls[c];
      (Put(w, WithCall(w.db, c, row.(status := Executing, attempts := row.attempts + 1))), Invoke(c, grant, false))
    case MarkRetrying(c, grant) =>
      var row := w.db.calls[c];
      (Put(w, WithCall(w.db, c, row.(status := Executing, attempts := row.attempts + 1, error := None))),
       Invoke(c, grant, true))
    case Invoke(c, grant, recovering) =>
      (if inp.execution.BadArguments? then w
       else Note(w, Invoked(c, w.db.calls[c].attempts, grant, inp.execution.outcome)),
       Store(c, inp.execution, recovering))
    case Store(c, execution, recovering) =>
      (Stored(w, c, execution), Done(if recovering then RecoveryDone(c) else Finished(c, false)))
    case CountReplay(c) =>
      var row := w.db.calls[c];
      (Put(w, WithCall(w.db, c, row.(replays := row.replays + 1))), Done(Finished(c, true)))
    case Recover(c) => (w, RecoverStep(reg, w, c))
    case MarkForReview(c, reason) =>
      (Put(w, WithCall(w.db, c, w.db.calls[c].(status := NeedsReview, error := Some(reason)))), Done(RecoveryDone(c)))
    case MarkUnknown(c) =>
      var row := w.db.calls[c];
      var w' := if row.status == Executing then Note(w, Abandoned(c, row.attempts)) else w;
      (Put(w', WithCall(w.db, c, row.(status := OutcomeUnknown, error := Some("reconcile before retrying")))),
       Done(RecoveryDone(c)))
    case Reconcile(c) => ReconcileStep(reg, w, c, inp.answer)
    case StoreReconciled(c, output) =>
      (Put(w, WithCall(w.db, c, w.db.calls[c].(status := Succeeded, output := output, error := None))),
       Done(RecoveryDone(c)))
    case KeepPending(c) =>
      (Put(w, WithCall(w.db, c, w.db.calls[c].(status := OutcomeUnknown, error := Some("query again later")))),
       Done(RecoveryDone(c)))
    case AwaitFreshApproval(c) =>
      (Put(w, WithCall(w.db, c, w.db.calls[c].(status := AwaitingApproval, error := Some("fresh approval required")))),
       Done(RecoveryDone(c)))
    case CheckApproval(c, actor, seconds) => (w, CheckApprovalStep(reg, w, c, actor, seconds, inp.now))
    case GrantApproval(c, actor, expired, now, seconds) => GrantStep(w, c, actor, expired, now, seconds)
    case ChangePolicy(task, allowed) =>
      if allowed <= reg.Keys then
        (if task in w.db.policies then w
         else Put(w, w.db.(policies := w.db.policies[task := Policy(1, DefaultAllowedTools(reg), true)])),
         WritePolicy(task, allowed))
      else (w, Done(PolicyRefused))
    case WritePolicy(task, allowed) =>
      if task in w.db.policies then
        var policy := w.db.policies[task];
        (Put(w, w.db.(policies := w.db.policies[task := policy.(version := policy.version + 1, allowedTools := allowed)])),
         Done(PolicyChanged))
      else (w, Done(PolicyRefused))
  }
}
