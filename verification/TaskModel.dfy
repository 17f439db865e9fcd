/** The durable task store as a transition system over its three tables.

    One event is one atomic database step: a single conditional UPDATE or one
    committed transaction.  Operations that read a row and later write it back
    (Complete, Cancel, Reserve, RecordIntent, Claim) carry the row they read; the
    set of every row value ever stored says which rows can have been read, however
    long the reader stalled in between.  A disabled event changes nothing. */
module TaskModel {
  import opened Wrappers

  /** Row identifiers, approval identifiers and execution nonces are drawn from one
      counter, so they are always fresh; 0 stands for the empty column. */
  type Id = nat

  datatype Kind = ReadOnly | Write

  datatype Status = Queued | Running | Waiting | Succeeded | Failed | Canceled | TimedOut | Unknown

  /** One row of agent_tasks. */
  datatype Task = Task(
    id: Id, tenant: string, owner: string, key: string, kind: Kind, tool: string,
    args: string, argsHash: string, policyVersion: string, status: Status, version: int,
    nonce: Id, reserved: int, leaseOwner: string, leaseExpires: int, budget: int,
    approvalId: Id, result: string, errorText: string, attempts: int, maxAttempts: int,
    expiresAt: int, createdAt: int, updatedAt: int)

  /** One row of agent_approvals. */
  datatype Approval = Approval(
    id: Id, tenant: string, operator: string, tool: string, argsHash: string,
    policyVersion: string, expiresAt: int, consumed: bool, consumedBy: string, createdAt: int)

  datatype Action = SubmitAction | ApproveAction | CompleteAction | ConfirmAction | RequeueAction

  /** One row of agent_task_audit. */
  datatype Audit = Audit(
    task: Id, tenant: string, actor: string, action: Action, toStatus: Status,
    approvalId: Id, usage: int, createdAt: int)

  datatype DB = DB(tasks: map<Id, Task>, approvals: map<Id, Approval>, audit: seq<Audit>, next: Id)

  /** What one execution attempt reports. */
  datatype Failure = NoFailure | UnknownResult | OtherFailure(text: string)
  datatype Outcome = Outcome(result: string, usage: int, retryable: bool, failure: Failure)

  /** The program counter of one worker inside RunOnce. */
  datatype Worker =
    | Idle
    | Won(task: Id)                        // claim committed, row not read back yet
    | Holding(row: Task)                   // row read back after the claim
    | Cleared(row: Task)                   // approval and live authorization checked
    | Licensed(task: Id, approval: Id)     // intent call returned without error

  /** Counters kept per task for the statements about whole runs. */
  datatype Tally = Tally(initial: int, settled: int, claims: nat, settlements: nat,
                         approvals: nat, licences: nat, runs: nat)

  /** Local state of the other parties, and history. `rows` holds every row value ever
      stored; `forTask` says which task an approval was created for; `uses` counts the
      intent calls that returned without error under an approval. */
  datatype Book = Book(rows: set<Task>, tallies: map<Id, Tally>, forTask: map<Id, Id>,
                       uses: map<Id, nat>, workers: map<nat, Worker>)

  datatype Sys = Sys(db: DB, book: Book)

  const EMPTY := Sys(DB(map[], map[], [], 1), Book({}, map[], map[], map[], map[]))

  const UNKNOWN_TEXT := "external result unknown; reconcile, do not blind-retry"

  datatype Event =
    | Submit(template: Task, policy: string, now: int)
    | Approve(approval: Id, picked: Id, operator: string, args: string, policy: string, now: int)
    | Claim(worker: nat, read: Task, owner: string, leaseUntil: int, now: int)
    | ReadBack(worker: nat)
    | Check(worker: nat, authorized: bool, policy: string, now: int)
    | Intent(worker: nat, read: Task, reserve: int, now: int)
    | Execute(worker: nat)
    | Drop(worker: nat)
    | Complete(read: Task, outcome: Outcome, now: int)
    | Cancel(read: Task, now: int)
    | Sweep(now: int)
    | RecoverIdle(now: int)
    | RecoverIntended(now: int)
    | RenewLease(task: Id, owner: string, leaseUntil: int, now: int)
    | Confirm(task: Id, actor: string, result: string, usage: int, now: int)
    | Requeue(task: Id, actor: string, policy: string, now: int)

  predicate IsTerminal(s: Status) {
    s == Succeeded || s == Failed || s == Canceled || s == TimedOut || s == Unknown
  }

  predicate IsSpace(c: char) {
    c == ' ' || c == '\t' || c == '\n' || c == '\r'
  }

  predicate IsBlank(s: string) {
    forall i :: 0 <= i < |s| ==> IsSpace(s[i])
  }

  function TrimLeft(s: string): string {
    if s != [] && IsSpace(s[0]) then TrimLeft(s[1..]) else s
  }

  function TrimRight(s: string): string {
    if s != [] && IsSpace(s[|s| - 1]) then TrimRight(s[..|s| - 1]) else s
  }

  /** The digest is taken to be injective, so the trimmed text stands for it. */
  function ArgsHash(args: string): string {
    TrimRight(TrimLeft(args))
  }

  // ----- table helpers -----

  predicate KeyTaken(db: DB, tenant: string, key: string) {
    exists id :: id in db.tasks && db.tasks[id].tenant == tenant && db.tasks[id].key == key
  }

  function TallyOf(s: Sys, id: Id): Tally {
    if id in s.book.tallies then s.book.tallies[id] else Tally(0, 0, 0, 0, 0, 0, 0)
  }

  function UsesOf(s: Sys, approval: Id): nat {
    if approval in s.book.uses then s.book.uses[approval] else 0
  }

  function WorkerOf(s: Sys, w: nat): Worker {
    if w in s.book.workers then s.book.workers[w] else Idle
  }

  function SetWorker(s: Sys, w: nat, pc: Worker): Sys {
    s.(book := s.book.(workers := s.book.workers[w := pc]))
  }

  /** One committed transaction: the row it stores, the counters of its task, the approval
      row it inserts or updates, its audit row, how many fresh identifiers it drew, and
      whether it lets the caller execute. */
  datatype Txn = Txn(row: Task, tally: Tally, approval: Option<Approval>, audit: Option<Audit>,
                     draws: nat, licence: bool)

  function Commit(s: Sys, x: Txn): Sys {
    var t := x.row;
    var db := DB(s.db.tasks[t.id := t],
                 if x.approval.Some? then s.db.approvals[x.approval.value.id := x.approval.value] else s.db.approvals,
                 if x.audit.Some? then s.db.audit + [x.audit.value] else s.db.audit,
                 s.db.next + x.draws);
    var forTask := if x.approval.Some? then s.book.forTask[x.approval.value.id := t.id] else s.book.forTask;
    var uses := if x.licence then s.book.uses[t.approvalId := UsesOf(s, t.approvalId) + 1] else s.book.uses;
    Sys(db, Book(s.book.rows + {t}, s.book.tallies[t.id := x.tally], forTask, uses, s.book.workers))
  }

  function AuditRow(t: Task, action: Action, actor: string, usage: int, now: int): Audit {
    Audit(t.id, t.tenant, actor, action, t.status, t.approvalId, usage, now)
  }

  /** A row read earlier that passes `id = ? AND version = ? AND status IN (...)`. */
  predicate Matches(s: Sys, read: Task, allowed: set<Status>) {
    && read in s.book.rows
    && read.id in s.db.tasks
    && s.db.tasks[read.id].version == read.version
    && s.db.tasks[read.id].status in allowed
  }

  // ----- rows computed by the operations -----

  function NewApproval(id: Id, t: Task, policy: string, now: int): Approval {
    Approval(id, t.tenant, "", t.tool, t.argsHash, policy, now + 3600, false, "", now)
  }

  function CompletedStatus(t: Task, o: Outcome): Status {
    if o.failure == NoFailure then Succeeded
    else if o.failure == UnknownResult || (t.kind == Write && t.nonce != 0) then Unknown
    else if o.retryable && t.attempts + 1 < t.maxAttempts then Queued
    else Failed
  }

  function FailureText(f: Failure): string {
    match f
    case NoFailure => ""
    case UnknownResult => "external result unknown"
    case OtherFailure(text) => text
  }

  /** The row Complete writes for the row it read. */
  function CompletedRow(t: Task, o: Outcome, now: int): Task {
    var status := CompletedStatus(t, o);
    var settled := status != Unknown;
    t.(status := status,
       version := t.version + 1,
       attempts := t.attempts + 1,
       leaseOwner := if status == Queued then "" else t.leaseOwner,
       leaseExpires := if status == Queued then 0 else t.leaseExpires,
       result := if status == Succeeded then o.result else t.result,
       errorText := match status
                    case Succeeded => t.errorText
                    case Unknown => UNKNOWN_TEXT
                    case _ => FailureText(o.failure),
       budget := if !settled then t.budget
                 else if t.reserved > 0 then t.budget + (t.reserved - o.usage)
                 else t.budget - o.usage,
       reserved := if settled && t.reserved > 0 then 0 else t.reserved,
       updatedAt := now)
  }

  predicate Intended(t: Task) {
    t.status == Running && t.kind == Write && t.nonce != 0
  }

  /** The row Cancel writes for the row it read. */
  function CanceledRow(t: Task, now: int): Task {
    t.(status := if Intended(t) then Unknown else Canceled,
       errorText := if Intended(t) then UNKNOWN_TEXT else t.errorText,
       version := t.version + 1, leaseOwner := "", leaseExpires := 0, updatedAt := now)
  }

  predicate Expired(t: Task, now: int) {
    0 < t.expiresAt <= now
  }

  /** Both UPDATE statements of SweepTimeouts, which run in one transaction. */
  function SweptRow(t: Task, now: int): Task {
    if Expired(t, now) && Intended(t) then
      t.(status := Unknown, errorText := UNKNOWN_TEXT, leaseOwner := "", leaseExpires := 0,
         version := t.version + 1, updatedAt := now)
    else if Expired(t, now) && t.status in {Queued, Running, Waiting} then
      t.(status := TimedOut, leaseOwner := "", leaseExpires := 0, version := t.version + 1, updatedAt := now)
    else t
  }

  function RecoveredIdleRow(t: Task, now: int): Task {
    if t.status == Running && t.leaseExpires <= now && !(t.kind == Write && t.nonce != 0) then
      t.(status := Queued, leaseOwner := "", leaseExpires := 0, version := t.version + 1, updatedAt := now)
    else t
  }

  function RecoveredIntendedRow(t: Task, now: int): Task {
    if t.status == Running && t.leaseExpires <= now && t.kind == Write && t.nonce != 0 then
      t.(status := Unknown, leaseOwner := "", leaseExpires := 0, version := t.version + 1, updatedAt := now)
    else t
  }

  /** The row Reserve (reserve > 0) or RecordIntent (reserve == 0) writes. */
  function IntendedRow(t: Task, reserve: int, nonce: Id, now: int): Task {
    t.(budget := t.budget - reserve, reserved := t.reserved + reserve, nonce := nonce,
       version := t.version + 1, updatedAt := now)
  }

  function ConfirmedRow(t: Task, result: string, usage: int, now: int): Task {
    t.(status := Succeeded, result := result, budget := t.budget + (t.reserved - usage), reserved := 0,
       attempts := t.attempts + 1, version := t.version + 1, updatedAt := now)
  }

  function RequeuedRow(t: Task, approval: Id, now: int): Task {
    t.(status := if t.kind == Write then Waiting else Queued,
       approvalId := if t.kind == Write then approval else t.approvalId,
       budget := t.budget + t.reserved, reserved := 0, nonce := 0, result := "", errorText := "",
       version := t.version + 1, updatedAt := now)
  }

  // ----- steps -----

  function SubmittedRow(s: Sys, template: Task, policy: string, now: int): Task {
    template.(id := s.db.next,
              argsHash := ArgsHash(template.args),
              maxAttempts := if template.maxAttempts <= 0 then 3 else template.maxAttempts,
              policyVersion := policy,
              status := if template.kind == Write then Waiting else Queued,
              approvalId := if template.kind == Write then s.db.next + 1 else template.approvalId,
              createdAt := now, updatedAt := now)
  }

  predicate SubmitEnabled(s: Sys, template: Task) {
    !IsBlank(template.tenant) && !IsBlank(template.key) && !KeyTaken(s.db, template.tenant, template.key)
  }

  function SubmitTxn(s: Sys, template: Task, policy: string, now: int): Txn {
    var t := SubmittedRow(s, template, policy, now);
    var opening := Tally(t.budget + t.reserved, 0, 0, 0, 0, 0, 0);
    if t.kind == Write
    then Txn(t, opening, Some(NewApproval(t.approvalId, t, policy, now)),
             Some(AuditRow(t, SubmitAction, t.owner, 0, now)), 2, false)
    else Txn(t, opening, None, None, 2, false)
  }

  predicate ApproveEnabled(s: Sys, approval: Id, picked: Id, operator: string, args: string, policy: string, now: int) {
    && !IsBlank(operator)
    && approval in s.db.approvals
    && (var a := s.db.approvals[approval];
        !a.consumed && now <= a.expiresAt && ArgsHash(args) == a.argsHash && a.policyVersion == policy)
    && picked in s.db.tasks
    && s.db.tasks[picked].approvalId == approval
    && s.db.tasks[picked].status == Waiting
    && s.db.tasks[picked].owner != operator
  }

  function ApprovedRow(t: Task, now: int): Task {
    t.(status := Queued, updatedAt := now)
  }

  function ApproveTxn(s: Sys, approval: Id, picked: Id, operator: string, now: int): Txn
    requires approval in s.db.approvals && picked in s.db.tasks
  {
    var a := s.db.approvals[approval].(consumed := true, consumedBy := operator, operator := operator);
    var t := ApprovedRow(s.db.tasks[picked], now);
    var tally := TallyOf(s, picked);
    Txn(t, tally.(approvals := tally.approvals + 1), Some(a), Some(AuditRow(t, ApproveAction, operator, 0, now)), 0, false)
  }

  /** The row a SELECT of Claim may return at time `now`. */
  predicate Claimable(t: Task, now: int) {
    && t.status == Queued
    && (t.expiresAt == 0 || t.expiresAt > now)
    && (t.leaseExpires <= now || t.leaseOwner == "")
  }

  function ClaimedRow(t: Task, owner: string, leaseUntil: int, now: int): Task {
    t.(status := Running, version := t.version + 1, leaseOwner := owner, leaseExpires := leaseUntil, updatedAt := now)
  }

  predicate ClaimWins(s: Sys, w: nat, read: Task) {
    WorkerOf(s, w) == Idle && read.budget >= 0 && Matches(s, read, {Queued})
  }

  function ClaimTxn(s: Sys, id: Id, owner: string, leaseUntil: int, now: int): Txn
    requires id in s.db.tasks
  {
    var t := ClaimedRow(s.db.tasks[id], owner, leaseUntil, now);
    var tally := TallyOf(s, id);
    Txn(t, tally.(claims := tally.claims + 1), None, None, 0, false)
  }

  /** claimCAS reads the row again in a second statement. */
  function ReadBackStep(s: Sys, w: nat): Sys {
    match WorkerOf(s, w)
    case Won(id) => if id in s.db.tasks then SetWorker(s, w, Holding(s.db.tasks[id])) else s
    case _ => s
  }

  /** checkWriteApproval: what is read again just before a write executes. */
  predicate ApprovalCovers(db: DB, t: Task, policy: string, now: int) {
    && t.approvalId != 0
    && t.approvalId in db.approvals
    && var a := db.approvals[t.approvalId];
       && a.consumed && a.tenant == t.tenant && a.tool == t.tool && a.argsHash == t.argsHash
       && a.policyVersion == policy && now <= a.expiresAt
  }

  function CheckStep(s: Sys, w: nat, authorized: bool, policy: string, now: int): Sys {
    match WorkerOf(s, w)
    case Holding(row) =>
      if row.kind == Write && ApprovalCovers(s.db, row, policy, now) && authorized
      then SetWorker(s, w, Cleared(row)) else s
    case _ => s
  }

  /** Reserve answers with the stored row, unwritten, when that already holds a reservation. */
  predicate IntentAnswersAsIs(s: Sys, read: Task, reserve: int) {
    && read.id in s.db.tasks && s.db.tasks[read.id] == read
    && read.status == Running && read.kind == Write && reserve > 0 && read.reserved > 0
  }

  /** Otherwise Reserve (reserve > 0) or RecordIntent (reserve == 0) writes the row. */
  predicate IntentCommits(s: Sys, read: Task, reserve: int) {
    && read.status == Running && read.kind == Write && reserve >= 0
    && (reserve > 0 ==> read.reserved <= 0 && read.budget >= reserve)
    && Matches(s, read, {Running})
  }

  function IntentTxn(s: Sys, read: Task, reserve: int, now: int): Txn {
    var tally := TallyOf(s, read.id);
    var licensed := tally.(licences := tally.licences + 1);
    if IntentAnswersAsIs(s, read, reserve) then Txn(read, licensed, None, None, 0, true)
    else Txn(IntendedRow(read, reserve, s.db.next, now), licensed, None, None, 1, true)
  }

  /** Whether the event is an intent call that returns without error. */
  predicate Grants(s: Sys, e: Event) {
    && e.Intent?
    && WorkerOf(s, e.worker).Cleared?
    && var row := WorkerOf(s, e.worker).row;
       && e.read.id == row.id && e.read.version == row.version
       && (IntentAnswersAsIs(s, e.read, e.reserve) || IntentCommits(s, e.read, e.reserve))
  }

  /** The Executor runs once per intent call that returned without error. */
  function ExecuteStep(s: Sys, w: nat): Sys {
    match WorkerOf(s, w)
    case Licensed(id, approval) =>
      var tally := TallyOf(s, id);
      var s1 := SetWorker(s, w, Idle);
      s1.(book := s1.book.(tallies := s1.book.tallies[id := tally.(runs := tally.runs + 1)]))
    case _ => s
  }

  predicate CompleteCommits(s: Sys, read: Task, o: Outcome) {
    o.usage >= 0 && !IsTerminal(read.status) && Matches(s, read, {Running})
  }

  /** What Complete adds to the counters of the task: nothing is charged for unknown. */
  function CompletedTally(tally: Tally, t: Task, o: Outcome): Tally {
    tally.(settled := tally.settled + (if t.status == Unknown then 0 else o.usage),
           settlements := tally.settlements + 1)
  }

  function CompleteTxn(s: Sys, read: Task, o: Outcome, now: int): Txn {
    var t := CompletedRow(read, o, now);
    Txn(t, CompletedTally(TallyOf(s, t.id), t, o), None,
        if t.kind == Write then Some(AuditRow(t, CompleteAction, read.leaseOwner, o.usage, now)) else None, 0, false)
  }

  predicate CancelCommits(s: Sys, read: Task) {
    !IsTerminal(read.status) && Matches(s, read, {Queued, Waiting, Running})
  }

  function CancelTxn(s: Sys, read: Task, now: int): Txn {
    Txn(CanceledRow(read, now), TallyOf(s, read.id), None, None, 0, false)
  }

  /** One UPDATE over all rows. */
  function Bulk(s: Sys, update: Task -> Task): Sys {
    s.(db := s.db.(tasks := map id | id in s.db.tasks :: update(s.db.tasks[id])),
       book := s.book.(rows := s.book.rows + set id | id in s.db.tasks :: update(s.db.tasks[id])))
  }

  predicate IsBulk(e: Event) {
    e.Sweep? || e.RecoverIdle? || e.RecoverIntended?
  }

  function UpdateOf(e: Event): Task -> Task
    requires IsBulk(e)
  {
    match e
    case Sweep(now) => (t: Task) => SweptRow(t, now)
    case RecoverIdle(now) => (t: Task) => RecoveredIdleRow(t, now)
    case RecoverIntended(now) => (t: Task) => RecoveredIntendedRow(t, now)
  }

  predicate RenewMatches(s: Sys, id: Id, owner: string) {
    id in s.db.tasks && s.db.tasks[id].leaseOwner == owner && s.db.tasks[id].status == Running
  }

  function RenewTxn(s: Sys, id: Id, leaseUntil: int, now: int): Txn
    requires id in s.db.tasks
  {
    Txn(s.db.tasks[id].(leaseExpires := leaseUntil, updatedAt := now), TallyOf(s, id), None, None, 0, false)
  }

  predicate ConfirmEnabled(s: Sys, id: Id, actor: string, usage: int) {
    usage >= 0 && !IsBlank(actor) && id in s.db.tasks && s.db.tasks[id].status == Unknown
  }

  function ConfirmTxn(s: Sys, id: Id, actor: string, result: string, usage: int, now: int): Txn
    requires id in s.db.tasks
  {
    var t := ConfirmedRow(s.db.tasks[id], result, usage, now);
    var tally := TallyOf(s, id);
    Txn(t, tally.(settled := tally.settled + usage), None, Some(AuditRow(t, ConfirmAction, actor, usage, now)), 0, false)
  }

  predicate RequeueEnabled(s: Sys, id: Id, actor: string) {
    !IsBlank(actor) && id in s.db.tasks && s.db.tasks[id].status == Unknown
  }

  function RequeueTxn(s: Sys, id: Id, actor: string, policy: string, now: int): Txn
    requires id in s.db.tasks
  {
    var t := RequeuedRow(s.db.tasks[id], s.db.next, now);
    Txn(t, TallyOf(s, id),
        if t.kind == Write then Some(NewApproval(t.approvalId, t, policy, now)) else None,
        Some(AuditRow(t, RequeueAction, actor, 0, now)), 1, false)
  }

  /** The transaction an event commits, if it commits one. */
  function TxnOf(s: Sys, e: Event): Option<Txn> {
    match e
    case Submit(template, policy, now) =>
      if SubmitEnabled(s, template) then Some(SubmitTxn(s, template, policy, now)) else None
    case Approve(a, picked, operator, args, policy, now) =>
      if ApproveEnabled(s, a, picked, operator, args, policy, now)
      then Some(ApproveTxn(s, a, picked, operator, now)) else None
    case Claim(w, read, owner, leaseUntil, now) =>
      if ClaimWins(s, w, read) then Some(ClaimTxn(s, read.id, owner, leaseUntil, now)) else None
    case Intent(w, read, reserve, now) =>
      if Grants(s, e) then Some(IntentTxn(s, read, reserve, now)) else None
    case Complete(read, o, now) =>
      if CompleteCommits(s, read, o) then Some(CompleteTxn(s, read, o, now)) else None
    case Cancel(read, now) =>
      if CancelCommits(s, read) then Some(CancelTxn(s, read, now)) else None
    case RenewLease(id, owner, leaseUntil, now) =>
      if RenewMatches(s, id, owner) then Some(RenewTxn(s, id, leaseUntil, now)) else None
    case Confirm(id, actor, result, usage, now) =>
      if ConfirmEnabled(s, id, actor, usage) then Some(ConfirmTxn(s, id, actor, result, usage, now)) else None
    case Requeue(id, actor, policy, now) =>
      if RequeueEnabled(s, id, actor) then Some(RequeueTxn(s, id, actor, policy, now)) else None
    case _ => None
  }

  function CommitStep(s: Sys, e: Event): Sys {
    match TxnOf(s, e)
    case None => s
    case Some(x) =>
      match e
      case Claim(w, read, _, _, _) => SetWorker(Commit(s, x), w, Won(read.id))
      case Intent(w, read, _, _) => SetWorker(Commit(s, x), w, Licensed(read.id, read.approvalId))
      case _ => Commit(s, x)
  }

  function Step(s: Sys, e: Event): Sys {
    match e
    case ReadBack(w) => ReadBackStep(s, w)
    case Check(w, authorized, policy, now) => CheckStep(s, w, authorized, policy, now)
    case Execute(w) => ExecuteStep(s, w)
    case Drop(w) => SetWorker(s, w, Idle)
    case _ => if IsBulk(e) then Bulk(s, UpdateOf(e)) else CommitStep(s, e)
  }

  /** The state after a sequence of events, oldest first. */
  function Run(s: Sys, events: seq<Event>): Sys
    decreases |events|
  {
    if events == [] then s else Run(Step(s, events[0]), events[1..])
  }
}
