/** What every reachable state of the task store satisfies, whatever its callers submit,
    and why each step keeps it. */
module TaskInvariant {
  import opened Wrappers
  import opened TaskModel

  // ----- statements about one row -----

  /** Nothing is charged twice, nothing disappears; a settlement belongs to a claim. */
  predicate Booked(t: Task, tally: Tally) {
    && t.budget + t.reserved + tally.settled == tally.initial
    && tally.settlements + (if t.status == Running then 1 else 0) <= tally.claims
  }

  /** Only a write waits for an approval. */
  predicate RowOk(t: Task, tally: Tally) {
    (t.kind == ReadOnly ==> t.status != Waiting) && Booked(t, tally)
  }

  /** Two values of one row with the same version differ at most by an approval
      (waiting to queued) and by lease renewals. */
  predicate SameEpoch(older: Task, newer: Task) {
    && newer == older.(status := newer.status, leaseExpires := newer.leaseExpires, updatedAt := newer.updatedAt)
    && (newer.status == older.status || (older.status == Waiting && newer.status == Queued))
  }

  /** The columns that say what work the row is for. */
  predicate SameWork(t: Task, t': Task) {
    && t'.id == t.id && t'.tenant == t.tenant && t'.owner == t.owner && t'.key == t.key
    && t'.kind == t.kind && t'.tool == t.tool && t'.argsHash == t.argsHash
  }

  /** How a stored row may change in one step. */
  predicate Moves(t: Task, t': Task) {
    SameWork(t, t') && (t'.version > t.version || SameEpoch(t, t'))
  }

  /** The statuses of a write behind the approval gate. */
  predicate PastGate(s: Status) {
    s in {Queued, Running, Succeeded, Failed, Unknown}
  }

  /** Changes that neither consume an approval nor record an intent. */
  predicate Quiet(t: Task, t': Task) {
    && t'.approvalId == t.approvalId
    && (t'.nonce == 0 <==> t.nonce == 0)
    && (t'.status == Waiting ==> t.status == Waiting)
    && (PastGate(t'.status) ==> PastGate(t.status))
    && (t'.status in {Queued, Running} && t'.nonce == 0 ==> t.status in {Queued, Running})
  }

  /** What an approval says about the task it was made for. */
  predicate InScope(a: Approval, t: Task) {
    && a.tenant == t.tenant && a.tool == t.tool && a.argsHash == t.argsHash
    && (a.consumed ==> !IsBlank(a.consumedBy) && a.consumedBy != t.owner)
  }

  // ----- statements about the whole store -----

  predicate Ids(s: Sys) {
    && s.db.next > 0
    && (forall id :: id in s.db.tasks ==>
          s.db.tasks[id].id == id && 0 < id < s.db.next)
    && (forall id :: id in s.book.tallies ==> id in s.db.tasks)
    && (forall a :: a in s.db.approvals ==> s.db.approvals[a].id == a && 0 < a < s.db.next)
  }

  predicate History(s: Sys) {
    && (forall id :: id in s.db.tasks ==> s.db.tasks[id] in s.book.rows)
    && (forall h :: h in s.book.rows ==>
          && h.id in s.db.tasks
          && SameWork(h, s.db.tasks[h.id])
          && h.version <= s.db.tasks[h.id].version
          && (h.version == s.db.tasks[h.id].version ==> SameEpoch(h, s.db.tasks[h.id])))
  }

  /** Equal versions of one row agree on the recorded intent. */
  predicate Epochs(s: Sys) {
    forall h, k :: h in s.book.rows && k in s.book.rows && h.id == k.id && h.version == k.version ==>
      h.nonce == k.nonce && h.approvalId == k.approvalId
  }

  predicate RowsOk(s: Sys) {
    forall id :: id in s.db.tasks ==> RowOk(s.db.tasks[id], TallyOf(s, id))
  }

  /** Tenant plus idempotency key is unique. */
  predicate Keys(s: Sys) {
    forall i, j :: i in s.db.tasks && j in s.db.tasks && i != j ==>
      s.db.tasks[i].tenant != s.db.tasks[j].tenant || s.db.tasks[i].key != s.db.tasks[j].key
  }

  /** The approval of a write covers it, is its own, and is consumed exactly when the
      status is past the gate. */
  predicate Linked(s: Sys, t: Task) {
    && t.approvalId in s.db.approvals
    && t.approvalId in s.book.forTask && s.book.forTask[t.approvalId] == t.id
    && var a := s.db.approvals[t.approvalId];
       && InScope(a, t)
       && (t.status == Waiting ==> !a.consumed)
       && (PastGate(t.status) ==> a.consumed)
  }

  predicate Links(s: Sys) {
    forall id :: id in s.db.tasks && s.db.tasks[id].kind == Write ==> Linked(s, s.db.tasks[id])
  }

  /** Also rows of the past had an approval made for their task, by now consumed if they
      were past the gate. */
  predicate PastLinked(s: Sys, h: Task) {
    h.kind == Write ==>
      && h.approvalId in s.db.approvals
      && h.approvalId in s.book.forTask && s.book.forTask[h.approvalId] == h.id
      && (PastGate(h.status) ==> s.db.approvals[h.approvalId].consumed)
  }

  predicate PastLinks(s: Sys) {
    forall h :: h in s.book.rows ==> PastLinked(s, h)
  }

  /** Every approval belongs to a write task and covers it; an unconsumed one is still
      the current one of a task that waits or was called off. */
  predicate Owned(s: Sys, a: Id)
    requires a in s.db.approvals
  {
    && a in s.book.forTask && s.book.forTask[a] in s.db.tasks
    && var t := s.db.tasks[s.book.forTask[a]];
       && t.kind == Write && InScope(s.db.approvals[a], t)
       && (!s.db.approvals[a].consumed ==> t.approvalId == a && !PastGate(t.status))
  }

  predicate Approvals(s: Sys) {
    && s.book.forTask.Keys <= s.db.approvals.Keys
    && s.book.uses.Keys <= s.db.approvals.Keys
    && forall a :: a in s.db.approvals ==> Owned(s, a)
  }

  /** The usage one audit row settles for a task. */
  function AuditShare(row: Audit, id: Id): int {
    if row.task == id && row.toStatus != Unknown then row.usage else 0
  }

  /** Usage reported by audit rows of a task, without those that went to unknown. */
  function AuditUsage(audit: seq<Audit>, id: Id): int {
    if audit == [] then 0
    else AuditUsage(audit[..|audit| - 1], id) + AuditShare(audit[|audit| - 1], id)
  }

  ghost predicate Audits(s: Sys) {
    forall id :: !(id in s.db.tasks && s.db.tasks[id].kind == ReadOnly) ==>
      TallyOf(s, id).settled == AuditUsage(s.db.audit, id)
  }

  predicate WorkerOk(s: Sys, pc: Worker) {
    match pc
    case Idle => true
    case Won(id) => id in s.db.tasks
    case Holding(row) => row in s.book.rows
    case Cleared(row) => row in s.book.rows && row.kind == Write
    case Licensed(id, a) => id in s.db.tasks && s.db.tasks[id].kind == Write
  }

  predicate Workers(s: Sys) {
    forall w :: w in s.book.workers ==> WorkerOk(s, s.book.workers[w])
  }

  /** The approvals of one task that an operator has consumed. */
  function ConsumedFor(s: Sys, id: Id): set<Id> {
    set a | a in s.db.approvals && a in s.book.forTask && s.book.forTask[a] == id && s.db.approvals[a].consumed
  }

  /** The workers that may still invoke the Executor for a write task. */
  function Pending(s: Sys, id: Id): set<nat> {
    set w | w in s.book.workers && s.book.workers[w].Licensed? && s.book.workers[w].task == id
  }

  ghost predicate ApprovalCounts(s: Sys) {
    forall id :: TallyOf(s, id).approvals == |ConsumedFor(s, id)|
  }

  ghost predicate RunCounts(s: Sys) {
    forall id :: TallyOf(s, id).runs + |Pending(s, id)| <= TallyOf(s, id).licences
  }

  ghost predicate Inv(s: Sys) {
    && Ids(s) && History(s) && Epochs(s) && RowsOk(s) && Keys(s) && Links(s) && PastLinks(s)
    && Approvals(s) && Audits(s) && Workers(s) && ApprovalCounts(s) && RunCounts(s)
  }

  lemma EmptyInv()
    ensures Inv(EMPTY)
  {
    assert forall id :: Pending(EMPTY, id) == {} && ConsumedFor(EMPTY, id) == {};
  }

  // ----- sound transactions -----

  /** The row is stored already, or is new with an unused key. */
  predicate SoundRow(s: Sys, x: Txn) {
    var t := x.row;
    && 0 < t.id < s.db.next + x.draws
    && RowOk(t, x.tally)
    && if t.id in s.db.tasks then Moves(s.db.tasks[t.id], t)
       else t.id >= s.db.next && !KeyTaken(s.db, t.tenant, t.key)
  }

  predicate SoundTally(s: Sys, x: Txn) {
    var old_ := TallyOf(s, x.row.id);
    && x.tally.runs == old_.runs
    && x.tally.licences == old_.licences + (if x.licence then 1 else 0)
    && (x.audit.Some? ==> x.audit.value.task == x.row.id)
    && (x.row.kind == Write ==>
          x.tally.settled == old_.settled + (if x.audit.Some? then AuditShare(x.audit.value, x.row.id) else 0))
  }

  /** No approval row is written. */
  predicate SoundWithout(s: Sys, x: Txn) {
    var t := x.row;
    && x.tally.approvals == TallyOf(s, t.id).approvals
    && (x.licence ==> t.kind == Write)
    && (t.kind == Write ==>
          && t.id in s.db.tasks
          && var cur := s.db.tasks[t.id];
             if x.licence then t.status == Running && cur.status == Running && t.approvalId == cur.approvalId
             else Quiet(cur, t))
  }

  /** The current approval is consumed and lets the task through. */
  predicate Consumes(s: Sys, x: Txn, a: Approval) {
    var t := x.row;
    && t.id in s.db.tasks && s.db.tasks[t.id].status == Waiting && s.db.tasks[t.id].approvalId == a.id
    && t.status == Queued && t.nonce == s.db.tasks[t.id].nonce
    && a.id in s.db.approvals && !s.db.approvals[a.id].consumed && a.consumed
    && x.tally.approvals == TallyOf(s, t.id).approvals + 1
  }

  /** A new approval is created and the task waits for it. */
  predicate Creates(s: Sys, x: Txn, a: Approval) {
    var t := x.row;
    && s.db.next <= a.id < s.db.next + x.draws && !a.consumed
    && t.status == Waiting
    && (t.id in s.db.tasks ==> s.db.tasks[t.id].status == Unknown)
    && x.tally.approvals == TallyOf(s, t.id).approvals
  }

  predicate SoundWith(s: Sys, x: Txn, a: Approval) {
    && !x.licence && x.row.kind == Write && x.row.approvalId == a.id && InScope(a, x.row)
    && (Consumes(s, x, a) || Creates(s, x, a))
  }

  predicate Sound(s: Sys, x: Txn) {
    && SoundRow(s, x) && SoundTally(s, x)
    && match x.approval
       case None => SoundWithout(s, x)
       case Some(a) => SoundWith(s, x, a)
  }

  // ----- the row that was read is the row that is stored -----

  /** A read that passes the fence on a running row equals the stored row, up to lease
      renewals that happened in between. */
  lemma ReadIsCurrent(s: Sys, read: Task)
    requires History(s) && Matches(s, read, {Running})
    ensures var cur := s.db.tasks[read.id];
            read == cur.(leaseExpires := read.leaseExpires, updatedAt := read.updatedAt)
  {
  }

  /** Cancel may have read the row before an approval moved it: the write is the same. */
  lemma CancelIgnoresApproval(s: Sys, read: Task, now: int)
    requires History(s) && CancelCommits(s, read)
    ensures CanceledRow(read, now) == CanceledRow(s.db.tasks[read.id], now)
  {
  }

  // ----- every transaction an event commits is sound -----

  lemma SubmitSound(s: Sys, template: Task, policy: string, now: int)
    requires Ids(s) && SubmitEnabled(s, template)
    ensures Sound(s, SubmitTxn(s, template, policy, now))
  {
  }

  lemma ApproveSound(s: Sys, a: Id, picked: Id, operator: string, args: string, policy: string, now: int)
    requires Ids(s) && RowsOk(s) && Links(s) && ApproveEnabled(s, a, picked, operator, args, policy, now)
    ensures Sound(s, ApproveTxn(s, a, picked, operator, now))
  {
    assert RowOk(s.db.tasks[picked], TallyOf(s, picked));
    assert Linked(s, s.db.tasks[picked]);
  }

  lemma ClaimSound(s: Sys, id: Id, owner: string, leaseUntil: int, now: int)
    requires Ids(s) && RowsOk(s) && id in s.db.tasks && s.db.tasks[id].status == Queued
    ensures Sound(s, ClaimTxn(s, id, owner, leaseUntil, now))
  {
    assert RowOk(s.db.tasks[id], TallyOf(s, id));
  }

  lemma IntentSound(s: Sys, e: Event)
    requires Ids(s) && History(s) && RowsOk(s) && Grants(s, e)
    ensures Sound(s, IntentTxn(s, e.read, e.reserve, e.now))
  {
    ReadIsCurrent(s, e.read);
    assert RowOk(s.db.tasks[e.read.id], TallyOf(s, e.read.id));
  }

  lemma CompleteSound(s: Sys, read: Task, o: Outcome, now: int)
    requires Ids(s) && History(s) && RowsOk(s) && CompleteCommits(s, read, o)
    ensures Sound(s, CompleteTxn(s, read, o, now))
  {
    ReadIsCurrent(s, read);
    assert RowOk(s.db.tasks[read.id], TallyOf(s, read.id));
  }

  lemma CancelSound(s: Sys, read: Task, now: int)
    requires Ids(s) && History(s) && RowsOk(s) && CancelCommits(s, read)
    ensures Sound(s, CancelTxn(s, read, now))
  {
    CancelIgnoresApproval(s, read, now);
    assert RowOk(s.db.tasks[read.id], TallyOf(s, read.id));
  }

  lemma RenewSound(s: Sys, id: Id, leaseUntil: int, now: int)
    requires Ids(s) && RowsOk(s) && id in s.db.tasks
    ensures Sound(s, RenewTxn(s, id, leaseUntil, now))
  {
    assert RowOk(s.db.tasks[id], TallyOf(s, id));
  }

  lemma ConfirmSound(s: Sys, id: Id, actor: string, result: string, usage: int, now: int)
    requires Ids(s) && RowsOk(s) && ConfirmEnabled(s, id, actor, usage)
    ensures Sound(s, ConfirmTxn(s, id, actor, result, usage, now))
  {
    assert RowOk(s.db.tasks[id], TallyOf(s, id));
  }

  lemma RequeueSound(s: Sys, id: Id, actor: string, policy: string, now: int)
    requires Ids(s) && RowsOk(s) && RequeueEnabled(s, id, actor)
    ensures Sound(s, RequeueTxn(s, id, actor, policy, now))
  {
    assert RowOk(s.db.tasks[id], TallyOf(s, id));
  }

  lemma TxnSound(s: Sys, e: Event)
    requires Ids(s) && History(s) && RowsOk(s) && Links(s) && TxnOf(s, e).Some?
    ensures Sound(s, TxnOf(s, e).value)
  {
    hide Ids, History, RowsOk, Links, Sound;
    match e
    case Submit(template, policy, now) => SubmitSound(s, template, policy, now);
    case Approve(a, picked, operator, args, policy, now) => ApproveSound(s, a, picked, operator, args, policy, now);
    case Claim(w, read, owner, until, now) => ClaimSound(s, read.id, owner, until, now);
    case Intent(w, read, reserve, now) => IntentSound(s, e);
    case Complete(read, o, now) => CompleteSound(s, read, o, now);
    case Cancel(read, now) => CancelSound(s, read, now);
    case RenewLease(id, owner, until, now) => RenewSound(s, id, until, now);
    case Confirm(id, actor, result, usage, now) => ConfirmSound(s, id, actor, result, usage, now);
    case Requeue(id, actor, policy, now) => RequeueSound(s, id, actor, policy, now);
    case _ =>
  }

  // ----- a sound transaction keeps the invariant -----

  /** The rows of s' come from the rows of s by allowed moves, and are all recorded. */
  predicate RowsMove(s: Sys, s': Sys) {
    && (forall id :: id in s.db.tasks ==> id in s'.db.tasks && Moves(s.db.tasks[id], s'.db.tasks[id]))
    && s.book.rows <= s'.book.rows
    && (forall id :: id in s'.db.tasks ==> s'.db.tasks[id] in s'.book.rows && s'.db.tasks[id].id == id)
    && (forall h :: h in s'.book.rows ==> h in s.book.rows || (h.id in s'.db.tasks && h == s'.db.tasks[h.id]))
  }

  lemma RowsMoveKeepsHistory(s: Sys, s': Sys)
    requires History(s) && RowsMove(s, s')
    ensures History(s')
  {
  }

  lemma RowsMoveKeepsEpochs(s: Sys, s': Sys)
    requires History(s) && Epochs(s) && RowsMove(s, s')
    ensures Epochs(s')
  {
    forall h, k | h in s'.book.rows && k in s'.book.rows && h.id == k.id && h.version == k.version
      ensures h.nonce == k.nonce && h.approvalId == k.approvalId
    {
      if h in s.book.rows && k !in s.book.rows {
        assert Moves(s.db.tasks[h.id], k);
      } else if h !in s.book.rows && k in s.book.rows {
        assert Moves(s.db.tasks[k.id], h);
      }
    }
  }

  lemma CommitMoves(s: Sys, x: Txn)
    requires Ids(s) && History(s) && SoundRow(s, x)
    ensures RowsMove(s, Commit(s, x))
  {
  }

  lemma CommitIds(s: Sys, x: Txn)
    requires Ids(s) && Sound(s, x)
    ensures Ids(Commit(s, x))
  {
  }

  lemma CommitRowsOk(s: Sys, x: Txn)
    requires Ids(s) && RowsOk(s) && SoundRow(s, x)
    ensures RowsOk(Commit(s, x))
  {
    var s' := Commit(s, x);
    forall id | id in s'.db.tasks ensures RowOk(s'.db.tasks[id], TallyOf(s', id)) {
      if id != x.row.id { assert RowOk(s.db.tasks[id], TallyOf(s, id)); }
    }
  }

  lemma CommitKeys(s: Sys, x: Txn)
    requires Keys(s) && SoundRow(s, x)
    ensures Keys(Commit(s, x))
  {
  }

  /** Another task's approval is neither written nor used. */
  lemma CommitOtherLinked(s: Sys, x: Txn, id: Id)
    requires Ids(s) && Links(s) && Approvals(s) && Sound(s, x)
    requires id in s.db.tasks && id != x.row.id && s.db.tasks[id].kind == Write
    ensures Linked(Commit(s, x), s.db.tasks[id])
  {
    assert Linked(s, s.db.tasks[id]);
    if x.row.id in s.db.tasks && s.db.tasks[x.row.id].kind == Write { assert Linked(s, s.db.tasks[x.row.id]); }
  }

  lemma CommitSelfLinked(s: Sys, x: Txn)
    requires Ids(s) && Links(s) && Approvals(s) && Sound(s, x) && x.row.kind == Write
    ensures Linked(Commit(s, x), x.row)
  {
    if x.row.id in s.db.tasks { assert Linked(s, s.db.tasks[x.row.id]); }
  }

  lemma CommitLinks(s: Sys, x: Txn)
    requires Ids(s) && Links(s) && Approvals(s) && Sound(s, x)
    ensures Links(Commit(s, x))
  {
    hide Sound, Ids, Approvals, Linked, Links;
    var s' := Commit(s, x);
    forall id | id in s'.db.tasks && s'.db.tasks[id].kind == Write
      ensures Linked(s', s'.db.tasks[id])
    {
      if id == x.row.id { CommitSelfLinked(s, x); } else { CommitOtherLinked(s, x, id); }
    }
    assert Links(s') by { LinksIntro(s'); }
  }

  lemma LinksIntro(s: Sys)
    requires forall id :: id in s.db.tasks && s.db.tasks[id].kind == Write ==> Linked(s, s.db.tasks[id])
    ensures Links(s)
  {
  }

  /** What is never taken back: approvals, consumption, ownership, uses. */
  ghost predicate ApprovalsGrow(s: Sys, s': Sys) {
    && (forall a :: a in s.db.approvals ==>
          a in s'.db.approvals && (s.db.approvals[a].consumed ==> s'.db.approvals[a].consumed))
    && (forall a :: a in s.db.approvals && a in s.book.forTask ==>
          a in s'.book.forTask && s'.book.forTask[a] == s.book.forTask[a])
    && (forall a :: UsesOf(s', a) >= UsesOf(s, a))
  }

  lemma CommitGrows(s: Sys, x: Txn)
    requires Ids(s) && Links(s) && Sound(s, x)
    ensures ApprovalsGrow(s, Commit(s, x))
  {
    if x.row.id in s.db.tasks && x.row.kind == Write { assert Linked(s, s.db.tasks[x.row.id]); }
  }

  lemma PastLinksGrow(s: Sys, s': Sys)
    requires PastLinks(s) && RowsOk(s') && Links(s') && ApprovalsGrow(s, s')
    requires forall h :: h in s'.book.rows ==> h in s.book.rows || (h.id in s'.db.tasks && h == s'.db.tasks[h.id])
    ensures PastLinks(s')
  {
    forall h | h in s'.book.rows ensures PastLinked(s', h) {
      if h in s.book.rows {
        assert PastLinked(s, h);
      } else {
        assert RowOk(s'.db.tasks[h.id], TallyOf(s', h.id));
        assert h.kind == Write ==> Linked(s', h);
      }
    }
  }

  /** The approvals of the row's own task. */
  lemma CommitOwned(s: Sys, x: Txn, a: Id)
    requires Ids(s) && Links(s) && Approvals(s) && Sound(s, x)
    requires a in Commit(s, x).db.approvals
    requires (x.approval.Some? && a == x.approval.value.id) || (a in s.book.forTask && s.book.forTask[a] == x.row.id)
    ensures Owned(Commit(s, x), a)
  {
    if a in s.db.approvals { assert Owned(s, a); }
    if x.row.id in s.db.tasks {
      assert SameWork(s.db.tasks[x.row.id], x.row);
      assert x.row.kind == Write ==> Linked(s, s.db.tasks[x.row.id]);
    }
  }

  /** The approvals of other tasks. */
  lemma CommitOtherOwned(s: Sys, x: Txn, a: Id)
    requires a in s.db.approvals && Owned(s, a) && s.book.forTask[a] != x.row.id
    requires x.approval.Some? ==> a != x.approval.value.id
    ensures Owned(Commit(s, x), a)
  {
  }

  lemma CommitApprovals(s: Sys, x: Txn)
    requires Ids(s) && Links(s) && Approvals(s) && Sound(s, x)
    ensures Approvals(Commit(s, x))
  {
    hide Ids, Links, Sound, Owned;
    var s' := Commit(s, x);
    forall a | a in s'.db.approvals ensures Owned(s', a) {
      if (x.approval.Some? && a == x.approval.value.id) || (a in s.book.forTask && s.book.forTask[a] == x.row.id) {
        CommitOwned(s, x, a);
      } else {
        OwnedHas(s, a);
        CommitOtherOwned(s, x, a);
      }
    }
    CommitUses(s, x);
  }

  lemma OwnedHas(s: Sys, a: Id)
    requires Approvals(s) && a in s.db.approvals
    ensures Owned(s, a) && a in s.book.forTask
  {
  }

  lemma CommitUses(s: Sys, x: Txn)
    requires Ids(s) && Links(s) && Approvals(s) && Sound(s, x)
    ensures Commit(s, x).book.uses.Keys <= Commit(s, x).db.approvals.Keys
  {
    if x.licence { assert Linked(s, s.db.tasks[x.row.id]); }
  }

  lemma CommitAudits(s: Sys, x: Txn)
    requires Audits(s) && Sound(s, x)
    ensures Audits(Commit(s, x))
  {
    var s' := Commit(s, x);
    forall id | !(id in s'.db.tasks && s'.db.tasks[id].kind == ReadOnly)
      ensures TallyOf(s', id).settled == AuditUsage(s'.db.audit, id)
    {
      if x.audit.Some? { assert s'.db.audit[..|s'.db.audit| - 1] == s.db.audit; }
    }
  }

  lemma CommitWorkers(s: Sys, x: Txn)
    requires Ids(s) && Workers(s) && SoundRow(s, x)
    ensures Workers(Commit(s, x))
  {
    var s' := Commit(s, x);
    forall w | w in s'.book.workers ensures WorkerOk(s', s'.book.workers[w]) {
      assert WorkerOk(s, s.book.workers[w]);
    }
  }

  lemma ConsumeCounts(s: Sys, x: Txn, a: Approval)
    requires Links(s) && ApprovalCounts(s) && x.approval == Some(a) && Consumes(s, x, a)
    requires x.row.kind == Write && s.db.tasks[x.row.id].kind == Write && s.db.tasks[x.row.id].id == x.row.id
    ensures ApprovalCounts(Commit(s, x))
  {
    var s' := Commit(s, x);
    assert Linked(s, s.db.tasks[x.row.id]);
    forall id ensures TallyOf(s', id).approvals == |ConsumedFor(s', id)| {
      if id == x.row.id {
        assert ConsumedFor(s', id) == ConsumedFor(s, id) + {a.id};
      } else {
        assert ConsumedFor(s', id) == ConsumedFor(s, id);
      }
    }
  }

  lemma QuietCounts(s: Sys, x: Txn)
    requires Ids(s) && ApprovalCounts(s) && x.tally.approvals == TallyOf(s, x.row.id).approvals
    requires x.approval.Some? ==> !x.approval.value.consumed && x.approval.value.id >= s.db.next
    ensures ApprovalCounts(Commit(s, x))
  {
    var s' := Commit(s, x);
    forall id ensures TallyOf(s', id).approvals == |ConsumedFor(s', id)| {
      assert ConsumedFor(s', id) == ConsumedFor(s, id);
    }
  }

  lemma CommitApprovalCounts(s: Sys, x: Txn)
    requires Ids(s) && Links(s) && ApprovalCounts(s) && Sound(s, x)
    ensures ApprovalCounts(Commit(s, x))
  {
    if x.approval.Some? && Consumes(s, x, x.approval.value) {
      ConsumeCounts(s, x, x.approval.value);
    } else {
      QuietCounts(s, x);
    }
  }

  lemma CommitRunCounts(s: Sys, x: Txn)
    requires RunCounts(s) && SoundTally(s, x)
    ensures RunCounts(Commit(s, x))
  {
    var s' := Commit(s, x);
    forall id ensures TallyOf(s', id).runs + |Pending(s', id)| <= TallyOf(s', id).licences {
      assert Pending(s', id) == Pending(s, id);
    }
  }

  lemma CommitInv(s: Sys, x: Txn)
    requires Inv(s) && Sound(s, x)
    ensures Inv(Commit(s, x))
  {
    hide Ids, History, Epochs, RowsOk, Keys, Links, PastLinks, Approvals, Audits, Workers, ApprovalCounts, RunCounts;
    hide Commit;
    var s' := Commit(s, x);
    CommitIds(s, x);
    CommitMoves(s, x);
    RowsMoveKeepsHistory(s, s');
    RowsMoveKeepsEpochs(s, s');
    CommitRowsOk(s, x);
    CommitKeys(s, x);
    CommitLinks(s, x);
    CommitGrows(s, x);
    PastLinksGrow(s, s');
    CommitApprovals(s, x);
    CommitAudits(s, x);
    CommitWorkers(s, x);
    CommitApprovalCounts(s, x);
    CommitRunCounts(s, x);
  }

  // ----- so does an UPDATE over all rows -----

  /** What the bulk updates do to one row. */
  predicate SoundUpdate(t: Task, t': Task) {
    && Moves(t, t')
    && Quiet(t, t')
    && t'.nonce == t.nonce && t'.budget == t.budget && t'.reserved == t.reserved
    && (t'.status == Running ==> t.status == Running)
  }

  lemma UpdateSound(e: Event)
    requires IsBulk(e)
    ensures forall t: Task :: SoundUpdate(t, UpdateOf(e)(t))
  {
  }

  lemma BulkMoves(s: Sys, update: Task -> Task)
    requires Ids(s) && History(s)
    requires forall t: Task :: SoundUpdate(t, update(t))
    ensures RowsMove(s, Bulk(s, update))
  {
    var s' := Bulk(s, update);
    forall h | h in s'.book.rows
      ensures h in s.book.rows || (h.id in s'.db.tasks && h == s'.db.tasks[h.id])
    {
      if h !in s.book.rows {
        var id :| id in s.db.tasks && h == update(s.db.tasks[id]);
        assert SoundUpdate(s.db.tasks[id], update(s.db.tasks[id]));
      }
    }
    forall id | id in s.db.tasks ensures Moves(s.db.tasks[id], s'.db.tasks[id]) {
      assert SoundUpdate(s.db.tasks[id], update(s.db.tasks[id]));
    }
  }

  lemma BulkRows(s: Sys, update: Task -> Task)
    requires Ids(s) && RowsOk(s) && Keys(s)
    requires forall t: Task :: SoundUpdate(t, update(t))
    ensures Ids(Bulk(s, update)) && RowsOk(Bulk(s, update)) && Keys(Bulk(s, update))
  {
    var s' := Bulk(s, update);
    forall id | id in s.db.tasks
      ensures SoundUpdate(s.db.tasks[id], s'.db.tasks[id]) && RowOk(s'.db.tasks[id], TallyOf(s', id))
    {
      assert SoundUpdate(s.db.tasks[id], update(s.db.tasks[id]));
      assert RowOk(s.db.tasks[id], TallyOf(s, id));
    }
  }

  lemma BulkLinks(s: Sys, update: Task -> Task)
    requires Links(s)
    requires forall t: Task :: SoundUpdate(t, update(t))
    ensures Links(Bulk(s, update))
  {
    var s' := Bulk(s, update);
    forall id | id in s.db.tasks && s'.db.tasks[id].kind == Write
      ensures Linked(s', s'.db.tasks[id])
    {
      assert SoundUpdate(s.db.tasks[id], update(s.db.tasks[id]));
      assert Linked(s, s.db.tasks[id]);
    }
  }

  lemma BulkApprovals(s: Sys, update: Task -> Task)
    requires Approvals(s)
    requires forall t: Task :: SoundUpdate(t, update(t))
    ensures Approvals(Bulk(s, update)) && ApprovalsGrow(s, Bulk(s, update))
  {
    var s' := Bulk(s, update);
    forall a | a in s'.db.approvals ensures Owned(s', a) {
      assert Owned(s, a);
      var t := s.db.tasks[s.book.forTask[a]];
      assert SoundUpdate(t, update(t));
    }
  }

  lemma BulkKinds(s: Sys, update: Task -> Task)
    requires forall t: Task :: SoundUpdate(t, update(t))
    ensures forall id :: id in s.db.tasks ==> Bulk(s, update).db.tasks[id].kind == s.db.tasks[id].kind
  {
    forall id | id in s.db.tasks ensures Bulk(s, update).db.tasks[id].kind == s.db.tasks[id].kind {
      assert SoundUpdate(s.db.tasks[id], update(s.db.tasks[id]));
    }
  }

  lemma BulkCounts(s: Sys, update: Task -> Task)
    requires Audits(s) && Workers(s) && ApprovalCounts(s) && RunCounts(s)
    requires forall id :: id in s.db.tasks ==> Bulk(s, update).db.tasks[id].kind == s.db.tasks[id].kind
    ensures var s' := Bulk(s, update); Audits(s') && Workers(s') && ApprovalCounts(s') && RunCounts(s')
  {
    var s' := Bulk(s, update);
    forall w | w in s'.book.workers ensures WorkerOk(s', s'.book.workers[w]) {
      assert WorkerOk(s, s.book.workers[w]);
    }
    assert forall id :: Pending(s', id) == Pending(s, id) && ConsumedFor(s', id) == ConsumedFor(s, id);
  }

  lemma BulkInv(s: Sys, update: Task -> Task)
    requires Inv(s)
    requires forall t: Task :: SoundUpdate(t, update(t))
    ensures Inv(Bulk(s, update))
  {
    hide Ids, History, Epochs, RowsOk, Keys, Links, PastLinks, Approvals, Audits, Workers, ApprovalCounts, RunCounts;
    hide Bulk, SoundUpdate;
    var s' := Bulk(s, update);
    BulkMoves(s, update);
    RowsMoveKeepsHistory(s, s');
    RowsMoveKeepsEpochs(s, s');
    BulkRows(s, update);
    BulkLinks(s, update);
    BulkApprovals(s, update);
    BulkKinds(s, update);
    BulkCounts(s, update);
    PastLinksGrow(s, s');
  }

  // ----- and the local steps of workers -----

  /** Only local state and run counters changed. */
  ghost predicate SameStore(s: Sys, s': Sys) {
    && s'.db == s.db && s'.book.rows == s.book.rows && s'.book.forTask == s.book.forTask && s'.book.uses == s.book.uses
    && (forall id :: id in s'.book.tallies ==> id in s.db.tasks)
    && (forall id :: TallyOf(s', id).(runs := TallyOf(s, id).runs) == TallyOf(s, id))
  }

  lemma SameStoreRows(s: Sys, s': Sys)
    requires Ids(s) && RowsOk(s) && Links(s) && PastLinks(s) && SameStore(s, s')
    ensures Ids(s') && RowsOk(s') && Links(s') && PastLinks(s')
  {
    forall id | id in s.db.tasks
      ensures RowOk(s'.db.tasks[id], TallyOf(s', id))
      ensures s.db.tasks[id].kind == Write ==> Linked(s', s'.db.tasks[id])
    {
      assert RowOk(s.db.tasks[id], TallyOf(s, id));
      assert s.db.tasks[id].kind == Write ==> Linked(s, s.db.tasks[id]);
    }
    forall h | h in s'.book.rows ensures PastLinked(s', h) {
      assert PastLinked(s, h);
    }
  }

  lemma SameStoreOthers(s: Sys, s': Sys)
    requires Approvals(s) && Audits(s) && ApprovalCounts(s) && SameStore(s, s')
    ensures Approvals(s') && Audits(s') && ApprovalCounts(s')
  {
    assert forall id :: ConsumedFor(s', id) == ConsumedFor(s, id);
  }

  lemma LocalInv(s: Sys, s': Sys)
    requires Inv(s) && SameStore(s, s') && Workers(s') && RunCounts(s')
    ensures Inv(s')
  {
    hide Ids, RowsOk, Links, PastLinks, Approvals, Audits, Workers, ApprovalCounts, RunCounts;
    SameStoreRows(s, s');
    SameStoreOthers(s, s');
  }

  lemma {:induction false} CardinalitySubset(a: set<nat>, b: set<nat>)
    requires a <= b
    ensures |a| <= |b|
  {
    if a != {} {
      var x :| x in a;
      CardinalitySubset(a - {x}, b - {x});
    }
  }

  /** A worker moves to a counter that holds no licence. */
  lemma SetWorkerInv(s: Sys, w: nat, pc: Worker)
    requires Inv(s) && WorkerOk(s, pc) && !pc.Licensed?
    ensures Inv(SetWorker(s, w, pc))
  {
    var s' := SetWorker(s, w, pc);
    assert Workers(s') && SameStore(s, s') by { SetWorkerLocal(s, w, pc); }
    assert RunCounts(s') by { SetWorkerRuns(s, w, pc); }
    hide Workers, RunCounts, SameStore, SetWorker, WorkerOk;
    LocalInv(s, s');
  }

  lemma SetWorkerLocal(s: Sys, w: nat, pc: Worker)
    requires Ids(s) && Workers(s) && WorkerOk(s, pc)
    ensures Workers(SetWorker(s, w, pc)) && SameStore(s, SetWorker(s, w, pc))
  {
    var s' := SetWorker(s, w, pc);
    forall v | v in s'.book.workers ensures WorkerOk(s', s'.book.workers[v]) {
      if v != w { assert WorkerOk(s, s.book.workers[v]); }
    }
  }

  lemma SetWorkerRuns(s: Sys, w: nat, pc: Worker)
    requires RunCounts(s) && !pc.Licensed?
    ensures RunCounts(SetWorker(s, w, pc))
  {
    var s' := SetWorker(s, w, pc);
    forall id ensures TallyOf(s', id).runs + |Pending(s', id)| <= TallyOf(s', id).licences {
      CardinalitySubset(Pending(s', id), Pending(s, id));
    }
  }

  lemma ExecuteLocal(s: Sys, w: nat)
    requires Ids(s) && Workers(s) && RunCounts(s)
    ensures Workers(ExecuteStep(s, w)) && SameStore(s, ExecuteStep(s, w)) && RunCounts(ExecuteStep(s, w))
  {
    if WorkerOf(s, w).Licensed? {
      var s' := ExecuteStep(s, w);
      assert WorkerOk(s, WorkerOf(s, w));
      forall v | v in s'.book.workers ensures WorkerOk(s', s'.book.workers[v]) {
        if v != w { assert WorkerOk(s, s.book.workers[v]); }
      }
      forall id ensures TallyOf(s', id).runs + |Pending(s', id)| <= TallyOf(s', id).licences {
        if id == WorkerOf(s, w).task {
          assert Pending(s', id) == Pending(s, id) - {w};
        } else {
          assert Pending(s', id) == Pending(s, id);
        }
      }
    }
  }

  /** An intent call that succeeds pays for the licence it hands out. */
  lemma LicenceRuns(s: Sys, x: Txn, w: nat, approval: Id)
    requires RunCounts(s) && SoundTally(s, x) && x.licence && WorkerOf(s, w).Cleared?
    ensures RunCounts(SetWorker(Commit(s, x), w, Licensed(x.row.id, approval)))
  {
    var s' := SetWorker(Commit(s, x), w, Licensed(x.row.id, approval));
    forall id ensures TallyOf(s', id).runs + |Pending(s', id)| <= TallyOf(s', id).licences {
      if id == x.row.id {
        assert Pending(s', id) == Pending(s, id) + {w};
      } else {
        assert Pending(s', id) == Pending(s, id);
      }
    }
  }

  lemma LicenceInv(s: Sys, x: Txn, w: nat, approval: Id)
    requires Inv(s) && Sound(s, x) && x.licence && WorkerOf(s, w).Cleared?
    ensures Inv(SetWorker(Commit(s, x), w, Licensed(x.row.id, approval)))
  {
    var s1 := Commit(s, x);
    var pc := Licensed(x.row.id, approval);
    var s' := SetWorker(s1, w, pc);
    CommitInv(s, x);
    assert RunCounts(s') by { LicenceRuns(s, x, w, approval); }
    assert Workers(s') && SameStore(s1, s') by {
      assert WorkerOk(s1, pc);
      SetWorkerLocal(s1, w, pc);
    }
    hide Workers, RunCounts, SameStore, SetWorker, Commit;
    LocalInv(s1, s');
  }

  // ----- every reachable state -----

  lemma ClaimStores(s: Sys, w: nat, read: Task, owner: string, until: int, now: int)
    requires Ids(s) && ClaimWins(s, w, read)
    ensures read.id in Commit(s, ClaimTxn(s, read.id, owner, until, now)).db.tasks
  {
  }

  lemma CommitStepInv(s: Sys, e: Event)
    requires Inv(s)
    ensures Inv(CommitStep(s, e))
  {
    hide Ids, History, Epochs, RowsOk, Keys, Links, PastLinks, Approvals, Audits, Workers, ApprovalCounts, RunCounts;
    hide Sound, Commit;
    match TxnOf(s, e)
    case None =>
    case Some(x) =>
      TxnSound(s, e);
      CommitInv(s, x);
      match e
      case Claim(w, read, owner, until, now) =>
        ClaimStores(s, w, read, owner, until, now);
        SetWorkerInv(Commit(s, x), w, Won(read.id));
      case Intent(w, read, _, _) => LicenceInv(s, x, w, read.approvalId);
      case _ =>
  }

  /** What a worker reads is recorded. */
  lemma ReadBackOk(s: Sys, w: nat)
    requires History(s) && Workers(s) && WorkerOf(s, w).Won?
    ensures WorkerOf(s, w).task in s.db.tasks && WorkerOk(s, Holding(s.db.tasks[WorkerOf(s, w).task]))
  {
    assert WorkerOk(s, WorkerOf(s, w));
  }

  lemma CheckOk(s: Sys, w: nat)
    requires Workers(s) && WorkerOf(s, w).Holding? && WorkerOf(s, w).row.kind == Write
    ensures WorkerOk(s, Cleared(WorkerOf(s, w).row))
  {
    assert WorkerOk(s, WorkerOf(s, w));
  }

  lemma LocalStepInv(s: Sys, e: Event)
    requires Inv(s) && (e.ReadBack? || e.Check? || e.Drop?)
    ensures Inv(Step(s, e))
  {
    hide Ids, History, Epochs, RowsOk, Keys, Links, PastLinks, Approvals, Audits, Workers, ApprovalCounts, RunCounts;
    hide SetWorker;
    match e
    case ReadBack(w) =>
      if WorkerOf(s, w).Won? {
        ReadBackOk(s, w);
        SetWorkerInv(s, w, Holding(s.db.tasks[WorkerOf(s, w).task]));
      }
    case Check(w, authorized, policy, now) =>
      if WorkerOf(s, w).Holding? && WorkerOf(s, w).row.kind == Write {
        CheckOk(s, w);
        SetWorkerInv(s, w, Cleared(WorkerOf(s, w).row));
      }
    case Drop(w) => SetWorkerInv(s, w, Idle);
  }

  lemma BulkStepInv(s: Sys, e: Event)
    requires Inv(s) && IsBulk(e)
    ensures Inv(Step(s, e))
  {
    hide Inv, SoundUpdate, UpdateOf, Bulk, CommitStep;
    UpdateSound(e);
    BulkInv(s, UpdateOf(e));
  }

  lemma ExecuteInv(s: Sys, w: nat)
    requires Inv(s)
    ensures Inv(ExecuteStep(s, w))
  {
    var s' := ExecuteStep(s, w);
    assert Workers(s') && SameStore(s, s') && RunCounts(s') by { ExecuteLocal(s, w); }
    hide Workers, RunCounts, SameStore, ExecuteStep;
    LocalInv(s, s');
  }

  /** Every step of every party keeps the invariant. */
  lemma InvStep(s: Sys, e: Event)
    requires Inv(s)
    ensures Inv(Step(s, e))
  {
    hide Inv, CommitStep, ExecuteStep, UpdateOf, Bulk;
    match e
    case ReadBack(_) => LocalStepInv(s, e);
    case Check(_, _, _, _) => LocalStepInv(s, e);
    case Drop(_) => LocalStepInv(s, e);
    case Execute(w) => ExecuteInv(s, w);
    case _ => if IsBulk(e) { BulkStepInv(s, e); } else { CommitStepInv(s, e); }
  }

  lemma {:induction false} InvRun(s: Sys, events: seq<Event>)
    requires Inv(s)
    ensures Inv(Run(s, events))
    decreases |events|
  {
    hide Inv, Step;
    if events != [] {
      InvStep(s, events[0]);
      InvRun(Step(s, events[0]), events[1..]);
    }
  }
}
