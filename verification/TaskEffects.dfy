/** What each operation of the task store does to the tables, said for its callers: the row it
    writes column by column, when it writes at all, and what it leaves alone. */
module TaskEffects {
  import opened Wrappers
  import opened TaskModel
  import opened TaskInvariant
  import opened TaskTheorems

  predicate IsActive(s: Status) {
    s == Queued || s == Waiting || s == Running
  }

  /** A write whose intent is on record: it may have had its effect. */
  predicate MayHaveRun(t: Task) {
    t.kind == Write && t.nonce != 0
  }

  /** A commit stores one row and touches no other; what else it stores is in its transaction. */
  lemma CommitStores(s: Sys, e: Event)
    requires !IsLocal(e) && !IsBulk(e)
    ensures var db, db' := s.db, Step(s, e).db;
            match TxnOf(s, e)
            case None => db' == db
            case Some(x) =>
              && db'.tasks == db.tasks[x.row.id := x.row]
              && db'.approvals == (if x.approval.Some? then db.approvals[x.approval.value.id := x.approval.value] else db.approvals)
              && db'.audit == (if x.audit.Some? then db.audit + [x.audit.value] else db.audit)
  {
    hide TxnOf;
  }

  // ----- rows given up -----

  /** The row is out of its worker's hands; nothing else about it changed. */
  predicate LetGo(t: Task, t': Task, status: Status, now: int) {
    && t'.status == status && t'.version == t.version + 1 && t'.leaseOwner == "" && t'.leaseExpires == 0 && t'.updatedAt == now
    && t'.nonce == t.nonce && t'.reserved == t.reserved && t'.budget == t.budget && t'.approvalId == t.approvalId
    && t'.attempts == t.attempts && t'.maxAttempts == t.maxAttempts && t'.result == t.result && t'.expiresAt == t.expiresAt
    && SameWork(t, t') && t'.args == t.args && t'.policyVersion == t.policyVersion && t'.createdAt == t.createdAt
  }

  predicate Overdue(t: Task, now: int) {
    IsActive(t.status) && 0 < t.expiresAt && t.expiresAt <= now
  }

  lemma BulkStores(s: Sys, e: Event)
    requires IsBulk(e)
    ensures Step(s, e).db.tasks.Keys == s.db.tasks.Keys
    ensures Step(s, e).db.approvals == s.db.approvals && Step(s, e).db.audit == s.db.audit
    ensures forall id :: id in s.db.tasks ==> Step(s, e).db.tasks[id] == UpdateOf(e)(s.db.tasks[id])
  {
    hide UpdateOf, CommitStep;
  }

  /** A sweep takes a row past its deadline: a running write with an intent on record becomes
      unknown, with its reservation kept, and any other live task is timed out. */
  predicate SweptTo(t: Task, t': Task, now: int) {
    && !Overdue(t', now)
    && if Overdue(t, now) then LetGo(t, t', if MayHaveRun(t) && t.status == Running then Unknown else TimedOut, now) else t' == t
  }

  lemma SweptIs(t: Task, now: int)
    ensures SweptTo(t, SweptRow(t, now), now)
  {
  }

  /** After a sweep no live task is past its deadline; no other row, approval or audit row is
      touched. */
  lemma SweepEffect(s: Sys, now: int)
    ensures var s' := Step(s, Sweep(now));
            && s'.db.tasks.Keys == s.db.tasks.Keys && s'.db.approvals == s.db.approvals && s'.db.audit == s.db.audit
            && forall id :: id in s.db.tasks ==> SweptTo(s.db.tasks[id], s'.db.tasks[id], now)
  {
    hide Step, SweptRow, SweptTo;
    BulkStores(s, Sweep(now));
    forall id | id in s.db.tasks ensures SweptTo(s.db.tasks[id], Step(s, Sweep(now)).db.tasks[id], now) {
      SweptIs(s.db.tasks[id], now);
    }
  }

  predicate Forsaken(t: Task, now: int) {
    t.status == Running && t.leaseExpires <= now
  }

  /** A recovery takes a running row whose lease has expired: with an intent on record it is
      unknown, reservation kept, and otherwise it is queued again. */
  predicate RecoveredTo(t: Task, t': Task, now: int) {
    && !Forsaken(t', now)
    && if Forsaken(t, now) then LetGo(t, t', if MayHaveRun(t) then Unknown else Queued, now) && t'.errorText == t.errorText else t' == t
  }

  lemma RecoveredIs(t: Task, now: int)
    ensures RecoveredTo(t, RecoveredIntendedRow(RecoveredIdleRow(t, now), now), now)
  {
  }

  /** After a recovery no running task has an expired lease; nothing else is touched. */
  lemma RecoverEffect(s: Sys, now: int)
    ensures var s' := Run(s, [RecoverIdle(now), RecoverIntended(now)]);
            && s'.db.tasks.Keys == s.db.tasks.Keys && s'.db.approvals == s.db.approvals && s'.db.audit == s.db.audit
            && forall id :: id in s.db.tasks ==> RecoveredTo(s.db.tasks[id], s'.db.tasks[id], now)
  {
    hide Step, RecoveredIdleRow, RecoveredIntendedRow, RecoveredTo;
    var both := [RecoverIdle(now), RecoverIntended(now)];
    var s1 := Step(s, RecoverIdle(now));
    var s2 := Step(s1, RecoverIntended(now));
    assert both[1..] == [RecoverIntended(now)] && both[1..][1..] == [];
    assert Run(s, both) == Run(s1, both[1..]) == s2;
    BulkStores(s, RecoverIdle(now));
    BulkStores(s1, RecoverIntended(now));
    forall id | id in s.db.tasks ensures RecoveredTo(s.db.tasks[id], s2.db.tasks[id], now) {
      RecoveredIs(s.db.tasks[id], now);
    }
  }

  /** Cancellation: unknown for a running write with an intent on record, canceled otherwise. */
  lemma CancelEffect(s: Sys, read: Task, now: int)
    requires Reached(s) && CancelCommits(s, read)
    ensures read.id in s.db.tasks && read.id in Step(s, Cancel(read, now)).db.tasks
    ensures var t, t' := s.db.tasks[read.id], Step(s, Cancel(read, now)).db.tasks[read.id];
            LetGo(t, t', if MayHaveRun(t) && t.status == Running then Unknown else Canceled, now)
  {
    CancelSeesTheStoredRow(s, read, now);
    hide Step, Reached;
  }

  /** A queued task that nobody holds is either claimable or swept, and never both, unless its
      deadline is negative: then no claim and no sweep ever takes it. */
  lemma QueuedIsServedIff(t: Task, now: int)
    requires t.status == Queued && now >= 0 && (t.leaseOwner == "" || t.leaseExpires <= now)
    ensures Claimable(t, now) ==> SweptRow(t, now) == t
    ensures Claimable(t, now) || SweptRow(t, now).status == TimedOut <==> t.expiresAt >= 0
  {
  }

  /** A task that somebody holds is not claimable. */
  lemma HeldIsNotClaimable(t: Task, now: int)
    ensures Claimable(t, now) ==> t.status == Queued && !Overdue(t, now) && (t.leaseOwner == "" || t.leaseExpires <= now)
  {
  }

  // ----- rows taken -----

  /** A claim wins exactly for an idle worker that read a queued row with a budget, the stored
      row being queued still in the same version; the row is then its, and nothing else about
      it changed. */
  lemma ClaimEffect(s: Sys, w: nat, read: Task, owner: string, leaseUntil: int, now: int)
    requires Reached(s) && read in s.book.rows && WorkerOf(s, w) == Idle
    ensures var e := Event.Claim(w, read, owner, leaseUntil, now);
            var wins := && read.budget >= 0 && read.id in s.db.tasks
                        && s.db.tasks[read.id].version == read.version && s.db.tasks[read.id].status == Queued;
            && (Step(s, e).db != s.db <==> wins)
            && WorkerOf(Step(s, e), w) == (if wins then Won(read.id) else Idle)
            && (wins ==>
                  && Step(s, e).db.tasks == s.db.tasks[read.id := s.db.tasks[read.id].(
                       status := Running, version := read.version + 1, leaseOwner := owner, leaseExpires := leaseUntil, updatedAt := now)]
                  && Step(s, e).db.approvals == s.db.approvals && Step(s, e).db.audit == s.db.audit)
  {
    var e := Event.Claim(w, read, owner, leaseUntil, now);
    ReachedIds(s);
    CommitStores(s, e);
    hide Reached, TallyOf;
  }

  /** A renewal moves the lease of the running row of its owner, and nothing else. */
  lemma RenewEffect(s: Sys, id: Id, owner: string, leaseUntil: int, now: int)
    requires Reached(s)
    ensures var e := Event.RenewLease(id, owner, leaseUntil, now);
            Step(s, e).db.tasks ==
              if id in s.db.tasks && s.db.tasks[id].status == Running && s.db.tasks[id].leaseOwner == owner
              then s.db.tasks[id := s.db.tasks[id].(leaseExpires := leaseUntil, updatedAt := now)] else s.db.tasks
  {
    ReachedIds(s);
    CommitStores(s, Event.RenewLease(id, owner, leaseUntil, now));
    hide Reached, TallyOf;
  }

  // ----- the gate -----

  /** A worker passes the check before a write exactly when the approval of the row it holds is
      consumed, covers tenant, tool and arguments under the policy of now, has not expired,
      and live authorization agrees. */
  lemma CheckEffect(s: Sys, w: nat, authorized: bool, policy: string, now: int)
    requires WorkerOf(s, w).Holding?
    ensures var row, s' := WorkerOf(s, w).row, Step(s, Check(w, authorized, policy, now));
            && s'.db == s.db
            && (WorkerOf(s', w) == Cleared(row) || WorkerOf(s', w) == Holding(row))
            && (WorkerOf(s', w).Cleared? <==>
                  && row.kind == Write && authorized && row.approvalId != 0 && row.approvalId in s.db.approvals
                  && var a := s.db.approvals[row.approvalId];
                     a.consumed && a.expiresAt >= now && a.policyVersion == policy
                     && a.tenant == row.tenant && a.tool == row.tool && a.argsHash == row.argsHash)
  {
  }

  /** An operator's approval takes effect exactly when the operator is named and not the owner,
      the approval is open and has not expired, arguments and policy are those it was made for,
      and its task waits.  It is then consumed in the operator's name and the task queued. */
  lemma ApproveEffect(s: Sys, a: Id, picked: Id, operator: string, args: string, policy: string, now: int)
    requires Reached(s)
    ensures var e := Event.Approve(a, picked, operator, args, policy, now);
            var s' := Step(s, e);
            var lands :=
              && !IsBlank(operator) && a in s.db.approvals && picked in s.db.tasks
              && !s.db.approvals[a].consumed && s.db.approvals[a].expiresAt >= now
              && s.db.approvals[a].argsHash == ArgsHash(args) && s.db.approvals[a].policyVersion == policy
              && s.db.tasks[picked].approvalId == a && s.db.tasks[picked].status == Waiting && s.db.tasks[picked].owner != operator;
            && (s'.db != s.db <==> lands)
            && (lands ==>
                  && s'.db.tasks == s.db.tasks[picked := s.db.tasks[picked].(status := Queued, updatedAt := now)]
                  && a in s'.db.approvals && s'.db.approvals.Keys == s.db.approvals.Keys
                  && s'.db.approvals[a] == s.db.approvals[a].(consumed := true, consumedBy := operator, operator := operator)
                  && (forall b :: b in s.db.approvals && b != a ==> s'.db.approvals[b] == s.db.approvals[b]))
  {
    ReachedIds(s);
    CommitStores(s, Event.Approve(a, picked, operator, args, policy, now));
    hide Reached, TallyOf, ArgsHash, IsBlank;
  }

  // ----- the money -----

  /** A granted intent either finds the reservation already made, and the row stays, or moves
      the amount from the budget, which covers it, and puts a fresh nonce in the row. */
  lemma IntentEffect(s: Sys, e: Event)
    requires Reached(s) && Grants(s, e)
    ensures e.read.id in s.db.tasks && e.read.id in Step(s, e).db.tasks
    ensures var t, t' := s.db.tasks[e.read.id], Step(s, e).db.tasks[e.read.id];
            && t.status == Running && t.kind == Write
            && (if e.reserve > 0 && t.reserved > 0 then t' == t
                else
                  && e.reserve >= 0 && (e.reserve > 0 ==> t.budget >= e.reserve)
                  && t' == t.(budget := t.budget - e.reserve, reserved := t.reserved + e.reserve, nonce := t'.nonce,
                              version := t.version + 1, leaseExpires := e.read.leaseExpires, updatedAt := e.now)
                  && 0 < s.db.next <= t'.nonce < Step(s, e).db.next)
            && WorkerOf(Step(s, e), e.worker) == Licensed(e.read.id, t.approvalId)
  {
    ReachedHistory(s);
    GrantedIs(s, e);
    hide Reached, Step, TxnOf, IntentTxn, Grants, IntentAnswersAsIs, History, Ids, Matches, TallyOf;
    CommitStores(s, e);
    MatchesStored(s, e.read, {Running});
    ReadIsCurrent(s, e.read);
    NextPositive(s);
  }

  lemma ReachedHistory(s: Sys)
    requires Reached(s)
    ensures Ids(s) && History(s)
  {
    ReachedInv(s);
  }

  lemma NextPositive(s: Sys)
    requires Ids(s)
    ensures s.db.next > 0
  {
  }

  lemma MatchesStored(s: Sys, read: Task, allowed: set<Status>)
    requires Matches(s, read, allowed)
    ensures read.id in s.db.tasks && s.db.tasks[read.id].status in allowed
  {
  }

  lemma GrantedIs(s: Sys, e: Event)
    requires Ids(s) && History(s) && Grants(s, e)
    ensures TxnOf(s, e) == Some(IntentTxn(s, e.read, e.reserve, e.now)) && Matches(s, e.read, {Running})
    ensures var t, t' := e.read, IntentTxn(s, e.read, e.reserve, e.now).row;
            && t.kind == Write && t.status == Running
            && (if e.reserve > 0 && t.reserved > 0 then t' == t == s.db.tasks[t.id]
                else
                  && e.reserve >= 0 && (e.reserve > 0 ==> t.budget >= e.reserve)
                  && t' == t.(budget := t.budget - e.reserve, reserved := t.reserved + e.reserve, nonce := s.db.next,
                              version := t.version + 1, updatedAt := e.now)
                  && Step(s, e).db.next == s.db.next + 1)
    ensures WorkerOf(Step(s, e), e.worker) == Licensed(e.read.id, e.read.approvalId)
  {
    hide TallyOf;
  }

  // ----- reconciliation -----

  /** Only a task of unknown result is confirmed, by a named actor and for a usage that is not
      negative.  It succeeds with the result found; the reservation is given back and the
      usage charged; the nonce stays, so the write is not licensed again. */
  lemma ConfirmEffect(s: Sys, id: Id, actor: string, result: string, usage: int, now: int)
    requires Reached(s)
    ensures var s' := Step(s, Confirm(id, actor, result, usage, now));
            var acts := !IsBlank(actor) && usage >= 0 && id in s.db.tasks && s.db.tasks[id].status == Unknown;
            && (s'.db != s.db <==> acts)
            && (acts ==>
                  var t := s.db.tasks[id];
                  && s'.db.tasks == s.db.tasks[id := t.(status := Succeeded, result := result, budget := t.budget + t.reserved - usage, reserved := 0,
                                                        attempts := t.attempts + 1, version := t.version + 1, updatedAt := now)]
                  && s'.db.approvals == s.db.approvals
                  && s'.db.audit == s.db.audit + [Audit(id, t.tenant, actor, ConfirmAction, Succeeded, t.approvalId, usage, now)])
  {
    ReachedIds(s);
    hide Reached, TallyOf, IsBlank;
    CommitStores(s, Confirm(id, actor, result, usage, now));
  }

  /** Only a task of unknown result is requeued, by a named actor.  Its reservation is given
      back and its nonce cleared; a write waits for a new approval, open and made for its
      tenant, tool and arguments under the policy of now. */
  lemma RequeueEffect(s: Sys, id: Id, actor: string, policy: string, now: int)
    requires Reached(s)
    ensures var s' := Step(s, Requeue(id, actor, policy, now));
            var acts := !IsBlank(actor) && id in s.db.tasks && s.db.tasks[id].status == Unknown;
            && (s'.db != s.db <==> acts)
            && (acts ==>
                  id in s'.db.tasks &&
                  var t, t' := s.db.tasks[id], s'.db.tasks[id];
                  && s'.db.tasks == s.db.tasks[id := t.(
                       status := if t.kind == Write then Waiting else Queued, approvalId := t'.approvalId,
                       budget := t.budget + t.reserved, reserved := 0, nonce := 0, result := "", errorText := "",
                       version := t.version + 1, updatedAt := now)]
                  && (if t.kind == Write then OpensApproval(s, s', t', policy, now)
                      else t'.approvalId == t.approvalId && s'.db.approvals == s.db.approvals)
                  && s'.db.audit == s.db.audit + [Audit(id, t.tenant, actor, RequeueAction, t'.status, t'.approvalId, 0, now)])
  {
    ReachedIds(s);
    hide Reached, TallyOf, IsBlank;
    CommitStores(s, Requeue(id, actor, policy, now));
  }

  /** A new approval for the task, good for an hour and consumed by nobody. */
  predicate OpensApproval(s: Sys, s': Sys, t: Task, policy: string, now: int) {
    && t.approvalId !in s.db.approvals && t.approvalId in s'.db.approvals
    && s'.db.approvals == s.db.approvals[t.approvalId := s'.db.approvals[t.approvalId]]
    && var a := s'.db.approvals[t.approvalId];
       && !a.consumed && a.tenant == t.tenant && a.tool == t.tool && a.argsHash == t.argsHash
       && a.policyVersion == policy && a.expiresAt == now + 3600 && a.createdAt == now
  }

  // ----- submission -----

  /** A task is submitted exactly when tenant and key are given and the key is not taken.  It
      has a new id and the digest of its arguments; a write waits for a new approval, a read
      is queued; nothing that was stored changes. */
  lemma SubmitEffect(s: Sys, template: Task, policy: string, now: int)
    requires Reached(s)
    ensures var s' := Step(s, Event.Submit(template, policy, now));
            var acts := !IsBlank(template.tenant) && !IsBlank(template.key)
                        && forall id :: id in s.db.tasks ==> s.db.tasks[id].tenant != template.tenant || s.db.tasks[id].key != template.key;
            && (s'.db != s.db <==> acts)
            && (acts ==>
                  var id := s.db.next;
                  && id !in s.db.tasks && id in s'.db.tasks && s'.db.tasks == s.db.tasks[id := s'.db.tasks[id]]
                  && var t := s'.db.tasks[id];
                     && t == template.(id := id, argsHash := ArgsHash(template.args), policyVersion := policy, maxAttempts := t.maxAttempts,
                                       status := t.status, approvalId := t.approvalId, createdAt := now, updatedAt := now)
                     && t.maxAttempts == (if template.maxAttempts > 0 then template.maxAttempts else 3)
                     && (if t.kind == Write then t.status == Waiting && OpensApproval(s, s', t, policy, now)
                         else t.status == Queued && t.approvalId == template.approvalId && s'.db.approvals == s.db.approvals))
  {
    ReachedIds(s);
    hide Reached, TallyOf, IsBlank, ArgsHash;
    CommitStores(s, Event.Submit(template, policy, now));
  }

  // ----- argument digests -----

  /** Neither end is a space. */
  predicate Trimmed(s: string) {
    s != "" ==> !IsSpace(s[0]) && !IsSpace(s[|s| - 1])
  }

  lemma {:induction false} TrimLeftIs(s: string)
    ensures exists l :: IsBlank(l) && s == l + TrimLeft(s)
    ensures TrimLeft(s) != "" ==> !IsSpace(TrimLeft(s)[0])
  {
    if s != [] && IsSpace(s[0]) {
      TrimLeftIs(s[1..]);
      var l :| IsBlank(l) && s[1..] == l + TrimLeft(s[1..]);
      assert IsBlank([s[0]] + l) && s == ([s[0]] + l) + TrimLeft(s);
    } else {
      assert IsBlank("") && s == "" + TrimLeft(s);
    }
  }

  lemma {:induction false} TrimRightIs(s: string)
    ensures exists r :: IsBlank(r) && s == TrimRight(s) + r
    ensures TrimRight(s) <= s && (TrimRight(s) != "" ==> !IsSpace(TrimRight(s)[|TrimRight(s)| - 1]))
  {
    if s != [] && IsSpace(s[|s| - 1]) {
      var front := s[..|s| - 1];
      TrimRightIs(front);
      var r :| IsBlank(r) && front == TrimRight(front) + r;
      assert IsBlank(r + [s[|s| - 1]]) && s == TrimRight(s) + (r + [s[|s| - 1]]);
    } else {
      assert IsBlank("") && s == TrimRight(s) + "";
    }
  }

  predicate Pads(l: string, core: string, r: string, args: string) {
    IsBlank(l) && IsBlank(r) && args == l + core + r
  }

  /** The digest stands for the arguments without the spaces around them. */
  lemma DigestIs(args: string)
    ensures Trimmed(ArgsHash(args)) && exists l, r :: Pads(l, ArgsHash(args), r, args)
  {
    TrimLeftIs(args);
    var l :| IsBlank(l) && args == l + TrimLeft(args);
    TrimRightIs(TrimLeft(args));
    var r :| IsBlank(r) && TrimLeft(args) == ArgsHash(args) + r;
    assert args == l + (ArgsHash(args) + r) == l + ArgsHash(args) + r;
    assert Pads(l, ArgsHash(args), r, args);
  }

  /** Two texts have one digest exactly when they differ in the spaces around them only. */
  lemma DigestIff(a: string, b: string)
    ensures ArgsHash(a) == ArgsHash(b) <==>
              exists core, l, r, l', r' :: Trimmed(core) && Pads(l, core, r, a) && Pads(l', core, r', b)
  {
    DigestIs(a);
    DigestIs(b);
    forall core, l, r | Trimmed(core) && Pads(l, core, r, a) ensures ArgsHash(a) == core { DigestUnique(l, core, r); }
    forall core, l, r | Trimmed(core) && Pads(l, core, r, b) ensures ArgsHash(b) == core { DigestUnique(l, core, r); }
  }

  lemma {:induction false} DigestUnique(l: string, core: string, r: string)
    requires IsBlank(l) && IsBlank(r) && Trimmed(core)
    ensures ArgsHash(l + core + r) == core
    decreases |l| + |r|
  {
    if l != "" {
      assert (l + core + r)[1..] == l[1..] + core + r;
      DigestUnique(l[1..], core, r);
    } else if core == "" {
      assert l + core + r == r;
      if r != "" {
        assert r[1..] == r[1..] + core + "";
        DigestUnique(r[1..], core, "");
      }
    } else {
      assert l + core + r == core + r;
      RightTrims(core, r);
    }
  }

  lemma {:induction false} RightTrims(core: string, r: string)
    requires IsBlank(r) && (core != "" ==> !IsSpace(core[|core| - 1]))
    ensures TrimRight(core + r) == core
    decreases |r|
  {
    if r == "" {
      assert core + r == core;
    } else {
      assert (core + r)[..|core + r| - 1] == core + r[..|r| - 1];
      RightTrims(core, r[..|r| - 1]);
    }
  }
}
