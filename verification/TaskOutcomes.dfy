/** What the operations leave in the rows they write, said column by column for their callers,
    and what follows over whole runs: how often a task is tried, and when it never is again. */
module TaskOutcomes {
  import opened Wrappers
  import opened TaskModel
  import opened TaskInvariant
  import opened TaskTheorems
  import opened TaskEffects

  /** The failure is known, nothing can have happened, and attempts are left. */
  predicate MayRetry(t: Task, o: Outcome) {
    o.failure.OtherFailure? && o.retryable && !MayHaveRun(t) && t.attempts + 1 < t.maxAttempts
  }

  // ----- settlement -----

  /** How a settlement leaves the row: requeued exactly for a retryable failure of known
      result without a recorded intent and with attempts left; unknown exactly when the
      result is, or an intent is on record; succeeded with the result exactly without a
      failure; failed otherwise.  Unknown leaves the money as it is; otherwise the reservation
      is given back and the usage charged. */
  predicate SettledTo(t: Task, t': Task, o: Outcome, now: int) {
    && (t'.status == Queued <==> MayRetry(t, o))
    && (t'.status == Succeeded <==> o.failure.NoFailure?)
    && (t'.status == Unknown <==> o.failure.UnknownResult? || (o.failure.OtherFailure? && MayHaveRun(t)))
    && (t'.status == Failed <==> o.failure.OtherFailure? && !MayHaveRun(t) && !MayRetry(t, o))
    && t'.result == (if o.failure.NoFailure? then o.result else t.result)
    && (t'.status in {Queued, Failed} ==> t'.errorText == o.failure.text)
    && (t'.status == Unknown ==> t'.errorText == UNKNOWN_TEXT && t'.budget == t.budget && t'.reserved == t.reserved)
    && (t'.status != Unknown ==>
          t'.budget + t'.reserved == t.budget + t.reserved - o.usage && t'.reserved <= 0 && (t.reserved <= 0 ==> t'.reserved == t.reserved))
    && (t'.status == Queued ==> t'.leaseOwner == "" && t'.leaseExpires == 0)
    && t'.attempts == t.attempts + 1 && t'.version == t.version + 1 && t'.updatedAt == now
    && t'.nonce == t.nonce && t'.approvalId == t.approvalId && t'.maxAttempts == t.maxAttempts && SameWork(t, t')
    && t'.args == t.args && t'.policyVersion == t.policyVersion && t'.expiresAt == t.expiresAt && t'.createdAt == t.createdAt
  }

  lemma SettledRow(t: Task, o: Outcome, now: int)
    ensures SettledTo(t, CompletedRow(t, o, now), o, now)
  {
  }

  /** A committed settlement leaves the stored row so, whatever happened between the read and
      the write, and no other row changes. */
  lemma CompleteOutcome(s: Sys, read: Task, o: Outcome, now: int)
    requires Reached(s) && CompleteCommits(s, read, o)
    ensures var s' := Step(s, Complete(read, o, now));
            && read.id in s.db.tasks && read.id in s'.db.tasks && s'.db.tasks == s.db.tasks[read.id := s'.db.tasks[read.id]]
            && SettledTo(s.db.tasks[read.id], s'.db.tasks[read.id], o, now)
  {
    hide Step, Reached, CompletedRow, SettledTo;
    CompleteSeesTheStoredRow(s, read, o, now);
    var t := s.db.tasks[read.id].(leaseExpires := read.leaseExpires);
    SettledRow(t, o, now);
    LeaseApart(s.db.tasks[read.id], read.leaseExpires, CompletedRow(t, o, now), o, now);
  }

  /** The lease before a settlement does not matter. */
  lemma LeaseApart(t: Task, lease: int, t': Task, o: Outcome, now: int)
    ensures SettledTo(t.(leaseExpires := lease), t', o, now) <==> SettledTo(t, t', o, now)
  {
  }

  /** A known failure that is not retried is final: nothing writes the row again, and no
      claim wins it, in any continuation. */
  lemma FailedForGood(s: Sys, read: Task, o: Outcome, now: int, events: seq<Event>, w: nat, read': Task)
    requires Reached(s) && CompleteCommits(s, read, o) && read'.id == read.id
    requires o.failure.OtherFailure? && !MayHaveRun(s.db.tasks[read.id]) && !MayRetry(s.db.tasks[read.id], o)
    ensures var s1 := Step(s, Complete(read, o, now));
            && read.id in s1.db.tasks && s1.db.tasks[read.id].status == Failed
            && read.id in Run(s1, events).db.tasks && Run(s1, events).db.tasks[read.id] == s1.db.tasks[read.id]
            && !ClaimWins(Run(s1, events), w, read')
  {
    hide Step, Reached;
    CompleteOutcome(s, read, o, now);
    ReachedStep(s, Complete(read, o, now));
    FinalStays(Step(s, Complete(read, o, now)), events, read.id);
  }

  /** What a success reported stays in the row for good. */
  lemma ResultKept(s: Sys, read: Task, o: Outcome, now: int, events: seq<Event>)
    requires Reached(s) && CompleteCommits(s, read, o) && o.failure.NoFailure?
    ensures var s' := Run(Step(s, Complete(read, o, now)), events);
            read.id in s'.db.tasks && s'.db.tasks[read.id].status == Succeeded && s'.db.tasks[read.id].result == o.result
  {
    hide Step, Reached;
    CompleteOutcome(s, read, o, now);
    ReachedStep(s, Complete(read, o, now));
    FinalStays(Step(s, Complete(read, o, now)), events, read.id);
  }

  // ----- how often a task is tried -----

  predicate Settles(s: Sys, e: Event, id: Id) {
    e.Complete? && e.read.id == id && CompleteCommits(s, e.read, e.outcome)
  }

  /** The settlements through Complete in a run. */
  function Settlements(s: Sys, events: seq<Event>, id: Id): nat
    decreases |events|
  {
    if events == [] then 0
    else (if Settles(s, events[0], id) then 1 else 0) + Settlements(Step(s, events[0]), events[1..], id)
  }

  function Larger(a: int, b: int): int {
    if a < b then b else a
  }

  /** The settlements a row still admits. */
  function TriesLeft(t: Task): int {
    if IsActive(t.status) then Larger(1, t.maxAttempts - t.attempts) else 0
  }

  predicate Reconciles(e: Event, id: Id) {
    (e.Confirm? || e.Requeue?) && e.task == id
  }

  lemma BulkTries(e: Event, t: Task)
    requires IsBulk(e)
    ensures TriesLeft(UpdateOf(e)(t)) <= TriesLeft(t)
    ensures MayHaveRun(t) && t.status in {Running, Unknown, Succeeded} ==>
              MayHaveRun(UpdateOf(e)(t)) && UpdateOf(e)(t).status in {Running, Unknown, Succeeded}
  {
  }

  lemma CompleteTries(s: Sys, read: Task, o: Outcome, now: int)
    requires History(s) && CompleteCommits(s, read, o)
    ensures TriesLeft(CompletedRow(read, o, now)) + 1 <= TriesLeft(s.db.tasks[read.id])
    ensures MayHaveRun(s.db.tasks[read.id]) ==>
              MayHaveRun(CompletedRow(read, o, now)) && CompletedRow(read, o, now).status in {Unknown, Succeeded}
  {
    hide CompletedRow;
    ReadIsCurrent(s, read);
    SettledRow(read, o, now);
  }

  lemma CancelTries(s: Sys, read: Task, now: int)
    requires History(s) && CancelCommits(s, read)
    ensures TriesLeft(CanceledRow(read, now)) == 0 <= TriesLeft(s.db.tasks[read.id])
    ensures MayHaveRun(s.db.tasks[read.id]) && s.db.tasks[read.id].status in {Running, Unknown, Succeeded} ==>
              MayHaveRun(CanceledRow(read, now)) && CanceledRow(read, now).status == Unknown
  {
    CancelIgnoresApproval(s, read, now);
  }

  lemma IntentTries(s: Sys, e: Event)
    requires Ids(s) && History(s) && Grants(s, e)
    ensures var t' := IntentTxn(s, e.read, e.reserve, e.now).row;
            && TriesLeft(t') <= TriesLeft(s.db.tasks[e.read.id])
            && (MayHaveRun(s.db.tasks[e.read.id]) ==> MayHaveRun(t') && t'.status == Running)
  {
    hide TallyOf, ApprovalCovers;
    ReadIsCurrent(s, e.read);
  }

  lemma TxnTries(s: Sys, e: Event, id: Id)
    requires Ids(s) && History(s) && id in s.db.tasks && !Reconciles(e, id)
    requires TxnOf(s, e).Some? && TxnOf(s, e).value.row.id == id
    ensures TriesLeft(TxnOf(s, e).value.row) + (if Settles(s, e, id) then 1 else 0) <= TriesLeft(s.db.tasks[id])
    ensures MayHaveRun(s.db.tasks[id]) && s.db.tasks[id].status in {Running, Unknown, Succeeded} ==>
              MayHaveRun(TxnOf(s, e).value.row) && TxnOf(s, e).value.row.status in {Running, Unknown, Succeeded}
  {
    hide Ids, History, CompletedRow, CanceledRow, IntentTxn, TallyOf, SameWork, TriesLeft, MayHaveRun, CompleteCommits, CancelCommits, Grants;
    match e
    case Complete(read, o, now) => RowIds(read, o, now); CompleteTries(s, read, o, now);
    case Cancel(read, now) => CanceledId(read, now); CancelTries(s, read, now);
    case Intent(_, read, reserve, now) => IntentId(s, read, reserve, now); IntentTries(s, e);
    case _ => PlainTries(s, e, id);
  }

  lemma PlainTries(s: Sys, e: Event, id: Id)
    requires Ids(s) && id in s.db.tasks && !Reconciles(e, id) && !e.Complete? && !e.Cancel? && !e.Intent?
    requires TxnOf(s, e).Some? && TxnOf(s, e).value.row.id == id
    ensures TriesLeft(TxnOf(s, e).value.row) <= TriesLeft(s.db.tasks[id])
    ensures MayHaveRun(s.db.tasks[id]) && s.db.tasks[id].status in {Running, Unknown, Succeeded} ==>
              MayHaveRun(TxnOf(s, e).value.row) && TxnOf(s, e).value.row.status in {Running, Unknown, Succeeded}
  {
    hide TallyOf, ArgsHash, IsBlank, KeyTaken;
  }

  lemma RowIds(t: Task, o: Outcome, now: int)
    ensures CompletedRow(t, o, now).id == t.id
  {
  }

  lemma CanceledId(t: Task, now: int)
    ensures CanceledRow(t, now).id == t.id
  {
  }

  lemma IntentId(s: Sys, read: Task, reserve: int, now: int)
    ensures IntentTxn(s, read, reserve, now).row.id == read.id
  {
  }

  lemma TriesStep(s: Sys, e: Event, id: Id)
    requires Ids(s) && History(s) && id in s.db.tasks && !Reconciles(e, id)
    ensures id in Step(s, e).db.tasks
    ensures TriesLeft(Step(s, e).db.tasks[id]) + (if Settles(s, e, id) then 1 else 0) <= TriesLeft(s.db.tasks[id])
    ensures MayHaveRun(s.db.tasks[id]) && s.db.tasks[id].status in {Running, Unknown, Succeeded} ==>
              MayHaveRun(Step(s, e).db.tasks[id]) && Step(s, e).db.tasks[id].status in {Running, Unknown, Succeeded}
  {
    hide Ids, History, Step, CommitStep, TriesLeft, MayHaveRun, UpdateOf, CompleteCommits;
    if IsLocal(e) {
      LocalStores(s, e);
    } else if IsBulk(e) {
      BulkStores(s, e);
      BulkTries(e, s.db.tasks[id]);
    } else {
      StepCommits(s, e);
      CommitTries(s, e, id);
    }
  }

  lemma StepCommits(s: Sys, e: Event)
    requires !IsLocal(e) && !IsBulk(e)
    ensures Step(s, e) == CommitStep(s, e)
  {
    hide CommitStep;
  }

  lemma CommitTries(s: Sys, e: Event, id: Id)
    requires Ids(s) && History(s) && id in s.db.tasks && !Reconciles(e, id)
    ensures id in CommitStep(s, e).db.tasks
    ensures TriesLeft(CommitStep(s, e).db.tasks[id]) + (if Settles(s, e, id) then 1 else 0) <= TriesLeft(s.db.tasks[id])
    ensures MayHaveRun(s.db.tasks[id]) && s.db.tasks[id].status in {Running, Unknown, Succeeded} ==>
              MayHaveRun(CommitStep(s, e).db.tasks[id]) && CommitStep(s, e).db.tasks[id].status in {Running, Unknown, Succeeded}
  {
    hide Ids, History, TxnOf, TriesLeft, MayHaveRun, CompleteCommits;
    if TxnOf(s, e).Some? && TxnOf(s, e).value.row.id == id {
      TxnTries(s, e, id);
    } else {
      SettlesCommits(s, e, id);
    }
  }

  lemma SettlesCommits(s: Sys, e: Event, id: Id)
    ensures Settles(s, e, id) ==> TxnOf(s, e).Some? && TxnOf(s, e).value.row.id == id
  {
  }

  /** Without a reconciliation of it, a task settles through Complete no more often than its
      attempts allow, and at least one try is always allowed; once it has ended, never. */
  lemma {:induction false} SettlementsBounded(s: Sys, events: seq<Event>, id: Id)
    requires Reached(s) && id in s.db.tasks && forall i :: 0 <= i < |events| ==> !Reconciles(events[i], id)
    ensures var t := s.db.tasks[id];
            Settlements(s, events, id) <= if IsActive(t.status) then Larger(1, t.maxAttempts - t.attempts) else 0
    decreases |events|
  {
    hide Step, Reached, Settles, Ids, History;
    if events != [] {
      ReachedHistory(s);
      TriesStep(s, events[0], id);
      ReachedStep(s, events[0]);
      SettlementsBounded(Step(s, events[0]), events[1..], id);
    }
  }

  /** Once an intent is on record, a write is never queued again, retried, or marked failed,
      until an operator requeues it: it runs, is unknown, or has succeeded. */
  lemma {:induction false} IntentNeverRetried(s: Sys, events: seq<Event>, id: Id)
    requires Reached(s) && id in s.db.tasks && forall i :: 0 <= i < |events| ==> !(events[i].Requeue? && events[i].task == id)
    requires MayHaveRun(s.db.tasks[id]) && s.db.tasks[id].status in {Running, Unknown, Succeeded}
    ensures id in Run(s, events).db.tasks && MayHaveRun(Run(s, events).db.tasks[id])
    ensures Run(s, events).db.tasks[id].status in {Running, Unknown, Succeeded}
    decreases |events|
  {
    hide Step, Reached, MayHaveRun, Ids, History;
    if events != [] {
      ReachedHistory(s);
      if Reconciles(events[0], id) {
        ConfirmKeepsIntent(s, events[0]);
      } else {
        TriesStep(s, events[0], id);
      }
      ReachedStep(s, events[0]);
      IntentNeverRetried(Step(s, events[0]), events[1..], id);
    }
  }

  lemma ConfirmKeepsIntent(s: Sys, e: Event)
    requires Reached(s) && e.Confirm? && e.task in s.db.tasks && MayHaveRun(s.db.tasks[e.task])
    requires s.db.tasks[e.task].status in {Running, Unknown, Succeeded}
    ensures e.task in Step(s, e).db.tasks && MayHaveRun(Step(s, e).db.tasks[e.task])
    ensures Step(s, e).db.tasks[e.task].status in {Running, Unknown, Succeeded}
  {
    hide Step, Reached;
    ConfirmEffect(s, e.task, e.actor, e.result, e.usage, e.now);
  }
}
