/** What the task store promises, over every run from the empty store: fencing, budget
    conservation, and how often a write executes.  The last promise depends on a check
    that RunOnce does not make; its exact condition is proved here, and a run that breaks
    it is in TaskCounterexamples. */
module TaskTheorems {
  import opened Wrappers
  import opened TaskModel
  import opened TaskInvariant

  /** The states that runs from the empty store can reach. */
  ghost predicate Reached(s: Sys) {
    exists events :: Run(EMPTY, events) == s
  }

  lemma ReachedInv(s: Sys)
    requires Reached(s)
    ensures Inv(s)
  {
    var events :| Run(EMPTY, events) == s;
    EmptyInv();
    InvRun(EMPTY, events);
  }

  lemma {:induction false} RunAppend(s: Sys, a: seq<Event>, b: seq<Event>)
    ensures Run(s, a + b) == Run(Run(s, a), b)
    decreases |a|
  {
    hide Step;
    if a == [] {
      assert a + b == b;
    } else {
      assert (a + b)[1..] == a[1..] + b;
      RunAppend(Step(s, a[0]), a[1..], b);
    }
  }

  lemma EmptyReached()
    ensures Reached(EMPTY)
  {
    assert Run(EMPTY, []) == EMPTY;
  }

  lemma ReachedStep(s: Sys, e: Event)
    requires Reached(s)
    ensures Reached(Step(s, e))
  {
    hide Step;
    var events :| Run(EMPTY, events) == s;
    RunAppend(EMPTY, events, [e]);
    assert Run(s, [e]) == Run(Step(s, e), []) == Step(s, e);
  }

  lemma {:induction false} ReachedRun(s: Sys, events: seq<Event>)
    requires Reached(s)
    ensures Reached(Run(s, events))
    decreases |events|
  {
    hide Step, Reached;
    if events != [] {
      ReachedStep(s, events[0]);
      ReachedRun(Step(s, events[0]), events[1..]);
    }
  }

  // ----- fencing -----

  /** A step that stores no row. */
  lemma SameRowsMove(s: Sys, s': Sys)
    requires Ids(s) && History(s) && s'.db.tasks == s.db.tasks && s'.book.rows == s.book.rows
    ensures RowsMove(s, s')
  {
  }

  lemma RowsMoveTo(s: Sys, s1: Sys, s2: Sys)
    requires RowsMove(s, s1) && s2.db.tasks == s1.db.tasks && s2.book.rows == s1.book.rows
    ensures RowsMove(s, s2)
  {
  }

  predicate IsLocal(e: Event) {
    e.ReadBack? || e.Check? || e.Execute? || e.Drop?
  }

  /** Local steps of workers touch no table. */
  lemma LocalStores(s: Sys, e: Event)
    requires IsLocal(e)
    ensures Step(s, e).db == s.db && Step(s, e).book.rows == s.book.rows && Step(s, e).book.uses == s.book.uses
    ensures forall id :: TallyOf(Step(s, e), id).initial == TallyOf(s, id).initial
  {
    hide CommitStep, Bulk, UpdateOf, ApprovalCovers;
  }

  lemma StepMoves(s: Sys, e: Event)
    requires Inv(s)
    ensures RowsMove(s, Step(s, e))
  {
    assert Ids(s) && History(s);
    hide Inv, Ids, History, RowsMove, CommitStep, UpdateOf, Bulk, ReadBackStep, CheckStep, ExecuteStep, SetWorker;
    if IsLocal(e) {
      LocalStores(s, e);
      SameRowsMove(s, Step(s, e));
    } else if IsBulk(e) {
      BulkStepMoves(s, e);
    } else {
      CommitStepMoves(s, e);
    }
  }

  lemma BulkStepMoves(s: Sys, e: Event)
    requires Ids(s) && History(s) && IsBulk(e)
    ensures RowsMove(s, Step(s, e))
  {
    hide Ids, History, SoundUpdate, Bulk, RowsMove, UpdateOf, CommitStep;
    UpdateSound(e);
    BulkMoves(s, UpdateOf(e));
  }

  lemma CommitStepMoves(s: Sys, e: Event)
    requires Inv(s)
    ensures RowsMove(s, CommitStep(s, e))
  {
    hide Ids, History, Epochs, RowsOk, Keys, Links, PastLinks, Approvals, Audits, Workers, ApprovalCounts, RunCounts;
    hide Commit, RowsMove;
    if TxnOf(s, e).Some? {
      TxnSound(s, e);
      CommitMoves(s, TxnOf(s, e).value);
      RowsMoveTo(s, Commit(s, TxnOf(s, e).value), CommitStep(s, e));
    } else {
      SameRowsMove(s, CommitStep(s, e));
    }
  }

  /** Versions and recorded rows survive any continuation. */
  lemma {:induction false} RowsPersist(s: Sys, events: seq<Event>)
    requires Inv(s)
    ensures s.book.rows <= Run(s, events).book.rows
    ensures forall id :: id in s.db.tasks ==>
              && id in Run(s, events).db.tasks
              && s.db.tasks[id].version <= Run(s, events).db.tasks[id].version
    decreases |events|
  {
    hide Step, Inv;
    if events != [] {
      StepMoves(s, events[0]);
      InvStep(s, events[0]);
      RowsPersist(Step(s, events[0]), events[1..]);
    }
  }

  /** A settlement or an intent that holds a version other than the stored one, or meets a
      row that is not running, changes nothing in the database. */
  lemma StaleWriteIsRefused(s: Sys, late: Event)
    requires late.Complete? || late.Intent?
    requires late.read.id in s.db.tasks
    requires s.db.tasks[late.read.id].version != late.read.version || s.db.tasks[late.read.id].status != Running
    ensures Step(s, late).db == s.db
  {
  }

  /** Once a row has left (version v, running), nothing that read version v or an older
      one changes the database any more, however many steps lie in between. */
  lemma Fenced(s: Sys, events: seq<Event>, claimed: Task, late: Event)
    requires Reached(s)
    requires claimed in s.book.rows && claimed.status == Running
    requires claimed.id in s.db.tasks ==>
               !(s.db.tasks[claimed.id].version == claimed.version && s.db.tasks[claimed.id].status == Running)
    requires late.Complete? || late.Intent?
    requires late.read.id == claimed.id && late.read.version <= claimed.version
    ensures Step(Run(s, events), late).db == Run(s, events).db
  {
    assert claimed.id in s.db.tasks && s.db.tasks[claimed.id].version > claimed.version by {
      assert History(s) by { ReachedInv(s); }
    }
    assert claimed.id in Run(s, events).db.tasks
           && Run(s, events).db.tasks[claimed.id].version > claimed.version by {
      ReachedInv(s);
      RowsPersist(s, events);
    }
    StaleWriteIsRefused(Run(s, events), late);
  }

  /** Workers racing for one queued row have one winner: after a claim won with a row it
      read, no claim holding the same version of it wins again. */
  lemma ClaimHasOneWinner(s: Sys, w: nat, read: Task, owner: string, until: int, now: int,
                          events: seq<Event>, w': nat, read': Task)
    requires Reached(s) && ClaimWins(s, w, read)
    requires read'.id == read.id && read'.version <= read.version
    ensures !ClaimWins(Run(Step(s, Claim(w, read, owner, until, now)), events), w', read')
  {
    var s1 := Step(s, Claim(w, read, owner, until, now));
    assert read.id in s1.db.tasks && s1.db.tasks[read.id].version == read.version + 1 by { ReachedIds(s); }
    assert Inv(s1) by { ReachedInv(s); InvStep(s, Claim(w, read, owner, until, now)); }
    hide Inv, Step;
    RowsPersist(s1, events);
  }

  /** A committed settlement equals Complete applied to the row as stored, up to the lease. */
  lemma CompleteSeesTheStoredRow(s: Sys, read: Task, o: Outcome, now: int)
    requires Reached(s) && CompleteCommits(s, read, o)
    ensures Step(s, Complete(read, o, now)).db.tasks
         == s.db.tasks[read.id := CompletedRow(s.db.tasks[read.id].(leaseExpires := read.leaseExpires), o, now)]
  {
    assert read == s.db.tasks[read.id].(leaseExpires := read.leaseExpires, updatedAt := read.updatedAt) by {
      ReachedInv(s);
      ReadIsCurrent(s, read);
    }
    assert CompletedRow(read, o, now) == CompletedRow(s.db.tasks[read.id].(leaseExpires := read.leaseExpires), o, now);
  }

  /** A committed cancellation equals Cancel applied to the row as stored, also when an
      approval, which keeps the version, fell between the read and the write. */
  lemma CancelSeesTheStoredRow(s: Sys, read: Task, now: int)
    requires Reached(s) && CancelCommits(s, read)
    ensures Step(s, Cancel(read, now)).db.tasks == s.db.tasks[read.id := CanceledRow(s.db.tasks[read.id], now)]
  {
    assert CanceledRow(read, now) == CanceledRow(s.db.tasks[read.id], now) by {
      ReachedInv(s);
      CancelIgnoresApproval(s, read, now);
    }
  }

  /** A recorded intent equals the operation applied to the row as stored, up to the lease. */
  lemma IntentSeesTheStoredRow(s: Sys, w: nat, read: Task, reserve: int, now: int)
    requires Reached(s) && Step(s, Intent(w, read, reserve, now)).db != s.db
    ensures read.id in s.db.tasks
    ensures Step(s, Intent(w, read, reserve, now)).db.tasks
         == s.db.tasks[read.id := IntendedRow(s.db.tasks[read.id].(leaseExpires := read.leaseExpires),
                                              reserve, s.db.next, now)]
  {
    assert IntentCommits(s, read, reserve) by {
      assert IntentAnswersAsIs(s, read, reserve) ==> s.db.tasks[read.id := read] == s.db.tasks;
    }
    assert read == s.db.tasks[read.id].(leaseExpires := read.leaseExpires, updatedAt := read.updatedAt) by {
      ReachedInv(s);
      ReadIsCurrent(s, read);
    }
  }

  /** RenewLease does not bump the version, so its effect is the one that can get lost:
      recording an intent keeps the stored lease exactly when no renewal changed it
      between the read and the write. */
  lemma RenewalSurvivesIff(s: Sys, w: nat, read: Task, reserve: int, now: int)
    requires Reached(s) && Step(s, Intent(w, read, reserve, now)).db != s.db
    ensures read.id in s.db.tasks && read.id in Step(s, Intent(w, read, reserve, now)).db.tasks
    ensures Step(s, Intent(w, read, reserve, now)).db.tasks[read.id].leaseExpires == s.db.tasks[read.id].leaseExpires
       <==> read.leaseExpires == s.db.tasks[read.id].leaseExpires
  {
    hide Step, Reached;
    IntentSeesTheStoredRow(s, w, read, reserve, now);
  }

  /** Succeeded, failed, canceled and timed-out rows are never written again. */
  predicate IsFinal(s: Status) {
    s == Succeeded || s == Failed || s == Canceled || s == TimedOut
  }

  lemma FinalBulk(s: Sys, e: Event, id: Id)
    requires id in s.db.tasks && IsFinal(s.db.tasks[id].status) && IsBulk(e)
    ensures id in Step(s, e).db.tasks && Step(s, e).db.tasks[id] == s.db.tasks[id]
  {
    hide CommitStep;
  }

  lemma FinalStep(s: Sys, e: Event, id: Id)
    requires Ids(s) && id in s.db.tasks && IsFinal(s.db.tasks[id].status)
    ensures id in Step(s, e).db.tasks && Step(s, e).db.tasks[id] == s.db.tasks[id]
  {
    hide CommitStep, Bulk, Ids, ApprovalCovers, UpdateOf;
    match e
    case ReadBack(_) =>
    case Check(_, _, _, _) =>
    case Execute(_) =>
    case Drop(_) =>
    case _ => if IsBulk(e) { FinalBulk(s, e, id); } else { FinalCommit(s, e, id); }
  }

  lemma FinalCommit(s: Sys, e: Event, id: Id)
    requires Ids(s) && id in s.db.tasks && IsFinal(s.db.tasks[id].status)
    ensures id in CommitStep(s, e).db.tasks && CommitStep(s, e).db.tasks[id] == s.db.tasks[id]
  {
    if TxnOf(s, e).Some? {
      assert TxnOf(s, e).value.row.id != id by { FinalTxn(s, e, id); }
    }
  }

  lemma FinalTxn(s: Sys, e: Event, id: Id)
    requires Ids(s) && id in s.db.tasks && IsFinal(s.db.tasks[id].status) && TxnOf(s, e).Some?
    ensures TxnOf(s, e).value.row.id != id
  {
  }

  lemma {:induction false} FinalStays(s: Sys, events: seq<Event>, id: Id)
    requires Reached(s)
    requires id in s.db.tasks && IsFinal(s.db.tasks[id].status)
    ensures id in Run(s, events).db.tasks && Run(s, events).db.tasks[id] == s.db.tasks[id]
    decreases |events|
  {
    hide Step, Reached, Inv;
    if events != [] {
      ReachedStep(s, events[0]);
      assert id in Step(s, events[0]).db.tasks && Step(s, events[0]).db.tasks[id] == s.db.tasks[id] by {
        assert Ids(s) by { ReachedIds(s); }
        FinalStep(s, events[0], id);
      }
      FinalStays(Step(s, events[0]), events[1..], id);
    }
  }

  lemma ReachedIds(s: Sys)
    requires Reached(s)
    ensures Ids(s)
  {
    ReachedInv(s);
  }

  // ----- budgets and settlements -----

  /** Budget, reservation and settled usage always add up to what was submitted; for a
      write the settled usage is what its audit rows report outside unknown.  A settlement
      needs a claim of its own. */
  lemma Conservation(s: Sys, id: Id)
    requires Reached(s) && id in s.db.tasks
    ensures var t := s.db.tasks[id];
            && t.budget + t.reserved + TallyOf(s, id).settled == TallyOf(s, id).initial
            && (t.kind == Write ==>
                  t.budget + t.reserved + AuditUsage(s.db.audit, id) == TallyOf(s, id).initial)
            && TallyOf(s, id).settlements + (if t.status == Running then 1 else 0) <= TallyOf(s, id).claims
  {
    ReachedInv(s);
    assert RowOk(s.db.tasks[id], TallyOf(s, id));
  }

  /** The opening balance of a task is what Submit stored, and stays that. */
  lemma InitialIsSubmitted(s: Sys, template: Task, policy: string, now: int)
    requires SubmitEnabled(s, template)
    ensures TallyOf(Step(s, Submit(template, policy, now)), s.db.next).initial == template.budget + template.reserved
  {
  }

  lemma InitialStays(s: Sys, e: Event, id: Id)
    requires Reached(s) && id in s.db.tasks
    ensures TallyOf(Step(s, e), id).initial == TallyOf(s, id).initial
  {
    ReachedIds(s);
    InitialFrame(s, e, id);
  }

  lemma InitialFrame(s: Sys, e: Event, id: Id)
    requires Ids(s) && id in s.db.tasks
    ensures TallyOf(Step(s, e), id).initial == TallyOf(s, id).initial
  {
    hide Ids, CommitStep, UpdateOf, ReadBackStep, CheckStep, ExecuteStep, Bulk;
    if IsLocal(e) {
      LocalStores(s, e);
    } else if IsBulk(e) {
      BulkInitial(s, UpdateOf(e), id);
    } else {
      CommitStepInitial(s, e, id);
    }
  }

  lemma BulkInitial(s: Sys, update: Task -> Task, id: Id)
    ensures TallyOf(Bulk(s, update), id) == TallyOf(s, id)
  {
  }

  lemma CommitStepInitial(s: Sys, e: Event, id: Id)
    requires Ids(s) && id in s.db.tasks
    ensures TallyOf(CommitStep(s, e), id).initial == TallyOf(s, id).initial
  {
    hide TxnOf, Ids;
    if TxnOf(s, e).Some? && TxnOf(s, e).value.row.id == id { TxnInitial(s, e, id); }
  }

  lemma TxnInitial(s: Sys, e: Event, id: Id)
    requires Ids(s) && id in s.db.tasks && TxnOf(s, e).Some? && TxnOf(s, e).value.row.id == id
    ensures TxnOf(s, e).value.tally.initial == TallyOf(s, id).initial
  {
    hide ArgsHash, IsBlank, KeyTaken, UsesOf, CompletedStatus, FailureText, Intended;
  }

  /** Approval state of every reachable write. */
  lemma ReachableGate(s: Sys, id: Id)
    requires Reached(s) && id in s.db.tasks && s.db.tasks[id].kind == Write
    ensures var t := s.db.tasks[id];
            && t.approvalId in s.db.approvals
            && (t.status == Waiting ==> !s.db.approvals[t.approvalId].consumed)
            && (t.status in {Queued, Running, Succeeded, Failed, Unknown} ==> s.db.approvals[t.approvalId].consumed)
  {
    assert Links(s) by { ReachedInv(s); }
    assert Linked(s, s.db.tasks[id]);
  }

  /** Submitting one key twice keeps one task. */
  lemma NoDuplicate(s: Sys, i: Id, j: Id)
    requires Reached(s) && i in s.db.tasks && j in s.db.tasks && i != j
    ensures s.db.tasks[i].tenant != s.db.tasks[j].tenant || s.db.tasks[i].key != s.db.tasks[j].key
  {
    assert Keys(s) by { ReachedInv(s); }
  }

  /** No approval is left behind: an unconsumed one is the current approval of a write
      that waits for it or was called off. */
  lemma NoOrphanApproval(s: Sys, a: Id) returns (id: Id)
    requires Reached(s) && a in s.db.approvals && !s.db.approvals[a].consumed
    ensures id in s.db.tasks && s.db.tasks[id].kind == Write && s.db.tasks[id].approvalId == a
    ensures s.db.tasks[id].status in {Waiting, Canceled, TimedOut}
  {
    assert Owned(s, a) by { ReachedInv(s); }
    id := s.book.forTask[a];
    assert !PastGate(s.db.tasks[id].status);
    match s.db.tasks[id].status
    case Waiting =>
    case Canceled =>
    case TimedOut =>
    case _ =>
  }

  // ----- how often a write executes -----

  /** An intent call only succeeds under an approval, made for this very task, that an
      operator other than the owner has consumed for its tenant, tool and arguments. */
  lemma LicenceIsApproved(s: Sys, e: Event)
    requires Reached(s) && Grants(s, e)
    ensures e.read.approvalId in s.db.approvals && s.db.approvals[e.read.approvalId].consumed
    ensures e.read.approvalId in s.book.forTask && s.book.forTask[e.read.approvalId] == e.read.id
    ensures InScope(s.db.approvals[e.read.approvalId], e.read)
  {
    ReachedInv(s);
    assert e.read in s.book.rows;
    assert SameWork(e.read, s.db.tasks[e.read.id]);
    assert PastLinked(s, e.read);
    assert Owned(s, e.read.approvalId);
  }

  /** What RunOnce does not check: the row read back after the claim has no nonce yet. */
  predicate HoldsFreshRow(s: Sys, e: Event) {
    Grants(s, e) ==> WorkerOf(s, e.worker).row.nonce == 0
  }

  predicate Guarded(s: Sys, events: seq<Event>)
    decreases |events|
  {
    events == [] || (HoldsFreshRow(s, events[0]) && Guarded(Step(s, events[0]), events[1..]))
  }

  lemma HeldMatchesRead(s: Sys, e: Event)
    requires History(s) && Epochs(s) && Workers(s) && Grants(s, e)
    ensures WorkerOf(s, e.worker).row.nonce == e.read.nonce
  {
    var row := WorkerOf(s, e.worker).row;
    assert WorkerOk(s, WorkerOf(s, e.worker));
    assert row in s.book.rows && e.read in s.book.rows;
  }

  // ----- submissions without a nonce and without a reservation -----

  /** Submit copies both columns from its caller. */
  predicate FreshTemplate(t: Task) {
    t.nonce == 0 && t.reserved == 0
  }

  predicate Fresh(e: Event) {
    e.Submit? ==> FreshTemplate(e.template)
  }

  predicate AllFresh(events: seq<Event>) {
    forall i :: 0 <= i < |events| ==> Fresh(events[i])
  }

  /** Which columns may be set in which status. */
  predicate Shape(t: Task) {
    && t.reserved >= 0
    && (t.reserved > 0 ==> t.kind == Write && t.status in {Running, Unknown} && t.nonce != 0)
    && (t.status in {Queued, Waiting} ==> t.nonce == 0 && t.reserved == 0)
    && (t.status in {Canceled, Failed, TimedOut} ==> t.nonce == 0)
    && (t.kind == ReadOnly ==> t.nonce == 0 && t.status != Waiting)
  }

  /** Columns have their shape, and a write carries a nonce exactly when an intent call
      succeeded under its current approval. */
  predicate Proper(s: Sys, t: Task) {
    Shape(t) && (t.kind == Write ==> (t.nonce == 0 <==> UsesOf(s, t.approvalId) == 0))
  }

  predicate AllProper(s: Sys) {
    forall id :: id in s.db.tasks ==> Proper(s, s.db.tasks[id])
  }

  /** The row an operation has read is the stored one in all columns that matter here. */
  lemma ReadShape(s: Sys, read: Task)
    requires History(s) && AllProper(s) && Matches(s, read, {Running})
    ensures Shape(read) && read.status == Running
  {
    hide UsesOf;
    ReadIsCurrent(s, read);
    assert Proper(s, s.db.tasks[read.id]);
  }

  lemma CompletedShape(t: Task, o: Outcome, now: int)
    requires Shape(t) && t.status == Running
    ensures Shape(CompletedRow(t, o, now))
  {
  }

  lemma IntendedShape(s: Sys, read: Task, reserve: int, now: int)
    requires Ids(s) && Shape(read) && (IntentAnswersAsIs(s, read, reserve) || IntentCommits(s, read, reserve))
    ensures Shape(IntentTxn(s, read, reserve, now).row) && IntentTxn(s, read, reserve, now).row.nonce != 0
  {
    hide TallyOf, Matches;
  }

  lemma CanceledShape(s: Sys, read: Task, now: int)
    requires History(s) && AllProper(s) && CancelCommits(s, read)
    ensures Shape(CanceledRow(read, now))
  {
    hide UsesOf;
    CancelIgnoresApproval(s, read, now);
    assert Proper(s, s.db.tasks[read.id]);
  }

  /** The operations that update the stored row itself. */
  lemma PlainShape(s: Sys, e: Event)
    requires Ids(s) && AllProper(s) && Fresh(e) && TxnOf(s, e).Some?
    requires !(e.Intent? || e.Complete? || e.Cancel?)
    ensures Shape(TxnOf(s, e).value.row) && !TxnOf(s, e).value.licence
  {
    hide ArgsHash, IsBlank, KeyTaken, UsesOf, TallyOf, CompletedRow, CanceledRow, IntentTxn;
  }

  lemma TxnShape(s: Sys, e: Event)
    requires Ids(s) && History(s) && AllProper(s) && Fresh(e) && TxnOf(s, e).Some?
    ensures Shape(TxnOf(s, e).value.row)
    ensures TxnOf(s, e).value.licence ==> TxnOf(s, e).value.row.nonce != 0
  {
    hide Ids, History, AllProper, Fresh, Shape, CompletedRow, CanceledRow, IntentAnswersAsIs, IntentCommits;
    match e
    case Intent(w, read, reserve, now) => IntentReadShape(s, e); IntendedShape(s, read, reserve, now);
    case Complete(read, o, now) => ReadShape(s, read); CompletedShape(read, o, now);
    case Cancel(read, now) => CanceledShape(s, read, now);
    case _ => PlainShape(s, e);
  }

  lemma IntentReadShape(s: Sys, e: Event)
    requires History(s) && AllProper(s) && Grants(s, e)
    ensures Shape(e.read)
  {
    hide UsesOf, Shape;
    if IntentAnswersAsIs(s, e.read, e.reserve) {
      assert Proper(s, s.db.tasks[e.read.id]);
    } else {
      ReadShape(s, e.read);
    }
  }

  /** The approvals of other tasks are not used. */
  lemma CommitProper(s: Sys, x: Txn)
    requires Ids(s) && Links(s) && Approvals(s) && Sound(s, x) && AllProper(s)
    requires Shape(x.row) && (x.licence ==> x.row.nonce != 0)
    ensures AllProper(Commit(s, x))
  {
    hide Ids, Approvals, Sound, Shape, Links, UsesOf;
    var s' := Commit(s, x);
    forall id | id in s'.db.tasks ensures Proper(s', s'.db.tasks[id]) {
      if id == x.row.id {
        if x.row.kind == Write { OwnUses(s, x); }
      } else {
        assert Proper(s, s.db.tasks[id]);
        if s.db.tasks[id].kind == Write { OtherUses(s, x, id); }
      }
    }
  }

  lemma OwnUses(s: Sys, x: Txn)
    requires Ids(s) && Links(s) && Approvals(s) && Sound(s, x) && AllProper(s) && x.row.kind == Write
    requires Shape(x.row) && (x.licence ==> x.row.nonce != 0)
    ensures x.row.nonce == 0 <==> UsesOf(Commit(s, x), x.row.approvalId) == 0
  {
    hide Shape, InScope, Booked, Linked;
    if x.row.id in s.db.tasks { assert Proper(s, s.db.tasks[x.row.id]); }
    if x.approval.Some? && Creates(s, x, x.approval.value) { assert x.row.nonce == 0 by { WaitingShape(x.row); } }
  }

  lemma WaitingShape(t: Task)
    requires Shape(t) && t.status == Waiting
    ensures t.nonce == 0
  {
  }

  lemma OtherUses(s: Sys, x: Txn, id: Id)
    requires Ids(s) && Links(s) && Sound(s, x) && id in s.db.tasks && id != x.row.id && s.db.tasks[id].kind == Write
    ensures UsesOf(Commit(s, x), s.db.tasks[id].approvalId) == UsesOf(s, s.db.tasks[id].approvalId)
  {
    assert Linked(s, s.db.tasks[id]);
    if x.licence { assert Linked(s, s.db.tasks[x.row.id]); }
  }

  lemma UpdateShape(e: Event, t: Task)
    requires IsBulk(e) && Shape(t)
    ensures Shape(UpdateOf(e)(t))
  {
  }

  lemma BulkProper(s: Sys, e: Event)
    requires AllProper(s) && IsBulk(e)
    ensures AllProper(Bulk(s, UpdateOf(e)))
  {
    hide Shape, UpdateOf;
    var s' := Bulk(s, UpdateOf(e));
    UpdateSound(e);
    forall id | id in s'.db.tasks ensures Proper(s', s'.db.tasks[id]) {
      var t := s.db.tasks[id];
      assert Proper(s, t);
      assert SoundUpdate(t, UpdateOf(e)(t));
      UpdateShape(e, t);
    }
  }

  lemma SameStoreProper(s: Sys, s': Sys)
    requires AllProper(s) && s'.db == s.db && s'.book.uses == s.book.uses
    ensures AllProper(s')
  {
    hide Shape;
    forall id | id in s'.db.tasks ensures Proper(s', s'.db.tasks[id]) {
      assert Proper(s, s.db.tasks[id]);
    }
  }

  lemma CommitStepProper(s: Sys, e: Event)
    requires Inv(s) && AllProper(s) && Fresh(e)
    ensures AllProper(CommitStep(s, e))
  {
    hide Ids, History, Epochs, RowsOk, Keys, Links, PastLinks, Approvals, Audits, Workers, ApprovalCounts, RunCounts;
    hide Sound, Shape, Commit, AllProper, Fresh;
    if TxnOf(s, e).Some? {
      TxnSound(s, e);
      TxnShape(s, e);
      CommitProper(s, TxnOf(s, e).value);
      SameStoreProper(Commit(s, TxnOf(s, e).value), CommitStep(s, e));
    }
  }

  lemma ProperStep(s: Sys, e: Event)
    requires Inv(s) && AllProper(s) && Fresh(e)
    ensures AllProper(Step(s, e))
  {
    hide Inv, AllProper, Fresh, CommitStep, Bulk, UpdateOf, ReadBackStep, CheckStep, ExecuteStep;
    if IsLocal(e) {
      LocalStores(s, e);
      SameStoreProper(s, Step(s, e));
    } else if IsBulk(e) {
      BulkProper(s, e);
    } else {
      CommitStepProper(s, e);
    }
  }

  lemma {:induction false} ProperRun(s: Sys, events: seq<Event>)
    requires Inv(s) && AllProper(s) && AllFresh(events)
    ensures AllProper(Run(s, events))
    decreases |events|
  {
    hide Inv, AllProper, Step, Fresh;
    if events != [] {
      assert Fresh(events[0]);
      InvStep(s, events[0]);
      ProperStep(s, events[0]);
      ProperRun(Step(s, events[0]), events[1..]);
    }
  }

  /** Column shape of every row reached by fresh submissions. */
  lemma ReachableShape(events: seq<Event>, id: Id)
    requires AllFresh(events) && id in Run(EMPTY, events).db.tasks
    ensures var t := Run(EMPTY, events).db.tasks[id];
            && t.reserved >= 0
            && (t.status in {Queued, Waiting} ==> t.nonce == 0 && t.reserved == 0)
            && (t.reserved > 0 ==> t.kind == Write && t.status in {Running, Unknown} && t.nonce != 0)
            && (t.status in {Canceled, Failed, TimedOut} ==> t.nonce == 0)
  {
    EmptyInv();
    ProperRun(EMPTY, events);
    assert Proper(Run(EMPTY, events), Run(EMPTY, events).db.tasks[id]);
  }

  // ----- how often an approval is used -----

  lemma UnusedIffNoNonce(s: Sys, e: Event)
    requires History(s) && AllProper(s) && Grants(s, e)
    ensures e.read.nonce == 0 <==> UsesOf(s, e.read.approvalId) == 0
  {
    ReadIsCurrent(s, e.read);
    assert Proper(s, s.db.tasks[e.read.id]);
  }

  /** Uses are counted by the intent calls that succeed, and by nothing else. */
  lemma UsesStep(s: Sys, e: Event, a: Id)
    ensures UsesOf(Step(s, e), a) == UsesOf(s, a) + (if Grants(s, e) && a == e.read.approvalId then 1 else 0)
  {
    hide CommitStep, UpdateOf, ReadBackStep, CheckStep, ExecuteStep;
    if IsLocal(e) {
      LocalStores(s, e);
    } else if !IsBulk(e) {
      CommitUsesStep(s, e, a);
    }
  }

  lemma CommitUsesStep(s: Sys, e: Event, a: Id)
    requires !IsLocal(e) && !IsBulk(e)
    ensures UsesOf(CommitStep(s, e), a) == UsesOf(s, a) + (if Grants(s, e) && a == e.read.approvalId then 1 else 0)
  {
    hide ArgsHash, IsBlank, KeyTaken, TallyOf, ApprovalCovers, CompletedRow, CanceledRow, IntentAnswersAsIs, IntentCommits;
  }

  lemma FirstUseStep(s: Sys, e: Event)
    requires Inv(s) && AllProper(s) && Grants(s, e)
    ensures UsesOf(Step(s, e), e.read.approvalId) == UsesOf(s, e.read.approvalId) + 1
    ensures UsesOf(Step(s, e), e.read.approvalId) == 1 <==> WorkerOf(s, e.worker).row.nonce == 0
  {
    hide Step, Inv, AllProper;
    assert WorkerOf(s, e.worker).row.nonce == e.read.nonce by { HeldInv(s, e); }
    assert e.read.nonce == 0 <==> UsesOf(s, e.read.approvalId) == 0 by { UnusedInv(s, e); }
    UsesStep(s, e, e.read.approvalId);
  }

  /** At the moment an intent call succeeds, its approval is used for the first time
      exactly when the worker holds a row without a nonce. */
  lemma FirstUseIff(events: seq<Event>, e: Event)
    requires AllFresh(events) && Grants(Run(EMPTY, events), e)
    ensures var s := Run(EMPTY, events);
            UsesOf(Step(s, e), e.read.approvalId) == 1 <==> WorkerOf(s, e.worker).row.nonce == 0
  {
    hide Step, Inv, AllProper;
    EmptyInv();
    assert AllProper(EMPTY) by { EmptyProper(); }
    InvRun(EMPTY, events);
    ProperRun(EMPTY, events);
    FirstUseStep(Run(EMPTY, events), e);
  }

  lemma EmptyProper()
    ensures AllProper(EMPTY)
  {
  }

  lemma HeldInv(s: Sys, e: Event)
    requires Inv(s) && Grants(s, e)
    ensures WorkerOf(s, e.worker).row.nonce == e.read.nonce
  {
    HeldMatchesRead(s, e);
  }

  lemma UnusedInv(s: Sys, e: Event)
    requires Inv(s) && AllProper(s) && Grants(s, e)
    ensures e.read.nonce == 0 <==> UsesOf(s, e.read.approvalId) == 0
  {
    UnusedIffNoNonce(s, e);
  }

  lemma {:induction false} UsesPersist(s: Sys, events: seq<Event>, a: Id)
    ensures UsesOf(Run(s, events), a) >= UsesOf(s, a)
    decreases |events|
  {
    hide Step;
    if events != [] {
      UsesStep(s, events[0], a);
      UsesPersist(Step(s, events[0]), events[1..], a);
    }
  }

  ghost predicate SingleUse(s: Sys) {
    forall a :: UsesOf(s, a) <= 1
  }

  lemma {:induction false} SingleUseFrom(s: Sys, events: seq<Event>)
    requires Inv(s) && AllProper(s) && SingleUse(s) && AllFresh(events)
    ensures SingleUse(Run(s, events)) <==> Guarded(s, events)
    decreases |events|
  {
    hide Step, Inv, AllProper, UsesOf, IntentAnswersAsIs, IntentCommits, Fresh;
    if events != [] {
      var e, rest := events[0], events[1..];
      assert Fresh(e);
      InvStep(s, e);
      ProperStep(s, e);
      var s' := Step(s, e);
      if HoldsFreshRow(s, e) {
        forall a ensures UsesOf(s', a) <= 1 {
          UsesStep(s, e, a);
          if Grants(s, e) { FirstUseStep(s, e); }
        }
        SingleUseFrom(s', rest);
      } else {
        FirstUseStep(s, e);
        UsesPersist(s', rest, e.read.approvalId);
        assert UsesOf(Run(s', rest), e.read.approvalId) >= 2;
      }
    }
  }

  /** Over every run of fresh submissions: each approval admits at most one intent call,
      exactly when no worker acted on a read-back row that already carried a nonce. */
  lemma SingleUseIff(events: seq<Event>)
    requires AllFresh(events)
    ensures SingleUse(Run(EMPTY, events)) <==> Guarded(EMPTY, events)
  {
    EmptyInv();
    SingleUseFrom(EMPTY, events);
  }

  // ----- executions against consumed approvals -----

  /** A write without a nonce holds no reservation: what Submit has to be given. */
  predicate Mild(t: Task) {
    t.kind == Write && t.nonce == 0 ==> t.reserved <= 0
  }

  predicate SubmitsMild(e: Event) {
    e.Submit? ==> Mild(e.template)
  }

  predicate AllMild(events: seq<Event>) {
    forall i :: 0 <= i < |events| ==> SubmitsMild(events[i])
  }

  predicate MildRows(s: Sys) {
    forall id :: id in s.db.tasks ==> Mild(s.db.tasks[id])
  }

  lemma PlainMild(s: Sys, e: Event)
    requires MildRows(s) && SubmitsMild(e) && TxnOf(s, e).Some? && !(e.Intent? || e.Complete? || e.Cancel?)
    ensures Mild(TxnOf(s, e).value.row)
  {
    hide ArgsHash, IsBlank, KeyTaken, UsesOf, TallyOf, CompletedRow, CanceledRow, IntentTxn;
  }

  lemma CompletedMild(t: Task, o: Outcome, now: int)
    requires Mild(t)
    ensures Mild(CompletedRow(t, o, now))
  {
  }

  lemma IntentMild(s: Sys, e: Event)
    requires Ids(s) && MildRows(s) && Grants(s, e)
    ensures Mild(IntentTxn(s, e.read, e.reserve, e.now).row)
  {
    hide TallyOf, Matches;
  }

  lemma TxnMild(s: Sys, e: Event)
    requires Ids(s) && History(s) && MildRows(s) && SubmitsMild(e) && TxnOf(s, e).Some?
    ensures Mild(TxnOf(s, e).value.row)
  {
    hide Ids, CompletedRow, CanceledRow, TallyOf, UsesOf, IntentAnswersAsIs, IntentCommits;
    match e
    case Intent(w, read, reserve, now) => IntentMild(s, e);
    case Complete(read, o, now) => ReadIsCurrent(s, read); CompletedMild(read, o, now);
    case Cancel(read, now) => CancelIgnoresApproval(s, read, now); CanceledMild(s.db.tasks[read.id], now);
    case _ => PlainMild(s, e);
  }

  lemma CanceledMild(t: Task, now: int)
    requires Mild(t)
    ensures Mild(CanceledRow(t, now))
  {
  }

  lemma BulkMild(s: Sys, e: Event)
    requires MildRows(s) && IsBulk(e)
    ensures MildRows(Bulk(s, UpdateOf(e)))
  {
    hide UpdateOf;
    UpdateSound(e);
    forall id | id in s.db.tasks ensures Mild(UpdateOf(e)(s.db.tasks[id])) {
      assert SoundUpdate(s.db.tasks[id], UpdateOf(e)(s.db.tasks[id]));
    }
  }

  lemma MildStep(s: Sys, e: Event)
    requires Ids(s) && History(s) && MildRows(s) && SubmitsMild(e)
    ensures MildRows(Step(s, e))
  {
    hide Ids, History, Mild, CommitStep, Bulk, UpdateOf, ReadBackStep, CheckStep, ExecuteStep;
    if IsLocal(e) {
      LocalStores(s, e);
    } else if IsBulk(e) {
      BulkMild(s, e);
    } else {
      CommitStepMild(s, e);
    }
  }

  lemma CommitStepMild(s: Sys, e: Event)
    requires Ids(s) && History(s) && MildRows(s) && SubmitsMild(e)
    ensures MildRows(CommitStep(s, e))
  {
    hide Ids, History, Mild, TxnOf;
    if TxnOf(s, e).Some? { TxnMild(s, e); }
  }

  /** While no intent is recorded for an approved write, one consumed approval is unused. */
  predicate Spare(t: Task, tally: Tally) {
    && tally.licences <= tally.approvals
    && (t.nonce == 0 && t.status in {Queued, Running} ==> tally.licences < tally.approvals)
  }

  predicate AllSpare(s: Sys) {
    forall id :: id in s.db.tasks && s.db.tasks[id].kind == Write ==> Spare(s.db.tasks[id], TallyOf(s, id))
  }

  /** An intent takes up the spare approval of its task and marks the row. */
  predicate TakesSpare(s: Sys, x: Txn) {
    x.licence && x.row.id in s.db.tasks ==>
      TallyOf(s, x.row.id).licences < TallyOf(s, x.row.id).approvals && x.row.nonce != 0
  }

  lemma CommitSpare(s: Sys, x: Txn)
    requires Ids(s) && AllSpare(s) && Sound(s, x) && TakesSpare(s, x)
    ensures AllSpare(Commit(s, x))
  {
    var s' := Commit(s, x);
    forall id | id in s'.db.tasks && s'.db.tasks[id].kind == Write
      ensures Spare(s'.db.tasks[id], TallyOf(s', id))
    {
      if id in s.db.tasks { assert s.db.tasks[id].kind == Write ==> Spare(s.db.tasks[id], TallyOf(s, id)); }
    }
  }

  lemma BulkSpare(s: Sys, update: Task -> Task)
    requires AllSpare(s) && forall t: Task :: SoundUpdate(t, update(t))
    ensures AllSpare(Bulk(s, update))
  {
    var s' := Bulk(s, update);
    forall id | id in s'.db.tasks && s'.db.tasks[id].kind == Write
      ensures Spare(s'.db.tasks[id], TallyOf(s', id))
    {
      assert SoundUpdate(s.db.tasks[id], update(s.db.tasks[id]));
      assert Spare(s.db.tasks[id], TallyOf(s, id));
    }
  }

  lemma BulkStepSpare(s: Sys, e: Event)
    requires AllSpare(s) && IsBulk(e)
    ensures AllSpare(Step(s, e))
  {
    hide SoundUpdate, Bulk, AllSpare, UpdateOf, CommitStep;
    UpdateSound(e);
    BulkSpare(s, UpdateOf(e));
  }

  lemma FreshRowTakesSpare(s: Sys, e: Event)
    requires Ids(s) && History(s) && Epochs(s) && Workers(s) && AllSpare(s) && MildRows(s)
    requires Grants(s, e) && HoldsFreshRow(s, e)
    ensures TakesSpare(s, IntentTxn(s, e.read, e.reserve, e.now))
  {
    HeldMatchesRead(s, e);
    ReadIsCurrent(s, e.read);
    assert Mild(s.db.tasks[e.read.id]);
    assert Spare(s.db.tasks[e.read.id], TallyOf(s, e.read.id));
  }

  lemma CommitStepSpare(s: Sys, e: Event)
    requires Inv(s) && AllSpare(s) && MildRows(s) && HoldsFreshRow(s, e)
    ensures AllSpare(CommitStep(s, e))
  {
    hide Ids, History, Epochs, RowsOk, Keys, Links, PastLinks, Approvals, Audits, Workers, ApprovalCounts, RunCounts;
    hide Sound, Commit;
    if TxnOf(s, e).Some? {
      TxnSound(s, e);
      var x := TxnOf(s, e).value;
      assert TakesSpare(s, x) by { if e.Intent? { FreshRowTakesSpare(s, e); } }
      CommitSpare(s, x);
    }
  }

  lemma SpareStep(s: Sys, e: Event)
    requires Inv(s) && AllSpare(s) && MildRows(s) && HoldsFreshRow(s, e)
    ensures AllSpare(Step(s, e))
  {
    hide Inv, CommitStep, Bulk, UpdateOf;
    match e
    case ReadBack(_) =>
    case Check(_, _, _, _) =>
    case Drop(_) =>
    case Execute(w) => ExecuteSpare(s, w);
    case _ => if IsBulk(e) { BulkStepSpare(s, e); } else { CommitStepSpare(s, e); }
  }

  lemma ExecuteSpare(s: Sys, w: nat)
    requires AllSpare(s)
    ensures AllSpare(ExecuteStep(s, w))
  {
    var s' := ExecuteStep(s, w);
    forall id | id in s'.db.tasks && s'.db.tasks[id].kind == Write
      ensures Spare(s'.db.tasks[id], TallyOf(s', id))
    {
      assert Spare(s.db.tasks[id], TallyOf(s, id));
    }
  }

  lemma {:induction false} SpareRun(s: Sys, events: seq<Event>)
    requires Inv(s) && AllSpare(s) && MildRows(s) && AllMild(events) && Guarded(s, events)
    ensures Inv(Run(s, events)) && AllSpare(Run(s, events))
    decreases |events|
  {
    hide Step, AllSpare, MildRows, HoldsFreshRow, Inv, SubmitsMild;
    if events != [] {
      assert SubmitsMild(events[0]);
      InvStep(s, events[0]);
      SpareStep(s, events[0]);
      assert MildRows(Step(s, events[0])) by {
        InvParts(s);
        MildStep(s, events[0]);
      }
      SpareRun(Step(s, events[0]), events[1..]);
    }
  }

  lemma InvParts(s: Sys)
    requires Inv(s)
    ensures Ids(s) && History(s)
  {
  }

  /** In a guarded run the Executor runs at most once per approval that an operator
      consumed for the write: over any interleaving of workers, crashes, stalls, approvals,
      cancellations, sweeps, recoveries and reconciliations. */
  lemma ExecutionsBounded(events: seq<Event>, id: Id)
    requires AllMild(events) && Guarded(EMPTY, events)
    requires id in Run(EMPTY, events).db.tasks && Run(EMPTY, events).db.tasks[id].kind == Write
    ensures var s := Run(EMPTY, events);
            TallyOf(s, id).runs <= TallyOf(s, id).licences <= |ConsumedFor(s, id)|
  {
    EmptyInv();
    SpareRun(EMPTY, events);
    var s := Run(EMPTY, events);
    assert Spare(s.db.tasks[id], TallyOf(s, id));
    assert TallyOf(s, id).approvals == |ConsumedFor(s, id)| && TallyOf(s, id).runs <= TallyOf(s, id).licences by {
      assert ApprovalCounts(s) && RunCounts(s);
    }
  }
}
