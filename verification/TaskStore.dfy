/** The Store and Worker operations as programs over the shared tables.

    Each method reads and writes in the order of the source.  The parameter `others`
    holds the events that other instances commit between a read and the write that
    follows it.  Every method's effect is a run of the transition system, so what is
    proved about all runs holds for any mix of these programs. */
module TaskStore {
  import opened Wrappers
  import opened TaskModel
  import opened TaskInvariant
  import opened TaskTheorems
  import Outcomes = TaskOutcomes

  const CLAIM_ATTEMPTS := 8

  /** Whether Complete gets past its checks to the conditional write. */
  predicate Settles(s: Sys, id: Id, version: int, o: Outcome) {
    o.usage >= 0 && id in s.db.tasks && s.db.tasks[id].version == version && !IsTerminal(s.db.tasks[id].status)
  }

  /** Whether Reserve or RecordIntent gets past its checks. */
  predicate Intends(s: Sys, id: Id, version: int, reserve: int) {
    && id in s.db.tasks
    && var t := s.db.tasks[id];
       && t.version == version && t.status == Running && t.kind == Write
       && (reserve > 0 && t.reserved <= 0 ==> t.budget >= reserve)
  }

  /** What Approve checks before its transaction. */
  predicate ApprovalPasses(s: Sys, approval: Id, operator: string, args: string, policy: string, now: int) {
    && !IsBlank(operator) && approval in s.db.approvals
    && var a := s.db.approvals[approval];
       !a.consumed && now <= a.expiresAt && ArgsHash(args) == a.argsHash && a.policyVersion == policy
  }

  /** The approval is still open, and its task waits and is not the operator's own. */
  predicate ApprovalLands(s: Sys, approval: Id, operator: string) {
    && approval in s.db.approvals && !s.db.approvals[approval].consumed
    && (exists id :: id in s.db.tasks && s.db.tasks[id].approvalId == approval)
    && (forall id :: id in s.db.tasks && s.db.tasks[id].approvalId == approval ==>
          s.db.tasks[id].status == Waiting && s.db.tasks[id].owner != operator)
  }

  /** No other instance does anything in between. */
  predicate Undisturbed(others: seq<seq<Event>>) {
    forall i :: 0 <= i < |others| ==> others[i] == []
  }

  /** Every submission in the trace is one of the others'. */
  ghost predicate SubmitsOnly(trace: seq<Event>, others: seq<seq<Event>>) {
    forall e :: e in trace && e.Submit? ==> exists i :: 0 <= i < |others| && e in others[i]
  }

  function Candidates(s: Sys, now: int): set<Id> {
    set id | id in s.db.tasks && Claimable(s.db.tasks[id], now)
  }

  predicate IsOldest(s: Sys, now: int, id: Id) {
    id in Candidates(s, now) && forall j :: j in Candidates(s, now) ==> s.db.tasks[id].createdAt <= s.db.tasks[j].createdAt
  }

  class Store {
    /** The shared database, and with it the local state of all workers and the history. */
    var sys: Sys

    ghost predicate Valid()
      reads this
    {
      Inv(sys)
    }

    constructor ()
      ensures sys == EMPTY && Valid()
    {
      sys := EMPTY;
      new;
      EmptyInv();
    }

    /** Other instances commit their steps. */
    method Interleave(others: seq<Event>)
      requires Valid()
      modifies this
      ensures sys == Run(old(sys), others) && Valid()
    {
      var i := 0;
      while i < |others|
        invariant 0 <= i <= |others|
        invariant sys == Run(old(sys), others[..i])
      {
        hide Step;
        RunAppend(old(sys), others[..i], [others[i]]);
        assert others[..i] + [others[i]] == others[..i + 1];
        assert Run(sys, [others[i]]) == Run(Step(sys, others[i]), []);
        sys := Step(sys, others[i]);
        i := i + 1;
      }
      assert others[..i] == others;
      InvRun(old(sys), others);
    }

    method Get(id: Id) returns (r: Result<Task>)
      ensures r == if id in sys.db.tasks then Ok(sys.db.tasks[id]) else Err("no rows")
    {
      if id in sys.db.tasks { r := Ok(sys.db.tasks[id]); } else { r := Err("no rows"); }
    }

    /** Complete's computation of the new row, field by field. */
    method Settle(read: Task, o: Outcome, now: int) returns (task: Task)
      ensures task == CompletedRow(read, o, now) && Outcomes.SettledTo(read, task, o, now)
    {
      task := read.(attempts := read.attempts + 1);
      if o.failure != NoFailure {
        if o.failure == UnknownResult || (task.kind == Write && task.nonce != 0) {
          task := task.(status := Unknown, errorText := UNKNOWN_TEXT);
        } else if o.retryable && task.attempts < task.maxAttempts {
          task := task.(status := Queued, leaseOwner := "", leaseExpires := 0, errorText := FailureText(o.failure));
        } else {
          task := task.(status := Failed, errorText := FailureText(o.failure));
        }
      } else {
        task := task.(status := Succeeded, result := o.result);
      }
      if task.status != Unknown {
        if task.reserved > 0 {
          task := task.(budget := task.budget + (task.reserved - o.usage), reserved := 0);
        } else {
          task := task.(budget := task.budget - o.usage);
        }
      }
      task := task.(version := task.version + 1, updatedAt := now);
    }

    /** UPDATE ... WHERE id = ? AND version = ? AND status IN (...), in a transaction with
        the audit row and the history counters. */
    method UpdateWhere(x: Txn, version: int, allowed: set<Status>) returns (committed: bool)
      modifies this
      ensures committed <==> (x.row.id in old(sys).db.tasks && old(sys).db.tasks[x.row.id].version == version
                              && old(sys).db.tasks[x.row.id].status in allowed)
      ensures sys == if committed then Commit(old(sys), x) else old(sys)
    {
      committed := x.row.id in sys.db.tasks && sys.db.tasks[x.row.id].version == version
                   && sys.db.tasks[x.row.id].status in allowed;
      if committed { sys := Commit(sys, x); }
    }

    /** Complete: read, check, compute, and write under the fence. */
    method Complete(id: Id, version: int, o: Outcome, now: int, others: seq<Event>) returns (r: Result<Task>)
      requires Valid()
      modifies this
      ensures Valid()
      ensures !Settles(old(sys), id, version, o) ==> sys == old(sys)
      ensures Settles(old(sys), id, version, o) ==>
                sys == Run(old(sys), others + [Event.Complete(old(sys).db.tasks[id], o, now)])
      ensures r.Ok? <==> id in old(sys).db.tasks && o.usage >= 0
                         && (IsTerminal(old(sys).db.tasks[id].status) || old(sys).db.tasks[id].version == version)
      ensures r.Ok? ==> id in sys.db.tasks && r.value == sys.db.tasks[id]
      ensures Settles(old(sys), id, version, o) && others == [] && old(sys).db.tasks[id].status == Running ==>
                r.Ok? && r.value.status != Running && Outcomes.SettledTo(old(sys).db.tasks[id], r.value, o, now)
    {
      hide Inv, CompletedRow, Step, IsTerminal, Commit, Outcomes.SettledTo;
      if o.usage < 0 { return Err("usage cannot be negative"); }
      var found := Get(id);
      if found.Err? { return found; }
      var read := found.value;
      if read.version != version {
        if IsTerminal(read.status) { return found; }
        return Err("fencing version mismatch: worker is stale");
      }
      if IsTerminal(read.status) { return found; }
      var task := Settle(read, o, now);
      Interleave(others);
      ReadSurvives(old(sys), others, id);
      ghost var mid := sys;
      CompletedId(read, o, now);
      var audit := if task.kind == Write then Some(AuditRow(task, CompleteAction, read.leaseOwner, o.usage, now)) else None;
      var x := Txn(task, CompletedTally(TallyOf(sys, id), task, o), None, audit, 0, false);
      var committed := UpdateWhere(x, version, {Running});
      CompleteIsStep(mid, read, o, now);
      StoresRow(mid, x);
      OneMore(old(sys), others, Event.Complete(read, o, now));
      r := Get(id);
    }

    /** Cancel's computation of the new row, field by field. */
    method CallOff(read: Task, now: int) returns (task: Task)
      ensures task == CanceledRow(read, now) && task.id == read.id && IsTerminal(task.status)
    {
      task := read;
      if task.status == Running && task.kind == Write && task.nonce != 0 {
        task := task.(status := Unknown, errorText := UNKNOWN_TEXT);
      } else {
        task := task.(status := Canceled);
      }
      task := task.(version := task.version + 1, leaseOwner := "", leaseExpires := 0, updatedAt := now);
    }

    /** Cancel: read and write again until the write lands, the row is terminal, or the
        context ends.  others[i] falls between the i-th read and write. */
    method Cancel(id: Id, now: int, others: seq<seq<Event>>) returns (r: Result<Task>, trace: seq<Event>)
      requires Valid()
      modifies this
      ensures Valid() && SubmitsOnly(trace, others) && sys == Run(old(sys), trace)
      ensures r.Ok? ==> id in sys.db.tasks && r.value == sys.db.tasks[id] && IsTerminal(r.value.status)
      ensures id in old(sys).db.tasks && IsTerminal(old(sys).db.tasks[id].status) ==> r.Ok? && sys == old(sys)
      ensures id !in old(sys).db.tasks ==> r.Err? && sys == old(sys)
      ensures Undisturbed(others) && id in old(sys).db.tasks && old(sys).db.tasks[id].status in {Queued, Waiting, Running} ==>
                r.Ok? && trace == [Event.Cancel(old(sys).db.tasks[id], now)]
    {
      hide Inv, Step, Commit, CanceledRow;
      trace := [];
      var i := 0;
      while true
        invariant i > 0 ==> id in old(sys).db.tasks
        invariant i > 0 ==> !(Undisturbed(others) && old(sys).db.tasks[id].status in {Queued, Waiting, Running})
        invariant i == 0 ==> trace == []
        invariant 0 <= i <= |others|
        invariant Valid() && SubmitsOnly(trace, others) && sys == Run(old(sys), trace)
        invariant i > 0 ==> !(id in old(sys).db.tasks && IsTerminal(old(sys).db.tasks[id].status))
        invariant i == 0 ==> sys == old(sys)
        decreases |others| - i
      {
        r := Get(id);
        if r.Err? { return; }
        var read := r.value;
        if IsTerminal(read.status) { return; }
        var task := CallOff(read, now);
        var between := if i < |others| then others[i] else [];
        ghost var before := sys;
        ReadSurvives(sys, between, id);
        Interleave(between);
        ghost var mid := sys;
        var committed := UpdateWhere(Txn(task, TallyOf(sys, id), None, None, 0, false), read.version, {Queued, Waiting, Running});
        CancelIsStep(mid, read, now);
        OneMore(before, between, Event.Cancel(read, now));
        RunAppend(old(sys), trace, between + [Event.Cancel(read, now)]);
        trace := trace + (between + [Event.Cancel(read, now)]);
        if committed {
          StoresRow(mid, Txn(task, TallyOf(mid, id), None, None, 0, false));
          r := Get(id);
          return;
        }
        if i >= |others| { return Err("context done"), trace; }
        i := i + 1;
      }
    }

    /** The conditional write of an intent. */
    method WriteIntent(w: nat, read: Task, reserve: nat, now: int) returns (committed: bool)
      requires Valid() && read in sys.book.rows && read.status == Running && read.kind == Write
      requires reserve > 0 ==> read.reserved <= 0 && read.budget >= reserve
      requires WorkerOf(sys, w).Cleared? && WorkerOf(sys, w).row.id == read.id && WorkerOf(sys, w).row.version == read.version
      modifies this
      ensures Valid() && sys == Step(old(sys), Intent(w, read, reserve, now))
      ensures committed <==> read.id in old(sys).db.tasks && old(sys).db.tasks[read.id].version == read.version
                             && old(sys).db.tasks[read.id].status == Running
      ensures WorkerOf(sys, w) == if committed then Licensed(read.id, read.approvalId) else WorkerOf(old(sys), w)
      ensures committed ==> read.id in sys.db.tasks && sys.db.tasks[read.id].status == Running
    {
      hide Inv, Step, Commit;
      var tally := TallyOf(sys, read.id);
      var task := read.(budget := read.budget - reserve, reserved := read.reserved + reserve, nonce := sys.db.next,
                        version := read.version + 1, updatedAt := now);
      var x := Txn(task, tally.(licences := tally.licences + 1), None, None, 1, true);
      IntentIsStep(sys, w, read, reserve, now);
      InvStep(sys, Intent(w, read, reserve, now));
      StoresRow(sys, x);
      committed := UpdateWhere(x, read.version, {Running});
      if committed { sys := SetWorker(sys, w, Licensed(read.id, task.approvalId)); }
    }

    /** Reserve (reserve > 0) and RecordIntent (reserve == 0), as called by worker w for
        the row it holds: read, check, write under the fence, and read again.  `others`
        falls before the write, `late` before the second read. */
    method RecordIntent(w: nat, version: int, reserve: nat, now: int, others: seq<Event>, late: seq<Event>)
      returns (r: Result<Task>, trace: seq<Event>)
      requires Valid() && Foreign(others, w) && Foreign(late, w)
      requires WorkerOf(sys, w).Cleared? && WorkerOf(sys, w).row.version == version
      modifies this
      ensures Valid()
      ensures sys == Run(old(sys), trace)
      ensures var id := WorkerOf(old(sys), w).row.id;
              trace == if !Intends(old(sys), id, version, reserve) then []
                       else if reserve > 0 && old(sys).db.tasks[id].reserved > 0 then [Intent(w, old(sys).db.tasks[id], reserve, now)]
                       else others + [Intent(w, old(sys).db.tasks[id], reserve, now)] + if r.Ok? then late else []
      ensures r.Ok? <==> WorkerOf(sys, w).Licensed?
      ensures r.Err? ==> WorkerOf(sys, w) == WorkerOf(old(sys), w)
      ensures r.Ok? ==> var id := WorkerOf(old(sys), w).row.id; id in sys.db.tasks && r.value == sys.db.tasks[id]
      ensures others == late == [] ==>
                (r.Ok? <==> Intends(old(sys), WorkerOf(old(sys), w).row.id, version, reserve))
                && (r.Ok? ==> r.value.status == Running)
    {
      hide Inv, Step, Commit;
      trace := [];
      var id := WorkerOf(sys, w).row.id;
      var found := Get(id);
      if found.Err? { return found, trace; }
      var read := found.value;
      if read.version != version { return Err("fencing version mismatch: worker is stale"), trace; }
      if read.status != Running { return Err("task is not running"), trace; }
      if read.kind != Write { return Err("execution intent applies to write tasks"), trace; }
      var tally := TallyOf(sys, id);
      if reserve > 0 && read.reserved > 0 {
        ReadSurvives(sys, [], id);
        AnswerIsStep(sys, w, read, reserve, now);
        OneMore(sys, [], Intent(w, read, reserve, now));
        assert [] + [Intent(w, read, reserve, now)] == [Intent(w, read, reserve, now)];
        var answer := Txn(read, tally.(licences := tally.licences + 1), None, None, 0, true);
        StoresRow(sys, answer);
        sys := SetWorker(Commit(sys, answer), w, Licensed(id, read.approvalId));
        return found, [Intent(w, read, reserve, now)];
      }
      if reserve > 0 && read.budget < reserve { return Err("insufficient budget for reservation"), trace; }
      ReadSurvives(sys, others, id);
      ghost var before := sys;
      Interleave(others);
      ForeignKeeps(before, others, w);
      var committed := WriteIntent(w, read, reserve, now);
      OneMore(before, others, Intent(w, read, reserve, now));
      trace := others + [Intent(w, read, reserve, now)];
      if !committed { return Err("task changed during intent recording"), trace; }
      ghost var done := sys;
      ReadSurvives(sys, late, id);
      Interleave(late);
      ForeignKeeps(done, late, w);
      RunAppend(before, trace, late);
      trace := trace + late;
      r := Get(id);
    }

    /** claimCAS: flip one known row to running if its version and status are untouched. */
    method ClaimCAS(w: nat, read: Task, owner: string, leaseUntil: int, now: int) returns (won: bool)
      requires Valid() && WorkerOf(sys, w) == Idle && read in sys.book.rows && read.budget >= 0
      modifies this
      ensures Valid() && sys == Step(old(sys), Event.Claim(w, read, owner, leaseUntil, now))
      ensures won <==> read.id in old(sys).db.tasks && old(sys).db.tasks[read.id].version == read.version
                       && old(sys).db.tasks[read.id].status == Queued
      ensures WorkerOf(sys, w) == if won then Won(read.id) else Idle
      ensures won ==> read.id in sys.db.tasks && sys.db.tasks[read.id].status == Running
    {
      hide Inv, Step;
      InvStep(sys, Event.Claim(w, read, owner, leaseUntil, now));
      ClaimIsStep(sys, w, read, owner, leaseUntil, now);
      InvIds(sys);
      won := read.id in sys.db.tasks && sys.db.tasks[read.id].version == read.version && sys.db.tasks[read.id].status == Queued;
      if won {
        var tally := TallyOf(sys, read.id);
        var row := sys.db.tasks[read.id].(status := Running, version := sys.db.tasks[read.id].version + 1,
                                          leaseOwner := owner, leaseExpires := leaseUntil, updatedAt := now);
        sys := SetWorker(Commit(sys, Txn(row, tally.(claims := tally.claims + 1), None, None, 0, false)), w, Won(read.id));
      }
    }

    /** Claim: up to eight times, take the oldest claimable row not yet lost to another
        worker and try to flip it; others[i] falls between the i-th read and write. */
    method Claim(w: nat, owner: string, leaseUntil: int, now: int, others: seq<seq<Event>>)
      returns (won: bool, trace: seq<Event>)
      requires Valid() && WorkerOf(sys, w) == Idle
      requires forall i :: 0 <= i < |others| ==> Foreign(others[i], w)
      modifies this
      ensures Valid() && SubmitsOnly(trace, others) && sys == Run(old(sys), trace)
      ensures won <==> WorkerOf(sys, w).Won?
      ensures won ==> var id := WorkerOf(sys, w).task; id in sys.db.tasks && sys.db.tasks[id].status == Running
      ensures !won ==> WorkerOf(sys, w) == Idle
      ensures Execute(w) !in trace
      ensures Undisturbed(others) && Candidates(old(sys), now) == {} ==> !won && trace == []
      ensures Undisturbed(others) && Candidates(old(sys), now) != {}
              && (forall id :: id in Candidates(old(sys), now) ==> old(sys).db.tasks[id].budget >= 0) ==>
                won && exists id :: IsOldest(old(sys), now, id) && trace == [Event.Claim(w, old(sys).db.tasks[id], owner, leaseUntil, now)]
    {
      hide Inv, Step, Commit;
      won, trace := false, [];
      var excluded: set<Id> := {};
      var attempt := 0;
      while attempt < CLAIM_ATTEMPTS
        invariant 0 <= attempt <= CLAIM_ATTEMPTS && !won
        invariant Valid() && SubmitsOnly(trace, others) && sys == Run(old(sys), trace) && WorkerOf(sys, w) == Idle
        invariant attempt == 0 ==> sys == old(sys) && trace == [] && excluded == {}
        invariant Execute(w) !in trace
        invariant attempt > 0 && Undisturbed(others) ==>
                    Candidates(old(sys), now) != {} && exists id :: id in Candidates(old(sys), now) && old(sys).db.tasks[id].budget < 0
      {
        var candidates := Candidates(sys, now) - excluded;
        if candidates == {} { return; }
        var id := Oldest(candidates);
        var read := sys.db.tasks[id];
        if read.budget < 0 { return; }
        var between := if attempt < |others| then others[attempt] else [];
        ghost var before := sys;
        ReadSurvives(sys, between, id);
        Interleave(between);
        ForeignKeeps(before, between, w);
        won := ClaimCAS(w, read, owner, leaseUntil, now);
        var mine := Event.Claim(w, read, owner, leaseUntil, now);
        OneMore(before, between, mine);
        RunAppend(old(sys), trace, between + [mine]);
        trace := trace + (between + [mine]);
        if won { return; }
        excluded := excluded + {id};
        attempt := attempt + 1;
      }
    }

    /** ORDER BY created_at ASC LIMIT 1, with ties broken arbitrarily. */
    method Oldest(candidates: set<Id>) returns (id: Id)
      requires candidates != {} && candidates <= sys.db.tasks.Keys
      ensures id in candidates
      ensures forall j :: j in candidates ==> sys.db.tasks[id].createdAt <= sys.db.tasks[j].createdAt
    {
      id :| id in candidates;
      var rest := candidates - {id};
      while rest != {}
        invariant id in candidates && rest <= candidates
        invariant forall j :: j in candidates - rest ==> sys.db.tasks[id].createdAt <= sys.db.tasks[j].createdAt
        decreases rest
      {
        var j :| j in rest;
        if sys.db.tasks[j].createdAt < sys.db.tasks[id].createdAt { id := j; }
        rest := rest - {j};
      }
    }

    /** Recover: two statements, with the other instances' steps in between. */
    method Recover(now: int, later: int, others: seq<Event>)
      requires Valid()
      modifies this
      ensures Valid()
      ensures sys == Run(old(sys), [RecoverIdle(now)] + others + [RecoverIntended(later)])
    {
      hide Inv, Step;
      InvStep(sys, RecoverIdle(now));
      ghost var start := sys;
      sys := Bulked(sys, RecoverIdle(now));
      Interleave(others);
      ghost var mid := sys;
      InvStep(sys, RecoverIntended(later));
      sys := Bulked(sys, RecoverIntended(later));
      assert Run(start, [RecoverIdle(now)] + others) == mid by {
        assert ([RecoverIdle(now)] + others)[1..] == others;
      }
      RunAppend(start, [RecoverIdle(now)] + others, [RecoverIntended(later)]);
      assert Run(mid, [RecoverIntended(later)]) == Run(Step(mid, RecoverIntended(later)), []);
    }

    /** SweepTimeouts: both statements in one transaction. */
    method SweepTimeouts(now: int)
      requires Valid()
      modifies this
      ensures Valid() && sys == Run(old(sys), [Sweep(now)])
    {
      hide Inv, Step;
      InvStep(sys, Sweep(now));
      assert Run(sys, [Sweep(now)]) == Run(Step(sys, Sweep(now)), []);
      sys := Bulked(sys, Sweep(now));
    }

    /** The task stored under a tenant and key, if any. */
    method GetByTenantKey(tenant: string, key: string) returns (r: Result<Task>)
      ensures r.Ok? <==> KeyTaken(sys.db, tenant, key)
      ensures r.Ok? ==> r.value in sys.db.tasks.Values && r.value.tenant == tenant && r.value.key == key
    {
      var rows := set id | id in sys.db.tasks && sys.db.tasks[id].tenant == tenant && sys.db.tasks[id].key == key;
      if rows == {} {
        assert forall id :: id in sys.db.tasks && sys.db.tasks[id].tenant == tenant && sys.db.tasks[id].key == key ==> id in rows;
        return Err("no rows");
      }
      var id :| id in rows;
      r := Ok(sys.db.tasks[id]);
    }

    /** Submit: return the stored task, or insert; a lost insert race returns the winner. */
    method Submit(template: Task, policy: string, now: int, others: seq<Event>) returns (r: Result<Task>)
      requires Valid()
      modifies this
      ensures Valid()
      ensures r.Ok? <==> !IsBlank(template.tenant) && !IsBlank(template.key)
      ensures r.Ok? ==> r.value in sys.db.tasks.Values && r.value.tenant == template.tenant && r.value.key == template.key
      ensures IsBlank(template.tenant) || IsBlank(template.key) || KeyTaken(old(sys).db, template.tenant, template.key) ==>
                sys == old(sys)
      ensures r.Ok? && !KeyTaken(old(sys).db, template.tenant, template.key) ==>
                sys == Run(old(sys), others + [Event.Submit(template, policy, now)])
    {
      hide Inv, Step;
      if IsBlank(template.tenant) || IsBlank(template.key) { return Err("tenant and idempotency key are required"); }
      r := GetByTenantKey(template.tenant, template.key);
      if r.Ok? { return; }
      Interleave(others);
      OneMore(old(sys), others, Event.Submit(template, policy, now));
      SubmitIsStep(sys, template, policy, now);
      if !KeyTaken(sys.db, template.tenant, template.key) {
        var x := SubmitTxn(sys, template, policy, now);
        sys := Commit(sys, x);
        assert sys.db.tasks[x.row.id] == x.row;
        return Ok(x.row);
      }
      r := GetByTenantKey(template.tenant, template.key);
    }

    /** Approve: check the approval, then consume it and move its task in one transaction. */
    method Approve(approval: Id, operator: string, args: string, policy: string, now: int, others: seq<Event>)
      returns (approved: bool, picked: Id)
      requires Valid()
      modifies this
      ensures Valid()
      ensures sys == old(sys) || sys == Run(old(sys), others)
              || sys == Run(old(sys), others + [Event.Approve(approval, picked, operator, args, policy, now)])
      ensures approved ==>
                && sys == Run(old(sys), others + [Event.Approve(approval, picked, operator, args, policy, now)])
                && picked in sys.db.tasks && sys.db.tasks[picked].status == Queued
                && sys.db.tasks[picked].approvalId == approval && sys.db.tasks[picked].owner != operator
                && approval in sys.db.approvals && sys.db.approvals[approval].consumed
                && sys.db.approvals[approval].consumedBy == operator
      ensures approved ==> ApprovalPasses(old(sys), approval, operator, args, policy, now)
      ensures ApprovalPasses(old(sys), approval, operator, args, policy, now) ==>
                ApprovalLands(Run(old(sys), others), approval, operator) ==> approved
    {
      hide Inv, Step;
      approved, picked := false, 0;
      if IsBlank(operator) || approval !in sys.db.approvals { return; }
      var a := sys.db.approvals[approval];
      if a.consumed || now > a.expiresAt || ArgsHash(args) != a.argsHash || a.policyVersion != policy { return; }
      Interleave(others);
      if approval !in sys.db.approvals || sys.db.approvals[approval].consumed { return; }
      var rows := set id | id in sys.db.tasks && sys.db.tasks[id].approvalId == approval;
      assert forall id :: id in sys.db.tasks && sys.db.tasks[id].approvalId == approval ==> id in rows;
      if rows == {} { return; }
      picked :| picked in rows;
      if sys.db.tasks[picked].status != Waiting || sys.db.tasks[picked].owner == operator { return; }
      ApprovalKeepsScope(old(sys), others, approval);
      InvIds(sys);
      OneMore(old(sys), others, Event.Approve(approval, picked, operator, args, policy, now));
      ApproveIsStep(sys, approval, picked, operator, args, policy, now);
      sys := Commit(sys, ApproveTxn(sys, approval, picked, operator, now));
      approved := true;
    }

    /** RenewLease, ConfirmUnknownAs and RequeueUnknownAs are one statement or transaction. */
    method RenewLease(id: Id, owner: string, leaseUntil: int, now: int) returns (renewed: bool)
      requires Valid()
      modifies this
      ensures Valid() && sys == Run(old(sys), [Event.RenewLease(id, owner, leaseUntil, now)])
      ensures renewed <==> RenewMatches(old(sys), id, owner)
    {
      hide Inv;
      OneMore(sys, [], Event.RenewLease(id, owner, leaseUntil, now));
      assert [] + [Event.RenewLease(id, owner, leaseUntil, now)] == [Event.RenewLease(id, owner, leaseUntil, now)];
      renewed := id in sys.db.tasks && sys.db.tasks[id].leaseOwner == owner && sys.db.tasks[id].status == Running;
      if renewed { sys := Commit(sys, RenewTxn(sys, id, leaseUntil, now)); }
    }

    method ConfirmUnknownAs(id: Id, actor: string, result: string, usage: int, now: int) returns (confirmed: bool)
      requires Valid()
      modifies this
      ensures Valid() && sys == Run(old(sys), [Confirm(id, actor, result, usage, now)])
      ensures confirmed <==> ConfirmEnabled(old(sys), id, actor, usage)
    {
      hide Inv;
      OneMore(sys, [], Confirm(id, actor, result, usage, now));
      assert [] + [Confirm(id, actor, result, usage, now)] == [Confirm(id, actor, result, usage, now)];
      confirmed := usage >= 0 && !IsBlank(actor) && id in sys.db.tasks && sys.db.tasks[id].status == Unknown;
      if confirmed { sys := Commit(sys, ConfirmTxn(sys, id, actor, result, usage, now)); }
    }

    method RequeueUnknownAs(id: Id, actor: string, policy: string, now: int) returns (requeued: bool)
      requires Valid()
      modifies this
      ensures Valid() && sys == Run(old(sys), [Requeue(id, actor, policy, now)])
      ensures requeued <==> RequeueEnabled(old(sys), id, actor)
    {
      hide Inv;
      OneMore(sys, [], Requeue(id, actor, policy, now));
      assert [] + [Requeue(id, actor, policy, now)] == [Requeue(id, actor, policy, now)];
      requeued := !IsBlank(actor) && id in sys.db.tasks && sys.db.tasks[id].status == Unknown;
      if requeued { sys := Commit(sys, RequeueTxn(sys, id, actor, policy, now)); }
    }

    /** One local step of worker w, after the others' steps that came before it. */
    method Local(w: nat, e: Event, others: seq<Event>) returns (trace: seq<Event>)
      requires Valid() && Foreign(others, w)
      requires e in {ReadBack(w), Execute(w), Drop(w)} || (e.Check? && e.worker == w)
      modifies this
      ensures Valid() && sys == Run(old(sys), trace) && trace == others + [e]
      ensures WorkerOf(sys, w) == WorkerOf(Step(Run(old(sys), others), e), w)
      ensures WorkerOf(Run(old(sys), others), w) == WorkerOf(old(sys), w)
      ensures sys.db == Run(old(sys), others).db
      ensures forall id :: id in old(sys).db.tasks ==> id in sys.db.tasks
    {
      hide Inv, Step;
      Interleave(others);
      ForeignKeeps(old(sys), others, w);
      OneMore(old(sys), others, e);
      LocalStores(sys, e);
      RowsPersist(old(sys), others);
      sys := Step(sys, e);
      trace := others + [e];
    }

    /** What RunOnce does for a write before the Executor: check the approval, ask for live
        authorization, and record the intent.  Returns the row the worker goes on with, or
        the refusal. */
    method Prepare(w: nat, reserve: nat, authorized: bool, policy: string, now: int, others: seq<seq<Event>>)
      returns (r: Result<Task>, trace: seq<Event>)
      requires Valid() && |others| == 4 && forall i :: 0 <= i < |others| ==> Foreign(others[i], w)
      requires WorkerOf(sys, w).Holding? && WorkerOf(sys, w).row.kind == Write && WorkerOf(sys, w).row.id in sys.db.tasks
      modifies this
      ensures Valid() && SubmitsOnly(trace, others) && sys == Run(old(sys), trace) && Execute(w) !in trace
      ensures r.Ok? <==> WorkerOf(sys, w).Licensed?
      ensures var id := WorkerOf(old(sys), w).row.id;
              id in sys.db.tasks && (r.Ok? ==> r.value == sys.db.tasks[id] && r.value.id == id)
      ensures Undisturbed(others) ==> (r.Ok? ==> r.value.status == Running) && (r.Err? ==> sys.db == old(sys).db)
    {
      hide Inv, Step, ApprovalCovers, Intends, ReadBackStep, ExecuteStep, Bulk, CommitStep;
      ghost var start := sys;
      var row := WorkerOf(sys, w).row;
      trace := Local(w, Check(w, authorized, policy, now), others[0]);
      CheckResult(start, others[0], w, authorized, policy, now);
      if !WorkerOf(sys, w).Cleared? { return Err("approval does not cover this execution"), trace; }
      ghost var checked := sys;
      ReadSurvives(checked, others[1], row.id);
      Interleave(others[1]);
      ForeignKeeps(checked, others[1], w);
      RunAppend(start, trace, others[1]);
      trace := trace + others[1];
      ghost var asked := sys;
      var more;
      r, more := RecordIntent(w, row.version, reserve, now, others[2], others[3]);
      ReadSurvives(asked, more, row.id);
      ReadSurvives(sys, [], row.id);
      RunAppend(start, trace, more);
      trace := trace + more;
    }

    /** Run the Executor or drop the row. */
    method Launch(w: nat, executed: bool, others: seq<Event>) returns (trace: seq<Event>)
      requires Valid() && Foreign(others, w)
      modifies this
      ensures Valid() && SubmitsOnly(trace, [others]) && sys == Run(old(sys), trace)
      ensures WorkerOf(sys, w) == Idle && (executed <==> Execute(w) in trace)
      ensures sys.db == Run(old(sys), others).db
      ensures forall id :: id in old(sys).db.tasks ==> id in sys.db.tasks
    {
      hide Inv, Step;
      ghost var start := sys;
      var last := if executed then Execute(w) else Drop(w);
      trace := Local(w, last, others);
      assert last in trace && others == [others][0];
      if WorkerOf(sys, w) != Idle {
        DropIdles(sys, w);
        var more := Local(w, Drop(w), []);
        RunAppend(start, trace, more);
        trace := trace + more;
      }
    }

    /** The end of a pass: run the Executor or drop the row, then settle. */
    method Finish(w: nat, executed: bool, id: Id, version: int, o: Outcome, now: int, others: seq<seq<Event>>)
      returns (r: Result<Task>, trace: seq<Event>, ghost settled: Option<Event>)
      requires Valid() && |others| == 3 && forall i :: 0 <= i < |others| ==> Foreign(others[i], w)
      requires id in sys.db.tasks
      modifies this
      ensures Valid() && SubmitsOnly(trace, others) && sys == Run(old(sys), trace)
      ensures WorkerOf(sys, w) == Idle
      ensures executed <==> Execute(w) in trace
      ensures r.Ok? ==> id in sys.db.tasks && r.value == sys.db.tasks[id]
      ensures settled.Some? ==>
                trace != [] && settled.value == trace[|trace| - 1]
                && settled.value.Complete? && settled.value.outcome == o
      ensures Undisturbed(others) && o.usage >= 0 && old(sys).db.tasks[id].version == version
              && old(sys).db.tasks[id].status == Running ==>
                r.Ok? && settled.Some? && r.value.status != Running
    {
      hide Inv, Step;
      ghost var start := sys;
      settled := None;
      trace := Launch(w, executed, others[0]);
      Only(trace, [others[0]], others);
      ghost var ran := sys;
      ReadSurvives(ran, others[1], id);
      Interleave(others[1]);
      ForeignKeeps(ran, others[1], w);
      RunAppend(start, trace, others[1]);
      trace := trace + others[1];
      var before := sys;
      var read := sys.db.tasks[id];
      r := Complete(id, version, o, now, others[2]);
      if Settles(before, id, version, o) {
        var mine := others[2] + [Event.Complete(read, o, now)];
        ForeignKeeps(before, mine, w);
        RunAppend(start, trace, mine);
        trace := trace + mine;
        settled := Some(Event.Complete(read, o, now));
      }
    }

    /** RunOnce: claim, read back, prepare a write, run the Executor, and settle with the
        version the worker ended up holding; a refusal on the way is settled as a failure,
        a failing hook before the Executor as one to retry.  claimOthers and others hold
        the events of everyone else between the steps.  Returns what Complete answers and
        whether the Executor ran. */
    method RunOnce(w: nat, owner: string, leaseUntil: int, reserve: nat, hookFails: bool, authorized: bool, policy: string,
                   refusal: string, outcome: Outcome, now: int, claimOthers: seq<seq<Event>>, others: seq<seq<Event>>)
      returns (r: Result<Task>, executed: bool, trace: seq<Event>, ghost settled: Option<Event>)
      requires Valid() && WorkerOf(sys, w) == Idle && |others| == 8
      requires forall i :: 0 <= i < |claimOthers| ==> Foreign(claimOthers[i], w)
      requires forall i :: 0 <= i < |others| ==> Foreign(others[i], w)
      modifies this
      ensures Valid() && SubmitsOnly(trace, claimOthers + others) && sys == Run(old(sys), trace)
      ensures WorkerOf(sys, w) == Idle
      ensures executed <==> Execute(w) in trace
      ensures r.Ok? ==> r.value in sys.db.tasks.Values
      ensures settled.Some? ==>
                trace != [] && settled.value == trace[|trace| - 1] && settled.value.Complete?
                && settled.value.outcome == if executed then outcome else Outcome("", 0, hookFails, OtherFailure(refusal))
      ensures Undisturbed(claimOthers) && Undisturbed(others) && outcome.usage >= 0
              && Candidates(old(sys), now) != {}
              && (forall id :: id in Candidates(old(sys), now) ==> old(sys).db.tasks[id].budget >= 0) ==>
                r.Ok? && settled.Some? && r.value.status != Running
    {
      hide Inv, Step, Candidates, IsOldest, SubmitsOnly;
      ghost var start := sys;
      executed, settled := false, None;
      var won: bool;
      won, trace := Claim(w, owner, leaseUntil, now, claimOthers);
      if !won {
        Only(trace, claimOthers, claimOthers + others);
        return Err("no rows"), executed, trace, settled;
      }
      ghost var claimed := sys;
      var more: seq<Event>;
      var task;
      task, executed, more := Attempt(w, reserve, hookFails, authorized, policy, now, others[..5]);
      OnlyMore(trace, claimOthers, more, others[..5], claimOthers + others);
      RunAppend(start, trace, more);
      trace := trace + more;
      var o := if executed then outcome else Outcome("", 0, hookFails, OtherFailure(refusal));
      r, more, settled := Finish(w, executed, task.id, task.version, o, now, others[5..]);
      OnlyMore(trace, claimOthers + others, more, others[5..], claimOthers + others);
      RunAppend(start, trace, more);
      trace := trace + more;
    }

    /** The middle of a pass: read the claimed row back, call the hook, prepare a write.
        Returns the row the worker settles with and whether it goes on to the Executor. */
    method Attempt(w: nat, reserve: nat, hookFails: bool, authorized: bool, policy: string, now: int, others: seq<seq<Event>>)
      returns (task: Task, ready: bool, trace: seq<Event>)
      requires Valid() && |others| == 5 && forall i :: 0 <= i < |others| ==> Foreign(others[i], w)
      requires WorkerOf(sys, w).Won?
      modifies this
      ensures Valid() && SubmitsOnly(trace, others) && sys == Run(old(sys), trace) && Execute(w) !in trace
      ensures ready <==> !hookFails && (WorkerOf(sys, w).Licensed? || (WorkerOf(sys, w).Holding? && task.kind != Write))
      ensures task.id == WorkerOf(old(sys), w).task && task.id in sys.db.tasks
      ensures Undisturbed(others) && task.id in old(sys).db.tasks && old(sys).db.tasks[task.id].status == Running ==>
                sys.db.tasks[task.id].version == task.version && sys.db.tasks[task.id].status == Running
    {
      hide Inv, Step;
      ghost var start := sys;
      trace := Local(w, ReadBack(w), others[0]);
      ReadBackResult(start, others[0], w);
      task := WorkerOf(sys, w).row;
      ready := !hookFails;
      if !hookFails && task.kind == Write {
        var r, more := Prepare(w, reserve, authorized, policy, now, others[1..]);
        OnlyMore(trace, others, more, others[1..], others);
        RunAppend(start, trace, more);
        trace := trace + more;
        ready := r.Ok?;
        if r.Ok? { task := r.value; }
      }
    }
  }

  lemma Only(a: seq<Event>, x: seq<seq<Event>>, all: seq<seq<Event>>)
    requires SubmitsOnly(a, x) && forall i :: 0 <= i < |x| ==> x[i] in all
    ensures SubmitsOnly(a, all)
  {
    forall e | e in a && e.Submit? ensures exists i :: 0 <= i < |all| && e in all[i] {
      var i :| 0 <= i < |x| && e in x[i];
      assert x[i] in all;
    }
  }

  lemma OnlyMore(a: seq<Event>, x: seq<seq<Event>>, b: seq<Event>, y: seq<seq<Event>>, all: seq<seq<Event>>)
    requires SubmitsOnly(a, x) && SubmitsOnly(b, y)
    requires forall i :: 0 <= i < |x| ==> x[i] in all
    requires forall i :: 0 <= i < |y| ==> y[i] in all
    ensures SubmitsOnly(a + b, all)
  {
    Only(a, x, all);
    Only(b, y, all);
  }

  /** The row read back after a claim. */
  lemma ReadBackResult(s: Sys, others: seq<Event>, w: nat)
    requires Inv(s) && WorkerOf(s, w).Won? && Foreign(others, w)
    ensures var id, s1 := WorkerOf(s, w).task, Run(s, others);
            && id in s.db.tasks && id in s1.db.tasks && s1.db.tasks[id].id == id
            && WorkerOf(Step(s1, ReadBack(w)), w) == Holding(s1.db.tasks[id])
  {
    hide Step, Inv;
    var s1 := Run(s, others);
    ForeignKeeps(s, others, w);
    InvRun(s, others);
    ClaimedStored(s, w);
    ClaimedStored(s1, w);
    ReadBackGives(s1, w);
  }

  lemma ClaimedStored(s: Sys, w: nat)
    requires Inv(s) && WorkerOf(s, w).Won?
    ensures WorkerOf(s, w).task in s.db.tasks && s.db.tasks[WorkerOf(s, w).task].id == WorkerOf(s, w).task
  {
    assert WorkerOk(s, WorkerOf(s, w));
  }

  lemma ReadBackGives(s: Sys, w: nat)
    requires WorkerOf(s, w).Won? && WorkerOf(s, w).task in s.db.tasks
    ensures WorkerOf(Step(s, ReadBack(w)), w) == Holding(s.db.tasks[WorkerOf(s, w).task])
  {
  }

  lemma CheckResult(s: Sys, others: seq<Event>, w: nat, authorized: bool, policy: string, now: int)
    requires WorkerOf(s, w).Holding? && Foreign(others, w)
    ensures var s1 := Run(s, others);
            WorkerOf(Step(s1, Check(w, authorized, policy, now)), w) in {WorkerOf(s, w), Cleared(WorkerOf(s, w).row)}
  {
    ForeignKeeps(s, others, w);
  }

  lemma DropIdles(s: Sys, w: nat)
    ensures WorkerOf(Step(Run(s, []), Drop(w)), w) == Idle
  {
  }

  lemma CompletedId(t: Task, o: Outcome, now: int)
    ensures CompletedRow(t, o, now).id == t.id && CompletedRow(t, o, now).status != Running
  {
  }

  /** The conditional write of Complete is one step of the transition system. */
  lemma CompleteIsStep(s: Sys, read: Task, o: Outcome, now: int)
    requires read in s.book.rows && o.usage >= 0 && !IsTerminal(read.status)
    ensures Step(s, Event.Complete(read, o, now))
         == if read.id in s.db.tasks && s.db.tasks[read.id].version == read.version && s.db.tasks[read.id].status in {Running}
            then Commit(s, CompleteTxn(s, read, o, now)) else s
    ensures read.id in s.db.tasks ==> read.id in Step(s, Event.Complete(read, o, now)).db.tasks
  {
  }

  /** A row read before the other instances' steps is on record after them. */
  lemma ReadSurvives(s: Sys, others: seq<Event>, id: Id)
    requires Inv(s) && id in s.db.tasks
    ensures s.db.tasks[id].id == id && s.db.tasks[id] in Run(s, others).book.rows && id in Run(s, others).db.tasks
  {
    RowsPersist(s, others);
    assert Ids(s) && History(s);
  }

  lemma OneMore(s: Sys, others: seq<Event>, e: Event)
    requires Inv(s)
    ensures Run(s, others + [e]) == Step(Run(s, others), e)
    ensures Inv(Run(s, others + [e]))
  {
    hide Step, Inv;
    RunAppend(s, others, [e]);
    var s1 := Run(s, others);
    assert Run(s1, [e]) == Run(Step(s1, e), []);
    InvRun(s, others);
    InvStep(s1, e);
  }

  lemma StoresRow(s: Sys, x: Txn)
    ensures x.row.id in Commit(s, x).db.tasks && Commit(s, x).db.tasks[x.row.id] == x.row
  {
  }

  lemma CancelIsStep(s: Sys, read: Task, now: int)
    requires read in s.book.rows && !IsTerminal(read.status)
    ensures Step(s, Event.Cancel(read, now))
         == if read.id in s.db.tasks && s.db.tasks[read.id].version == read.version
               && s.db.tasks[read.id].status in {Queued, Waiting, Running}
            then Commit(s, CancelTxn(s, read, now)) else s
  {
  }

  /** The worker an event belongs to, if any. */
  predicate IsOf(e: Event, w: nat) {
    (e.Claim? || e.ReadBack? || e.Check? || e.Intent? || e.Execute? || e.Drop?) && e.worker == w
  }

  predicate Foreign(events: seq<Event>, w: nat) {
    forall i :: 0 <= i < |events| ==> !IsOf(events[i], w)
  }

  lemma ForeignStep(s: Sys, e: Event, w: nat)
    requires !IsOf(e, w)
    ensures WorkerOf(Step(s, e), w) == WorkerOf(s, w)
  {
    hide CommitStep, UpdateOf, ApprovalCovers;
    if !IsLocal(e) && !IsBulk(e) { CommitStepForeign(s, e, w); }
  }

  lemma CommitStepForeign(s: Sys, e: Event, w: nat)
    requires !IsOf(e, w)
    ensures WorkerOf(CommitStep(s, e), w) == WorkerOf(s, w)
  {
    hide TxnOf;
  }

  lemma {:induction false} ForeignKeeps(s: Sys, events: seq<Event>, w: nat)
    requires Foreign(events, w)
    ensures WorkerOf(Run(s, events), w) == WorkerOf(s, w)
    decreases |events|
  {
    hide Step, WorkerOf, IsOf;
    if events != [] {
      ForeignStep(s, events[0], w);
      ForeignKeeps(Step(s, events[0]), events[1..], w);
    }
  }

  lemma AnswerIsStep(s: Sys, w: nat, read: Task, reserve: int, now: int)
    requires WorkerOf(s, w).Cleared? && WorkerOf(s, w).row.id == read.id && WorkerOf(s, w).row.version == read.version
    requires IntentAnswersAsIs(s, read, reserve)
    ensures Step(s, Intent(w, read, reserve, now))
         == SetWorker(Commit(s, IntentTxn(s, read, reserve, now)), w, Licensed(read.id, read.approvalId))
  {
  }

  lemma IntentIsStep(s: Sys, w: nat, read: Task, reserve: int, now: int)
    requires WorkerOf(s, w).Cleared? && WorkerOf(s, w).row.id == read.id && WorkerOf(s, w).row.version == read.version
    requires read in s.book.rows && read.status == Running && read.kind == Write && reserve >= 0
    requires reserve > 0 ==> read.reserved <= 0 && read.budget >= reserve
    ensures Step(s, Intent(w, read, reserve, now))
         == if read.id in s.db.tasks && s.db.tasks[read.id].version == read.version && s.db.tasks[read.id].status in {Running}
            then SetWorker(Commit(s, IntentTxn(s, read, reserve, now)), w, Licensed(read.id, read.approvalId)) else s
    ensures IntentTxn(s, read, reserve, now).row == IntendedRow(read, reserve, s.db.next, now)
  {
  }

  /** One UPDATE over all rows. */
  function Bulked(s: Sys, e: Event): (s': Sys)
    requires IsBulk(e)
    ensures s' == Step(s, e)
  {
    Bulk(s, UpdateOf(e))
  }

  lemma ClaimIsStep(s: Sys, w: nat, read: Task, owner: string, until: int, now: int)
    requires read in s.book.rows && read.budget >= 0 && WorkerOf(s, w) == Idle
    ensures Step(s, Event.Claim(w, read, owner, until, now))
         == if read.id in s.db.tasks && s.db.tasks[read.id].version == read.version && s.db.tasks[read.id].status == Queued
            then SetWorker(Commit(s, ClaimTxn(s, read.id, owner, until, now)), w, Won(read.id)) else s
  {
  }

  lemma SubmitIsStep(s: Sys, template: Task, policy: string, now: int)
    requires !IsBlank(template.tenant) && !IsBlank(template.key)
    ensures Step(s, Event.Submit(template, policy, now))
         == if KeyTaken(s.db, template.tenant, template.key) then s else Commit(s, SubmitTxn(s, template, policy, now))
  {
  }

  lemma ApproveIsStep(s: Sys, a: Id, picked: Id, operator: string, args: string, policy: string, now: int)
    requires ApproveEnabled(s, a, picked, operator, args, policy, now)
    ensures Step(s, Event.Approve(a, picked, operator, args, policy, now)) == Commit(s, ApproveTxn(s, a, picked, operator, now))
    ensures var s' := Commit(s, ApproveTxn(s, a, picked, operator, now));
            && s.db.tasks[picked].id in s'.db.tasks
            && s'.db.tasks[s.db.tasks[picked].id] == ApprovedRow(s.db.tasks[picked], now)
            && s.db.approvals[a].id in s'.db.approvals && s'.db.approvals[s.db.approvals[a].id].consumed
            && s'.db.approvals[s.db.approvals[a].id].consumedBy == operator
  {
  }

  /** What Approve has checked about an approval cannot change before it is consumed. */
  predicate SameTerms(a: Approval, a': Approval) {
    a'.id == a.id && a'.expiresAt == a.expiresAt && a'.argsHash == a.argsHash && a'.policyVersion == a.policyVersion
  }

  lemma InvIds(s: Sys)
    requires Inv(s)
    ensures Ids(s)
  {
  }

  lemma ApprovalId(s: Sys, a: Id)
    requires Ids(s) && a in s.db.approvals
    ensures s.db.approvals[a].id == a
  {
  }

  lemma TermsStep(s: Sys, e: Event, a: Id)
    requires Ids(s) && a in s.db.approvals
    ensures a in Step(s, e).db.approvals && SameTerms(s.db.approvals[a], Step(s, e).db.approvals[a])
  {
    hide Ids, CommitStep, UpdateOf, ReadBackStep, CheckStep, ExecuteStep;
    if IsLocal(e) {
      LocalStores(s, e);
    } else if !IsBulk(e) {
      CommitStepTerms(s, e, a);
    }
  }

  lemma CommitStepTerms(s: Sys, e: Event, a: Id)
    requires Ids(s) && a in s.db.approvals
    ensures a in CommitStep(s, e).db.approvals && SameTerms(s.db.approvals[a], CommitStep(s, e).db.approvals[a])
  {
    hide Ids, TxnOf;
    if TxnOf(s, e).Some? { TxnTerms(s, e, a); }
  }

  lemma TxnTerms(s: Sys, e: Event, a: Id)
    requires Ids(s) && a in s.db.approvals && TxnOf(s, e).Some?
    ensures TxnOf(s, e).value.approval.Some? && TxnOf(s, e).value.approval.value.id == a ==>
              SameTerms(s.db.approvals[a], TxnOf(s, e).value.approval.value)
  {
    hide ArgsHash, IsBlank, KeyTaken, UsesOf, TallyOf, CompletedRow, CanceledRow, IntendedRow, Matches;
  }

  lemma {:induction false} ApprovalKeepsScope(s: Sys, events: seq<Event>, a: Id)
    requires Inv(s) && a in s.db.approvals
    ensures a in Run(s, events).db.approvals && SameTerms(s.db.approvals[a], Run(s, events).db.approvals[a])
    ensures s.db.approvals[a].id == a
    decreases |events|
  {
    hide Inv, Step, Ids;
    InvIds(s);
    ApprovalId(s, a);
    if events != [] {
      TermsStep(s, events[0], a);
      InvStep(s, events[0]);
      ApprovalKeepsScope(Step(s, events[0]), events[1..], a);
    }
  }
}
