/** Where the promises of the task store end, for every write that can be submitted: one
    approval and two executions without the missing check, and, with the check, exactly
    for the submissions that carry a reservation but no nonce. */
module TaskCounterexamples {
  import opened Wrappers
  import opened TaskModel
  import opened TaskInvariant
  import opened TaskTheorems

  /** A write that Submit accepts and that Claim's SELECT returns at time `now`, once it is
      approved. */
  predicate Startable(template: Task, now: int) {
    && template.kind == Write && !IsBlank(template.tenant) && !IsBlank(template.key)
    && template.budget >= 0 && Claimable(template.(status := Queued), now)
  }

  /** The run submits this write and nothing else. */
  predicate OneSubmission(events: seq<Event>, template: Task, policy: string, now: int) {
    && events != [] && events[0] == Submit(template, policy, now)
    && forall i :: 0 < i < |events| ==> !events[i].Submit?
  }

  /** The stored row once it is approved; its identifier is 1, that of its approval 2. */
  function Stored(template: Task, policy: string, now: int): Task {
    SubmittedRow(EMPTY, template, policy, now).(status := Queued)
  }

  /** An operator who is not the owner. */
  function Operator(owner: string): string {
    if owner == "a" then "b" else "a"
  }

  function Approved(t: Task, policy: string, now: int): Approval {
    NewApproval(2, t, policy, now).(consumed := true, operator := Operator(t.owner), consumedBy := Operator(t.owner))
  }

  /** The one task of the runs below, with everything a next step looks at. */
  ghost predicate At(s: Sys, t: Task, a: Approval, licences: nat, runs: nat, ws: map<nat, Worker>) {
    && s.db.tasks == map[1 := t] && t.id == 1 && t in s.book.rows && t.approvalId == 2 && t.kind == Write
    && s.db.approvals == map[2 := a] && s.book.forTask == map[2 := 1] && a.consumed && InScope(a, t)
    && s.db.next >= 3
    && TallyOf(s, 1).licences == licences && TallyOf(s, 1).runs == runs
    && s.book.workers == ws
  }

  predicate IdleIn(ws: map<nat, Worker>, w: nat) {
    w !in ws || ws[w] == Idle
  }

  // ----- one step each -----

  lemma SubmitAt(template: Task, policy: string, now: int)
    requires Startable(template, now)
    ensures var s, row := Step(EMPTY, Submit(template, policy, now)), Stored(template, policy, now).(status := Waiting);
            && s.db.tasks == map[1 := row] && s.db.approvals == map[2 := NewApproval(2, row, policy, now)]
            && s.book.forTask == map[2 := 1] && s.db.next == 3 && s.book.workers == map[]
            && TallyOf(s, 1).licences == 0 && TallyOf(s, 1).runs == 0
  {
    hide ArgsHash, IsBlank;
  }

  lemma ApproveAt(s: Sys, t: Task, args: string, policy: string, now: int)
    requires s.db.tasks == map[1 := t.(status := Waiting)] && s.db.approvals == map[2 := NewApproval(2, t, policy, now)]
    requires s.book.forTask == map[2 := 1] && s.db.next == 3 && s.book.workers == map[]
    requires TallyOf(s, 1).licences == 0 && TallyOf(s, 1).runs == 0
    requires t.id == 1 && t.approvalId == 2 && t.kind == Write && t.status == Queued && t.argsHash == ArgsHash(args)
    requires t.updatedAt == now && !IsBlank(Operator(t.owner))
    ensures At(Step(s, Approve(2, 1, Operator(t.owner), args, policy, now)), t, Approved(t, policy, now), 0, 0, map[])
  {
    hide ArgsHash, IsBlank;
    var s' := Step(s, Approve(2, 1, Operator(t.owner), args, policy, now));
    assert s'.db.tasks == map[1 := t];
    assert s'.db.approvals == map[2 := Approved(t, policy, now)];
  }

  lemma ScopeOf(a: Approval, t: Task, t': Task)
    requires InScope(a, t) && SameWork(t, t')
    ensures InScope(a, t')
  {
  }

  lemma ClaimAt(s: Sys, t: Task, a: Approval, l: nat, r: nat, ws: map<nat, Worker>, w: nat, now: int)
    requires At(s, t, a, l, r, ws) && IdleIn(ws, w) && t.status == Queued && t.budget >= 0
    ensures At(Step(s, Claim(w, t, "w", now, now)), ClaimedRow(t, "w", now, now), a, l, r, ws[w := Won(1)])
  {
    hide UsesOf, InScope, ArgsHash, IsBlank;
    var claimed := ClaimedRow(t, "w", now, now);
    assert InScope(a, claimed) by { ScopeOf(a, t, claimed); }
  }

  lemma ReadBackAt(s: Sys, t: Task, a: Approval, l: nat, r: nat, ws: map<nat, Worker>, w: nat)
    requires At(s, t, a, l, r, ws) && w in ws && ws[w] == Won(1)
    ensures At(Step(s, ReadBack(w)), t, a, l, r, ws[w := Holding(t)])
  {
  }

  lemma CheckAt(s: Sys, t: Task, a: Approval, l: nat, r: nat, ws: map<nat, Worker>, w: nat, policy: string, now: int)
    requires At(s, t, a, l, r, ws) && w in ws && ws[w] == Holding(t) && now <= a.expiresAt && policy == a.policyVersion
    ensures At(Step(s, Check(w, true, policy, now)), t, a, l, r, ws[w := Cleared(t)])
  {
  }

  /** RecordIntent writes the row. */
  lemma RecordAt(s: Sys, t: Task, a: Approval, l: nat, r: nat, ws: map<nat, Worker>, w: nat, now: int)
    requires At(s, t, a, l, r, ws) && w in ws && ws[w] == Cleared(t) && t.status == Running
    ensures At(Step(s, Intent(w, t, 0, now)), IntendedRow(t, 0, s.db.next, now), a, l + 1, r, ws[w := Licensed(1, 2)])
  {
  }

  /** Reserve answers with the row as it is. */
  lemma ReservedAt(s: Sys, t: Task, a: Approval, l: nat, r: nat, ws: map<nat, Worker>, w: nat, now: int)
    requires At(s, t, a, l, r, ws) && w in ws && ws[w] == Cleared(t) && t.status == Running && t.reserved > 0
    ensures At(Step(s, Intent(w, t, 1, now)), t, a, l + 1, r, ws[w := Licensed(1, 2)])
  {
    assert s.db.tasks[1 := t] == s.db.tasks;
  }

  lemma ExecuteAt(s: Sys, t: Task, a: Approval, l: nat, r: nat, ws: map<nat, Worker>, w: nat)
    requires At(s, t, a, l, r, ws) && w in ws && ws[w] == Licensed(1, 2)
    ensures At(Step(s, Execute(w)), t, a, l, r + 1, ws[w := Idle])
  {
  }

  lemma RecoverAt(s: Sys, t: Task, a: Approval, l: nat, r: nat, ws: map<nat, Worker>, now: int)
    requires At(s, t, a, l, r, ws) && t.status == Running && t.leaseExpires <= now && t.nonce == 0
    ensures At(Step(s, RecoverIdle(now)), RecoveredIdleRow(t, now), a, l, r, ws)
  {
    var s' := Step(s, RecoverIdle(now));
    assert s'.db.tasks.Keys == {1};
    assert s'.db.tasks[1] == RecoveredIdleRow(t, now);
    assert 1 in s.db.tasks;
  }

  lemma OneConsumed(s: Sys, t: Task, a: Approval, l: nat, r: nat, ws: map<nat, Worker>)
    requires At(s, t, a, l, r, ws)
    ensures |ConsumedFor(s, 1)| == 1
  {
    assert ConsumedFor(s, 1) == {2};
  }

  // ----- runs -----

  lemma {:induction false} GuardedAppend(s: Sys, events: seq<Event>, e: Event)
    ensures Guarded(s, events + [e]) <==> Guarded(s, events) && HoldsFreshRow(Run(s, events), e)
    decreases |events|
  {
    hide Step, HoldsFreshRow;
    if events == [] {
      assert events + [e] == [e];
      assert [e][1..] == [];
      assert Guarded(Step(s, e), []);
    } else {
      assert (events + [e])[1..] == events[1..] + [e];
      GuardedAppend(Step(s, events[0]), events[1..], e);
    }
  }

  /** A run of one submission that has led to state `s`. */
  ghost predicate Led(s: Sys, events: seq<Event>, template: Task, policy: string, now: int) {
    s == Run(EMPTY, events) && OneSubmission(events, template, policy, now)
  }

  /** One more event. */
  lemma Advance(s: Sys, events: seq<Event>, e: Event, template: Task, policy: string, now: int)
    returns (s': Sys, events': seq<Event>)
    requires Led(s, events, template, policy, now) && !e.Submit?
    ensures s' == Step(s, e) && Led(s', events', template, policy, now)
    ensures Guarded(EMPTY, events') <==> Guarded(EMPTY, events) && HoldsFreshRow(s, e)
  {
    hide Step, HoldsFreshRow;
    RunAppend(EMPTY, events, [e]);
    GuardedAppend(EMPTY, events, e);
    s', events' := Step(s, e), events + [e];
    assert Run(s, [e]) == Run(Step(s, e), []);
  }

  lemma Opening(template: Task, policy: string, now: int) returns (s: Sys, events: seq<Event>)
    requires Startable(template, now)
    ensures Led(s, events, template, policy, now) && Guarded(EMPTY, events)
    ensures var t := Stored(template, policy, now); At(s, t, Approved(t, policy, now), 0, 0, map[])
  {
    hide Step, At, ArgsHash;
    var t := Stored(template, policy, now);
    events := [Submit(template, policy, now)];
    s := Step(EMPTY, events[0]);
    assert Run(s, []) == s && events[1..] == [] && Guarded(s, []);
    SubmitAt(template, policy, now);
    assert !IsBlank("a") by { assert "a"[0] == 'a'; }
    assert !IsBlank("b") by { assert "b"[0] == 'b'; }
    ApproveAt(s, t, template.args, policy, now);
    s, events := Advance(s, events, Approve(2, 1, Operator(t.owner), template.args, policy, now), template, policy, now);
  }

  /** A worker that won its claim reads back, passes the approval check and calls Reserve
      or RecordIntent.  Only the guard on its row decides whether the run stays guarded. */
  lemma Licenses(s: Sys, events: seq<Event>, t: Task, a: Approval, l: nat, ws: map<nat, Worker>, w: nat,
                 template: Task, policy: string, now: int)
    returns (s': Sys, events': seq<Event>, t': Task)
    requires Led(s, events, template, policy, now) && At(s, t, a, l, 0, ws) && w in ws && ws[w] == Won(1)
    requires t.status == Running && now <= a.expiresAt && policy == a.policyVersion
    ensures Led(s', events', template, policy, now) && At(s', t', a, l + 1, 0, ws[w := Licensed(1, 2)])
    ensures if t.reserved > 0 then t' == t else t' == IntendedRow(t, 0, t'.nonce, now) && t'.nonce != 0
    ensures Guarded(EMPTY, events') <==> Guarded(EMPTY, events) && t.nonce == 0
  {
    hide Step, At;
    ReadBackAt(s, t, a, l, 0, ws, w);
    s', events' := Advance(s, events, ReadBack(w), template, policy, now);
    CheckAt(s', t, a, l, 0, ws[w := Holding(t)], w, policy, now);
    s', events' := Advance(s', events', Check(w, true, policy, now), template, policy, now);
    assert ws[w := Holding(t)][w := Cleared(t)] == ws[w := Cleared(t)];
    assert ws[w := Cleared(t)][w := Licensed(1, 2)] == ws[w := Licensed(1, 2)];
    GrantsAt(s', t, a, l, ws[w := Cleared(t)], w, now);
    if t.reserved > 0 {
      ReservedAt(s', t, a, l, 0, ws[w := Cleared(t)], w, now);
      s', events' := Advance(s', events', Intent(w, t, 1, now), template, policy, now);
      t' := t;
    } else {
      RecordAt(s', t, a, l, 0, ws[w := Cleared(t)], w, now);
      t' := IntendedRow(t, 0, s'.db.next, now);
      s', events' := Advance(s', events', Intent(w, t, 0, now), template, policy, now);
    }
  }

  lemma GrantsAt(s: Sys, t: Task, a: Approval, l: nat, ws: map<nat, Worker>, w: nat, now: int)
    requires At(s, t, a, l, 0, ws) && w in ws && ws[w] == Cleared(t) && t.status == Running
    ensures s.db.next > 0
    ensures if t.reserved > 0 then HoldsFreshRow(s, Intent(w, t, 1, now)) <==> t.nonce == 0
            else HoldsFreshRow(s, Intent(w, t, 0, now)) <==> t.nonce == 0
  {
  }

  lemma BothExecute(s: Sys, events: seq<Event>, t: Task, a: Approval, ws: map<nat, Worker>,
                    template: Task, policy: string, now: int)
    returns (s': Sys, events': seq<Event>)
    requires Led(s, events, template, policy, now)
    requires At(s, t, a, 2, 0, ws) && 0 in ws && 1 in ws && ws[0] == ws[1] == Licensed(1, 2)
    ensures Led(s', events', template, policy, now) && (Guarded(EMPTY, events') <==> Guarded(EMPTY, events))
    ensures TallyOf(s', 1).runs == 2 && |ConsumedFor(s', 1)| == 1
  {
    hide Step, At;
    ExecuteAt(s, t, a, 2, 0, ws, 1);
    s', events' := Advance(s, events, Execute(1), template, policy, now);
    ExecuteAt(s', t, a, 2, 1, ws[1 := Idle], 0);
    s', events' := Advance(s', events', Execute(0), template, policy, now);
    OneConsumed(s', t, a, 2, 2, ws[1 := Idle][0 := Idle]);
    Runs(s', t, a, 2, 2, ws[1 := Idle][0 := Idle]);
  }

  lemma Runs(s: Sys, t: Task, a: Approval, l: nat, r: nat, ws: map<nat, Worker>)
    requires At(s, t, a, l, r, ws)
    ensures TallyOf(s, 1).runs == r
  {
  }

  /** Every write submitted without a nonce can execute twice under one approval.  Worker 0
      stalls between winning its claim and reading the row back; its lease runs out, the
      task is requeued, and worker 1 claims it and records its intent.  Worker 0 then reads
      back the row of worker 1, nonce included, records an intent of its own, and both
      execute. */
  lemma ExecutedTwice(template: Task, policy: string, now: int) returns (events: seq<Event>)
    requires Startable(template, now) && FreshTemplate(template)
    ensures OneSubmission(events, template, policy, now) && AllFresh(events) && !Guarded(EMPTY, events)
    ensures TallyOf(Run(EMPTY, events), 1).runs == 2 && |ConsumedFor(Run(EMPTY, events), 1)| == 1
  {
    hide Step, At;
    var s;
    s, events := Opening(template, policy, now);
    var t := Stored(template, policy, now);
    var a := Approved(t, policy, now);
    ClaimAt(s, t, a, 0, 0, map[], 0, now);
    s, events := Advance(s, events, Claim(0, t, "w", now, now), template, policy, now);
    t := ClaimedRow(t, "w", now, now);
    var ws: map<nat, Worker> := map[0 := Won(1)];
    RecoverAt(s, t, a, 0, 0, ws, now);
    s, events := Advance(s, events, RecoverIdle(now), template, policy, now);
    t := RecoveredIdleRow(t, now);
    ClaimAt(s, t, a, 0, 0, ws, 1, now);
    s, events := Advance(s, events, Claim(1, t, "w", now, now), template, policy, now);
    t := ClaimedRow(t, "w", now, now);
    ws := ws[1 := Won(1)];
    s, events, t := Licenses(s, events, t, a, 0, ws, 1, template, policy, now);
    ws := ws[1 := Licensed(1, 2)];
    s, events, t := Licenses(s, events, t, a, 1, ws, 0, template, policy, now);
    s, events := BothExecute(s, events, t, a, ws[0 := Licensed(1, 2)], template, policy, now);
  }

  /** Every write submitted with a reservation but no nonce executes twice under one
      approval in a guarded run: Reserve answers without recording an intent, recovery
      requeues the task, and it executes again. */
  lemma ExecutedTwiceUnlessMild(template: Task, policy: string, now: int) returns (events: seq<Event>)
    requires Startable(template, now) && !Mild(template)
    ensures OneSubmission(events, template, policy, now) && Guarded(EMPTY, events)
    ensures TallyOf(Run(EMPTY, events), 1).runs == 2 && |ConsumedFor(Run(EMPTY, events), 1)| == 1
  {
    hide Step, At;
    var s;
    s, events := Opening(template, policy, now);
    var t := Stored(template, policy, now);
    var a := Approved(t, policy, now);
    ClaimAt(s, t, a, 0, 0, map[], 0, now);
    s, events := Advance(s, events, Claim(0, t, "w", now, now), template, policy, now);
    t := ClaimedRow(t, "w", now, now);
    var ws: map<nat, Worker> := map[0 := Won(1)];
    s, events, t := Licenses(s, events, t, a, 0, ws, 0, template, policy, now);
    ws := ws[0 := Licensed(1, 2)];
    RecoverAt(s, t, a, 1, 0, ws, now);
    s, events := Advance(s, events, RecoverIdle(now), template, policy, now);
    t := RecoveredIdleRow(t, now);
    ClaimAt(s, t, a, 1, 0, ws, 1, now);
    s, events := Advance(s, events, Claim(1, t, "w", now, now), template, policy, now);
    t := ClaimedRow(t, "w", now, now);
    ws := ws[1 := Won(1)];
    s, events, t := Licenses(s, events, t, a, 1, ws, 1, template, policy, now);
    s, events := BothExecute(s, events, t, a, ws[1 := Licensed(1, 2)], template, policy, now);
  }

  lemma StaysWrite(events: seq<Event>, template: Task, policy: string, now: int)
    requires Startable(template, now) && OneSubmission(events, template, policy, now)
    ensures 1 in Run(EMPTY, events).db.tasks && Run(EMPTY, events).db.tasks[1].kind == Write
  {
    var s := Step(EMPTY, events[0]);
    assert 1 in s.db.tasks && s.db.tasks[1].kind == Write && s.db.tasks[1] in s.book.rows && s.db.tasks[1].id == 1 by {
      SubmitAt(template, policy, now);
    }
    EmptyInv();
    InvStep(EMPTY, events[0]);
    InvRun(s, events[1..]);
    RowsPersist(s, events[1..]);
    InvParts(Run(s, events[1..]));
    assert SameWork(s.db.tasks[1], Run(s, events[1..]).db.tasks[1]);
  }

  /** With the check, a submitted write executes at most once per consumed approval in
      every run exactly when it is not submitted with a reservation but no nonce. */
  lemma BoundedIffMild(template: Task, policy: string, now: int)
    requires Startable(template, now)
    ensures (forall events :: OneSubmission(events, template, policy, now) && Guarded(EMPTY, events) ==>
               TallyOf(Run(EMPTY, events), 1).runs <= |ConsumedFor(Run(EMPTY, events), 1)|)
            <==> Mild(template)
  {
    hide Guarded, Run, Step;
    if Mild(template) {
      forall events | OneSubmission(events, template, policy, now) && Guarded(EMPTY, events)
        ensures TallyOf(Run(EMPTY, events), 1).runs <= |ConsumedFor(Run(EMPTY, events), 1)|
      {
        StaysWrite(events, template, policy, now);
        ExecutionsBounded(events, 1);
      }
    } else {
      var events := ExecutedTwiceUnlessMild(template, policy, now);
    }
  }
}
