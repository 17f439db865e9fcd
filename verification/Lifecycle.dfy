/** The strict component lifecycle: start in registration order, roll back on failure,
    stop in reverse order with resumable, deadline-bounded attempts.

    A shutdown attempt runs in its own goroutine and may finish at any moment, during
    this call or a later one, or never; a context may expire at any moment.  Both are
    left to the environment (methods Settle, Expire, Wait and Init). */
module Lifecycle {
  import opened Wrappers

  datatype Kind = ContextAware | Legacy | Plain

  /** A context: one that never ends, one that has not ended yet but may, or one that has. */
  datatype Context = Endless | Open | Ended

  /** What may become of a context. */
  predicate Follows(c: Context, c': Context) {
    c' == c || (c == Open && c' == Ended)
  }

  datatype StopState = Pending | Stopping | RetryPending | Stopped | StoppedWithError

  /** How a shutdown attempt ends; `ofContext` says that the error is the error of the
      context the attempt was given. */
  datatype Outcome = Success | Failure(code: nat, ofContext: bool)

  datatype Attempt = InFlight | Done(outcome: Outcome)

  /** One registered component.  The last six fields are history: shutdown calls begun and
      context errors observed since the last start, shutdown calls still running, Init
      calls, how the last shutdown call that has ended did end, and whether the last one
      begun was given a context that never ends. */
  datatype Entry = Entry(
    kind: Kind, initializer: bool, prestarted: bool, active: bool,
    started: bool, stopState: StopState, attempt: Option<Attempt>, terminalErr: Option<nat>, legacyStarted: bool,
    begun: nat, retried: nat, running: nat, inits: nat, ended: Option<Outcome>, unhurried: bool)

  datatype State = New | Starting | Started | Halting | Halted

  datatype Problem =
    | InitNotStarted(index: nat)
    | InitFailed(index: nat, code: nat)
    | StopNotStarted(index: nat)
    | StopInterrupted(index: nat)
    | StopFailed(index: nat, code: nat)
    | AfterStop

  // ----- what holds of one entry, and of all of them -----

  predicate Terminal(e: Entry) {
    e.stopState == Stopped || e.stopState == StoppedWithError
  }

  /** At most one shutdown call runs, and it is the recorded attempt; a component is
      attempted again only after a context error; a legacy shutdown begins once. */
  predicate EntryOk(e: Entry) {
    && e.running == (if e.attempt == Some(InFlight) then 1 else 0)
    && (!e.started ==> e.stopState == Pending)
    && (e.stopState == Pending ==> e.attempt == None && !e.legacyStarted && e.begun == 0 && e.retried == 0)
    && (e.terminalErr.Some? <==> e.stopState == StoppedWithError)
    && EndOk(e)
    && match e.kind
       case ContextAware =>
         && !e.legacyStarted
         && (e.stopState == Stopping <==> e.attempt.Some?)
         && (e.stopState == RetryPending ==> e.begun == e.retried)
         && (e.stopState == Stopping || Terminal(e) ==> e.begun == e.retried + 1)
       case Legacy =>
         && (e.legacyStarted <==> e.attempt.Some?) && (e.legacyStarted <==> e.stopState != Pending)
         && e.stopState != RetryPending
         && e.begun == (if e.legacyStarted then 1 else 0) && e.retried == 0
         && (Terminal(e) ==> e.attempt != Some(InFlight))
       case Plain => e.attempt == None && e.begun == 0 && (e.stopState == Pending || e.stopState == Stopped)
  }

  /** The state is the one the last ended shutdown call calls for: stopped after a success,
      to be retried after a context error, stopped with its error otherwise. */
  predicate EndOk(e: Entry) {
    && (e.unhurried && e.kind == ContextAware && e.ended.Some? ==> !OfContext(e.ended.value))
    && (e.attempt == Some(InFlight) || e.stopState == Pending || e.kind == Plain ==> e.ended == None)
    && (e.attempt.Some? && e.attempt.value.Done? ==> e.ended == Some(e.attempt.value.outcome))
    && (e.stopState == RetryPending ==> e.ended.Some? && e.ended.value.Failure? && e.ended.value.ofContext)
    && (Terminal(e) && e.kind != Plain ==>
          && e.ended.Some? && (e.stopState == Stopped <==> e.ended.value.Success?)
          && (e.ended.value.Failure? ==> e.terminalErr == Some(e.ended.value.code))
          && (e.kind == ContextAware && e.ended.value.Failure? ==> !e.ended.value.ofContext))
  }

  /** The shutdown of a component has begun only if every started component registered
      after it is terminally stopped. */
  predicate Ordered(es: seq<Entry>) {
    forall i, j :: 0 <= i < j < |es| && es[i].begun > 0 && es[j].started ==> Terminal(es[j])
  }

  predicate AllOk(es: seq<Entry>) {
    forall i :: 0 <= i < |es| ==> EntryOk(es[i])
  }

  predicate AllTerminal(es: seq<Entry>) {
    forall i :: 0 <= i < |es| && es[i].started ==> Terminal(es[i])
  }

  predicate AllPending(es: seq<Entry>) {
    forall i :: 0 <= i < |es| ==> es[i].stopState == Pending
  }

  /** The error is that of a context which has ended. */
  predicate OfContext(o: Outcome) {
    o.Failure? && o.ofContext
  }

  /** Running attempts may have finished; nothing else changed. */
  predicate SettledEntry(e: Entry, e': Entry) {
    || e' == e
    || (e.attempt == Some(InFlight) && e'.attempt.Some? && e'.attempt.value.Done? && e.running > 0
        && (e.unhurried ==> !OfContext(e'.attempt.value.outcome))
        && e' == e.(attempt := e'.attempt, running := e.running - 1, ended := Some(e'.attempt.value.outcome)))
  }

  /** Nothing but finished attempts changed, except perhaps at index i. */
  predicate Beside(es: seq<Entry>, es': seq<Entry>, i: nat) {
    |es'| == |es| && forall j :: 0 <= j < |es| && j != i ==> SettledEntry(es[j], es'[j])
  }

  predicate Settled(es: seq<Entry>, es': seq<Entry>) {
    |es'| == |es| && forall i :: 0 <= i < |es| ==> SettledEntry(es[i], es'[i])
  }

  /** What a stop pass may do to one entry: terminal states stay, registration data stay,
      and at most one shutdown call begins. */
  predicate StoppedFrom(e: Entry, e': Entry) {
    && e'.kind == e.kind && e'.initializer == e.initializer && e'.prestarted == e.prestarted
    && e'.active == e.active && e'.started == e.started && e'.inits == e.inits
    && (Terminal(e) ==> e'.stopState == e.stopState && e'.terminalErr == e.terminalErr && e'.begun == e.begun)
    && e.begun <= e'.begun <= e.begun + 1
    && (!e.started ==> e'.stopState == e.stopState && e'.begun == e.begun)
  }

  predicate StopPass(es: seq<Entry>, es': seq<Entry>) {
    |es'| == |es| && forall i :: 0 <= i < |es| ==> StoppedFrom(es[i], es'[i])
  }

  /** The entry a failed start leaves behind when it can be retried. */
  function ResetEntry(e: Entry): Entry {
    e.(started := false, stopState := Pending, attempt := None, terminalErr := None, legacyStarted := false,
       begun := 0, retried := 0, ended := None, unhurried := false)
  }

  /** The terminal errors from an index on, in registration order. */
  function TerminalErrors(es: seq<Entry>, from: nat): seq<Problem>
    decreases |es| - from
  {
    if from >= |es| then []
    else
      (if es[from].terminalErr.Some? then [StopFailed(from, es[from].terminalErr.value)] else [])
      + TerminalErrors(es, from + 1)
  }

  /** The active initializers among the first entries, in registration order. */
  function Initializers(es: seq<Entry>): seq<nat> {
    if es == [] then []
    else
      Initializers(es[..|es| - 1])
      + (if es[|es| - 1].active && es[|es| - 1].initializer then [|es| - 1] else [])
  }

  /** All entries sound, and shutdowns in order. */
  predicate Sound(es: seq<Entry>) {
    AllOk(es) && Ordered(es)
  }

  /** Every later started component is terminally stopped: the component at i may be
      stopped now. */
  predicate Turn(es: seq<Entry>, i: nat) {
    i < |es| && es[i].started && forall j :: i < j < |es| && es[j].started ==> Terminal(es[j])
  }

  /** What one visit to the entry at i achieves. */
  predicate Visited(es: seq<Entry>, es': seq<Entry>, i: nat, problem: Option<Problem>, complete: bool) {
    && Sound(es') && Turn(es', i) && Beside(es, es', i) && StoppedFrom(es[i], es'[i])
    && (complete <==> Terminal(es'[i]))
    && problem == (if !complete then Some(StopInterrupted(i))
                   else if es'[i].terminalErr.Some? then Some(StopFailed(i, es'[i].terminalErr.value)) else None)
  }

  /** The terminal errors a pass met, in the order it visits the entries. */
  function PassErrors(es: seq<Entry>, es': seq<Entry>, from: nat): seq<Problem>
    requires |es| == |es'|
    decreases |es| - from
  {
    if from >= |es| then []
    else
      PassErrors(es, es', from + 1)
      + (if es[from].started && !Terminal(es[from]) && es'[from].terminalErr.Some?
         then [StopFailed(from, es'[from].terminalErr.value)] else [])
  }

  // ----- how updates keep the invariants -----

  lemma SettledKeepsEntry(e: Entry, e': Entry)
    requires EntryOk(e) && SettledEntry(e, e')
    ensures EntryOk(e') && e'.started == e.started && e'.begun == e.begun && Terminal(e') == Terminal(e)
    ensures StoppedFrom(e, e') && e'.terminalErr == e.terminalErr && e'.kind == e.kind && e'.stopState == e.stopState
  {
  }

  lemma SettledKeepsSound(es: seq<Entry>, es': seq<Entry>)
    requires Sound(es) && Settled(es, es')
    ensures Sound(es')
    ensures forall i: nat :: Turn(es, i) ==> Turn(es', i)
    ensures AllPending(es) ==> AllPending(es')
    ensures AllTerminal(es) ==> AllTerminal(es')
  {
    hide EntryOk, Terminal, SettledEntry, StoppedFrom;
    forall i | 0 <= i < |es|
      ensures EntryOk(es'[i]) && es'[i].started == es[i].started && es'[i].begun == es[i].begun
              && Terminal(es'[i]) == Terminal(es[i]) && es'[i].stopState == es[i].stopState
    {
      SettledKeepsEntry(es[i], es'[i]);
    }
  }

  lemma BesideTrans(es: seq<Entry>, mid: seq<Entry>, es': seq<Entry>, i: nat)
    requires Beside(es, mid, i) && Beside(mid, es', i)
    ensures Beside(es, es', i)
  {
    forall j | 0 <= j < |es| && j != i ensures SettledEntry(es[j], es'[j]) {
      assert SettledEntry(es[j], mid[j]) && SettledEntry(mid[j], es'[j]);
    }
  }

  lemma PutKeeps(es0: seq<Entry>, es: seq<Entry>, i: nat, e: Entry)
    requires Sound(es) && Turn(es, i) && Beside(es0, es, i)
    requires EntryOk(e) && e.started && !Terminal(es[i])
    ensures Sound(es[i := e]) && Turn(es[i := e], i) && Beside(es0, es[i := e], i)
  {
    hide EntryOk, Terminal, SettledEntry;
    assert EntryOk(es[i]);
  }

  lemma WaitKeeps(es0: seq<Entry>, es: seq<Entry>, es': seq<Entry>, i: nat)
    requires Sound(es) && Turn(es, i) && Beside(es0, es, i) && Settled(es, es')
    ensures |es'| == |es| && Sound(es') && Turn(es', i) && Beside(es0, es', i) && SettledEntry(es[i], es'[i])
    ensures EntryOk(es'[i])
  {
    SettledKeepsSound(es, es');
    BesideTrans(es0, es, es', i);
  }

  lemma RunningOne(es: seq<Entry>, i: nat)
    requires Sound(es) && i < |es| && es[i].attempt == Some(InFlight)
    ensures es[i].running > 0
  {
    assert EntryOk(es[i]);
  }

  lemma FinishSettles(es: seq<Entry>, mid: seq<Entry>, es': seq<Entry>, i: nat)
    requires Settled(es, mid) && i < |mid| == |es'| && es' == mid[i := es'[i]] && SettledEntry(mid[i], es'[i])
    ensures Settled(es, es')
  {
    assert SettledEntry(es[i], mid[i]);
  }

  lemma PendingSound(es: seq<Entry>)
    requires AllOk(es) && AllPending(es)
    ensures Sound(es)
  {
    forall i | 0 <= i < |es| ensures es[i].begun == 0 {
      assert EntryOk(es[i]) && es[i].stopState == Pending;
    }
  }

  // ----- one attempt -----

  /** A shutdown call begins in its own goroutine; a legacy one gets no context. */
  function BeginAttempt(e: Entry, c: Context): Entry {
    e.(attempt := Some(InFlight), stopState := Stopping, legacyStarted := e.kind == Legacy,
       begun := e.begun + 1, running := e.running + 1, ended := None, unhurried := e.kind == Legacy || c == Endless)
  }

  /** The outcome of a finished attempt is recorded. */
  function EndAttempt(e: Entry, outcome: Outcome): Entry {
    var ended := if e.kind == ContextAware then e.(attempt := None) else e;
    match outcome
    case Success => ended.(stopState := Stopped)
    case Failure(code, ofContext) =>
      if e.kind == ContextAware && ofContext then ended.(stopState := RetryPending, retried := e.retried + 1)
      else ended.(stopState := StoppedWithError, terminalErr := Some(code))
  }

  lemma BeginAttemptOk(e: Entry, c: Context)
    requires EntryOk(e) && e.started && !Terminal(e)
    requires (e.kind == ContextAware && e.stopState != Stopping) || (e.kind == Legacy && !e.legacyStarted)
    ensures EntryOk(BeginAttempt(e, c)) && !Terminal(BeginAttempt(e, c)) && StoppedFrom(e, BeginAttempt(e, c))
  {
  }

  lemma EndAttemptOk(e: Entry, outcome: Outcome)
    requires EntryOk(e) && e.started && e.stopState == Stopping && e.attempt == Some(Done(outcome))
    ensures EntryOk(EndAttempt(e, outcome)) && StoppedFrom(e, EndAttempt(e, outcome))
    ensures EndAttempt(e, outcome).begun == e.begun
    ensures Terminal(EndAttempt(e, outcome)) <==> !(e.kind == ContextAware && outcome.Failure? && outcome.ofContext)
    ensures EndAttempt(e, outcome).terminalErr
            == (if Terminal(EndAttempt(e, outcome)) && outcome.Failure? then Some(outcome.code) else None)
  {
  }

  lemma SoundAt(es: seq<Entry>, i: nat)
    requires Sound(es) && Turn(es, i)
    ensures EntryOk(es[i]) && es[i].started && Beside(es, es, i)
  {
  }

  /** A started attempt is recorded until it is waited for. */
  lemma AttemptRecorded(e: Entry)
    requires EntryOk(e) && !Terminal(e) && (e.stopState == Stopping || e.legacyStarted)
    ensures e.attempt.Some? && e.stopState == Stopping && e.kind != Plain
  {
  }

  lemma PlainOk(e: Entry)
    requires EntryOk(e) && e.kind == Plain && e.started && !Terminal(e)
    ensures EntryOk(e.(stopState := Stopped)) && StoppedFrom(e, e.(stopState := Stopped)) && e.terminalErr == None
  {
  }

  // ----- a pass over all entries -----

  /** The pass has dealt with the entries from index n on, and not yet begun with the others. */
  predicate Passed(es0: seq<Entry>, es: seq<Entry>, n: nat) {
    && |es| == |es0| && n <= |es|
    && (forall j :: 0 <= j < n ==> SettledEntry(es0[j], es[j]))
    && (forall j :: n <= j < |es| ==> StoppedFrom(es0[j], es[j]) && (es[j].started ==> Terminal(es[j])))
  }

  lemma StoppedFromTrans(e: Entry, m: Entry, e': Entry)
    requires StoppedFrom(e, m) && SettledEntry(m, e')
    ensures StoppedFrom(e, e') && e'.terminalErr == m.terminalErr && Terminal(e') == Terminal(m) && e'.started == m.started
  {
  }

  lemma StoppedTwice(e: Entry, m: Entry, e': Entry)
    requires StoppedFrom(e, m) && StoppedFrom(m, e') && !Terminal(m) && m.begun == e.begun
    ensures StoppedFrom(e, e')
  {
  }

  lemma SettledTrans(e: Entry, m: Entry, e': Entry)
    requires SettledEntry(e, m) && SettledEntry(m, e')
    ensures SettledEntry(e, e')
  {
  }

  lemma SettledThenStopped(e: Entry, m: Entry, e': Entry)
    requires SettledEntry(e, m) && StoppedFrom(m, e')
    ensures StoppedFrom(e, e') && m.started == e.started && Terminal(m) == Terminal(e)
  {
  }

  /** One visit moves the pass on by one entry, or ends it there. */
  lemma VisitPasses(es0: seq<Entry>, es: seq<Entry>, es': seq<Entry>, i: nat)
    requires Passed(es0, es, i + 1) && Beside(es, es', i) && StoppedFrom(es[i], es'[i])
    ensures StoppedFrom(es0[i], es'[i]) && es[i].started == es0[i].started && Terminal(es[i]) == Terminal(es0[i])
    ensures forall j :: 0 <= j < i ==> SettledEntry(es0[j], es'[j])
    ensures forall j :: i < j < |es| ==> StoppedFrom(es0[j], es'[j]) && (es'[j].started ==> Terminal(es'[j]))
    ensures PassErrors(es0, es', i + 1) == PassErrors(es0, es, i + 1)
    ensures Terminal(es'[i]) ==> Passed(es0, es', i)
  {
    hide SettledEntry, StoppedFrom, Terminal, PassErrors;
    SettledThenStopped(es0[i], es[i], es'[i]);
    forall j | 0 <= j < i ensures SettledEntry(es0[j], es'[j]) {
      SettledTrans(es0[j], es[j], es'[j]);
    }
    forall j | i < j < |es|
      ensures StoppedFrom(es0[j], es'[j]) && (es'[j].started ==> Terminal(es'[j])) && es'[j].terminalErr == es[j].terminalErr
    {
      StoppedFromTrans(es0[j], es[j], es'[j]);
    }
    PassErrorsSame(es0, es, es', i + 1);
  }

  lemma {:induction false} PassErrorsSame(es0: seq<Entry>, es: seq<Entry>, es': seq<Entry>, from: nat)
    requires |es0| == |es| == |es'|
    requires forall j :: from <= j < |es| ==> es'[j].terminalErr == es[j].terminalErr
    ensures PassErrors(es0, es', from) == PassErrors(es0, es, from)
    decreases |es| - from
  {
    if from < |es| { PassErrorsSame(es0, es, es', from + 1); }
  }

  /** An entry that is skipped: not started, or stopped before. */
  lemma SkipPasses(es0: seq<Entry>, es: seq<Entry>, i: nat)
    requires Passed(es0, es, i + 1) && (es[i].started ==> Terminal(es[i]))
    ensures Passed(es0, es, i) && PassErrors(es0, es, i) == PassErrors(es0, es, i + 1)
  {
    assert SettledEntry(es0[i], es[i]);
    SettledThenStopped(es0[i], es[i], es[i]);
  }

  lemma PassedAll(es0: seq<Entry>, es: seq<Entry>)
    requires Passed(es0, es, 0)
    ensures StopPass(es0, es) && AllTerminal(es)
  {
    hide StoppedFrom, Terminal;
  }

  /** Where a pass stopped short. */
  predicate Interrupted(es0: seq<Entry>, es: seq<Entry>, at: nat, errors: seq<Problem>) {
    && |es| == |es0| && Turn(es, at) && !Terminal(es[at])
    && (forall j :: 0 <= j < at ==> SettledEntry(es0[j], es[j]))
    && ((errors == PassErrors(es0, es, at + 1) + [StopNotStarted(at)] && SettledEntry(es0[at], es[at]))
        || errors == PassErrors(es0, es, at + 1) + [StopInterrupted(at)])
  }

  lemma InterruptedPass(es0: seq<Entry>, es: seq<Entry>, at: nat)
    requires |es| == |es0| && at < |es| && es[at].started && !Terminal(es[at]) && StoppedFrom(es0[at], es[at])
    requires forall j :: 0 <= j < at ==> SettledEntry(es0[j], es[j])
    requires forall j :: at < j < |es| ==> StoppedFrom(es0[j], es[j]) && (es[j].started ==> Terminal(es[j]))
    ensures StopPass(es0, es) && !AllTerminal(es) && Turn(es, at)
  {
    hide Terminal;
    forall j | 0 <= j < at ensures StoppedFrom(es0[j], es[j]) {
      assert SettledEntry(es0[j], es[j]);
    }
  }

  lemma PassBegins(es: seq<Entry>)
    ensures Passed(es, es, |es|) && PassErrors(es, es, |es|) == []
  {
  }

  lemma PassedAbove(es0: seq<Entry>, es: seq<Entry>, i: nat)
    requires Passed(es0, es, i + 1)
    ensures |es| == |es0| && forall j :: 0 <= j < i ==> SettledEntry(es0[j], es[j])
    ensures forall j :: i < j < |es| ==> StoppedFrom(es0[j], es[j]) && (es[j].started ==> Terminal(es[j]))
  {
  }

  lemma VisitedFacts(es: seq<Entry>, es': seq<Entry>, i: nat, problem: Option<Problem>, complete: bool)
    requires i < |es| && Turn(es, i) && Visited(es, es', i, problem, complete)
    ensures |es'| == |es| && Sound(es') && Turn(es', i) && es'[i].started && Beside(es, es', i) && StoppedFrom(es[i], es'[i])
    ensures complete <==> Terminal(es'[i])
    ensures !complete ==> problem == Some(StopInterrupted(i))
    ensures complete && es'[i].terminalErr.Some? ==> problem == Some(StopFailed(i, es'[i].terminalErr.value))
    ensures complete && es'[i].terminalErr.None? ==> problem == None
  {
  }

  lemma PassErrorsStep(es: seq<Entry>, es': seq<Entry>, i: nat)
    requires |es| == |es'| && i < |es| && es[i].started && !Terminal(es[i])
    ensures PassErrors(es, es', i) == PassErrors(es, es', i + 1)
            + (if es'[i].terminalErr.Some? then [StopFailed(i, es'[i].terminalErr.value)] else [])
  {
  }

  lemma TurnNow(es0: seq<Entry>, es: seq<Entry>, i: nat)
    requires Passed(es0, es, i + 1) && es[i].started
    ensures Turn(es, i) && SettledEntry(es0[i], es[i]) && StoppedFrom(es0[i], es[i]) && Beside(es, es, i)
  {
    assert SettledEntry(es0[i], es[i]);
  }

  // ----- starting -----

  predicate PrestartedRuns(es: seq<Entry>) {
    forall i :: 0 <= i < |es| && es[i].prestarted ==> es[i].started
  }

  predicate HasPrestarted(es: seq<Entry>) {
    exists i :: 0 <= i < |es| && es[i].started && es[i].prestarted
  }

  /** The entry a start makes of one it has reached. */
  function StartEntry(e: Entry): Entry {
    if !e.active then e
    else e.(started := true, inits := e.inits + if e.initializer then 1 else 0)
  }

  /** A start has reached the first n entries. */
  predicate Reached(es0: seq<Entry>, es: seq<Entry>, n: nat) {
    && |es| == |es0| && n <= |es|
    && (forall j :: 0 <= j < n ==> es[j] == StartEntry(es0[j]))
    && (forall j :: n <= j < |es| ==> es[j] == es0[j])
  }

  lemma ReachedKeeps(es0: seq<Entry>, es: seq<Entry>, n: nat)
    requires Sound(es0) && AllPending(es0) && PrestartedRuns(es0) && Reached(es0, es, n)
    ensures Sound(es) && AllPending(es) && PrestartedRuns(es)
    ensures HasPrestarted(es) <==> exists i :: 0 <= i < |es0| && es0[i].prestarted
  {
    forall j | 0 <= j < |es| ensures EntryOk(es[j]) && es[j].stopState == Pending && es[j].begun == 0 {
      assert EntryOk(es0[j]);
      assert es[j] == StartEntry(es0[j]) || es[j] == es0[j];
    }
    forall i | 0 <= i < |es0| && es0[i].prestarted ensures es[i].started && es[i].prestarted {
    }
  }

  /** The list left by a rollback that can be retried. */
  predicate AllReset(es0: seq<Entry>, es: seq<Entry>) {
    |es| == |es0|
    && forall i :: 0 <= i < |es| ==>
         && !es[i].started && es[i].stopState == Pending && es[i].attempt == None && es[i].running == 0
         && es[i].kind == es0[i].kind && es[i].initializer == es0[i].initializer && es[i].active == es0[i].active
         && es[i].prestarted == es0[i].prestarted
  }

  lemma ResetFrom(es0: seq<Entry>, es1: seq<Entry>, es: seq<Entry>, n: nat)
    requires Reached(es0, es1, n) && AllReset(es1, es)
    ensures AllReset(es0, es)
  {
    forall i | 0 <= i < |es|
      ensures es1[i].kind == es0[i].kind && es1[i].initializer == es0[i].initializer && es1[i].active == es0[i].active
              && es1[i].prestarted == es0[i].prestarted
    {
      assert es1[i] == StartEntry(es0[i]) || es1[i] == es0[i];
    }
  }

  lemma ResetKeeps(es0: seq<Entry>, es: seq<Entry>, es': seq<Entry>)
    requires Sound(es) && AllTerminal(es) && StopPass(es0, es) && !HasPrestarted(es0) && PrestartedRuns(es0)
    requires |es'| == |es| && forall i :: 0 <= i < |es| ==> es'[i] == ResetEntry(es[i])
    ensures Sound(es') && AllPending(es') && PrestartedRuns(es') && AllReset(es0, es')
  {
    forall i | 0 <= i < |es|
      ensures EntryOk(es'[i]) && es'[i].stopState == Pending && es'[i].begun == 0 && es'[i].running == 0
    {
      assert EntryOk(es[i]) && es'[i] == ResetEntry(es[i]);
      assert es[i].started ==> Terminal(es[i]);
    }
    forall i | 0 <= i < |es| ensures !es'[i].prestarted {
      assert StoppedFrom(es0[i], es[i]);
    }
    forall i | 0 <= i < |es|
      ensures es'[i].kind == es0[i].kind && es'[i].initializer == es0[i].initializer && es'[i].active == es0[i].active
              && es'[i].prestarted == es0[i].prestarted && !es'[i].started
    {
      assert StoppedFrom(es0[i], es[i]) && es'[i] == ResetEntry(es[i]);
    }
  }

  lemma StopPassSelf(es: seq<Entry>)
    ensures StopPass(es, es)
  {
  }

  lemma ReachedNone(es: seq<Entry>)
    ensures Reached(es, es, 0) && Initializers(es[..0]) == []
  {
  }

  /** Reaching one more entry, with or without an Init call. */
  lemma ReachedStep(es0: seq<Entry>, es: seq<Entry>, i: nat)
    requires Sound(es0) && AllPending(es0) && Reached(es0, es, i) && i < |es|
    ensures es[i] == es0[i]
    ensures es[i].stopState == Pending && es[i].attempt == None && es[i].terminalErr == None && !es[i].legacyStarted
    ensures Reached(es0, es[i := StartEntry(es[i])], i + 1)
    ensures es0[..i + 1][..i] == es0[..i]
    ensures Initializers(es0[..i + 1]) == Initializers(es0[..i]) + (if es0[i].active && es0[i].initializer then [i] else [])
  {
    assert EntryOk(es0[i]);
    assert es0[..i + 1][..i] == es0[..i];
  }

  /** Where a start failed, and which Init calls it had made by then. */
  predicate FailedAt(es: seq<Entry>, cause: Problem, inits: seq<nat>) {
    match cause
    case InitNotStarted(i) => i < |es| && inits == Initializers(es[..i])
    case InitFailed(i, _) => i < |es| && es[i].active && es[i].initializer && inits == Initializers(es[..i]) + [i]
    case _ => false
  }

  lemma PassErrorsOfStart(es0: seq<Entry>, es: seq<Entry>)
    requires StopPass(es0, es) && AllPending(es0) && Sound(es)
    ensures PassErrors(es0, es, 0) == Reversed(TerminalErrors(es, 0))
  {
    PassErrorsReversed(es0, es, 0);
  }

  lemma InterruptedHasError(es0: seq<Entry>, es: seq<Entry>, at: nat, errors: seq<Problem>)
    requires Interrupted(es0, es, at, errors)
    ensures errors != []
  {
  }

  function Reversed(s: seq<Problem>): seq<Problem> {
    if s == [] then [] else Reversed(s[1..]) + [s[0]]
  }

  /** Next errors of a pass that began with nothing stopped. */
  lemma FreshPassError(es0: seq<Entry>, es: seq<Entry>, i: nat)
    requires StopPass(es0, es) && AllPending(es0) && AllOk(es) && i < |es|
    ensures PassErrors(es0, es, i) == PassErrors(es0, es, i + 1)
            + (if es[i].terminalErr.Some? then [StopFailed(i, es[i].terminalErr.value)] else [])
  {
    hide PassErrors;
    assert StoppedFrom(es0[i], es[i]) && EntryOk(es[i]) && es0[i].stopState == Pending;
    if es0[i].started {
      PassErrorsStep(es0, es, i);
    } else {
      PassErrorsSkip(es0, es, i);
    }
  }

  lemma PassErrorsSkip(es: seq<Entry>, es': seq<Entry>, i: nat)
    requires |es| == |es'| && i < |es| && !es[i].started
    ensures PassErrors(es, es', i) == PassErrors(es, es', i + 1)
  {
  }

  lemma ReversedCons(p: Problem, rest: seq<Problem>)
    ensures Reversed([p] + rest) == Reversed(rest) + [p]
  {
    assert ([p] + rest)[1..] == rest;
  }

  /** A pass that began with nothing stopped meets every terminal error, last one first. */
  lemma {:induction false} PassErrorsReversed(es0: seq<Entry>, es: seq<Entry>, from: nat)
    requires StopPass(es0, es) && AllPending(es0) && AllOk(es) && from <= |es|
    ensures PassErrors(es0, es, from) == Reversed(TerminalErrors(es, from))
    decreases |es| - from
  {
    hide StopPass, AllPending, AllOk, Reversed;
    if from < |es| {
      hide PassErrors;
      PassErrorsReversed(es0, es, from + 1);
      FreshPassError(es0, es, from);
      if es[from].terminalErr.Some? {
        ReversedCons(StopFailed(from, es[from].terminalErr.value), TerminalErrors(es, from + 1));
      } else {
        assert TerminalErrors(es, from) == TerminalErrors(es, from + 1);
      }
    } else {
      NoErrorsLeft(es0, es);
    }
  }

  lemma NoErrorsLeft(es0: seq<Entry>, es: seq<Entry>)
    requires StopPass(es0, es)
    ensures PassErrors(es0, es, |es|) == [] == Reversed(TerminalErrors(es, |es|))
  {
  }

  // ----- what the lists mean -----

  /** The initializers of a list are its active initializers, each once, in order. */
  lemma {:induction false} InitializersExact(es: seq<Entry>)
    ensures forall k: nat :: k in Initializers(es) <==> k < |es| && es[k].active && es[k].initializer
    ensures forall a, b :: 0 <= a < b < |Initializers(es)| ==> Initializers(es)[a] < Initializers(es)[b]
  {
    if es != [] {
      var front := es[..|es| - 1];
      InitializersExact(front);
      forall a | 0 <= a < |Initializers(front)| ensures Initializers(front)[a] < |front| {
        assert Initializers(front)[a] in Initializers(front);
      }
      forall k: nat ensures k in Initializers(es) <==> k < |es| && es[k].active && es[k].initializer {
        if k < |front| { assert front[k] == es[k]; }
      }
    }
  }

  /** Shutdown calls never overlap: at most one runs in the whole list. */
  lemma OneAtATime(es: seq<Entry>, i: nat, j: nat)
    requires Sound(es) && i < |es| && j < |es| && es[i].running > 0 && es[j].running > 0
    ensures i == j && es[i].running == 1
  {
    assert EntryOk(es[i]) && EntryOk(es[j]);
    assert es[i].begun > 0 && es[i].started && es[j].begun > 0 && es[j].started;
  }

  datatype Call = CallStart | CallStop

  /** What at most n calls may have done since the list was es. */
  predicate Advanced(es: seq<Entry>, es': seq<Entry>, n: nat) {
    |es'| == |es|
    && forall i :: 0 <= i < |es| ==>
         && es'[i].kind == es[i].kind && es'[i].started == es[i].started && es'[i].inits == es[i].inits
         && (Terminal(es[i]) ==> es'[i].stopState == es[i].stopState && es'[i].terminalErr == es[i].terminalErr
                                 && es'[i].begun == es[i].begun)
         && es[i].begun <= es'[i].begun <= es[i].begun + n
         && (es[i].kind == Legacy && Sound(es') ==> es'[i].begun <= 1)
  }

  lemma AdvancedSelf(es: seq<Entry>)
    requires Sound(es)
    ensures Advanced(es, es, 0)
  {
    forall i | 0 <= i < |es| ensures EntryOk(es[i]) {
    }
  }

  lemma AdvancedStep(es0: seq<Entry>, es: seq<Entry>, es': seq<Entry>, n: nat)
    requires Advanced(es0, es, n) && StopPass(es, es') && Sound(es')
    ensures Advanced(es0, es', n + 1)
  {
    forall i | 0 <= i < |es|
      ensures StoppedFrom(es[i], es'[i]) && (es[i].kind == Legacy ==> es'[i].begun <= 1)
    {
      assert StoppedFrom(es[i], es'[i]) && EntryOk(es'[i]);
    }
  }

  /** A component as it is registered: active, running only if it says so itself, and with
      nothing of its shutdown begun. */
  function FreshEntry(kind: Kind, initializer: bool, prestarted: bool): (e: Entry)
    ensures EntryOk(e) && e.stopState == Pending && e.active && e.inits == 0
  {
    Entry(kind, initializer, prestarted, true, prestarted, Pending, None, None, false, 0, 0, 0, 0, None, false)
  }

  /** The initializers of a list depend on two marks of its entries only. */
  lemma {:induction false} InitializersSame(es: seq<Entry>, es': seq<Entry>)
    requires |es| == |es'|
    requires forall i :: 0 <= i < |es| ==> es'[i].active == es[i].active && es'[i].initializer == es[i].initializer
    ensures Initializers(es') == Initializers(es)
  {
    if es != [] { InitializersSame(es[..|es| - 1], es'[..|es| - 1]); }
  }

  lemma StopPassInitializers(es: seq<Entry>, es': seq<Entry>)
    requires StopPass(es, es')
    ensures Initializers(es') == Initializers(es)
  {
    forall i | 0 <= i < |es| ensures es'[i].active == es[i].active && es'[i].initializer == es[i].initializer {
      assert StoppedFrom(es[i], es'[i]);
    }
    InitializersSame(es, es');
  }

  lemma ReachedInitializers(es: seq<Entry>, es': seq<Entry>)
    requires Reached(es, es', |es|)
    ensures Initializers(es') == Initializers(es)
  {
    forall i | 0 <= i < |es| ensures es'[i].active == es[i].active && es'[i].initializer == es[i].initializer {
      assert es'[i] == StartEntry(es[i]);
    }
    InitializersSame(es, es');
  }

  class Lifecycle {
    var entries: seq<Entry>
    var state: State
    var startErr: Option<Problem>
    var startRetryable: bool
    var stopErr: seq<Problem>
    /** sealRegistration: nothing is registered or retired any more. */
    var registrationSealed: bool
    /** History: the Init calls of the current start, in the order they were made. */
    var initLog: seq<nat>
    /** History: the Init calls of the current start that failed, with their errors. */
    var initFails: seq<(nat, nat)>
    /** History: a Start has gone through; a Stop was interrupted before any Start. */
    ghost var began: bool
    ghost var cutShort: bool

    /** Holds between calls. */
    ghost predicate Valid()
      reads this
    {
      && Sound(entries)
      && state in {New, Started, Halted}
      && (state == New ==> AllPending(entries) && PrestartedRuns(entries))
      && (state == Halted ==> AllTerminal(entries))
      && (state == Halted ==> stopErr == TerminalErrors(entries, 0) || stopErr == Reversed(TerminalErrors(entries, 0)))
      && InitsTold()
    }

    /** How a lifecycle that counts as started came to that: by a Start that made its Init
        calls, by a failed one, or without any. */
    ghost predicate InitsTold()
      reads this
    {
      && (began || cutShort ==> state != New && !(began && cutShort))
      && (began ==> startErr == None && initLog == Initializers(entries))
      && (startErr == None && !began ==> initLog == [])
      && (state == Started && startErr == None ==> began || cutShort)
    }

    /** The answer of a start names what really stopped it: the end of its context, or the one
        Init call that failed, with its error. */
    ghost predicate InitsTruthful(errors: seq<Problem>, c: Context)
      reads this`initFails
    {
      if errors == [] then initFails == []
      else match errors[0]
           case InitNotStarted(_) => initFails == [] && c == Ended
           case InitFailed(i, code) => initFails == [(i, code)]
           case _ => false
    }

    constructor ()
      ensures Valid() && entries == [] && state == New && startErr == None && !registrationSealed && !began && !cutShort
    {
      entries, state, startErr, startRetryable, stopErr, initLog, initFails := [], New, None, false, [], [], [];
      registrationSealed, began, cutShort := false, false, false;
    }

    method SealRegistration()
      requires Valid()
      modifies this`registrationSealed
      ensures Valid() && registrationSealed
    {
      registrationSealed := true;
    }

    /** TryAdd: registration is closed once it is sealed or startup begins. */
    method TryAdd(kind: Kind, initializer: bool, prestarted: bool) returns (accepted: bool)
      requires Valid()
      modifies this`entries
      ensures Valid()
      ensures accepted <==> state == New && !registrationSealed
      ensures entries == if accepted then old(entries) + [FreshEntry(kind, initializer, prestarted)] else old(entries)
    {
      accepted := state == New && !registrationSealed;
      if accepted {
        entries := entries + [Entry(kind, initializer, prestarted, true, prestarted, Pending, None, None, false, 0, 0, 0, 0, None, false)];
      }
    }

    /** retireUnregisteredEntry: a component no longer registered leaves the list, unless it
        already runs; then only its initialization is given up. */
    method Retire(i: nat) returns (accepted: bool)
      requires Valid() && i < |entries|
      modifies this`entries
      ensures Valid()
      ensures accepted <==> state == New && !registrationSealed
      ensures !accepted ==> entries == old(entries)
      ensures accepted && old(entries)[i].started ==> entries == old(entries)[i := old(entries)[i].(active := false)]
      ensures accepted && !old(entries)[i].started ==> entries == old(entries)[..i] + old(entries)[i + 1..]
    {
      accepted := state == New && !registrationSealed;
      if accepted {
        if entries[i].started {
          entries := entries[i := entries[i].(active := false)];
        } else {
          entries := entries[..i] + entries[i + 1..];
        }
        PendingSound(entries);
      }
    }

    // ----- the environment -----

    /** Any running attempts finish, each with any outcome. */
    method Settle()
      modifies this`entries
      ensures Settled(old(entries), entries)
    {
      var i := 0;
      while i < |entries|
        invariant 0 <= i <= |entries| && |entries| == |old(entries)|
        invariant forall j :: 0 <= j < i ==> SettledEntry(old(entries)[j], entries[j])
        invariant forall j :: i <= j < |entries| ==> entries[j] == old(entries)[j]
      {
        var finishes: bool := *;
        if finishes && entries[i].attempt == Some(InFlight) && entries[i].running > 0 { Finish(i); }
        i := i + 1;
      }
    }

    /** A running attempt finishes; with the error of its context only if that may end. */
    method Finish(i: nat)
      requires i < |entries| && entries[i].attempt == Some(InFlight) && entries[i].running > 0
      modifies this`entries
      ensures |entries| == |old(entries)| && entries == old(entries)[i := entries[i]]
      ensures SettledEntry(old(entries)[i], entries[i]) && entries[i].attempt.Some? && entries[i].attempt.value.Done?
    {
      var outcome: Outcome := *;
      if entries[i].unhurried && OfContext(outcome) { outcome := outcome.(ofContext := false); }
      entries := entries[i := entries[i].(attempt := Some(Done(outcome)), running := entries[i].running - 1,
                                           ended := Some(outcome))];
    }

    /** ctx.Err(): a context that may end does so at any moment, and stays ended. */
    method Expire(c: Context) returns (c': Context)
      ensures Follows(c, c')
    {
      var now: bool := *;
      c' := if c == Open && now then Ended else c;
    }

    /** Waiting ends when the attempt is done or the context has ended. */
    method Wait(i: nat, c: Context) returns (outcome: Option<Outcome>, c': Context)
      requires Sound(entries) && Turn(entries, i) && entries[i].attempt.Some?
      modifies this`entries
      ensures Settled(old(entries), entries) && Sound(entries) && Turn(entries, i)
      ensures outcome.Some? ==> entries[i].attempt == Some(Done(outcome.value))
      ensures Follows(c, c') && (outcome.None? ==> c' == Ended)
    {
      hide Sound;
      Settle();
      SettledKeepsSound(old(entries), entries);
      assert SettledEntry(old(entries)[i], entries[i]);
      c' := Expire(c);
      if entries[i].attempt == Some(InFlight) {
        if c' != Endless { return None, Ended; }
        ghost var mid := entries;
        RunningOne(entries, i);
        Finish(i);
        FinishSettles(old(entries), mid, entries, i);
        SettledKeepsSound(old(entries), entries);
      }
      var prefersContext: bool := *;
      if c' == Ended && prefersContext { return None, c'; }
      outcome := Some(entries[i].attempt.value.outcome);
    }

    /** Init of a component: an error code, or none. */
    method Init(i: nat) returns (failure: Option<nat>)
      requires i < |entries|
      modifies this`entries, this`initLog, this`initFails
      ensures entries == old(entries)[i := old(entries)[i].(inits := old(entries)[i].inits + 1)]
      ensures initLog == old(initLog) + [i]
      ensures initFails == old(initFails) + if failure.Some? then [(i, failure.value)] else []
    {
      entries := entries[i := entries[i].(inits := entries[i].inits + 1)];
      initLog := initLog + [i];
      var code: nat, fails: bool := *, *;
      failure := if fails then Some(code) else None;
      if fails { initFails := initFails + [(i, code)]; }
    }

    // ----- stopping -----

    /** A shutdown call begins. */
    method Begin(i: nat, c: Context, ghost es0: seq<Entry>)
      requires Sound(entries) && Turn(entries, i) && Beside(es0, entries, i) && c != Ended && !Terminal(entries[i])
      requires (entries[i].kind == ContextAware && entries[i].stopState != Stopping)
               || (entries[i].kind == Legacy && !entries[i].legacyStarted)
      modifies this`entries
      ensures Turn(old(entries), i) && entries == old(entries)[i := BeginAttempt(old(entries)[i], c)]
      ensures Sound(entries) && Turn(entries, i) && Beside(es0, entries, i)
      ensures EntryOk(entries[i]) && !Terminal(entries[i]) && StoppedFrom(old(entries)[i], entries[i])
    {
      hide Sound, Beside, EntryOk, StoppedFrom;
      SoundAt(entries, i);
      BeginAttemptOk(entries[i], c);
      PutKeeps(es0, entries, i, BeginAttempt(entries[i], c));
      entries := entries[i := BeginAttempt(entries[i], c)];
    }

    /** The recorded attempt is waited for, and how it ended is recorded. */
    method Await(i: nat, c: Context, ghost es0: seq<Entry>) returns (outcome: Option<Outcome>, c': Context)
      requires Sound(entries) && Turn(entries, i) && Beside(es0, entries, i) && !Terminal(entries[i])
      requires entries[i].attempt.Some? && entries[i].stopState == Stopping
      modifies this`entries
      ensures |entries| == |old(entries)| && Sound(entries) && Turn(entries, i) && Beside(es0, entries, i) && Turn(old(entries), i)
      ensures Follows(c, c') && (outcome.None? ==> c' == Ended && SettledEntry(old(entries)[i], entries[i]))
      ensures EntryOk(entries[i]) && StoppedFrom(old(entries)[i], entries[i])
      ensures entries[i].begun == old(entries)[i].begun && entries[i].kind == old(entries)[i].kind && entries[i].started
      ensures outcome.None? ==> !Terminal(entries[i])
      ensures outcome.Some? ==>
                && (Terminal(entries[i]) <==> !(entries[i].kind == ContextAware && OfContext(outcome.value)))
                && (Terminal(entries[i]) ==> entries[i].terminalErr == if outcome.value.Failure? then Some(outcome.value.code) else None)
                && (!Terminal(entries[i]) ==> entries[i].stopState == RetryPending && !old(entries)[i].unhurried)
    {
      hide Sound, Beside, StoppedFrom, Settled;
      ghost var es1 := entries;
      SoundAt(entries, i);
      outcome, c' := Wait(i, c);
      WaitKeeps(es0, es1, entries, i);
      SettledKeepsEntry(es1[i], entries[i]);
      if outcome.Some? {
        EndAttemptOk(entries[i], outcome.value);
        StoppedTwice(es1[i], entries[i], EndAttempt(entries[i], outcome.value));
        PutKeeps(es0, entries, i, EndAttempt(entries[i], outcome.value));
        entries := entries[i := EndAttempt(entries[i], outcome.value)];
      }
    }

    /** stopStrictEntry for a component that takes a context.  The loop waits at most twice
        and begins at most one shutdown call: when an attempt of an earlier call ended with
        that call's context error, one fresh attempt is made. */
    method StopContextAware(i: nat, c: Context) returns (problem: Option<Problem>, complete: bool, c': Context)
      requires i < |entries| && Sound(entries) && Turn(entries, i) && !Terminal(entries[i]) && entries[i].kind == ContextAware
      modifies this`entries
      ensures Visited(old(entries), entries, i, problem, complete)
      ensures Follows(c, c') && (!complete ==> c' == Ended)
    {
      hide Sound, Turn, Beside, Settled, EntryOk;
      ghost var es0 := entries;
      SoundAt(entries, i);
      c' := c;
      var startedHere := false;
      while true
        invariant i < |entries| == |es0| && Sound(entries) && Turn(entries, i) && Beside(es0, entries, i)
        invariant EntryOk(entries[i]) && !Terminal(entries[i]) && !startedHere && Follows(c, c')
        invariant StoppedFrom(es0[i], entries[i]) && entries[i].begun == es0[i].begun
        invariant entries[i].kind == ContextAware && entries[i].started
        decreases if entries[i].stopState == Stopping then 1 else 0
      {
        if entries[i].stopState != Stopping {
          c' := Expire(c');
          if c' == Ended { return Some(StopInterrupted(i)), false, c'; }
          Begin(i, c', es0);
          startedHere := true;
        }
        AttemptRecorded(entries[i]);
        var outcome;
        outcome, c' := Await(i, c', es0);
        if outcome.None? { return Some(StopInterrupted(i)), false, c'; }
        match outcome.value {
          case Success => return None, true, c';
          case Failure(code, ofContext) =>
            if !ofContext { return Some(StopFailed(i, code)), true, c'; }
            c' := Expire(c');
            // An attempt begun here had this call's context, so that context has ended.
            if startedHere { return Some(StopInterrupted(i)), false, Ended; }
            if c' == Ended { return Some(StopInterrupted(i)), false, c'; }
        }
      }
    }

    /** stopStrictEntry. */
    method StopEntry(i: nat, c: Context) returns (problem: Option<Problem>, complete: bool, c': Context)
      requires i < |entries| && Sound(entries) && Turn(entries, i) && !Terminal(entries[i])
      modifies this`entries
      ensures Visited(old(entries), entries, i, problem, complete)
      ensures Follows(c, c') && (!complete ==> c' == Ended)
    {
      hide Sound, Turn, Beside, Settled, EntryOk;
      ghost var es0 := entries;
      SoundAt(entries, i);
      c' := c;
      match entries[i].kind
      case ContextAware => problem, complete, c' := StopContextAware(i, c);
      case Legacy =>
        if !entries[i].legacyStarted {
          c' := Expire(c');
          if c' == Ended { return Some(StopInterrupted(i)), false, c'; }
          Begin(i, c', es0);
        }
        AttemptRecorded(entries[i]);
        var outcome;
        outcome, c' := Await(i, c', es0);
        if outcome.None? { return Some(StopInterrupted(i)), false, c'; }
        problem := if outcome.value.Success? then None else Some(StopFailed(i, outcome.value.code));
        complete := true;
      case Plain =>
        PlainOk(entries[i]);
        PutKeeps(es0, entries, i, entries[i].(stopState := Stopped));
        entries := entries[i := entries[i].(stopState := Stopped)];
        return None, true, c';
    }

    /** stopStrictEntries: one pass in reverse order; it stops short, at `at`, only when its
        context has ended. */
    method StopEntries(c: Context) returns (errors: seq<Problem>, complete: bool, c': Context, ghost at: nat)
      requires Sound(entries)
      modifies this`entries
      ensures Sound(entries) && StopPass(old(entries), entries)
      ensures complete <==> AllTerminal(entries)
      ensures complete ==> errors == PassErrors(old(entries), entries, 0)
      ensures !complete ==> Interrupted(old(entries), entries, at, errors)
      ensures Follows(c, c') && (!complete ==> c' == Ended)
      ensures c == Ended ==> entries == old(entries)
    {
      hide Sound, EntryOk, SettledEntry, StoppedFrom, Terminal, PassErrors, Passed;
      ghost var es0 := entries;
      errors, at := [], 0;
      c' := c;
      var n: nat := |entries|;
      PassBegins(entries);
      while n > 0
        invariant n <= |entries| == |es0| && Sound(entries) && Passed(es0, entries, n)
        invariant errors == PassErrors(es0, entries, n)
        invariant Follows(c, c') && (c == Ended ==> entries == es0)
      {
        var i := n - 1;
        if !entries[i].started || Terminal(entries[i]) {
          SkipPasses(es0, entries, i);
        } else {
          TurnNow(es0, entries, i);
          c' := Expire(c');
          if c' == Ended {
            PassedAbove(es0, entries, i);
            InterruptedPass(es0, entries, i);
            errors := errors + [StopNotStarted(i)];
            return errors, false, c', i;
          }
          ghost var es1 := entries;
          var problem, done;
          problem, done, c' := StopEntry(i, c');
          VisitedFacts(es1, entries, i, problem, done);
          VisitPasses(es0, es1, entries, i);
          if problem.Some? { errors := errors + [problem.value]; }
          if !done {
            InterruptedPass(es0, entries, i);
            return errors, false, c', i;
          }
          PassErrorsStep(es0, entries, i);
        }
        n := i;
      }
      PassedAll(es0, entries);
      complete := true;
    }

    /** strictTerminalStopError. */
    method TerminalStopError() returns (errors: seq<Problem>)
      ensures errors == TerminalErrors(entries, 0)
    {
      errors := [];
      for i := 0 to |entries|
        invariant errors + TerminalErrors(entries, i) == TerminalErrors(entries, 0)
      {
        if entries[i].terminalErr.Some? {
          errors := errors + [StopFailed(i, entries[i].terminalErr.value)];
        }
      }
    }

    /** stopStrict: a finished stop reports exactly the terminal errors; one interrupted by the
        end of its context, and only that, leaves the lifecycle started, to be resumed by the
        next call. */
    method Stop(c: Context) returns (errors: seq<Problem>, c': Context, ghost at: nat)
      requires Valid()
      modifies this`entries, this`state, this`stopErr, this`cutShort
      ensures Valid()
      ensures cutShort <==> old(cutShort) || (old(state) == New && state != Halted)
      ensures Follows(c, c') && (state != Halted ==> c' == Ended)
      ensures c == Ended ==> entries == old(entries)
      ensures old(state) == Halted ==> state == Halted && errors == old(stopErr) && entries == old(entries) && stopErr == old(stopErr)
      ensures StopPass(old(entries), entries)
      ensures state == Halted <==> AllTerminal(entries)
      ensures old(state) != Halted && state == Halted ==> errors == stopErr == TerminalErrors(entries, 0)
      ensures state != Halted ==> state == Started && stopErr == [] && Interrupted(old(entries), entries, at, errors)
    {
      hide Sound, AllTerminal, StopPass, Interrupted, TerminalErrors, PassErrors;
      if state == Halted {
        StopPassSelf(entries);
        return stopErr, c, 0;
      }
      ghost var was := state;
      state := Halting;
      var complete;
      ghost var es0 := entries;
      errors, complete, c', at := StopEntries(c);
      StopPassInitializers(es0, entries);
      var terminal := TerminalStopError();
      if complete {
        state, stopErr, errors := Halted, terminal, terminal;
      } else {
        state, stopErr := Started, [];
        cutShort := cutShort || was == New;
      }
    }

    /** startStrict.  `patience` is the context of a rollback, which has a deadline of its own. */
    method Start(c: Context, patience: Context) returns (errors: seq<Problem>, c': Context)
      requires Valid()
      modifies this
      ensures Valid()
      ensures old(state) != New ==> entries == old(entries) && state == old(state) && startErr == old(startErr)
                                    && stopErr == old(stopErr) && startRetryable == old(startRetryable) && initLog == old(initLog)
      ensures old(state) != New && startErr.Some? ==> errors == [startErr.value]
      ensures old(state) != New && startErr.None? ==> errors == (if state == Halted then [AfterStop] else [])
      ensures old(state) == New && errors == [] ==>
                && state == Started && startErr == None && Reached(old(entries), entries, |entries|)
                && initLog == Initializers(old(entries))
      ensures old(state) == New && errors != [] ==>
                && startErr == Some(errors[0]) && FailedAt(old(entries), errors[0], initLog)
                && (startRetryable <==> |errors| == 1 && forall i :: 0 <= i < |old(entries)| ==> !old(entries)[i].prestarted)
                && (startRetryable <==> state == New)
                && (state == New ==> AllReset(old(entries), entries) && stopErr == [])
                && (state == Halted <==> state != New && AllTerminal(entries))
                && (state != New ==> stopErr == errors[1..])
      ensures Follows(c, c') && (old(state) == New ==> InitsTruthful(errors, c'))
      ensures old(state) == New && errors != [] && patience == Endless ==> state != Started
      ensures cutShort == old(cutShort) && registrationSealed == old(registrationSealed)
      ensures began <==> old(began) || (old(state) == New && errors == [])
      ensures errors == [] ==> (initLog == Initializers(entries) <==> !cutShort || Initializers(entries) == [])
    {
      hide Sound, AllPending, PrestartedRuns, Reached, AllTerminal, AllReset, TerminalErrors, Initializers, FailedAt;
      c' := c;
      if state == Halted {
        errors := [if startErr.Some? then startErr.value else AfterStop];
        return;
      }
      if state == Started {
        errors := if startErr.Some? then [startErr.value] else [];
        return;
      }
      state, startRetryable, initLog, initFails := Starting, false, [], [];
      errors, c' := StartComponents(c, patience);
    }

    /** One component is marked as started, and initialized if it can be. */
    method StartOne(i: nat) returns (failure: Option<nat>)
      requires i < |entries|
      requires entries[i].stopState == Pending && entries[i].attempt == None && entries[i].terminalErr == None && !entries[i].legacyStarted
      modifies this`entries, this`initLog, this`initFails
      ensures entries == old(entries)[i := StartEntry(old(entries)[i])]
      ensures initLog == old(initLog) + if old(entries)[i].active && old(entries)[i].initializer then [i] else []
      ensures failure.Some? ==> old(entries)[i].active && old(entries)[i].initializer
      ensures initFails == old(initFails) + if failure.Some? then [(i, failure.value)] else []
    {
      failure := None;
      ghost var es := entries;
      if entries[i].active {
        entries := entries[i := entries[i].(started := true, stopState := Pending, attempt := None,
                                            terminalErr := None, legacyStarted := false)];
        if entries[i].initializer { failure := Init(i); }
      }
      assert entries == es[i := StartEntry(es[i])];
    }

    /** startStrictComponents. */
    method StartComponents(c: Context, patience: Context) returns (errors: seq<Problem>, c': Context)
      requires Sound(entries) && AllPending(entries) && PrestartedRuns(entries) && !began && !cutShort
      requires state == Starting && !startRetryable && initLog == [] && initFails == []
      modifies this
      ensures Valid() && !cutShort && registrationSealed == old(registrationSealed)
      ensures began <==> errors == []
      ensures Follows(c, c') && InitsTruthful(errors, c')
      ensures errors != [] && patience == Endless ==> state != Started
      ensures errors == [] ==>
                && state == Started && startErr == None && Reached(old(entries), entries, |entries|)
                && initLog == Initializers(old(entries)) == Initializers(entries)
      ensures errors != [] ==>
                && startErr == Some(errors[0]) && FailedAt(old(entries), errors[0], initLog)
                && (startRetryable <==> |errors| == 1 && forall i :: 0 <= i < |old(entries)| ==> !old(entries)[i].prestarted)
                && (startRetryable <==> state == New)
                && (state == New ==> AllReset(old(entries), entries) && stopErr == [])
                && (state == Halted <==> state != New && AllTerminal(entries))
                && (state != New ==> stopErr == errors[1..])
    {
      hide Sound, AllPending, PrestartedRuns, Reached, AllTerminal, AllReset, TerminalErrors, Initializers;
      ghost var es0 := entries;
      ReachedNone(es0);
      c' := c;
      var i: nat := 0;
      while i < |entries|
        invariant i <= |entries| == |es0| && Reached(es0, entries, i) && initLog == Initializers(es0[..i])
        invariant state == Starting && !startRetryable && !began && !cutShort
        invariant registrationSealed == old(registrationSealed) && Follows(c, c') && initFails == []
      {
        ReachedStep(es0, entries, i);
        c' := Expire(c');
        if c' == Ended {
          errors := FailStart(InitNotStarted(i), patience, es0, i);
          return;
        }
        var failure := StartOne(i);
        if failure.Some? {
          errors := FailStart(InitFailed(i, failure.value), patience, es0, i + 1);
          return;
        }
        i := i + 1;
      }
      ReachedKeeps(es0, entries, i);
      assert es0[..i] == es0;
      ReachedInitializers(es0, entries);
      state, startErr, errors := Started, None, [];
      began := true;
    }

    /** A start that reached n entries is rolled back. */
    method FailStart(cause: Problem, patience: Context, ghost es0: seq<Entry>, ghost n: nat) returns (errors: seq<Problem>)
      requires Sound(es0) && AllPending(es0) && PrestartedRuns(es0) && Reached(es0, entries, n) && !began && !cutShort
      modifies this`entries, this`state, this`startErr, this`startRetryable, this`stopErr
      ensures Valid()
      ensures startErr == Some(cause) && |errors| > 0 && errors[0] == cause
      ensures startRetryable <==> |errors| == 1 && forall i :: 0 <= i < |es0| ==> !es0[i].prestarted
      ensures startRetryable <==> state == New
      ensures state == New ==> AllReset(es0, entries) && stopErr == []
      ensures state == Halted <==> state != New && AllTerminal(entries)
      ensures state != New ==> stopErr == errors[1..]
      ensures patience == Endless ==> state != Started
    {
      hide Sound, AllPending, PrestartedRuns, Reached, AllTerminal, AllReset, TerminalErrors, Initializers;
      ghost var es1 := entries;
      ReachedKeeps(es0, entries, n);
      errors := RollbackStart(cause, patience);
      if state == New { ResetFrom(es0, es1, entries, n); }
    }

    /** rollbackStrictStart: what had started is stopped under a fresh deadline. */
    method RollbackStart(cause: Problem, patience: Context) returns (errors: seq<Problem>)
      requires Sound(entries) && AllPending(entries) && PrestartedRuns(entries) && !began && !cutShort
      modifies this`entries, this`state, this`startErr, this`startRetryable, this`stopErr
      ensures Valid()
      ensures startErr == Some(cause) && |errors| > 0 && errors[0] == cause
      ensures startRetryable <==> |errors| == 1 && !HasPrestarted(old(entries))
      ensures startRetryable <==> state == New
      ensures state == New ==> AllReset(old(entries), entries) && stopErr == []
      ensures state == Halted <==> state != New && AllTerminal(entries)
      ensures state != New ==> StopPass(old(entries), entries) && stopErr == errors[1..]
      ensures patience == Endless ==> state != Started
    {
      hide Sound, AllPending, PrestartedRuns, AllTerminal, AllReset, StopPass, PassErrors, TerminalErrors, EntryOk, StoppedFrom;
      ghost var es0 := entries;
      state, startErr := Halting, Some(cause);
      var hasPrestarted := false;
      for k := 0 to |entries|
        invariant hasPrestarted <==> exists m :: 0 <= m < k && entries[m].started && entries[m].prestarted
      {
        if entries[k].started && entries[k].prestarted { hasPrestarted := true; }
      }
      var rollback, complete, late, at := StopEntries(patience);
      errors := [cause] + rollback;
      if complete && rollback == [] && !hasPrestarted {
        ghost var es1 := entries;
        Reset();
        ResetKeeps(es0, es1, entries);
        state, startRetryable, stopErr := New, true, [];
      } else {
        startRetryable, stopErr := false, rollback;
        if complete {
          state := Halted;
          PassErrorsOfStart(es0, entries);
        } else {
          state := Started;
          InterruptedHasError(es0, entries, at, rollback);
        }
      }
    }

    /** resetStrictEntriesForRetryLocked. */
    method Reset()
      modifies this`entries
      ensures |entries| == |old(entries)| && forall i :: 0 <= i < |entries| ==> entries[i] == ResetEntry(old(entries)[i])
    {
      for i := 0 to |entries|
        invariant |entries| == |old(entries)|
        invariant forall j :: 0 <= j < i ==> entries[j] == ResetEntry(old(entries)[j])
        invariant forall j :: i <= j < |entries| ==> entries[j] == old(entries)[j]
      {
        entries := entries[i := ResetEntry(entries[i])];
      }
    }

    /** Any sequence of calls after a start: nothing starts again, a failed start is
        reported to every later Start, a finished shutdown is never repeated, and each
        component is attempted at most once per call. */
    method CallAll(calls: seq<Call>) returns (results: seq<seq<Problem>>)
      requires Valid() && state != New
      modifies this
      ensures Valid() && state != New && startErr == old(startErr) && |results| == |calls|
      ensures old(startErr).Some? ==> forall k :: 0 <= k < |calls| && calls[k] == CallStart ==> results[k] == [old(startErr).value]
      ensures Advanced(old(entries), entries, |calls|)
      ensures old(state) == Halted ==> state == Halted && stopErr == old(stopErr) && entries == old(entries)
      ensures old(state) == Halted ==> forall k :: 0 <= k < |calls| && calls[k] == CallStop ==> results[k] == old(stopErr)
    {
      hide StoppedFrom, Sound, AllTerminal, StopPass, Interrupted, TerminalErrors, Advanced;
      results := [];
      AdvancedSelf(entries);
      for k := 0 to |calls|
        invariant Valid() && state != New && startErr == old(startErr) && |results| == k
        invariant old(startErr).Some? ==> forall m :: 0 <= m < k && calls[m] == CallStart ==> results[m] == [old(startErr).value]
        invariant Advanced(old(entries), entries, k)
        invariant old(state) == Halted ==> state == Halted && stopErr == old(stopErr) && entries == old(entries)
        invariant old(state) == Halted ==> forall m :: 0 <= m < k && calls[m] == CallStop ==> results[m] == old(stopErr)
      {
        var c: Context, patience: Context, result, c' := *, *, [], Open;
        ghost var es, was := entries, state;
        match calls[k] {
          case CallStart => result, c' := Start(c, patience);
          case CallStop =>
            ghost var at;
            result, c', at := Stop(c);
            if was == Halted { StopPassSelf(es); }
        }
        if calls[k] == CallStart { StopPassSelf(es); }
        AdvancedStep(old(entries), es, entries, k);
        results := results + [result];
      }
    }
  }

  // ----- whether a Start without errors has initialized anything -----

  datatype Request =
    | ToAdd(kind: Kind, initializer: bool, prestarted: bool) | ToRetire(i: nat) | ToSeal | ToStart | ToStop

  /** Any calls on a new lifecycle, and then a Start: one that reports no error has made
      exactly the Init calls due if and only if no Stop was interrupted before any Start, or
      none were due. */
  method StartAfter(requests: seq<Request>) returns (l: Lifecycle, errors: seq<Problem>)
    ensures fresh(l) && l.Valid()
    ensures errors == [] ==> (l.initLog == Initializers(l.entries) <==> !l.cutShort || Initializers(l.entries) == [])
    ensures errors == [] ==> (l.began <==> !l.cutShort)
  {
    l := new Lifecycle();
    for k := 0 to |requests|
      invariant fresh(l) && l.Valid()
    {
      var c: Context, patience: Context, c' := *, *, Open;
      match requests[k] {
        case ToAdd(kind, initializer, prestarted) => var added := l.TryAdd(kind, initializer, prestarted);
        case ToRetire(i) => if i < |l.entries| { var retired := l.Retire(i); }
        case ToSeal => l.SealRegistration();
        case ToStart => errors, c' := l.Start(c, patience);
        case ToStop =>
          ghost var at;
          errors, c', at := l.Stop(c);
      }
    }
    var c: Context, patience: Context, c' := *, *, Open;
    errors, c' := l.Start(c, patience);
  }

  /** A Start that reports success without an Init call: the lifecycle was told to stop
      before it started, with a component that runs already and a deadline that has passed. */
  method NeverInitialized() returns (l: Lifecycle, errors: seq<Problem>)
    ensures errors == [] && l.initLog == [] && l.cutShort && !l.began
    ensures l.entries == [FreshEntry(ContextAware, true, true)] && Initializers(l.entries) == [0]
  {
    l := new Lifecycle();
    var added := l.TryAdd(ContextAware, true, true);
    ghost var at;
    var c';
    errors, c', at := l.Stop(Ended);
    assert l.entries[0].started && !Terminal(l.entries[0]);
    errors, c' := l.Start(Endless, Endless);
    assert Initializers(l.entries[..0]) == [] && l.entries[..|l.entries| - 1] == [];
  }
}
