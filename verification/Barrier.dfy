/** The registration barrier of the plugin manager: registrations in flight, closers that
    wait for them, and one commit.

    Each event is one critical section; registrations and closers interleave freely. */
module Barrier {
  import opened Wrappers

  type Closer = nat

  /** Where a closer is.  It waits for a turn, a channel that is closed when the closer
      holding it gives up or finishes. */
  datatype Pc = Draining | WaitingFor(turn: nat) | Returned(ok: bool)

  /** `closings` counts the critical sections in which a closer committed. */
  datatype State = State(registrations: nat, blocked: bool, transition: Option<nat>, nextTurn: nat,
                         closers: map<Closer, Pc>, closings: nat)

  datatype Event =
    | Begin
    | End
    | Enter(c: Closer, expired: bool)
    | Wake(c: Closer)
    | Drained(c: Closer)
    | Cancel(c: Closer)

  function SetPc(s: State, c: Closer, pc: Pc): State {
    s.(closers := s.closers[c := pc])
  }

  predicate At(s: State, c: Closer, pc: Pc) {
    c in s.closers && s.closers[c] == pc
  }

  predicate Accepts(s: State) {
    !s.blocked
  }

  predicate Closed(s: State) {
    s.blocked && s.transition.None?
  }

  /** The commit, in the critical section that found no registration in flight. */
  function Finish(s: State, c: Closer): State {
    SetPc(s.(closings := s.closings + 1, transition := None), c, Returned(true))
  }

  /** The head of the loop of closeWithCommit. */
  function Attempt(s: State, c: Closer): State {
    if s.blocked then
      if s.transition.None? then SetPc(s, c, Returned(true)) else SetPc(s, c, WaitingFor(s.transition.value))
    else
      var taken := s.(blocked := true, transition := Some(s.nextTurn), nextTurn := s.nextTurn + 1);
      if taken.registrations == 0 then Finish(taken, c) else SetPc(taken, c, Draining)
  }

  function Step(s: State, e: Event): State {
    match e
    case Begin => if Accepts(s) then s.(registrations := s.registrations + 1) else s
    case End => if s.registrations > 0 then s.(registrations := s.registrations - 1) else s
    case Enter(c, expired) =>
      if c in s.closers then s else if expired then SetPc(s, c, Returned(false)) else Attempt(s, c)
    case Wake(c) =>
      if c in s.closers && s.closers[c].WaitingFor? && s.transition != Some(s.closers[c].turn) then Attempt(s, c) else s
    case Drained(c) =>
      if At(s, c, Draining) && s.registrations == 0 then Finish(s, c) else s
    case Cancel(c) =>
      if c !in s.closers || s.closers[c].Returned? then s
      else SetPc(if s.closers[c].Draining? then s.(blocked := false, transition := None) else s, c, Returned(false))
  }

  function Run(s: State, es: seq<Event>): State
    decreases |es|
  {
    if es == [] then s else Step(Run(s, es[..|es| - 1]), es[|es| - 1])
  }

  function Fresh(): State {
    State(0, false, None, 0, map[], 0)
  }

  /** At most one closer drains, and it holds the transition; a close that was reported
      happened once, with nothing in flight. */
  predicate Inv(s: State) {
    && (s.transition.Some? ==> s.blocked && s.transition.value < s.nextTurn)
    && (s.transition.Some? <==> exists c :: c in s.closers && s.closers[c] == Draining)
    && (forall c, d :: c in s.closers && d in s.closers && s.closers[c] == Draining && s.closers[d] == Draining ==> c == d)
    && (forall c :: c in s.closers && s.closers[c].WaitingFor? ==> s.closers[c].turn < s.nextTurn)
    && s.closings == (if Closed(s) then 1 else 0)
    && (Closed(s) ==> s.registrations == 0)
    && (forall c :: c in s.closers && s.closers[c] == Returned(true) ==> Closed(s))
  }

  lemma InvAttempt(s: State, c: Closer)
    requires Inv(s) && (c in s.closers ==> s.closers[c].WaitingFor?)
    ensures Inv(Attempt(s, c))
  {
    var s' := Attempt(s, c);
    if s.transition.Some? {
      var d :| d in s.closers && s.closers[d] == Draining;
      assert s'.closers[d] == Draining;
    } else if s'.transition.Some? {
      assert s'.closers[c] == Draining;
    }
  }

  lemma InvOther(s: State, e: Event)
    requires Inv(s) && (e.Enter? ==> e.expired) && !e.Wake?
    ensures Inv(Step(s, e))
  {
    var s' := Step(s, e);
    if s.transition.Some? {
      var d :| d in s.closers && s.closers[d] == Draining;
      assert s'.transition.Some? ==> s'.closers[d] == Draining;
    }
  }

  lemma InvStep(s: State, e: Event)
    requires Inv(s)
    ensures Inv(Step(s, e))
  {
    hide Inv, Attempt;
    match e
    case Enter(c, expired) => if c !in s.closers && !expired { InvAttempt(s, c); } else { InvOther(s, Enter(c, true)); }
    case Wake(c) => if c in s.closers && s.closers[c].WaitingFor? { InvAttempt(s, c); }
    case _ => InvOther(s, e);
  }

  lemma {:induction false} InvRun(s: State, es: seq<Event>)
    requires Inv(s)
    ensures Inv(Run(s, es))
  {
    hide Inv, Step;
    if es != [] {
      InvRun(s, es[..|es| - 1]);
      InvStep(Run(s, es[..|es| - 1]), es[|es| - 1]);
    }
  }

  lemma FreshInv()
    ensures Inv(Fresh())
  {
  }

  /** In every run at most one commit happens, and it happens with no registration in flight. */
  lemma CommitsOnce(es: seq<Event>, e: Event)
    ensures var s := Run(Fresh(), es);
            var s' := Step(s, e);
            && s'.closings <= 1
            && (s'.closings != s.closings ==> s'.closings == s.closings + 1 && s.registrations == 0 && s'.registrations == 0)
  {
    hide Run;
    FreshInv();
    InvRun(Fresh(), es);
    InvStep(Run(Fresh(), es), e);
  }

  /** After a successful close no registration ever begins, whatever comes. */
  lemma {:induction false} ClosedForever(s: State, es: seq<Event>)
    requires Inv(s) && Closed(s)
    ensures Closed(Run(s, es)) && !Accepts(Run(s, es)) && Run(s, es).registrations == 0 && Run(s, es).closings == s.closings
  {
    hide Inv, Step;
    if es == [] {
      ClosedStep(s, Begin);
    } else {
      ClosedForever(s, es[..|es| - 1]);
      InvRun(s, es[..|es| - 1]);
      ClosedStep(Run(s, es[..|es| - 1]), es[|es| - 1]);
    }
  }

  lemma ClosedStep(s: State, e: Event)
    requires Inv(s) && Closed(s)
    ensures s.registrations == 0 && Closed(Step(s, e)) && Step(s, e).registrations == 0 && Step(s, e).closings == s.closings
  {
  }

  /** A close that returned without error means the barrier is closed, and stays closed. */
  lemma ReportedCloseHolds(es: seq<Event>, c: Closer, later: seq<Event>)
    requires At(Run(Fresh(), es), c, Returned(true))
    ensures Closed(Run(Run(Fresh(), es), later)) && Run(Run(Fresh(), es), later).registrations == 0
  {
    FreshInv();
    InvRun(Fresh(), es);
    ClosedForever(Run(Fresh(), es), later);
  }

  /** While the barrier is blocked the registrations in flight only decrease. */
  lemma BlockedOnlyDrains(s: State, e: Event)
    requires s.blocked
    ensures Step(s, e).registrations <= s.registrations
  {
  }

  /** A cancelled close reopens the barrier, and any waiting closer can take over. */
  lemma CancelHandsOver(s: State, c: Closer, w: Closer)
    requires Inv(s) && At(s, c, Draining) && w in s.closers && s.closers[w].WaitingFor?
    ensures var reopened := Step(s, Cancel(c));
            && Accepts(reopened) && Step(reopened, Begin).registrations == s.registrations + 1
            && var taken := Step(reopened, Wake(w));
               (s.registrations == 0 ==> At(taken, w, Returned(true)) && Closed(taken))
               && (s.registrations > 0 ==> At(taken, w, Draining) && taken.blocked)
  {
  }

  /** What a new closer meets.  A closed barrier answers at once and commits nothing; while
      another closer holds it, it waits and is not woken; an open barrier it takes, and
      commits there and then exactly when nothing is in flight.  With an ended context it
      fails and leaves the barrier alone. */
  lemma EnterOutcome(s: State, c: Closer)
    requires Inv(s) && c !in s.closers
    ensures var s' := Step(s, Enter(c, false));
            && s'.blocked && s'.registrations == s.registrations && c in s'.closers && s'.closers - {c} == s.closers
            && if Closed(s) then s'.closers[c] == Returned(true) && Closed(s') && s'.closings == s.closings
               else if s.blocked then s'.closers[c].WaitingFor? && s'.transition == s.transition && Step(s', Wake(c)) == s'
               else if s.registrations == 0 then s'.closers[c] == Returned(true) && Closed(s') && s'.closings == s.closings + 1
               else s'.closers[c] == Draining && s'.closings == s.closings
    ensures Step(s, Enter(c, true)) == s.(closers := s.closers[c := Returned(false)])
  {
    assert Step(s, Enter(c, false)).closers - {c} == s.closers;
  }

  /** When the closer that holds the barrier finishes, whoever waits for it returns without
      an error, and without a second commit. */
  lemma WaitersFollow(s: State, c: Closer, w: Closer)
    requires Inv(s) && At(s, c, Draining) && s.registrations == 0 && w in s.closers && s.closers[w].WaitingFor?
    ensures var s1 := Step(s, Drained(c));
            var s2 := Step(s1, Wake(w));
            At(s1, c, Returned(true)) && s1.closings == s.closings + 1
            && At(s2, w, Returned(true)) && At(s2, c, Returned(true)) && Closed(s2) && s2.closings == s1.closings
  {
  }

  /** The draining closer is never stuck: once the registrations have ended it finishes. */
  lemma {:induction false} DrainFinishes(s: State, c: Closer)
    requires Inv(s) && At(s, c, Draining)
    ensures exists es :: |es| == s.registrations + 1 && At(Run(s, es), c, Returned(true)) && Closed(Run(s, es))
    decreases s.registrations
  {
    if s.registrations == 0 {
      assert Run(s, [Drained(c)]) == Step(Run(s, []), Drained(c));
    } else {
      InvStep(s, End);
      DrainFinishes(Step(s, End), c);
      var es :| |es| == s.registrations && At(Run(Step(s, End), es), c, Returned(true)) && Closed(Run(Step(s, End), es));
      RunFirst(s, End, es);
    }
  }

  lemma {:induction false} RunFirst(s: State, e: Event, es: seq<Event>)
    ensures Run(s, [e] + es) == Run(Step(s, e), es)
  {
    hide Step;
    if es == [] {
      assert [e] + es == [e];
      assert Run(s, [e]) == Step(Run(s, []), e);
    } else {
      RunFirst(s, e, es[..|es| - 1]);
      assert ([e] + es)[..|[e] + es| - 1] == [e] + es[..|es| - 1];
    }
  }

  // ----- the critical sections -----

  class RegistrationBarrier {
    var registrations: nat
    var blocked: bool
    var transition: Option<nat>
    var nextTurn: nat
    var closers: map<Closer, Pc>
    ghost var closings: nat

    ghost function View(): State
      reads this
    {
      State(registrations, blocked, transition, nextTurn, closers, closings)
    }

    constructor ()
      ensures View() == Fresh()
    {
      registrations, blocked, transition, nextTurn, closers, closings := 0, false, None, 0, map[], 0;
    }

    method BeginRegistration() returns (ok: bool)
      modifies this
      ensures View() == Step(old(View()), Begin) && ok == !old(blocked)
    {
      if blocked { return false; }
      registrations := registrations + 1;
      ok := true;
    }

    method EndRegistration()
      modifies this
      ensures View() == Step(old(View()), End)
    {
      if registrations > 0 { registrations := registrations - 1; }
    }

    /** The loop head of closeWithCommit, up to the first wait. */
    method TryClose(c: Closer) returns (committed: bool)
      modifies this
      ensures View() == Attempt(old(View()), c)
      ensures committed <==> closings == old(closings) + 1
    {
      committed := false;
      if blocked {
        closers := closers[c := if transition.None? then Returned(true) else WaitingFor(transition.value)];
        return;
      }
      blocked, transition, nextTurn := true, Some(nextTurn), nextTurn + 1;
      if registrations > 0 {
        closers := closers[c := Draining];
        return;
      }
      transition, closings := None, closings + 1;
      closers := closers[c := Returned(true)];
      committed := true;
    }

    /** A draining closer wakes up: it looks again, or its context has ended. */
    method DrainOn(c: Closer, expired: bool) returns (committed: bool)
      requires At(View(), c, Draining)
      modifies this
      ensures View() == Step(old(View()), if expired then Cancel(c) else Drained(c))
      ensures committed <==> !expired && old(registrations) == 0
    {
      committed := false;
      if expired {
        blocked, transition := false, None;
        closers := closers[c := Returned(false)];
      } else if registrations == 0 {
        transition, closings := None, closings + 1;
        closers := closers[c := Returned(true)];
        committed := true;
      }
    }
  }
}
