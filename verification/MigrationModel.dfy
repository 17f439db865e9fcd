/** The migration protocol: a lock row with an owner, a history table with a dirty marker,
    and the schema the migrations act on.

    Several runners share one database.  Every statement is one step; it may fail, it may
    take effect although its caller sees an error (a lost acknowledgement), and a runner
    may die between any two statements or in the middle of migration SQL. */
module MigrationModel {
  import opened Wrappers

  /** A version is known by its rank in the order the database sorts versions in. */
  type Version = nat
  /** A lock owner is a fresh random token. */
  type Owner = nat

  datatype Row = Row(name: string, dirty: bool)

  /** What the schema holds of a version's Up SQL; a version not in the map: nothing. */
  datatype Effect = Partial | Full

  /** A migration file pair; `upAlone` and `downAlone`: that direction runs outside a
      transaction for the dialect at hand. */
  datatype Migration = Migration(version: Version, name: string, upAlone: bool, downAlone: bool, hasDown: bool)

  /** Where a runner is.  Gone: it has returned, or died. */
  datatype Pc =
    | Owns | Ready | Leaving | Gone
    | UpMarked(v: Version) | UpRan(v: Version)
    | DownMarked(v: Version) | DownRan(v: Version)

  datatype Sys = Sys(history: map<Version, Row>, schema: map<Version, Effect>, lock: Option<Owner>, pcs: map<Owner, Pc>)

  /** `takes`: the statement reaches the database.  `acked`: its caller learns of it. */
  datatype Event =
    | Acquire(o: Owner, takes: bool, acked: bool)
    | CheckDirty(o: Owner, acked: bool)
    | UpTx(o: Owner, v: Version, name: string, takes: bool, acked: bool)
    | MarkUp(o: Owner, v: Version, name: string, takes: bool, acked: bool)
    | RunUp(o: Owner, acked: bool, left: Option<Effect>)
    | ClearUp(o: Owner, takes: bool, acked: bool)
    | DownTx(o: Owner, v: Version, takes: bool, acked: bool)
    | MarkDown(o: Owner, v: Version, takes: bool, acked: bool)
    | RunDown(o: Owner, acked: bool, left: Option<Effect>)
    | RemoveDown(o: Owner, takes: bool, acked: bool)
    | Resolve(o: Owner, v: Version, applied: bool, takes: bool)
    | Release(o: Owner, takes: bool)
    | Crash(o: Owner, left: Option<Effect>)
    | ForceUnlock(o: Owner)
    | Repair(v: Version, left: Option<Effect>)

  predicate At(s: Sys, o: Owner, pc: Pc) {
    o in s.pcs && s.pcs[o] == pc
  }

  predicate Live(s: Sys, o: Owner) {
    o in s.pcs && s.pcs[o] != Gone
  }

  predicate Dirty(s: Sys, v: Version) {
    v in s.history && s.history[v].dirty
  }

  predicate Clean(s: Sys, v: Version) {
    v in s.history && !s.history[v].dirty
  }

  function SetPc(s: Sys, o: Owner, pc: Pc): Sys {
    s.(pcs := s.pcs[o := pc])
  }

  function PutRow(s: Sys, v: Version, r: Row): Sys {
    s.(history := s.history[v := r])
  }

  function DropRow(s: Sys, v: Version): Sys {
    s.(history := s.history - {v})
  }

  function PutEffect(s: Sys, v: Version, e: Option<Effect>): Sys {
    s.(schema := if e.Some? then s.schema[v := e.value] else s.schema - {v})
  }

  /** The statement of a runner at the right point; anything else changes nothing. */
  function Step(s: Sys, e: Event): Sys {
    match e
    case Acquire(o, takes, acked) =>
      if o in s.pcs then s
      else if takes && s.lock.None? then SetPc(s.(lock := Some(o)), o, if acked then Owns else Gone)
      else SetPc(s, o, Gone)
    case CheckDirty(o, acked) =>
      if !At(s, o, Owns) then s
      else SetPc(s, o, if acked && forall v :: v in s.history ==> !s.history[v].dirty then Ready else Leaving)
    case UpTx(o, v, name, takes, acked) =>
      if !At(s, o, Ready) then s
      else if takes && v !in s.history then
        SetPc(PutEffect(PutRow(s, v, Row(name, false)), v, Some(Full)), o, if acked then Ready else Leaving)
      else SetPc(s, o, Leaving)
    case MarkUp(o, v, name, takes, acked) =>
      if !At(s, o, Ready) then s
      else if takes && v !in s.history then SetPc(PutRow(s, v, Row(name, true)), o, if acked then UpMarked(v) else Leaving)
      else SetPc(s, o, Leaving)
    case RunUp(o, acked, left) =>
      if o !in s.pcs || !s.pcs[o].UpMarked? then s
      else
        var v := s.pcs[o].v;
        if acked then SetPc(PutEffect(s, v, Some(Full)), o, UpRan(v)) else SetPc(PutEffect(s, v, left), o, Leaving)
    case ClearUp(o, takes, acked) =>
      if o !in s.pcs || !s.pcs[o].UpRan? then s
      else
        var v := s.pcs[o].v;
        if takes && Dirty(s, v) then SetPc(PutRow(s, v, s.history[v].(dirty := false)), o, if acked then Ready else Leaving)
        else SetPc(s, o, Leaving)
    case DownTx(o, v, takes, acked) =>
      if !At(s, o, Ready) || !Clean(s, v) then s
      else if takes then SetPc(DropRow(PutEffect(s, v, None), v), o, if acked then Ready else Leaving)
      else SetPc(s, o, Leaving)
    case MarkDown(o, v, takes, acked) =>
      if !At(s, o, Ready) then s
      else if takes && Clean(s, v) then SetPc(PutRow(s, v, s.history[v].(dirty := true)), o, if acked then DownMarked(v) else Leaving)
      else SetPc(s, o, Leaving)
    case RunDown(o, acked, left) =>
      if o !in s.pcs || !s.pcs[o].DownMarked? then s
      else
        var v := s.pcs[o].v;
        if acked then SetPc(PutEffect(s, v, None), o, DownRan(v)) else SetPc(PutEffect(s, v, left), o, Leaving)
    case RemoveDown(o, takes, acked) =>
      if o !in s.pcs || !s.pcs[o].DownRan? then s
      else
        var v := s.pcs[o].v;
        if takes && Dirty(s, v) then SetPc(DropRow(s, v), o, if acked then Ready else Leaving)
        else SetPc(s, o, Leaving)
    case Resolve(o, v, applied, takes) =>
      if !At(s, o, Owns) then s
      else if takes && Dirty(s, v) then
        SetPc(if applied then PutRow(s, v, s.history[v].(dirty := false)) else DropRow(s, v), o, Leaving)
      else SetPc(s, o, Leaving)
    case Release(o, takes) =>
      if !Live(s, o) then s
      else SetPc(if takes && s.lock == Some(o) then s.(lock := None) else s, o, Gone)
    case Crash(o, left) =>
      if !Live(s, o) then s
      else
        var pc := s.pcs[o];
        SetPc(if pc.UpMarked? || pc.DownMarked? then PutEffect(s, pc.v, left) else s, o, Gone)
    case ForceUnlock(o) =>
      if s.lock == Some(o) then s.(lock := None) else s
    case Repair(v, left) =>
      if Dirty(s, v) then PutEffect(s, v, left) else s
  }

  /** What operators are trusted with: a lock is forced only when its owner has gone, a
      dirty row is resolved to what the schema really holds, and the schema is repaired by
      hand only for a dirty version and while no runner is at work. */
  predicate Careful(s: Sys, e: Event) {
    match e
    case ForceUnlock(o) => s.lock == Some(o) ==> !Live(s, o)
    case Resolve(o, v, applied, takes) =>
      At(s, o, Owns) && takes && Dirty(s, v) ==> Truthful(s, v, applied)
    case Repair(v, left) => forall o :: o in s.pcs ==> !Live(s, o)
    case _ => true
  }

  predicate Truthful(s: Sys, v: Version, applied: bool) {
    if applied then v in s.schema && s.schema[v] == Full else v !in s.schema
  }

  function Run(s: Sys, es: seq<Event>): Sys
    decreases |es|
  {
    if es == [] then s else Step(Run(s, es[..|es| - 1]), es[|es| - 1])
  }

  predicate CarefulRun(s: Sys, es: seq<Event>)
    decreases |es|
  {
    es == [] || (CarefulRun(s, es[..|es| - 1]) && Careful(Run(s, es[..|es| - 1]), es[|es| - 1]))
  }

  predicate By(e: Event, o: Owner) {
    !e.ForceUnlock? && !e.Repair? && e.o == o
  }

  function Fresh(): Sys {
    Sys(map[], map[], None, map[])
  }

  // ----- the invariant -----

  /** The lock excludes: a runner at work owns it, so there is at most one. */
  predicate Excluded(s: Sys) {
    && (forall o :: o in s.pcs && s.pcs[o] != Gone ==> s.lock == Some(o))
    && (s.lock.Some? ==> s.lock.value in s.pcs)
  }

  /** The marker is sound: a clean row means all of the Up SQL is in the schema, no row
      means none of it is, and every other situation is covered by a dirty row. */
  predicate MarkerSound(s: Sys) {
    && (forall v :: v in s.history && !s.history[v].dirty ==> v in s.schema && s.schema[v] == Full)
    && (forall v :: v in s.schema ==> v in s.history)
  }

  predicate OneDirty(s: Sys) {
    forall v, w :: v in s.history && w in s.history && s.history[v].dirty && s.history[w].dirty ==> v == w
  }

  /** What a runner at work knows. */
  predicate PointOk(s: Sys, pc: Pc) {
    match pc
    case Ready => forall v :: v in s.history ==> !s.history[v].dirty
    case UpMarked(v) => Dirty(s, v) && v !in s.schema
    case UpRan(v) => Dirty(s, v) && v in s.schema && s.schema[v] == Full
    case DownMarked(v) => Dirty(s, v) && v in s.schema && s.schema[v] == Full
    case DownRan(v) => Dirty(s, v) && v !in s.schema
    case _ => true
  }

  predicate PointsOk(s: Sys) {
    forall o :: o in s.pcs ==> PointOk(s, s.pcs[o])
  }

  predicate Inv(s: Sys) {
    Excluded(s) && MarkerSound(s) && OneDirty(s) && PointsOk(s)
  }

  lemma InvUpTx(s: Sys, e: Event)
    requires Inv(s) && e.UpTx?
    ensures Inv(Step(s, e))
  {
  }

  lemma InvDownTx(s: Sys, e: Event)
    requires Inv(s) && e.DownTx?
    ensures Inv(Step(s, e))
  {
  }

  lemma InvMarkUp(s: Sys, e: Event)
    requires Inv(s) && e.MarkUp?
    ensures Inv(Step(s, e))
  {
  }

  lemma InvMarkDown(s: Sys, e: Event)
    requires Inv(s) && e.MarkDown?
    ensures Inv(Step(s, e))
  {
  }

  lemma InvRunUp(s: Sys, e: Event)
    requires Inv(s) && e.RunUp?
    ensures Inv(Step(s, e))
  {
  }

  lemma InvRunDown(s: Sys, e: Event)
    requires Inv(s) && e.RunDown?
    ensures Inv(Step(s, e))
  {
  }

  lemma InvClear(s: Sys, e: Event)
    requires Inv(s) && e.ClearUp?
    ensures Inv(Step(s, e))
  {
  }

  lemma InvRemove(s: Sys, e: Event)
    requires Inv(s) && e.RemoveDown?
    ensures Inv(Step(s, e))
  {
  }

  lemma InvLock(s: Sys, e: Event)
    requires Inv(s) && Careful(s, e) && (e.Acquire? || e.CheckDirty? || e.Release? || e.ForceUnlock?)
    ensures Inv(Step(s, e))
  {
  }

  lemma InvCrash(s: Sys, e: Event)
    requires Inv(s) && e.Crash?
    ensures Inv(Step(s, e))
  {
  }

  lemma InvResolve(s: Sys, e: Event)
    requires Inv(s) && Careful(s, e) && e.Resolve?
    ensures Inv(Step(s, e))
  {
  }

  lemma InvRepair(s: Sys, e: Event)
    requires Inv(s) && Careful(s, e) && e.Repair?
    ensures Inv(Step(s, e))
  {
  }

  /** Every step keeps the invariant. */
  lemma InvStep(s: Sys, e: Event)
    requires Inv(s) && Careful(s, e)
    ensures Inv(Step(s, e))
  {
    hide Step, Inv, Careful;
    match e
    case UpTx(_, _, _, _, _) => InvUpTx(s, e);
    case DownTx(_, _, _, _) => InvDownTx(s, e);
    case MarkUp(_, _, _, _, _) => InvMarkUp(s, e);
    case MarkDown(_, _, _, _) => InvMarkDown(s, e);
    case RunUp(_, _, _) => InvRunUp(s, e);
    case RunDown(_, _, _) => InvRunDown(s, e);
    case ClearUp(_, _, _) => InvClear(s, e);
    case RemoveDown(_, _, _) => InvRemove(s, e);
    case Crash(_, _) => InvCrash(s, e);
    case Resolve(_, _, _, _) => InvResolve(s, e);
    case Repair(_, _) => InvRepair(s, e);
    case _ => InvLock(s, e);
  }

  /** Every reachable state is sound, whatever the interleaving, the failures and the
      crashes. */
  lemma {:induction false} InvRun(s: Sys, es: seq<Event>)
    requires Inv(s) && CarefulRun(s, es)
    ensures Inv(Run(s, es))
  {
    hide Step, Inv, Careful;
    if es != [] {
      InvRun(s, es[..|es| - 1]);
      InvStep(Run(s, es[..|es| - 1]), es[|es| - 1]);
    }
  }

  lemma MarkerAlwaysSound(es: seq<Event>)
    requires CarefulRun(Fresh(), es)
    ensures MarkerSound(Run(Fresh(), es)) && OneDirty(Run(Fresh(), es)) && Excluded(Run(Fresh(), es))
  {
    InvRun(Fresh(), es);
  }

  // ----- what the statements do -----

  /** A statement that reaches the database has its whole effect, acknowledged or not; its
      runner goes on exactly when it is acknowledged. */
  lemma UpTakesEffect(s: Sys, o: Owner, v: Version, name: string, acked: bool)
    requires At(s, o, Ready) && v !in s.history
    ensures var t := Step(s, UpTx(o, v, name, true, acked));
            && t.history == s.history[v := Row(name, false)] && t.schema == s.schema[v := Full] && t.lock == s.lock
            && At(t, o, if acked then Ready else Leaving)
    ensures var t := Step(s, MarkUp(o, v, name, true, acked));
            && t.history == s.history[v := Row(name, true)] && t.schema == s.schema && t.lock == s.lock
            && At(t, o, if acked then UpMarked(v) else Leaving)
  {
  }

  lemma UpEnds(s: Sys, o: Owner, v: Version, acked: bool, left: Option<Effect>)
    ensures At(s, o, UpMarked(v)) ==>
              var t := Step(s, RunUp(o, acked, left));
              && t.history == s.history && t.lock == s.lock && At(t, o, if acked then UpRan(v) else Leaving)
              && (acked ==> t.schema == s.schema[v := Full])
    ensures At(s, o, UpRan(v)) && Dirty(s, v) ==>
              var t := Step(s, ClearUp(o, true, acked));
              && t.history == s.history[v := Row(s.history[v].name, false)] && t.schema == s.schema && t.lock == s.lock
              && At(t, o, if acked then Ready else Leaving)
  {
  }

  lemma DownTakesEffect(s: Sys, o: Owner, v: Version, acked: bool)
    requires At(s, o, Ready) && Clean(s, v)
    ensures var t := Step(s, DownTx(o, v, true, acked));
            && t.history == s.history - {v} && t.schema == s.schema - {v} && t.lock == s.lock
            && At(t, o, if acked then Ready else Leaving)
    ensures var t := Step(s, MarkDown(o, v, true, acked));
            && t.history == s.history[v := Row(s.history[v].name, true)] && t.schema == s.schema && t.lock == s.lock
            && At(t, o, if acked then DownMarked(v) else Leaving)
  {
  }

  lemma DownEnds(s: Sys, o: Owner, v: Version, acked: bool, left: Option<Effect>)
    ensures At(s, o, DownMarked(v)) ==>
              var t := Step(s, RunDown(o, acked, left));
              && t.history == s.history && t.lock == s.lock && At(t, o, if acked then DownRan(v) else Leaving)
              && (acked ==> t.schema == s.schema - {v})
    ensures At(s, o, DownRan(v)) && Dirty(s, v) ==>
              var t := Step(s, RemoveDown(o, true, acked));
              && t.history == s.history - {v} && t.schema == s.schema && t.lock == s.lock
              && At(t, o, if acked then Ready else Leaving)
  {
  }

  lemma LockTakesEffect(s: Sys, o: Owner, acked: bool)
    ensures o !in s.pcs && s.lock == None ==>
              var t := Step(s, Acquire(o, true, acked));
              t == s.(lock := Some(o), pcs := s.pcs[o := if acked then Owns else Gone])
    ensures o !in s.pcs && s.lock != None ==> Step(s, Acquire(o, true, acked)) == s.(pcs := s.pcs[o := Gone])
    ensures At(s, o, Owns) && (forall v :: v in s.history ==> !s.history[v].dirty) ==>
              Step(s, CheckDirty(o, acked)) == s.(pcs := s.pcs[o := if acked then Ready else Leaving])
    ensures At(s, o, Owns) && (exists v :: v in s.history && s.history[v].dirty) ==>
              Step(s, CheckDirty(o, acked)) == s.(pcs := s.pcs[o := Leaving])
    ensures Live(s, o) && s.lock == Some(o) ==> Step(s, Release(o, true)) == s.(lock := None, pcs := s.pcs[o := Gone])
  {
  }

  /** An operator's finding makes the dirty row clean or drops it; a forced lock is free; a
      death and a hand repair leave the lock and the history alone. */
  lemma OperatorsTakeEffect(s: Sys, o: Owner, v: Version, applied: bool, left: Option<Effect>)
    ensures At(s, o, Owns) && Dirty(s, v) ==>
              Step(s, Resolve(o, v, applied, true))
              == s.(history := if applied then s.history[v := Row(s.history[v].name, false)] else s.history - {v}, pcs := s.pcs[o := Leaving])
    ensures Step(s, ForceUnlock(o)) == if s.lock == Some(o) then s.(lock := None) else s
    ensures Live(s, o) ==>
              var t := Step(s, Crash(o, left));
              && t.history == s.history && t.lock == s.lock && t.pcs == s.pcs[o := Gone]
              && (s.pcs[o].UpMarked? || s.pcs[o].DownMarked? || t.schema == s.schema)
    ensures Dirty(s, v) ==>
              var t := Step(s, Repair(v, left));
              && t.history == s.history && t.lock == s.lock && t.pcs == s.pcs
              && (v in t.schema <==> left.Some?) && (left.Some? ==> t.schema[v] == left.value)
  {
  }

  predicate Taken(e: Event) {
    match e
    case Acquire(_, takes, _) => takes
    case UpTx(_, _, _, takes, _) => takes
    case MarkUp(_, _, _, takes, _) => takes
    case ClearUp(_, takes, _) => takes
    case DownTx(_, _, takes, _) => takes
    case MarkDown(_, _, takes, _) => takes
    case RemoveDown(_, takes, _) => takes
    case Resolve(_, _, _, takes) => takes
    case Release(_, takes) => takes
    case CheckDirty(_, _) => false
    case _ => true
  }

  /** A statement that does not reach the database changes no table, and neither does one out
      of turn. */
  lemma UntakenChangesNothing(s: Sys, e: Event)
    requires !Taken(e)
    ensures Step(s, e).history == s.history && Step(s, e).schema == s.schema && Step(s, e).lock == s.lock
  {
  }

  // ----- what a runner may rely on -----

  /** While a runner is at work, nobody else touches the lock, the history or the schema. */
  lemma OthersKeep(s: Sys, e: Event, o: Owner)
    requires Inv(s) && Careful(s, e) && Live(s, o) && !By(e, o)
    ensures Step(s, e).history == s.history && Step(s, e).schema == s.schema && Step(s, e).lock == s.lock
    ensures At(Step(s, e), o, s.pcs[o])
  {
  }

  lemma OthersKeepPoint(s: Sys, e: Event, o: Owner)
    requires !By(e, o)
    ensures o in s.pcs <==> o in Step(s, e).pcs
    ensures o in s.pcs ==> Step(s, e).pcs[o] == s.pcs[o]
  {
  }

  // ----- a dirty row stops everything -----

  predicate NobodyMarked(s: Sys) {
    forall o :: o in s.pcs ==> s.pcs[o] in {Owns, Leaving, Gone}
  }

  /** Once a row is left dirty, no sequence of Up and Down calls, crashes and forced unlocks
      runs any migration SQL or touches the history, until the row is resolved. */
  lemma {:induction false} DirtyBlocks(s: Sys, v: Version, es: seq<Event>)
    requires Inv(s) && Dirty(s, v) && NobodyMarked(s) && CarefulRun(s, es)
    requires forall i :: 0 <= i < |es| ==> !es[i].Resolve? && !es[i].Repair?
    ensures Run(s, es).history == s.history && Run(s, es).schema == s.schema && NobodyMarked(Run(s, es))
  {
    if es != [] {
      var prefix := es[..|es| - 1];
      DirtyBlocks(s, v, prefix);
      InvRun(s, prefix);
      DirtyBlocksStep(Run(s, prefix), v, es[|es| - 1]);
    }
  }

  lemma DirtyBlocksStep(s: Sys, v: Version, e: Event)
    requires Inv(s) && Dirty(s, v) && NobodyMarked(s) && !e.Resolve? && !e.Repair?
    ensures Step(s, e).history == s.history && Step(s, e).schema == s.schema && NobodyMarked(Step(s, e))
  {
    assert forall o :: o in s.pcs ==> PointOk(s, s.pcs[o]);
  }

  // ----- exactly when the operators' part is safe -----

  /** Resolving a dirty row keeps the marker sound exactly when it is truthful. */
  lemma ResolveSoundIff(s: Sys, o: Owner, v: Version, applied: bool)
    requires Inv(s) && At(s, o, Owns) && Dirty(s, v)
    ensures MarkerSound(Step(s, Resolve(o, v, applied, true))) <==> Truthful(s, v, applied)
  {
    var s' := Step(s, Resolve(o, v, applied, true));
    if applied {
      assert v in s'.history && !s'.history[v].dirty;
    } else {
      assert v !in s'.history;
    }
  }

  /** Forcing a held lock keeps exclusion exactly when its owner has gone. */
  lemma ForceUnlockExcludesIff(s: Sys, o: Owner)
    requires Inv(s) && s.lock == Some(o)
    ensures Excluded(Step(s, ForceUnlock(o))) <==> !Live(s, o)
  {
    var s' := Step(s, ForceUnlock(o));
    if Live(s, o) {
      assert o in s'.pcs && s'.pcs[o] != Gone;
    }
  }

  /** Two runners past their dirty checks, the first one's lock forced. */
  function BothReady(): Sys {
    Sys(map[], map[], Some(2), map[1 := Ready, 2 := Ready])
  }

  function ForcedRun(): seq<Event> {
    [Acquire(1, true, true), CheckDirty(1, true), ForceUnlock(1), Acquire(2, true, true), CheckDirty(2, true)]
  }

  lemma ForcedRunReaches()
    ensures Run(Fresh(), ForcedRun()) == BothReady()
  {
    hide Run, Step, Fresh, BothReady;
    var s3 := FirstReady();
    var es := [Acquire(1, true, true), CheckDirty(1, true), ForceUnlock(1)];
    RunSnoc(Fresh(), es, Acquire(2, true, true));
    RunSnoc(Fresh(), es + [Acquire(2, true, true)], CheckDirty(2, true));
    assert es + [Acquire(2, true, true)] + [CheckDirty(2, true)] == ForcedRun();
    SecondReady(s3);
  }

  /** The first runner is ready and its lock has been forced. */
  lemma FirstReady() returns (s: Sys)
    ensures s == Run(Fresh(), [Acquire(1, true, true), CheckDirty(1, true), ForceUnlock(1)])
    ensures s == Sys(map[], map[], None, map[1 := Ready])
  {
    hide Run, Step;
    var a, b, c := Acquire(1, true, true), CheckDirty(1, true), ForceUnlock(1);
    RunNone(Fresh());
    RunSnoc(Fresh(), [], a);
    RunSnoc(Fresh(), [a], b);
    RunSnoc(Fresh(), [a, b], c);
    assert [] + [a] == [a] && [a] + [b] == [a, b] && [a, b] + [c] == [a, b, c];
    FirstSteps();
    s := Sys(map[], map[], None, map[1 := Ready]);
  }

  lemma FirstSteps()
    ensures Step(Fresh(), Acquire(1, true, true)) == Sys(map[], map[], Some(1), map[1 := Owns])
    ensures Step(Sys(map[], map[], Some(1), map[1 := Owns]), CheckDirty(1, true)) == Sys(map[], map[], Some(1), map[1 := Ready])
    ensures Step(Sys(map[], map[], Some(1), map[1 := Ready]), ForceUnlock(1)) == Sys(map[], map[], None, map[1 := Ready])
  {
  }

  lemma SecondReady(s: Sys)
    requires s == Sys(map[], map[], None, map[1 := Ready])
    ensures Step(Step(s, Acquire(2, true, true)), CheckDirty(2, true)) == BothReady()
  {
    var s4 := Step(s, Acquire(2, true, true));
    assert s4 == Sys(map[], map[], Some(2), map[1 := Ready, 2 := Owns]);
    assert Step(s4, CheckDirty(2, true)) == BothReady();
  }

  /** Forcing the lock of a live runner lets two rows become dirty at once. */
  lemma TwoDirtyRows()
    ensures !OneDirty(Run(Fresh(), ForcedRun() + [MarkUp(1, 1, "a", true, true), MarkUp(2, 2, "b", true, true)]))
  {
    hide Run;
    ForcedRunReaches();
    var a, b := MarkUp(1, 1, "a", true, true), MarkUp(2, 2, "b", true, true);
    RunSnoc(Fresh(), ForcedRun(), a);
    RunSnoc(Fresh(), ForcedRun() + [a], b);
    assert ForcedRun() + [a] + [b] == ForcedRun() + [a, b];
    var s := Step(Step(BothReady(), a), b);
    assert Dirty(s, 1) && Dirty(s, 2);
  }

  lemma RunNone(s: Sys)
    ensures Run(s, []) == s
  {
  }

  lemma RunSnoc(s: Sys, es: seq<Event>, e: Event)
    ensures Run(s, es + [e]) == Step(Run(s, es), e)
    ensures CarefulRun(s, es) && Careful(Run(s, es), e) ==> CarefulRun(s, es + [e])
  {
    hide Step, Careful;
    assert (es + [e])[..|es|] == es;
  }
}
