/** Up, Down, ForceUnlock and ForceMigrationState as programs over the shared database.

    Before every statement any number of steps of other runners and operators may happen,
    and the runner itself may die.  Every method's effect is a careful run of the
    transition system, so the marker is sound at every exit. */
module MigrationRunner {
  import opened Wrappers
  import opened MigrationModel

  datatype Verdict = Fine | Failed | Died

  predicate AllClean(h: map<Version, Row>) {
    forall v :: v in h ==> !h[v].dirty
  }

  /** Every listed migration that has a row has it under its name, and migrations listed
      twice have one name. */
  predicate Fits(h: map<Version, Row>, ms: seq<Migration>) {
    && (forall i :: 0 <= i < |ms| && ms[i].version in h ==> h[ms[i].version].name == ms[i].name)
    && (forall i, j :: 0 <= i < j < |ms| && ms[i].version == ms[j].version ==> ms[i].name == ms[j].name)
  }

  // ----- what the operations achieve -----

  /** The history after the first k migrations have been brought up. */
  function Upgraded(h: map<Version, Row>, ms: seq<Migration>, k: nat): map<Version, Row>
    requires k <= |ms|
  {
    if k == 0 then h
    else
      var prev := Upgraded(h, ms, k - 1);
      if ms[k - 1].version in prev then prev else prev[ms[k - 1].version := Row(ms[k - 1].name, false)]
  }

  /** Exactly the listed migrations were added: an old row stays, a listed version has a
      row, and a new row is clean and carries the name of the first migration listed. */
  lemma {:induction false} UpgradedExact(h: map<Version, Row>, ms: seq<Migration>, k: nat, v: Version)
    requires k <= |ms|
    ensures v in h ==> v in Upgraded(h, ms, k) && Upgraded(h, ms, k)[v] == h[v]
    ensures v in Upgraded(h, ms, k) <==> v in h || exists i :: 0 <= i < k && ms[i].version == v
    ensures v in Upgraded(h, ms, k) && v !in h ==>
              !Upgraded(h, ms, k)[v].dirty && exists i :: 0 <= i < k && ms[i].version == v && ms[i].name == Upgraded(h, ms, k)[v].name
  {
    if k > 0 {
      UpgradedExact(h, ms, k - 1, v);
    }
  }

  /** The newest versions, newest first. */
  predicate IsLatest(h: map<Version, Row>, vs: seq<Version>, steps: nat) {
    && (forall i :: 0 <= i < |vs| ==> vs[i] in h)
    && (forall i, j :: 0 <= i < j < |vs| ==> vs[i] > vs[j])
    && (forall v, i :: v in h && v !in vs && 0 <= i < |vs| ==> v < vs[i])
    && |vs| <= steps
    && (|vs| < steps ==> forall v :: v in h ==> v in vs)
  }

  /** The migration loaded for a version: the last one listed with it. */
  function Loaded(ms: seq<Migration>, v: Version): Option<Migration> {
    if ms == [] then None
    else if ms[|ms| - 1].version == v then Some(ms[|ms| - 1])
    else Loaded(ms[..|ms| - 1], v)
  }

  /** Every version to be rolled back has a loaded file of the same name with Down SQL. */
  predicate PlanOk(h: map<Version, Row>, vs: seq<Version>, ms: seq<Migration>) {
    forall i :: 0 <= i < |vs| ==>
      vs[i] in h && Loaded(ms, vs[i]).Some? && Loaded(ms, vs[i]).value.name == h[vs[i]].name && Loaded(ms, vs[i]).value.hasDown
  }

  /** The same of the newest versions. */
  ghost predicate PlansAll(h: map<Version, Row>, steps: nat, ms: seq<Migration>) {
    forall vs :: IsLatest(h, vs, steps) ==> PlanOk(h, vs, ms)
  }

  lemma PlansLatest(h: map<Version, Row>, vs: seq<Version>, steps: nat, ms: seq<Migration>)
    requires IsLatest(h, vs, steps)
    ensures PlansAll(h, steps, ms) <==> PlanOk(h, vs, ms)
  {
    hide IsLatest, PlanOk;
    forall ws | IsLatest(h, ws, steps) ensures ws == vs {
      LatestUnique(h, ws, vs, steps, 0);
    }
  }

  function Versions(vs: seq<Version>): set<Version> {
    set i | 0 <= i < |vs| :: vs[i]
  }

  /** Other parties leave a runner where it is, and, while it is at work, leave it alone. */
  predicate Undisturbed(s: Sys, s': Sys, o: Owner) {
    && (o in s.pcs <==> o in s'.pcs)
    && (o in s.pcs ==> s'.pcs[o] == s.pcs[o])
    && (Live(s, o) ==> s'.history == s.history && s'.schema == s.schema && s'.lock == s.lock)
  }

  /** What a migration in progress may have left behind: nothing, all of it, or a dirty row. */
  predicate UpLeft(s: Sys, s': Sys, m: Migration) {
    && (s'.history == s.history || (m.version !in s.history && m.version in s'.history && s'.history[m.version].name == m.name
                                    && s'.history == s.history[m.version := s'.history[m.version]]))
    && s'.schema - {m.version} == s.schema - {m.version}
  }

  predicate UpDone(s: Sys, s': Sys, m: Migration) {
    && m.version !in s.history
    && s'.history == s.history[m.version := Row(m.name, false)] && s'.schema == s.schema[m.version := Full]
  }

  /** What a rollback in progress may have left behind. */
  predicate DownLeft(s: Sys, s': Sys, v: Version) {
    && v in s.history
    && (s'.history == s.history || s'.history == s.history - {v}
        || s'.history == s.history[v := s.history[v].(dirty := true)])
    && s'.schema - {v} == s.schema - {v}
  }

  predicate DownDone(s: Sys, s': Sys, v: Version) {
    v in s.history && s'.history == s.history - {v} && s'.schema == s.schema - {v}
  }

  // ----- the statements, seen from the runner -----

  lemma MarkUpResult(s: Sys, o: Owner, m: Migration, takes: bool, acked: bool)
    requires At(s, o, Ready)
    ensures var s' := Step(s, MarkUp(o, m.version, m.name, takes, acked));
            && s'.schema == s.schema
            && ((At(s', o, UpMarked(m.version)) && m.version !in s.history
                 && s'.history == s.history[m.version := Row(m.name, true)])
                || (At(s', o, Leaving) && UpLeft(s, s', m)))
            && (takes && acked && m.version !in s.history ==> At(s', o, UpMarked(m.version)))
  {
  }

  lemma MarkDownResult(s: Sys, o: Owner, v: Version, takes: bool, acked: bool)
    requires At(s, o, Ready) && Clean(s, v)
    ensures var s' := Step(s, MarkDown(o, v, takes, acked));
            && s'.schema == s.schema
            && ((At(s', o, DownMarked(v)) && s'.history == s.history[v := s.history[v].(dirty := true)])
                || (At(s', o, Leaving) && DownLeft(s, s', v)))
            && (takes && acked ==> At(s', o, DownMarked(v)))
  {
  }

  lemma RunResult(s: Sys, o: Owner, v: Version, acked: bool, left: Option<Effect>)
    requires At(s, o, UpMarked(v)) || At(s, o, DownMarked(v))
    ensures var up := At(s, o, UpMarked(v));
            var s' := Step(s, if up then RunUp(o, acked, left) else RunDown(o, acked, left));
            && s'.history == s.history && s'.schema - {v} == s.schema - {v}
            && ((At(s', o, if up then UpRan(v) else DownRan(v)) && s'.schema == if up then s.schema[v := Full] else s.schema - {v})
                || At(s', o, Leaving))
            && (acked ==> At(s', o, if up then UpRan(v) else DownRan(v)))
  {
  }

  lemma ClearResult(s: Sys, o: Owner, v: Version, takes: bool, acked: bool)
    requires (At(s, o, UpRan(v)) || At(s, o, DownRan(v))) && Dirty(s, v)
    ensures var up := At(s, o, UpRan(v));
            var s' := Step(s, if up then ClearUp(o, takes, acked) else RemoveDown(o, takes, acked));
            && s'.schema == s.schema
            && ((At(s', o, Ready) && s'.history == Cleared(s.history, v, up))
                || (At(s', o, Leaving) && (s'.history == s.history || s'.history == Cleared(s.history, v, up))))
            && (takes && acked ==> At(s', o, Ready))
  {
  }

  function Cleared(h: map<Version, Row>, v: Version, up: bool): map<Version, Row>
    requires v in h
  {
    if up then h[v := h[v].(dirty := false)] else h - {v}
  }

  lemma CrashResult(s: Sys, o: Owner, left: Option<Effect>)
    requires Live(s, o)
    ensures var s' := Step(s, Crash(o, left));
            && At(s', o, Gone) && s'.history == s.history
            && ((s'.schema == s.schema)
                || ((s.pcs[o].UpMarked? || s.pcs[o].DownMarked?) && s'.schema - {s.pcs[o].v} == s.schema - {s.pcs[o].v}))
  {
  }

  class Database {
    var sys: Sys
    /** No statement fails or goes unacknowledged, and no runner dies in a call. */
    const reliable: bool
    /** Nobody else does anything during a call. */
    const alone: bool
    /** Everything that has happened. */
    ghost var log: seq<Event>

    ghost predicate Valid()
      reads this
    {
      Inv(sys) && CarefulRun(Fresh(), log) && sys == Run(Fresh(), log)
    }

    constructor (reliable0: bool, alone0: bool)
      ensures Valid() && sys == Fresh() && reliable == reliable0 && alone == alone0
    {
      sys, log, reliable, alone := Fresh(), [], reliable0, alone0;
    }

    /** A statement reaches the database, or its answer the caller, or the caller lives on. */
    method Works() returns (works: bool)
      ensures reliable ==> works
    {
      works := *;
      if reliable { works := true; }
    }

    /** This state occurred since then. */
    ghost predicate Met(s: Sys, earlier: seq<Event>)
      reads this
    {
      exists k :: |earlier| <= k <= |log| && s == Run(Fresh(), log[..k])
    }

    method Do(e: Event)
      requires Valid() && Careful(sys, e)
      modifies this
      ensures Valid() && sys == Step(old(sys), e) && log == old(log) + [e]
    {
      hide Step, Careful, Inv;
      InvStep(sys, e);
      RunSnoc(Fresh(), log, e);
      sys, log := Step(sys, e), log + [e];
    }

    /** Any number of steps of anybody else. */
    method Others(o: Owner)
      requires Valid()
      modifies this
      ensures Valid() && Undisturbed(old(sys), sys, o) && old(log) <= log
      ensures alone ==> sys == old(sys)
    {
      hide Step, Careful, Inv;
      var n: int := *;
      while n > 0 && !alone
        invariant Valid() && Undisturbed(old(sys), sys, o) && old(log) <= log && (alone ==> sys == old(sys))
      {
        var e: Event := *;
        if Careful(sys, e) && !By(e, o) {
          if Live(sys, o) { OthersKeep(sys, e, o); }
          OthersKeepPoint(sys, e, o);
          Do(e);
        }
        n := n - 1;
      }
    }

    /** A statement of a runner at work; it may die before or during it. */
    method Exec(o: Owner, e: Event) returns (died: bool, ghost before: Sys)
      requires Valid() && Live(sys, o) && By(e, o) && !e.Resolve?
      modifies this
      ensures Valid() && Undisturbed(old(sys), before, o) && old(log) <= log
      ensures (alone ==> before == old(sys)) && (reliable ==> !died)
      ensures !died ==> sys == Step(before, e)
      ensures died ==> At(sys, o, Gone) && sys.history == before.history
      ensures died ==> sys.schema == before.schema
                       || ((before.pcs[o].UpMarked? || before.pcs[o].DownMarked?)
                           && sys.schema - {before.pcs[o].v} == before.schema - {before.pcs[o].v})
    {
      hide Step, Inv;
      Others(o);
      before := sys;
      var left: Option<Effect> := *;
      var lives := Works();
      died := !lives;
      if died {
        CrashResult(sys, o, left);
        Do(Crash(o, left));
      } else {
        Do(e);
      }
    }

    // ----- one migration -----

    /** applyUp: one transaction for the SQL and the history row. */
    method ApplyUp(o: Owner, m: Migration) returns (r: Verdict)
      requires Valid() && At(sys, o, Ready)
      modifies this
      ensures Valid() && (r == Died ==> At(sys, o, Gone)) && (r == Failed ==> At(sys, o, Leaving))
      ensures r == Fine ==> At(sys, o, Ready) && UpDone(old(sys), sys, m)
      ensures UpLeft(old(sys), sys, m) && old(log) <= log
      ensures reliable && m.version !in old(sys).history ==> r == Fine
    {
      hide Inv;
      if m.upAlone {
        r := ApplyUpNonTransactional(o, m);
        return;
      }
      var takes := Works();
      var acked := Works();
      var died;
      ghost var before;
      died, before := Exec(o, UpTx(o, m.version, m.name, takes, acked));
      r := if died then Died else if sys.pcs[o] == Ready then Fine else Failed;
    }

    /** applyUpNonTransactional: mark dirty, run the SQL, clear the mark. */
    method ApplyUpNonTransactional(o: Owner, m: Migration) returns (r: Verdict)
      requires Valid() && At(sys, o, Ready)
      modifies this
      ensures Valid() && (r == Died ==> At(sys, o, Gone)) && (r == Failed ==> At(sys, o, Leaving))
      ensures r == Fine ==> At(sys, o, Ready) && UpDone(old(sys), sys, m)
      ensures UpLeft(old(sys), sys, m) && old(log) <= log
      ensures reliable && m.version !in old(sys).history ==> r == Fine
    {
      hide Inv, Step, Run, CarefulRun, Careful, Fresh;
      var takes := Works();
      var acked := Works();
      var left: Option<Effect>;
      var died;
      ghost var before;
      died, before := Exec(o, MarkUp(o, m.version, m.name, takes, acked));
      if died { return Died; }
      MarkUpResult(before, o, m, takes, acked);
      if sys.pcs[o] == Leaving { return Failed; }
      left := *;
      acked := Works();
      died, before := Exec(o, RunUp(o, acked, left));
      if died { return Died; }
      RunResult(before, o, m.version, acked, left);
      if sys.pcs[o] == Leaving { return Failed; }
      takes := Works();
      acked := Works();
      died, before := Exec(o, ClearUp(o, takes, acked));
      if died { return Died; }
      ClearResult(before, o, m.version, takes, acked);
      r := if sys.pcs[o] == Ready then Fine else Failed;
    }

    /** applyDown. */
    method ApplyDown(o: Owner, m: Migration) returns (r: Verdict)
      requires Valid() && At(sys, o, Ready) && Clean(sys, m.version)
      modifies this
      ensures Valid() && (r == Died ==> At(sys, o, Gone)) && (r == Failed ==> At(sys, o, Leaving))
      ensures r == Fine ==> At(sys, o, Ready) && DownDone(old(sys), sys, m.version)
      ensures DownLeft(old(sys), sys, m.version) && old(log) <= log && (reliable ==> r == Fine)
    {
      hide Inv;
      if m.downAlone {
        r := ApplyDownNonTransactional(o, m.version);
        return;
      }
      var takes := Works();
      var acked := Works();
      var died;
      ghost var before;
      died, before := Exec(o, DownTx(o, m.version, takes, acked));
      r := if died then Died else if sys.pcs[o] == Ready then Fine else Failed;
    }

    /** applyDownNonTransactional: mark dirty, run the SQL, remove the row. */
    method ApplyDownNonTransactional(o: Owner, v: Version) returns (r: Verdict)
      requires Valid() && At(sys, o, Ready) && Clean(sys, v)
      modifies this
      ensures Valid() && (r == Died ==> At(sys, o, Gone)) && (r == Failed ==> At(sys, o, Leaving))
      ensures r == Fine ==> At(sys, o, Ready) && DownDone(old(sys), sys, v)
      ensures DownLeft(old(sys), sys, v) && old(log) <= log && (reliable ==> r == Fine)
    {
      hide Inv, Step, Run, CarefulRun, Careful, Fresh;
      var takes := Works();
      var acked := Works();
      var left: Option<Effect>;
      var died;
      ghost var before;
      died, before := Exec(o, MarkDown(o, v, takes, acked));
      if died { return Died; }
      MarkDownResult(before, o, v, takes, acked);
      if sys.pcs[o] == Leaving { return Failed; }
      left := *;
      acked := Works();
      died, before := Exec(o, RunDown(o, acked, left));
      if died { return Died; }
      RunResult(before, o, v, acked, left);
      if sys.pcs[o] == Leaving { return Failed; }
      takes := Works();
      acked := Works();
      died, before := Exec(o, RemoveDown(o, takes, acked));
      if died { return Died; }
      ClearResult(before, o, v, takes, acked);
      r := if sys.pcs[o] == Ready then Fine else Failed;
    }

    // ----- the operations -----

    /** acquireLock and rejectDirtyMigration.  `met` is the state in which the lock was asked
        for. */
    method Enter(o: Owner) returns (r: Verdict, ghost met: Sys)
      requires Valid() && o !in sys.pcs
      modifies this
      ensures Valid() && o in sys.pcs && sys.pcs[o] in {Ready, Leaving, Gone}
      ensures r == Fine <==> At(sys, o, Ready)
      ensures old(log) <= log && Met(met, old(log)) && (alone ==> met == old(sys))
      ensures r == Fine ==> met.lock == None && AllClean(met.history) && sys.history == met.history
      ensures reliable ==> (r == Fine <==> met.lock == None && AllClean(met.history))
      ensures r == Fine ==> sys.lock == Some(o) && forall v :: v in sys.history ==> Clean(sys, v) && v in sys.schema && sys.schema[v] == Full
    {
      hide Inv, Run;
      Others(o);
      met := sys;
      ghost var asked := log;
      assert log[..|log|] == log;
      var takes := Works();
      var acked := Works();
      Do(Acquire(o, takes, acked));
      assert log[..|asked|] == asked;
      if sys.pcs[o] == Gone { return Failed, met; }
      acked := Works();
      var died;
      ghost var before;
      died, before := Exec(o, CheckDirty(o, acked));
      assert log[..|asked|] == asked;
      if died { return Died, met; }
      if sys.pcs[o] == Leaving { return Failed, met; }
      ReadyFacts(sys, o);
      r := Fine;
    }

    /** releaseLockBounded. */
    method Leave(o: Owner) returns (released: bool)
      requires Valid() && Live(sys, o)
      modifies this
      ensures Valid() && At(sys, o, Gone)
      ensures released ==> sys.lock == None
      ensures old(log) <= log && (reliable ==> released)
      ensures sys.history == old(sys).history
      ensures old(sys).pcs[o] == Leaving ==> sys.schema == old(sys).schema
    {
      hide Inv, Step;
      var takes := Works();
      var acked := Works();
      var died;
      ghost var before;
      LiveOwns(sys, o);
      died, before := Exec(o, Release(o, takes));
      if !died { ReleaseResult(before, o, takes); }
      released := !died && takes && acked;
    }

    /** The loop of up: what is applied is skipped, the rest is applied in order. */
    method UpAll(o: Owner, ms: seq<Migration>) returns (r: Verdict, ghost last: Sys, ghost done: nat)
      requires Valid() && At(sys, o, Ready)
      modifies this
      ensures Valid() && done <= |ms| && last.history == Upgraded(old(sys).history, ms, done)
      ensures r == Fine ==> At(sys, o, Ready) && done == |ms| && sys.history == last.history && AppliedUpTo(sys, ms, |ms|)
      ensures old(log) <= log && (r == Fine ==> Fits(old(sys).history, ms)) && (reliable && Fits(old(sys).history, ms) ==> r == Fine)
      ensures r == Failed ==> Live(sys, o)
      ensures r == Died ==> At(sys, o, Gone)
      ensures r != Fine ==> done < |ms| && (sys.history == last.history || UpLeft(last, sys, ms[done]))
    {
      hide Inv, UpLeft, UpDone, AppliedUpTo, Fits, Upgraded;
      UpgradedNone(sys.history, ms);
      r, done, last := Fine, 0, sys;
      AppliedNone(sys, ms);
      var i: nat := 0;
      while i < |ms|
        invariant i <= |ms| && Valid() && done == i && r == Fine && At(sys, o, Ready) && sys.history == last.history
        invariant last.history == Upgraded(old(sys).history, ms, done)
        invariant AppliedUpTo(sys, ms, i) && old(log) <= log
      {
        ghost var was := sys;
        Others(o);
        ghost var at := sys;
        last := sys;
        AppliedSame(was, at, ms, i);
        var answered := Works();
        if !answered { return Failed, last, done; }
        if ms[i].version in sys.history {
          if sys.history[ms[i].version].name != ms[i].name {
            Misfit(old(sys).history, ms, i);
            return Failed, last, done;
          }
          AppliedNext(at, ms, i);
          UpgradedNext(old(sys).history, ms, i);
        } else {
          r := ApplyUp(o, ms[i]);
          if r != Fine { return; }
          UpDoneFacts(at, sys, ms, i);
          UpgradedNext(old(sys).history, ms, i);
          last := sys;
        }
        i, done := i + 1, i + 1;
      }
      FitsApplied(old(sys).history, sys, ms);
    }

    /** up.  On a reliable database it succeeds exactly when the lock was free when it was asked
        for, no row was dirty, and the names fit.  `met` is that state, `taken` the state when
        the lock was taken and the history found clean, `last`
        the state after `done` migrations, `held` the state when the lock is given up. */
    method Up(o: Owner, ms: seq<Migration>)
      returns (r: Verdict, ghost met: Sys, ghost taken: Sys, ghost last: Sys, ghost held: Sys, ghost done: nat)
      requires Valid() && o !in sys.pcs
      modifies this
      ensures Valid() && At(sys, o, Gone) && done <= |ms|
      ensures last.history == Upgraded(taken.history, ms, done)
      ensures held.history == last.history || (done < |ms| && UpLeft(last, held, ms[done]))
      ensures r == Fine ==> done == |ms| && held.history == last.history && sys.lock == None
      ensures r == Fine ==> forall v :: v in held.history ==> Clean(held, v) && v in held.schema && held.schema[v] == Full
      ensures r == Fine ==> AppliedUpTo(held, ms, |ms|)
      ensures Met(met, old(log)) && (alone ==> met == old(sys)) && (done > 0 ==> taken.history == met.history)
      ensures r == Fine ==> taken.history == met.history && met.lock == None && AllClean(met.history) && Fits(met.history, ms)
      ensures reliable ==> (r == Fine <==> met.lock == None && AllClean(met.history) && Fits(met.history, ms))
    {
      hide Inv, UpLeft, UpDone, Upgraded, AppliedUpTo, Fits, AllClean, Run;
      done := 0;
      r, met := Enter(o);
      ghost var entered := log;
      ghost var k: nat :| |old(log)| <= k <= |log| && met == Run(Fresh(), log[..k]);
      taken, last, held := sys, sys, sys;
      UpgradedNone(sys.history, ms);
      if r == Fine {
        r, last, done := UpAll(o, ms);
        held := sys;
        if r == Fine { ReadyFacts(sys, o); }
      }
      if Live(sys, o) {
        var released := Leave(o);
        if !released { r := Failed; }
      }
      assert log[..k] == entered[..k];
    }

    /** latestApplied: the newest clean versions, newest first. */
    method LatestApplied(steps: nat) returns (vs: seq<Version>)
      requires forall v :: v in sys.history ==> Clean(sys, v)
      ensures IsLatest(sys.history, vs, steps)
    {
      vs := [];
      var rest := sys.history.Keys;
      while |vs| < steps && rest != {}
        invariant |vs| <= steps
        invariant forall v :: v in sys.history <==> v in rest || v in vs
        invariant forall i :: 0 <= i < |vs| ==> vs[i] !in rest
        invariant forall i, j :: 0 <= i < j < |vs| ==> vs[i] > vs[j]
        invariant forall v, i :: v in rest && 0 <= i < |vs| ==> v < vs[i]
        decreases rest
      {
        var v := Newest(rest);
        vs := vs + [v];
        rest := rest - {v};
      }
    }

    /** The first loop of down: every version to go must be loaded under its name, with Down SQL. */
    method PlanRollback(vs: seq<Version>, ms: seq<Migration>) returns (plan: Option<seq<Migration>>)
      requires forall i :: 0 <= i < |vs| ==> vs[i] in sys.history
      ensures plan.Some? <==> PlanOk(sys.history, vs, ms)
      ensures plan.Some? ==> |plan.value| == |vs|
                             && forall i :: 0 <= i < |vs| ==> Loaded(ms, vs[i]) == Some(plan.value[i]) && plan.value[i].version == vs[i]
    {
      var made: seq<Migration> := [];
      for i := 0 to |vs|
        invariant |made| == i
        invariant forall j :: 0 <= j < i ==> Loaded(ms, vs[j]) == Some(made[j]) && made[j].version == vs[j]
                                             && made[j].name == sys.history[vs[j]].name && made[j].hasDown
      {
        var loaded := Loaded(ms, vs[i]);
        LoadedVersion(ms, vs[i]);
        if loaded.None? || loaded.value.name != sys.history[vs[i]].name || !loaded.value.hasDown { return None; }
        made := made + [loaded.value];
      }
      plan := Some(made);
    }

    /** The second loop of down; on a reliable database it goes through. */
    method DownAll(o: Owner, plan: seq<Migration>) returns (r: Verdict, ghost last: Sys, ghost done: nat)
      requires Valid() && At(sys, o, Ready)
      requires forall i :: 0 <= i < |plan| ==> Clean(sys, plan[i].version)
      requires forall i, j :: 0 <= i < j < |plan| ==> plan[i].version != plan[j].version
      modifies this
      ensures Valid() && done <= |plan| && last.history == old(sys).history - Planned(plan, done)
      ensures r == Fine ==> At(sys, o, Ready) && done == |plan| && sys.history == last.history
      ensures old(log) <= log && (reliable ==> r == Fine)
      ensures r == Failed ==> Live(sys, o)
      ensures r == Died ==> At(sys, o, Gone)
      ensures r != Fine ==> done < |plan| && (sys.history == last.history || DownLeft(last, sys, plan[done].version))
    {
      hide Inv, DownLeft;
      r, done, last := Fine, 0, sys;
      var i: nat := 0;
      while i < |plan|
        invariant i <= |plan| && Valid() && done == i && r == Fine && At(sys, o, Ready) && sys == last
        invariant last.history == old(sys).history - Planned(plan, i) && old(log) <= log
      {
        assert Clean(sys, plan[i].version);
        r := ApplyDown(o, plan[i]);
        if r != Fine { return; }
        assert Planned(plan, i + 1) == Planned(plan, i) + {plan[i].version};
        last := sys;
        i, done := i + 1, i + 1;
      }
    }

    /** The newest versions are planned and then rolled back. */
    method RollBack(o: Owner, ms: seq<Migration>, steps: nat) returns (r: Verdict, ghost last: Sys, ghost vs: seq<Version>, ghost done: nat)
      requires Valid() && At(sys, o, Ready) && forall v :: v in sys.history ==> Clean(sys, v)
      modifies this
      ensures Valid() && old(log) <= log && IsLatest(old(sys).history, vs, steps)
      ensures done <= |vs| && last.history == old(sys).history - Versions(vs[..done])
      ensures done > 0 || sys.history != old(sys).history || r == Fine ==> PlanOk(old(sys).history, vs, ms)
      ensures sys.history == last.history || (done < |vs| && DownLeft(last, sys, vs[done]))
      ensures r == Fine ==> At(sys, o, Ready) && done == |vs| && sys.history == last.history
      ensures (r == Failed ==> Live(sys, o)) && (r == Died ==> At(sys, o, Gone))
      ensures reliable && PlanOk(old(sys).history, vs, ms) ==> r == Fine
    {
      hide Inv, DownLeft, PlanOk, IsLatest, Run, CarefulRun, Fresh;
      last, done := sys, 0;
      var latest := LatestApplied(steps);
      vs := latest;
      LatestFacts(sys.history, latest, steps);
      assert Versions(vs[..done]) == {};
      var plan := PlanRollback(latest, ms);
      if plan.None? { return Failed, last, vs, done; }
      Others(o);
      r, last, done := DownAll(o, plan.value);
      PlannedVersions(plan.value, latest, done);
    }

    /** down.  Everything to be rolled back is checked before any SQL runs.  On a reliable
        database it succeeds exactly when the lock was free when it was asked for, no row was
        dirty, and the newest versions are all loaded under their names, with Down SQL. */
    method Down(o: Owner, ms: seq<Migration>, steps: int)
      returns (r: Verdict, ghost met: Sys, ghost taken: Sys, ghost last: Sys, ghost held: Sys, ghost vs: seq<Version>, ghost done: nat)
      requires Valid() && o !in sys.pcs
      modifies this
      ensures Valid() && !Live(sys, o)
      ensures steps <= 0 ==> r == Fine && sys == old(sys) && taken == last == held == sys && vs == [] && done == 0
      ensures done <= |vs| && last.history == taken.history - Versions(vs[..done])
      ensures vs != [] ==> IsLatest(taken.history, vs, steps) && (done > 0 || held.history != taken.history ==> PlanOk(taken.history, vs, ms))
      ensures held.history == last.history || (done < |vs| && DownLeft(last, held, vs[done]))
      ensures r == Fine && steps > 0 ==>
                && done == |vs| && held.history == last.history && sys.lock == None
                && IsLatest(taken.history, vs, steps) && PlanOk(taken.history, vs, ms)
      ensures r == Fine && steps > 0 ==> forall v :: v in held.history ==> Clean(held, v) && v in held.schema && held.schema[v] == Full
      ensures r == Fine && steps > 0 ==> forall v :: v in held.schema ==> v in held.history
      ensures Met(met, old(log)) && (alone ==> met == old(sys)) && (vs != [] ==> taken.history == met.history)
      ensures steps > 0 && r == Fine ==> met.lock == None && AllClean(met.history) && PlansAll(met.history, steps, ms)
      ensures steps > 0 && reliable ==> (r == Fine <==> met.lock == None && AllClean(met.history) && PlansAll(met.history, steps, ms))
    {
      hide Inv, DownLeft, PlanOk, IsLatest, AllClean, PlansAll, Run, CarefulRun, Fresh, Undisturbed, Versions;
      met, taken, last, held, vs, done := sys, sys, sys, sys, [], 0;
      NoVersions();
      assert log[..|log|] == log;
      if steps <= 0 { return Fine, met, taken, last, held, vs, done; }
      r, met := Enter(o);
      ghost var entered := log;
      ghost var k: nat :| |old(log)| <= k <= |log| && met == Run(Fresh(), log[..k]);
      taken, last, held := sys, sys, sys;
      if r == Fine {
        r, last, vs, done := RollBack(o, ms, steps);
        PlansLatest(met.history, vs, steps, ms);
        held := sys;
        if r == Fine { ReadyFacts(sys, o); MarkerFacts(sys); }
      }
      if Live(sys, o) {
        var released := Leave(o);
        if !released { r := Failed; }
      }
      assert log[..k] == entered[..k];
    }

    /** forceUnlock: the owner is read first, and only that owner's lock is removed.  Either
        statement may fail, the removal may take effect unacknowledged, and the caller may die
        in between. */
    method ForceUnlock() returns (r: Verdict, ghost seen: Option<Owner>, ghost before: Sys)
      requires Valid() && (sys.lock.Some? ==> !Live(sys, sys.lock.value))
      modifies this
      ensures Valid() && (seen.Some? ==> seen == old(sys).lock && Undisturbed(old(sys), before, seen.value))
      ensures seen == None ==> before == old(sys)
      ensures sys == before || (seen.Some? && before.lock == seen && sys == before.(lock := None))
      ensures r == Fine ==> seen == old(sys).lock && (seen.Some? ==> before.lock == seen && sys == before.(lock := None))
      ensures reliable ==> seen == old(sys).lock && (r == Fine <==> seen == None || before.lock == seen)
      ensures alone ==> before == old(sys)
    {
      hide Inv, Step;
      r, seen, before := Failed, None, sys;
      var answered := Works();
      if !answered { return; }
      seen := sys.lock;
      if sys.lock.None? { return Fine, seen, before; }
      var owner := sys.lock.value;
      LockKnown(sys);
      Others(owner);
      before := sys;
      var lives := Works();
      if !lives { return Died, seen, before; }
      var takes := Works();
      var acked := Works();
      var removed := takes && sys.lock == Some(owner);
      if takes {
        ForceResult(sys, owner);
        Do(Event.ForceUnlock(owner));
      }
      r := if removed && acked then Fine else Failed;
    }

    /** Given steps of other parties. */
    method Between(others: seq<Event>)
      requires Valid() && CarefulRun(sys, others)
      modifies this
      ensures Valid() && sys == Run(old(sys), others)
    {
      hide Step, Careful, Inv;
      for i := 0 to |others|
        invariant Valid() && sys == Run(old(sys), others[..i])
      {
        CarefulPrefix(old(sys), others, i + 1);
        assert others[..i + 1][..i] == others[..i];
        Do(others[i]);
      }
      assert others[..|others|] == others;
    }

    /** forceMigrationState.  `others` happens before the lock is taken, anything afterwards;
        the operator's finding has to hold when the lock is taken.  `taken` is that state. */
    method ForceMigrationState(o: Owner, v: Version, applied: bool, others: seq<Event>) returns (r: Verdict, ghost taken: Sys)
      requires Valid() && o !in sys.pcs && CarefulRun(sys, others) && forall i :: 0 <= i < |others| ==> !By(others[i], o)
      requires Dirty(Run(sys, others), v) ==> Truthful(Run(sys, others), v, applied)
      modifies this
      ensures Valid() && At(sys, o, Gone) && taken == Run(old(sys), others) && sys.schema == taken.schema
      ensures sys.history == taken.history || (Dirty(taken, v) && sys.history == Cleared(taken.history, v, applied))
      ensures r == Fine ==> Dirty(taken, v) && sys.lock == None
                            && sys.history == Cleared(taken.history, v, applied)
                            && forall w :: w in sys.history ==> Clean(sys, w)
      ensures reliable ==> (r == Fine <==> taken.lock == None && Dirty(taken, v))
    {
      hide Inv, Step, Run, CarefulRun;
      AbsentKeeps(sys, others, o);
      Between(others);
      taken := sys;
      var takes := Works();
      var acked := Works();
      AcquireResult(sys, o, takes, acked);
      Do(Acquire(o, takes, acked));
      if sys.pcs[o] == Gone { return Failed, taken; }
      Others(o);
      var lives := Works();
      if !lives {
        CrashResult(sys, o, None);
        Do(Crash(o, None));
        return Died, taken;
      }
      takes := Works();
      acked := Works();
      var changed := takes && Dirty(sys, v);
      ResolveResult(sys, o, v, applied, takes);
      Do(Resolve(o, v, applied, takes));
      var released := Leave(o);
      r := if changed && acked && released then Fine else Failed;
    }
  }

  /** Over a row left dirty with no migration in progress, a finding made at the call still
      holds when the lock is taken, unless somebody else resolves or repairs meanwhile. */
  lemma FindingLasts(s: Sys, v: Version, applied: bool, others: seq<Event>)
    requires Inv(s) && Dirty(s, v) && NobodyMarked(s) && CarefulRun(s, others) && Truthful(s, v, applied)
    requires forall i :: 0 <= i < |others| ==> !others[i].Resolve? && !others[i].Repair?
    ensures Dirty(Run(s, others), v) && Truthful(Run(s, others), v, applied)
  {
    hide Inv, Step, Run, CarefulRun;
    DirtyBlocks(s, v, others);
  }

  lemma {:induction false} CarefulPrefix(s: Sys, es: seq<Event>, k: nat)
    requires k <= |es| && CarefulRun(s, es)
    ensures CarefulRun(s, es[..k])
    decreases |es| - k
  {
    hide Step, Careful;
    if k == |es| {
      assert es[..k] == es;
    } else {
      CarefulPrefix(s, es, k + 1);
      assert es[..k + 1][..k] == es[..k];
    }
  }

  lemma {:induction false} AbsentKeeps(s: Sys, es: seq<Event>, o: Owner)
    requires o !in s.pcs && forall i :: 0 <= i < |es| ==> !By(es[i], o)
    ensures o !in Run(s, es).pcs
  {
    hide Step;
    if es != [] {
      AbsentKeeps(s, es[..|es| - 1], o);
      OthersKeepPoint(Run(s, es[..|es| - 1]), es[|es| - 1], o);
    }
  }

  function Planned(plan: seq<Migration>, k: nat): set<Version>
    requires k <= |plan|
  {
    set i | 0 <= i < k :: plan[i].version
  }

  lemma PlannedVersions(plan: seq<Migration>, vs: seq<Version>, k: nat)
    requires |plan| == |vs| && k <= |vs| && forall i :: 0 <= i < |vs| ==> plan[i].version == vs[i]
    ensures Planned(plan, k) == Versions(vs[..k])
  {
    forall v | v in Planned(plan, k) ensures v in Versions(vs[..k]) {
      var i :| 0 <= i < k && plan[i].version == v;
      assert vs[..k][i] == v;
    }
    forall v | v in Versions(vs[..k]) ensures v in Planned(plan, k) {
      var i :| 0 <= i < k && vs[..k][i] == v;
      assert plan[i].version == v;
    }
  }

  lemma LatestFacts(h: map<Version, Row>, vs: seq<Version>, steps: nat)
    requires IsLatest(h, vs, steps)
    ensures forall i :: 0 <= i < |vs| ==> vs[i] in h
    ensures forall i, j :: 0 <= i < j < |vs| ==> vs[i] != vs[j]
  {
  }

  lemma {:induction false} LoadedVersion(ms: seq<Migration>, v: Version)
    ensures Loaded(ms, v).Some? <==> exists i :: 0 <= i < |ms| && ms[i].version == v
    ensures Loaded(ms, v).Some? ==> Loaded(ms, v).value.version == v && Loaded(ms, v).value in ms
  {
    if ms != [] && ms[|ms| - 1].version != v {
      LoadedVersion(ms[..|ms| - 1], v);
      if Loaded(ms, v).Some? {
        var i :| 0 <= i < |ms| - 1 && ms[..|ms| - 1][i].version == v;
        assert ms[i].version == v;
      }
    }
  }

  /** Two such lists that agree so far agree on the next version. */
  lemma LatestAgree(h: map<Version, Row>, a: seq<Version>, b: seq<Version>, steps: nat, k: nat)
    requires IsLatest(h, a, steps) && IsLatest(h, b, steps)
    requires k < |b| && k <= |a| && forall i :: 0 <= i < k ==> a[i] == b[i]
    ensures k < |a| && a[k] >= b[k]
  {
  }

  /** Which versions a rollback removes is settled by the history alone. */
  lemma {:induction false} LatestUnique(h: map<Version, Row>, a: seq<Version>, b: seq<Version>, steps: nat, k: nat)
    requires IsLatest(h, a, steps) && IsLatest(h, b, steps)
    requires k <= |a| && k <= |b| && forall i :: 0 <= i < k ==> a[i] == b[i]
    ensures a == b
    decreases |a| - k
  {
    hide IsLatest;
    if k < |b| { LatestAgree(h, a, b, steps, k); }
    if k < |a| {
      LatestAgree(h, b, a, steps, k);
      LatestUnique(h, a, b, steps, k + 1);
    }
  }

  method Newest(s: set<Version>) returns (v: Version)
    requires s != {}
    ensures v in s && forall w :: w in s ==> w <= v
  {
    v :| v in s;
    var rest := s - {v};
    while rest != {}
      invariant v in s && rest <= s && forall w :: w in s && w !in rest ==> w <= v
      decreases rest
    {
      var w :| w in rest;
      if w > v { v := w; }
      rest := rest - {w};
    }
  }

  lemma AcquireResult(s: Sys, o: Owner, takes: bool, acked: bool)
    requires o !in s.pcs
    ensures var s' := Step(s, Acquire(o, takes, acked));
            && s'.history == s.history && s'.schema == s.schema
            && (At(s', o, Gone) || (At(s', o, Owns) && s'.lock == Some(o)))
            && (At(s', o, Owns) ==> s.lock == None && takes && acked)
            && (s.lock == None && takes && acked ==> At(s', o, Owns))
  {
  }

  lemma ResolveResult(s: Sys, o: Owner, v: Version, applied: bool, takes: bool)
    requires Inv(s) && At(s, o, Owns)
    ensures var s' := Step(s, Resolve(o, v, applied, takes));
            && s'.schema == s.schema && At(s', o, Leaving) && s'.lock == s.lock == Some(o)
            && s'.history == (if takes && Dirty(s, v) then Cleared(s.history, v, applied) else s.history)
            && (takes && Dirty(s, v) ==> forall w :: w in s'.history ==> Clean(s', w))
  {
  }

  lemma ReleaseResult(s: Sys, o: Owner, takes: bool)
    requires Live(s, o) && s.lock == Some(o)
    ensures var s' := Step(s, Release(o, takes));
            At(s', o, Gone) && s'.history == s.history && s'.schema == s.schema && (takes ==> s'.lock == None)
  {
  }

  lemma ForceResult(s: Sys, o: Owner)
    ensures Step(s, ForceUnlock(o)) == if s.lock == Some(o) then s.(lock := None) else s
  {
  }

  lemma NoVersions()
    ensures Versions([][..0]) == {}
  {
  }

  lemma MarkerFacts(s: Sys)
    requires Inv(s)
    ensures forall v :: v in s.schema ==> v in s.history
  {
  }

  lemma LockKnown(s: Sys)
    requires Inv(s) && s.lock.Some?
    ensures s.lock.value in s.pcs
  {
  }

  lemma UpgradedNext(h: map<Version, Row>, ms: seq<Migration>, i: nat)
    requires i < |ms|
    ensures var prev := Upgraded(h, ms, i);
            Upgraded(h, ms, i + 1) == if ms[i].version in prev then prev else prev[ms[i].version := Row(ms[i].name, false)]
  {
  }

  /** A row under another name. */
  lemma Misfit(h: map<Version, Row>, ms: seq<Migration>, i: nat)
    requires i < |ms| && ms[i].version in Upgraded(h, ms, i) && Upgraded(h, ms, i)[ms[i].version].name != ms[i].name
    ensures !Fits(h, ms)
  {
    UpgradedExact(h, ms, i, ms[i].version);
  }

  lemma FitsApplied(h: map<Version, Row>, s: Sys, ms: seq<Migration>)
    requires s.history == Upgraded(h, ms, |ms|) && AppliedUpTo(s, ms, |ms|)
    ensures Fits(h, ms)
  {
    forall i | 0 <= i < |ms| && ms[i].version in h ensures h[ms[i].version].name == ms[i].name {
      UpgradedExact(h, ms, |ms|, ms[i].version);
    }
  }

  lemma UpgradedNone(h: map<Version, Row>, ms: seq<Migration>)
    ensures Upgraded(h, ms, 0) == h
  {
  }

  predicate AppliedUpTo(s: Sys, ms: seq<Migration>, k: nat) {
    k <= |ms| && forall i :: 0 <= i < k ==> ms[i].version in s.history && s.history[ms[i].version].name == ms[i].name
  }

  lemma AppliedNone(s: Sys, ms: seq<Migration>)
    ensures AppliedUpTo(s, ms, 0)
  {
  }

  lemma AppliedSame(s: Sys, s': Sys, ms: seq<Migration>, i: nat)
    requires AppliedUpTo(s, ms, i) && s'.history == s.history
    ensures AppliedUpTo(s', ms, i)
  {
  }

  lemma AppliedNext(s: Sys, ms: seq<Migration>, i: nat)
    requires i < |ms| && AppliedUpTo(s, ms, i)
    requires ms[i].version in s.history && s.history[ms[i].version].name == ms[i].name
    ensures AppliedUpTo(s, ms, i + 1)
  {
  }

  lemma UpDoneFacts(s: Sys, s': Sys, ms: seq<Migration>, i: nat)
    requires i < |ms| && AppliedUpTo(s, ms, i) && UpDone(s, s', ms[i])
    ensures AppliedUpTo(s', ms, i + 1) && ms[i].version !in s.history
    ensures s'.history == s.history[ms[i].version := Row(ms[i].name, false)]
  {
  }

  /** Past the dirty check every row is clean and its SQL is in the schema. */
  lemma ReadyFacts(s: Sys, o: Owner)
    requires Inv(s) && At(s, o, Ready)
    ensures s.lock == Some(o) && forall v :: v in s.history ==> Clean(s, v) && v in s.schema && s.schema[v] == Full
  {
    assert PointOk(s, s.pcs[o]);
  }

  lemma LiveOwns(s: Sys, o: Owner)
    requires Inv(s) && Live(s, o)
    ensures s.lock == Some(o)
  {
  }
}
