/** The strict build: modules and mounts are built in rounds, with injection passes over the
    beans, until a round ends with nothing new; then registration is sealed. */
module StrictBuild {

  const ROUND_LIMIT := 32

  type Bean = nat

  /** What building or another goroutine may register.  The first four return errors and are
      counted; the compatibility calls and the container's own Set, binding and Remove are
      not, and they may leave or clear a reported conflict. */
  datatype Registration =
    | AddModule | AddMount(classes: nat) | AddBeans(beans: seq<Bean>) | Other
    | CompatModule | PlainBeans(beans: seq<Bean>, conflict: bool)

  /** What is registered, and how many registrations have arrived. */
  datatype Seen = Seen(arrivals: nat, modules: nat, mounts: seq<nat>, beans: seq<Bean>, landed: nat)

  predicate Later(s: Seen, s': Seen) {
    s.arrivals < s'.arrivals || s' == s
  }

  class Builder {
    /** Registered modules and mounts are known by their position; a mount has classes. */
    var modules: nat
    var mounts: seq<nat>
    /** The container's beans, in order. */
    var beans: seq<Bean>
    /** Counts the error-returning registrations that landed. */
    var version: nat
    var builtModules: nat
    var builtMounts: nat
    /** Modules built when their plugin was loaded; loading is over before the build begins. */
    const plugins: set<nat>
    var complete: bool
    /** The beans injected in this build. */
    var injected: set<Bean>
    /** The container reports two instances of one concrete type. */
    var conflicted: bool
    /** History: the counted registrations that have landed since the last snapshot, and the
        version and beans at that time. */
    ghost var landed: nat
    ghost var seenVersion: nat
    ghost var seenBeans: seq<Bean>
    /** History: the beans the last injection pass took for its list, and those brought in
        since then, by counted calls and by others. */
    ghost var listed: seq<Bean>
    ghost var added: set<Bean>
    ghost var late: set<Bean>
    /** History: how many steps have failed or found their context ended. */
    ghost var failures: nat
    /** History: how often each module, and how many classes of each mount, were built. */
    ghost var moduleBuilds: seq<nat>
    ghost var mountBuilds: seq<nat>
    /** History: how many registrations have arrived, counted or not; whether an injection pass
        has gone through since the round began and the last module was built; and how many
        modules and classes were built without one. */
    ghost var arrivals: nat
    ghost var primed: bool
    ghost var hasty: nat

    ghost predicate Valid()
      reads this
    {
      && |moduleBuilds| == modules && |mountBuilds| == |mounts|
      && builtModules <= modules && builtMounts <= |mounts|
      && version == seenVersion + landed
      && (forall b :: b in beans ==> b in listed || b in added || b in late)
    }

    ghost predicate AllInjected()
      reads this
    {
      forall b :: b in beans ==> b in injected
    }

    ghost predicate ListInjected()
      reads this
    {
      forall b :: b in listed ==> b in injected
    }

    /** Everything registered has been built exactly once, plugins apart. */
    ghost predicate AllBuilt()
      reads this
    {
      && |moduleBuilds| == modules && mountBuilds == mounts
      && forall i :: 0 <= i < modules ==> moduleBuilds[i] == if i in plugins then 0 else 1
    }

    /** What has not been gone through, but has nothing to build. */
    ghost predicate EmptyLeft()
      reads this
    {
      || (exists i :: builtModules <= i < modules && i in plugins)
      || (exists i :: builtMounts <= i < |mounts| && mounts[i] == 0)
    }

    /** The first m modules have been built once, plugins not at all, and the others not yet. */
    ghost predicate ModulesBuilt(m: nat)
      reads this
    {
      forall i :: 0 <= i < |moduleBuilds| ==> moduleBuilds[i] == if i < m && i !in plugins then 1 else 0
    }

    /** All classes of the first m mounts, and c classes of the next, have been built once. */
    ghost predicate MountsBuilt(m: nat, c: nat)
      reads this
    {
      |mountBuilds| == |mounts|
      && forall i :: 0 <= i < |mounts| ==> mountBuilds[i] == if i < m then mounts[i] else if i == m then c else 0
    }

    /** What was registered stays, with its build history, and what was injected. */
    twostate predicate Kept()
      reads this
    {
      && Valid() && old(modules) <= modules && old(mounts) <= mounts && old(version) <= version
      && builtModules == old(builtModules) && builtMounts == old(builtMounts) && complete == old(complete)
      && old(failures) <= failures
      && seenVersion == old(seenVersion) && seenBeans == old(seenBeans) && old(landed) <= landed
      && old(moduleBuilds) <= moduleBuilds && old(mountBuilds) <= mountBuilds
      && (forall i :: old(modules) <= i < modules ==> moduleBuilds[i] == 0)
      && (forall i :: |old(mounts)| <= i < |mounts| ==> mountBuilds[i] == 0)
      && old(injected) <= injected && Arrived() && hasty == old(hasty)
    }

    /** What is registered changes only by registrations that arrive. */
    twostate predicate Arrived()
      reads this
    {
      Later(old(Look()), Look())
    }

    ghost function Look(): Seen
      reads this
    {
      Seen(arrivals, modules, mounts, beans, landed)
    }

    /** And no new injection pass has begun; a bean of a counted call is counted. */
    twostate predicate Grown()
      reads this
    {
      && Kept() && primed == old(primed) && listed == old(listed) && old(added) <= added && old(late) <= late
      && (added != old(added) ==> landed > old(landed))
    }

    constructor (modules0: nat, mounts0: seq<nat>, plugins0: set<nat>)
      ensures Valid() && modules == modules0 && mounts == mounts0 && plugins == plugins0 && !complete
      ensures ModulesBuilt(0) && MountsBuilt(0, 0) && builtModules == 0 && builtMounts == 0
      ensures beans == [] && injected == added == late == {} && !conflicted
    {
      modules, mounts, beans, version, plugins := modules0, mounts0, [], 0, plugins0;
      landed, seenVersion, seenBeans, listed, added, late := 0, 0, [], [], {}, {};
      injected, conflicted := {}, false;
      builtModules, builtMounts, complete, failures := 0, 0, false, 0;
      arrivals, primed, hasty := 0, false, 0;
      moduleBuilds, mountBuilds := seq(modules0, _ => 0), seq(|mounts0|, _ => 0);
    }

    /** Beans come and go; a counted call only adds. */
    method ChangeBeans(now: seq<Bean>, counted: bool, conflict: bool)
      requires Valid() && (counted ==> beans <= now)
      modifies this`beans, this`version, this`landed, this`added, this`late, this`conflicted
      ensures Valid() && beans == now && conflicted == conflict && old(added) <= added && old(late) <= late
      ensures counted ==> landed == old(landed) + 1 && version == old(version) + 1 && late == old(late)
      ensures !counted ==> landed == old(landed) && version == old(version) && added == old(added)
    {
      var brought := set b | b in now && b !in beans;
      beans, conflicted := now, conflict;
      if counted {
        version, landed, added := version + 1, landed + 1, added + brought;
      } else {
        late := late + brought;
      }
    }

    method Count(counted: bool)
      requires Valid()
      modifies this`version, this`landed
      ensures Valid() && version == old(version) + (if counted then 1 else 0) && landed == old(landed) + (if counted then 1 else 0)
    {
      if counted { version, landed := version + 1, landed + 1; }
    }

    /** A module or a mount is registered. */
    method AddPart(part: Registration, counted: bool)
      requires Valid() && !complete && (part.AddModule? || part.AddMount? || part.Other?)
      modifies this
      ensures Grown() && arrivals > old(arrivals)
    {
      arrivals := arrivals + 1;
      if part.AddModule? {
        modules, moduleBuilds := modules + 1, moduleBuilds + [0];
      } else if part.AddMount? {
        mounts, mountBuilds := mounts + [part.classes], mountBuilds + [0];
      }
      Count(counted);
    }

    method PutBeans(now: seq<Bean>, counted: bool, conflict: bool)
      requires Valid() && !complete && (counted ==> beans <= now)
      modifies this
      ensures Grown() && arrivals > old(arrivals)
    {
      arrivals := arrivals + 1;
      ChangeBeans(now, counted, conflict);
    }

    /** One registration lands. */
    method Register(r: Registration)
      requires Valid() && !complete
      modifies this
      ensures Grown() && arrivals > old(arrivals)
    {
      match r {
        case AddModule => AddPart(r, true);
        case AddMount(_) => AddPart(r, true);
        case AddBeans(more) => PutBeans(beans + more, true, conflicted);
        case Other => AddPart(r, true);
        case CompatModule => AddPart(AddModule, false);
        case PlainBeans(now, conflict) => PutBeans(now, false, conflict);
      }
    }

    /** Any registrations land, as long as registration is open. */
    method Registrations()
      requires Valid() && !complete
      modifies this
      ensures Grown()
    {
      var n: int := *;
      while n > 0
        invariant Grown() && !complete
      {
        var r: Registration := *;
        Register(r);
        n := n - 1;
      }
    }

    /** Injection and other steps that may fail and during which registrations land. */
    method Attempt() returns (ok: bool)
      requires Valid() && !complete
      modifies this
      ensures Grown() && (!ok ==> failures > old(failures))
    {
      Registrations();
      ok := *;
      if !ok { failures := failures + 1; }
    }

    // ----- injection -----

    /** orderedBeans, at the begin of a pass. */
    method OrderedBeans() returns (list: seq<Bean>)
      requires Valid()
      modifies this`listed, this`added, this`late
      ensures Valid() && list == listed == beans && added == late == {}
    {
      list := beans;
      listed, added, late := beans, {}, {};
    }

    method Mark(b: Bean)
      requires Valid()
      modifies this`injected
      ensures Valid() && injected == old(injected) + {b}
    {
      injected := injected + {b};
    }

    /** applyStrictObject: once per build; registrations land meanwhile. */
    method Apply(b: Bean) returns (ok: bool)
      requires Valid() && !complete
      modifies this
      ensures Grown() && (!ok ==> failures > old(failures)) && (ok ==> b in injected)
    {
      if b in injected { return true; }
      ok := Attempt();
      if ok { Mark(b); }
    }

    /** strictConflictError. */
    method NoConflict() returns (ok: bool)
      modifies this`failures
      ensures ok == !conflicted && failures == old(failures) + (if ok then 0 else 1)
    {
      ok := !conflicted;
      if !ok { failures := failures + 1; }
    }

    method ApplyList(list: seq<Bean>) returns (ok: bool)
      requires Valid() && !complete
      modifies this
      ensures Grown() && (!ok ==> failures > old(failures)) && (ok ==> forall b :: b in list ==> b in injected)
    {
      for i := 0 to |list|
        invariant Grown() && !complete
        invariant forall j :: 0 <= j < i ==> list[j] in injected
      {
        ok := Apply(list[i]);
        if !ok { return; }
      }
      ok := true;
    }

    /** One pass over the beans, as they are listed at its begin. */
    method Pass() returns (ok: bool)
      requires Valid() && !complete
      modifies this
      ensures Kept() && (!ok ==> failures > old(failures))
      ensures ok ==> ListInjected() && (added != {} ==> landed > old(landed))
    {
      var list := OrderedBeans();
      ok := ApplyList(list);
    }

    /** injectStrictContainerBeans: success means that every bean on the list taken at its
        begin has been injected, and no conflict is reported. */
    method InjectContainerBeans() returns (ok: bool)
      requires Valid() && !complete
      modifies this
      ensures Kept() && (!ok ==> failures > old(failures))
      ensures ok ==> primed && ListInjected() && !conflicted && (added != {} ==> landed > old(landed))
    {
      ok := NoConflict();
      if !ok { return; }
      ok := Pass();
      if !ok { return; }
      ok := NoConflict();
      if ok { primed := true; }
    }

    /** The pass over a single bean, with nothing landing meanwhile. */
    method PassOver(b: Bean)
      requires Valid() && beans == [b] && injected == {} && !conflicted
      modifies this`listed, this`added, this`late, this`injected, this`failures
      ensures Valid() && listed == [b] && added == late == {} && injected == {b} && ListInjected()
    {
      var ok := NoConflict();
      var list := OrderedBeans();
      Mark(list[0]);
      ok := NoConflict();
    }

    /** injectStrictBeans: the beans, and then the handlers and fairings. */
    method InjectStrictBeans() returns (ok: bool)
      requires Valid() && !complete
      modifies this
      ensures Kept() && (!ok ==> failures > old(failures))
      ensures ok ==> ListInjected() && !conflicted && (added != {} ==> landed > old(landed))
    {
      ok := InjectContainerBeans();
      if !ok { return; }
      ok := Attempt();
      if !ok { return; }
      ok := NoConflict();
    }

    // ----- the rounds -----

    /** ctx.Err(). */
    method Ended() returns (ended: bool)
      modifies this`failures
      ensures failures == old(failures) + (if ended then 1 else 0)
    {
      ended := *;
      if ended { failures := failures + 1; }
    }

    /** buildModuleStrict: a module is built. */
    method MakeModule(i: nat)
      requires Valid() && i < modules
      modifies this`moduleBuilds, this`hasty, this`primed
      ensures Valid() && moduleBuilds == old(moduleBuilds)[i := old(moduleBuilds)[i] + 1]
      ensures hasty == old(hasty) + (if old(primed) then 0 else 1)
    {
      moduleBuilds := moduleBuilds[i := moduleBuilds[i] + 1];
      if !primed { hasty := hasty + 1; }
      primed := false;
    }

    /** buildControllerE: one class of a mount is built. */
    method MakeClass(i: nat)
      requires Valid() && i < |mounts|
      modifies this`mountBuilds, this`hasty
      ensures Valid() && mountBuilds == old(mountBuilds)[i := old(mountBuilds)[i] + 1]
      ensures hasty == old(hasty) + (if primed then 0 else 1)
    {
      mountBuilds := mountBuilds[i := mountBuilds[i] + 1];
      if !primed { hasty := hasty + 1; }
    }

    /** One module: it and the beans are injected first. */
    method BuildModule(i: nat) returns (ok: bool)
      requires Valid() && !complete && i < modules && i !in plugins && ModulesBuilt(i) && MountsBuilt(builtMounts, 0)
      modifies this
      ensures Valid() && !complete && builtModules == old(builtModules) && builtMounts == old(builtMounts)
      ensures old(modules) <= modules && old(mounts) <= mounts
      ensures failures >= old(failures) && (!ok ==> failures > old(failures))
      ensures ok ==> ModulesBuilt(i + 1) && MountsBuilt(builtMounts, 0)
      ensures Arrived() && hasty == old(hasty)
    {
      ok := Attempt();
      if !ok { return; }
      ok := InjectContainerBeans();
      if !ok { return; }
      MakeModule(i);
      ok := Attempt();
    }

    /** One round's modules: those registered when the batch was taken. */
    method BuildModules() returns (ok: bool)
      requires Valid() && !complete && ModulesBuilt(builtModules) && MountsBuilt(builtMounts, 0)
      modifies this
      ensures Valid() && !complete && builtMounts == old(builtMounts) && old(modules) <= modules && old(mounts) <= mounts
      ensures failures >= old(failures) && (!ok ==> failures > old(failures))
      ensures ok ==> old(builtModules) <= builtModules && ModulesBuilt(builtModules) && MountsBuilt(builtMounts, 0)
      ensures Arrived() && hasty == old(hasty) && (ok && arrivals == old(arrivals) ==> builtModules == modules)
    {
      var start, end := builtModules, modules;
      for i := start to end
        invariant Valid() && !complete && builtModules == start && builtMounts == old(builtMounts) && end <= modules
        invariant failures >= old(failures)
        invariant ModulesBuilt(i) && MountsBuilt(builtMounts, 0) && old(modules) <= modules && old(mounts) <= mounts
        invariant Arrived() && hasty == old(hasty)
      {
        var canceled := Ended();
        if canceled { return false; }
        if i !in plugins {
          ok := BuildModule(i);
          if !ok { return; }
        }
      }
      if end > builtModules { builtModules := end; }
      ok := true;
    }

    /** One mount, class by class. */
    method BuildMount(i: nat) returns (ok: bool)
      requires primed && Valid() && !complete && ModulesBuilt(builtModules) && i < |mounts| && MountsBuilt(i, 0)
      modifies this
      ensures Valid() && !complete && builtModules == old(builtModules) && builtMounts == old(builtMounts)
      ensures old(modules) <= modules && old(mounts) <= mounts
      ensures failures >= old(failures) && (!ok ==> failures > old(failures))
      ensures ok ==> primed && ModulesBuilt(builtModules) && MountsBuilt(i + 1, 0)
      ensures Arrived() && hasty == old(hasty)
    {
      var classes := mounts[i];
      for c := 0 to classes
        invariant Valid() && !complete && builtModules == old(builtModules) && builtMounts == old(builtMounts)
        invariant old(modules) <= modules && old(mounts) <= mounts && i < |mounts| && mounts[i] == classes
        invariant failures >= old(failures) && ModulesBuilt(builtModules) && MountsBuilt(i, c)
        invariant primed && Arrived() && hasty == old(hasty)
      {
        var canceled := Ended();
        if canceled { return false; }
        MakeClass(i);
        ok := Attempt();
        if !ok { return; }
      }
      ok := true;
    }

    /** One round's mounts. */
    method BuildMounts() returns (ok: bool)
      requires primed && Valid() && !complete && ModulesBuilt(builtModules) && MountsBuilt(builtMounts, 0)
      modifies this
      ensures Valid() && !complete && builtModules == old(builtModules) && old(modules) <= modules && old(mounts) <= mounts
      ensures failures >= old(failures) && (!ok ==> failures > old(failures))
      ensures ok ==> ModulesBuilt(builtModules) && MountsBuilt(builtMounts, 0)
      ensures Arrived() && hasty == old(hasty) && (ok && arrivals == old(arrivals) ==> builtMounts == |mounts|)
    {
      var start, end := builtMounts, |mounts|;
      var i: nat := start;
      while i < end
        invariant start <= i <= end <= |mounts| && Valid() && !complete
        invariant builtModules == old(builtModules) && builtMounts == start
        invariant failures >= old(failures)
        invariant ModulesBuilt(builtModules) && MountsBuilt(i, 0) && old(modules) <= modules && old(mounts) <= mounts
        invariant primed && Arrived() && hasty == old(hasty)
      {
        ok := BuildMount(i);
        if !ok { return; }
        i := i + 1;
      }
      if end > builtMounts { builtMounts := end; }
      ok := true;
    }

    /** strictBuildSnapshot: stable means that everything registered has been built exactly
        once, and that nothing without work is left to go through. */
    method Snapshot() returns (stable: bool, v: nat, count: nat)
      requires Valid() && ModulesBuilt(builtModules) && MountsBuilt(builtMounts, 0)
      modifies this`landed, this`seenVersion, this`seenBeans
      ensures Valid() && landed == 0 && v == seenVersion && seenBeans == beans && count == |beans|
      ensures stable <==> AllBuilt() && !EmptyLeft()
      ensures stable ==> builtModules == modules && builtMounts == |mounts|
    {
      stable, v, count := builtModules == modules && builtMounts == |mounts|, version, |beans|;
      landed, seenVersion, seenBeans := 0, version, beans;
      if AllBuilt() && builtModules < modules {
        assert moduleBuilds[builtModules] == 0;
      }
      if AllBuilt() && builtMounts < |mounts| {
        assert mountBuilds[builtMounts] == 0;
      }
    }

    /** sealStableStrictBuild: sealed exactly when everything registered has been gone through,
        no counted registration has landed since the snapshot, and the number of beans is the
        same.  Beans that were replaced one for one by an uncounted call go unnoticed. */
    method Seal(v: nat, count: nat) returns (sealed: bool)
      requires Valid() && !complete && v == seenVersion && count == |seenBeans|
      modifies this`complete
      ensures sealed <==> builtModules == modules && builtMounts == |mounts| && landed == 0 && |beans| == |seenBeans|
      ensures complete == sealed
    {
      if builtModules != modules || builtMounts != |mounts| { return false; }
      if version != v || |beans| != count { return false; }
      complete, sealed := true, true;
    }

    /** buildStrictApplication.  Success is a fixpoint: everything registered has been built
        exactly once, plugins apart, and no counted registration landed between the snapshot
        and the seal.  A registered bean has then been injected, unless an uncounted call
        brought it in after the last pass had taken its list.  It gives up only when a step
        has failed, or registrations have arrived in each of the rounds; and it builds nothing
        that a pass over the beans has not preceded. */
    method Build() returns (ok: bool, rounds: nat)
      requires Valid() && !complete && builtModules == 0 && builtMounts == 0 && ModulesBuilt(0) && MountsBuilt(0, 0)
      modifies this
      ensures Valid() && rounds <= ROUND_LIMIT && (ok <==> complete)
      ensures ok ==> AllBuilt() && !EmptyLeft() && rounds > 0
      ensures ok ==> landed == 0 && |beans| == |seenBeans|
      ensures ok ==> forall b :: b in beans && b !in injected ==> b in late && b !in listed
      ensures ok ==> (AllInjected() <==> forall b :: b in late && b in beans ==> b in injected)
      ensures old(modules) <= modules && old(mounts) <= mounts
      ensures !ok && rounds < ROUND_LIMIT ==> failures > old(failures)
      ensures !ok ==> failures > old(failures) || arrivals >= old(arrivals) + ROUND_LIMIT
      ensures hasty == old(hasty)
    {
      // beginStrictInjectionSession.
      injected := {};
      rounds := 0;
      while rounds < ROUND_LIMIT
        invariant rounds <= ROUND_LIMIT && Valid() && !complete
        invariant ModulesBuilt(builtModules) && MountsBuilt(builtMounts, 0)
        invariant old(modules) <= modules && old(mounts) <= mounts && failures >= old(failures)
        invariant arrivals >= old(arrivals) + rounds && hasty == old(hasty)
      {
        rounds := rounds + 1;
        ok := OneRound();
        if !ok { return; }
        var stable, v, count := Snapshot();
        if stable {
          var sealed;
          ok, sealed := Conclude(v, count);
          if !ok || sealed { return; }
        }
      }
      ok := false;
    }

    /** The end of a stable round: inject, check, and seal unless something has landed. */
    method Conclude(v: nat, count: nat) returns (ok: bool, sealed: bool)
      requires Valid() && !complete && ModulesBuilt(builtModules) && MountsBuilt(builtMounts, 0)
      requires AllBuilt() && landed == 0 && v == seenVersion && count == |beans| == |seenBeans|
      requires builtModules == modules && builtMounts == |mounts|
      modifies this
      ensures Valid() && complete == sealed && old(modules) <= modules && old(mounts) <= mounts
      ensures failures >= old(failures) && (!ok ==> !sealed && failures > old(failures))
      ensures ok ==> ModulesBuilt(builtModules) && MountsBuilt(builtMounts, 0)
      ensures sealed ==> AllBuilt() && builtModules == modules && builtMounts == |mounts|
      ensures sealed ==> landed == 0 && |beans| == |seenBeans| && added == {} && ListInjected()
      ensures old(arrivals) <= arrivals && (ok && !sealed ==> arrivals > old(arrivals)) && hasty == old(hasty)
    {
      sealed := false;
      ok := InjectStrictBeans();
      if !ok { return; }
      // validateStrictWebSocketRoutes.
      ok := Attempt();
      if !ok { return; }
      sealed := Seal(v, count);
    }

    /** The modules and then the mounts of one round. */
    method OneRound() returns (ok: bool)
      requires Valid() && !complete && ModulesBuilt(builtModules) && MountsBuilt(builtMounts, 0)
      modifies this
      ensures Valid() && !complete
      ensures failures >= old(failures) && (!ok ==> failures > old(failures))
      ensures ok ==> ModulesBuilt(builtModules) && MountsBuilt(builtMounts, 0)
      ensures old(modules) <= modules && old(mounts) <= mounts
      ensures Arrived() && hasty == old(hasty)
      ensures ok && arrivals == old(arrivals) ==> builtModules == modules && builtMounts == |mounts|
    {
      primed := false;
      var canceled := Ended();
      if canceled { return false; }
      ok := BuildModules();
      if !ok { return; }
      ok := InjectContainerBeans();
      if !ok { return; }
      ok := BuildMounts();
    }

    /** The container's own binding to an interface, which is not counted, puts one bean in
        the place of another; of another concrete type, so no conflict is reported. */
    method ReplaceBean(i: nat, bean: Bean)
      requires Valid() && !complete && i < |beans|
      modifies this`beans, this`late
      ensures Valid() && beans == old(beans)[i := bean]
      ensures late == old(late) + if bean in old(beans) then {} else {bean}
    {
      late := late + if bean in beans then {} else {bean};
      beans := beans[i := bean];
    }
  }

  /** A build sealed over a bean that was never injected: it took the place of another after
      the pass that follows the snapshot. */
  method SealsOverReplacement() returns (b: Builder)
    ensures b.complete && b.landed == 0 && b.listed == b.seenBeans == [1] && b.beans == [2]
    ensures b.injected == {1} && b.late == {2} && !b.AllInjected()
  {
    b := new Builder(0, [], {});
    b.ChangeBeans([1], true, false);
    var stable, v, count := b.Snapshot();
    b.PassOver(1);
    b.ReplaceBean(0, 2);
    assert b.beans == [2] && 2 in b.beans;
    var sealed := b.Seal(v, count);
  }
}
