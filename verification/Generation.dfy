/** Code generation: one plan is published over a project's files, and undone on failure.

    A failure may be injected at any step.  Each step runs at most once in a generation, so
    the failures are named one by one. */
module Generation {
  import opened Wrappers

  /** The files of a project that a generation touches besides the resource package. */
  datatype Path = UpSql | DownSql | GoMod | Manifest | Registry

  datatype Managed = Managed(original: string, manifest: string, registry: string)

  /** What is to be published.  `repin` rewrites go.mod with the pins: None if it cannot be
      parsed or formatted, the same contents if nothing changes. */
  datatype Plan = Plan(
    files: seq<(string, string)>,
    migration: Option<(string, string)>,
    hasPins: bool, repin: string -> Option<string>,
    managed: Option<Managed>)

  /** The steps of an atomic write, at which it can fail. */
  datatype WriteStep = MakeDirectory | CreateTemp | Chmod | WriteTemp | Sync | Close | Rename

  /** The failures of one generation.  `stageStops` is the number of resource files staged
      before a write fails or the context ends; `pinsLeft` and `restoreLeft` are what a
      failed in-place write leaves in go.mod, if anything; `tempRemove` and `stagingRemove`
      are failures to clear temporary files and the staging directory away. */
  datatype Faults = Faults(
    prepare: bool, stageStops: Option<nat>, publish: bool,
    snapshot: bool,
    upLook: bool, upWrite: Option<WriteStep>, downLook: bool, downWrite: Option<WriteStep>,
    pinsRead: bool, pinsStat: bool, pinsWrite: bool, pinsLeft: Option<string>,
    render: bool, manifestWrite: Option<WriteStep>, registryWrite: Option<WriteStep>,
    manifestRestore: Option<WriteStep>, upRemove: bool, downRemove: bool,
    goModRestore: bool, restoreLeft: Option<string>, packageRemove: bool,
    tempRemove: bool, stagingRemove: bool)

  const NO_FAULTS := Faults(false, None, false, false, false, None, false, None, false, false, false, None,
                            false, None, None, None, false, false, false, None, false, false, false)

  /** Every write made to undo a failed generation succeeds. */
  predicate UndoWorks(f: Faults) {
    f.manifestRestore.None? && !f.upRemove && !f.downRemove && !f.goModRestore && !f.packageRemove
  }

  function PackageOf(files: seq<(string, string)>): map<string, string> {
    if files == [] then map[] else PackageOf(files[..|files| - 1])[files[|files| - 1].0 := files[|files| - 1].1]
  }

  /** The package holds the listed names and no others, each with the contents listed last. */
  lemma {:induction false} PackageHolds(files: seq<(string, string)>)
    ensures forall name :: name in PackageOf(files) <==> exists i :: 0 <= i < |files| && files[i].0 == name
    ensures forall i :: 0 <= i < |files| && (forall j :: i < j < |files| ==> files[j].0 != files[i].0) ==>
              files[i].0 in PackageOf(files) && PackageOf(files)[files[i].0] == files[i].1
  {
    if files != [] {
      var front, last := files[..|files| - 1], files[|files| - 1];
      PackageHolds(front);
      forall name ensures name in PackageOf(files) <==> exists i :: 0 <= i < |files| && files[i].0 == name {
        assert files[|files| - 1] == last;
        if i :| 0 <= i < |files| && files[i].0 == name {
          assert i < |front| ==> front[i].0 == name;
        }
        if name in PackageOf(front) {
          var i :| 0 <= i < |front| && front[i].0 == name;
          assert files[i].0 == name;
        }
      }
      forall i | 0 <= i < |files| && (forall j :: i < j < |files| ==> files[j].0 != files[i].0)
        ensures files[i].0 in PackageOf(files) && PackageOf(files)[files[i].0] == files[i].1
      {
        if i < |front| {
          assert files[i] == front[i] && files[|files| - 1].0 != files[i].0;
          assert forall j :: i < j < |front| ==> front[j].0 == files[j].0;
        }
      }
    }
  }

  // ----- where a generation gets to -----

  /** Staging and publishing succeed. */
  predicate Publishes(target: Option<map<string, string>>, plan: Plan, f: Faults) {
    !f.prepare && f.stageStops.None? && !f.publish && target.None?
  }

  predicate Migrates(files: map<Path, string>, plan: Plan, f: Faults) {
    plan.migration.Some? ==>
      !f.upLook && UpSql !in files && f.upWrite.None? && !f.downLook && DownSql !in files && f.downWrite.None?
  }

  /** The write of go.mod is attempted, with new contents. */
  predicate Repins(files: map<Path, string>, plan: Plan, f: Faults) {
    && plan.hasPins && GoMod in files && !f.pinsRead
    && plan.repin(files[GoMod]).Some? && plan.repin(files[GoMod]).value != files[GoMod] && !f.pinsStat
  }

  predicate Pins(files: map<Path, string>, plan: Plan, f: Faults) {
    plan.hasPins && GoMod in files ==>
      !f.pinsRead && plan.repin(files[GoMod]).Some? && (Repins(files, plan, f) ==> !f.pinsWrite)
      && (plan.repin(files[GoMod]).value != files[GoMod] ==> !f.pinsStat)
  }

  predicate Registers(plan: Plan, f: Faults) {
    plan.managed.Some? ==> !f.render && f.manifestWrite.None? && f.registryWrite.None?
  }

  /** go.mod was changed by the pins, and the run has no snapshot to put back. */
  predicate Stranded(files: map<Path, string>, target: Option<map<string, string>>, plan: Plan, f: Faults) {
    && f.snapshot && Publishes(target, plan, f) && Migrates(files, plan, f) && Repins(files, plan, f)
    && (f.pinsWrite ==> f.pinsLeft.Some? && f.pinsLeft.value != files[GoMod])
  }

  /** What a generation publishes. */
  function PublishedFiles(files: map<Path, string>, plan: Plan): map<Path, string> {
    var migrated := if plan.migration.Some? then files[UpSql := plan.migration.value.0][DownSql := plan.migration.value.1] else files;
    var pinned :=
      if plan.hasPins && GoMod in files && plan.repin(files[GoMod]).Some? then migrated[GoMod := plan.repin(files[GoMod]).value]
      else migrated;
    if plan.managed.Some? then pinned[Manifest := plan.managed.value.manifest][Registry := plan.managed.value.registry] else pinned
  }

  /** File by file: each has what the plan holds for it, and is left alone where the plan has
      nothing for it. */
  lemma PublishedHolds(files: map<Path, string>, plan: Plan, p: Path)
    ensures var published := PublishedFiles(files, plan);
            match p
            case UpSql => if plan.migration.Some? then p in published && published[p] == plan.migration.value.0 else Alike(published, files, p)
            case DownSql => if plan.migration.Some? then p in published && published[p] == plan.migration.value.1 else Alike(published, files, p)
            case Manifest => if plan.managed.Some? then p in published && published[p] == plan.managed.value.manifest else Alike(published, files, p)
            case Registry => if plan.managed.Some? then p in published && published[p] == plan.managed.value.registry else Alike(published, files, p)
            case GoMod =>
              if plan.hasPins && p in files && plan.repin(files[p]).Some? then p in published && published[p] == plan.repin(files[p]).value
              else Alike(published, files, p)
  {
    match p case _ =>
  }

  predicate Alike(a: map<Path, string>, b: map<Path, string>, p: Path) {
    if p in a then p in b && a[p] == b[p] else p !in b
  }

  // ----- undoing -----

  function PathSet(paths: seq<Path>): set<Path> {
    set p | p in paths
  }

  /** The files after a rollback: what was written is removed, go.mod is put back. */
  function Undone(files: map<Path, string>, written: seq<Path>, snapshot: Option<string>): map<Path, string> {
    var kept := files - PathSet(written);
    if snapshot.Some? then kept[GoMod := snapshot.value] else kept
  }

  /** The files with what has been written of the migration pair. */
  predicate MigratedBy(files0: map<Path, string>, files: map<Path, string>, written: seq<Path>) {
    && (written == [] || written == [UpSql] || written == [UpSql, DownSql])
    && (forall i :: 0 <= i < |written| ==> written[i] !in files0)
    && (forall i :: 0 <= i < |written| ==> written[i] in files)
    && files - PathSet(written) == files0
  }

  /** Undoing gives the files of before, except for a changed go.mod without a snapshot. */
  lemma UndoneIs(files0: map<Path, string>, migrated: map<Path, string>, written: seq<Path>, pins: Option<string>, snapshot: Option<string>)
    requires MigratedBy(files0, migrated, written)
    requires pins.Some? || snapshot.Some? ==> GoMod in files0
    requires snapshot.Some? ==> snapshot.value == files0[GoMod]
    ensures var files := if pins.Some? then migrated[GoMod := pins.value] else migrated;
            Undone(files, written, snapshot) == if pins.None? || snapshot.Some? then files0 else files0[GoMod := pins.value]
  {
    var files := if pins.Some? then migrated[GoMod := pins.value] else migrated;
    var gone := PathSet(written);
    assert GoMod !in gone;
    var kept := files - gone;
    if pins.Some? {
      assert kept == files0[GoMod := pins.value];
      assert files0[GoMod := pins.value][GoMod := files0[GoMod]] == files0;
    } else if snapshot.Some? {
      assert files0[GoMod := files0[GoMod]] == files0;
    }
  }

  lemma WrittenUp(files0: map<Path, string>, a: string)
    requires UpSql !in files0
    ensures MigratedBy(files0, files0[UpSql := a], [UpSql])
  {
    assert files0[UpSql := a] - {UpSql} == files0;
    assert PathSet([UpSql]) == {UpSql};
  }

  lemma WrittenBoth(files0: map<Path, string>, a: string, b: string)
    requires UpSql !in files0 && DownSql !in files0
    ensures MigratedBy(files0, files0[UpSql := a][DownSql := b], [UpSql, DownSql])
  {
    assert files0[UpSql := a][DownSql := b] - {UpSql, DownSql} == files0;
    assert PathSet([UpSql, DownSql]) == {UpSql, DownSql};
  }

  /** An unused name from n on. */
  function Unused(names: set<nat>, n: nat): (free: nat)
    ensures free >= n && free !in names
    decreases |names|
  {
    if n in names then Unused(names - {n}, n + 1) else n
  }

  class Project {
    /** The resource package, if its directory exists. */
    var target: Option<map<string, string>>
    var files: map<Path, string>
    /** Temporary files beside them, by an arbitrary unused name. */
    var temps: map<nat, string>
    /** The directory the resource is staged in, while there is one. */
    var staging: Option<map<string, string>>

    constructor (target0: Option<map<string, string>>, files0: map<Path, string>)
      ensures target == target0 && files == files0 && temps == map[] && staging == None
    {
      target, files, temps, staging := target0, files0, map[], None;
    }

    /** writeGeneratedFileAtomic: the contents go to a temporary file, which is then renamed
        over the path.  Whatever step fails, the path holds all of the new contents or what it
        held before, and no temporary file stays unless it cannot be removed. */
    method WriteAtomic(p: Path, contents: string, fails: Option<WriteStep>, stuck: bool) returns (ok: bool)
      modifies this`files, this`temps
      ensures ok <==> fails.None?
      ensures files == if ok then old(files)[p := contents] else old(files)
      ensures ok || !stuck || fails.value in {MakeDirectory, CreateTemp} ==> temps == old(temps)
      ensures forall t :: t in old(temps) ==> t in temps && temps[t] == old(temps)[t]
    {
      if fails == Some(MakeDirectory) || fails == Some(CreateTemp) { return false; }
      ghost var temps0 := temps;
      var temp := Unused(temps.Keys, 0);
      temps := temps[temp := ""];
      ok := FillTemp(temp, contents, fails);
      if ok && fails != Some(Rename) {
        files := files[p := temps[temp]];
        temps := temps - {temp};
      } else {
        ok := false;
      }
      // The deferred removal; after a rename there is nothing to remove.
      if !stuck { temps := temps - {temp}; }
      assert temp !in temps ==> temps == temps0;
    }

    /** Mode, contents, sync and close of the temporary file; a failed write may leave part. */
    method FillTemp(temp: nat, contents: string, fails: Option<WriteStep>) returns (ok: bool)
      requires temp in temps
      modifies this`temps
      ensures ok <==> fails.None? || !(fails.value.Chmod? || fails.value.WriteTemp? || fails.value.Sync? || fails.value.Close?)
      ensures temp in temps && (ok ==> temps[temp] == contents)
      ensures temps == old(temps)[temp := temps[temp]]
    {
      if fails == Some(Chmod) {
        assert temps == temps[temp := temps[temp]];
        return false;
      }
      if fails == Some(WriteTemp) {
        var part: string := *;
        temps := temps[temp := part];
        return false;
      }
      temps := temps[temp := contents];
      ok := fails != Some(Sync) && fails != Some(Close);
    }

    /** os.WriteFile: a failed write may leave anything. */
    method WriteInPlace(p: Path, contents: string, fails: bool, left: Option<string>) returns (ok: bool)
      modifies this`files
      ensures ok == !fails
      ensures files == if ok then old(files)[p := contents] else if left.Some? then old(files)[p := left.value] else old(files)
    {
      ok := !fails;
      if ok { files := files[p := contents]; } else if left.Some? { files := files[p := left.value]; }
    }

    /** writeResourceMigration: the pair, each file only where none exists. */
    method WriteMigration(m: (string, string), f: Faults) returns (written: seq<Path>, ok: bool)
      modifies this`files, this`temps
      ensures ok || !f.tempRemove ==> temps == old(temps)
      ensures ok <==> !f.upLook && UpSql !in old(files) && f.upWrite.None? && !f.downLook && DownSql !in old(files) && f.downWrite.None?
      ensures ok ==> written == [UpSql, DownSql] && files == old(files)[UpSql := m.0][DownSql := m.1]
      ensures MigratedBy(old(files), files, written)
    {
      written := [];
      ghost var files0 := files;
      assert files0 - PathSet([]) == files0;
      if f.upLook || UpSql in files { return written, false; }
      ok := WriteAtomic(UpSql, m.0, f.upWrite, f.tempRemove);
      if !ok { return; }
      written := [UpSql];
      WrittenUp(files0, m.0);
      if f.downLook || DownSql in files { return written, false; }
      ok := WriteAtomic(DownSql, m.1, f.downWrite, f.tempRemove);
      if !ok { return; }
      written := [UpSql, DownSql];
      WrittenBoth(files0, m.0, m.1);
    }

    /** removeGeneratedFiles. */
    method RemoveGenerated(written: seq<Path>, f: Faults)
      requires forall i :: 0 <= i < |written| ==> written[i] in {UpSql, DownSql}
      modifies this`files
      ensures !f.upRemove && !f.downRemove ==> files == old(files) - PathSet(written)
    {
      for k := 0 to |written|
        invariant !f.upRemove && !f.downRemove ==> files == old(files) - PathSet(written[..k])
      {
        if !(if written[k] == UpSql then f.upRemove else f.downRemove) {
          files := files - {written[k]};
        }
        assert PathSet(written[..k + 1]) == PathSet(written[..k]) + {written[k]};
      }
      assert written[..|written|] == written;
    }

    /** applyPins. */
    method ApplyPins(plan: Plan, f: Faults) returns (ok: bool)
      modifies this`files
      ensures ok <==> Pins(old(files), plan, f)
      ensures files == if LeftByPins(old(files), plan, f).Some? then old(files)[GoMod := LeftByPins(old(files), plan, f).value]
                       else old(files)
    {
      if !plan.hasPins { return true; }
      if f.pinsRead && GoMod in files { return false; }
      if GoMod !in files { return true; }
      var contents := plan.repin(files[GoMod]);
      if contents.None? { return false; }
      if contents.value == files[GoMod] {
        assert files[GoMod := contents.value] == files;
        return true;
      }
      if f.pinsStat { return false; }
      assert files[GoMod := files[GoMod]] == files;
      ok := WriteInPlace(GoMod, contents.value, f.pinsWrite, f.pinsLeft);
    }

    /** register: the manifest is put back when the registry cannot be written. */
    method Register(m: Managed, f: Faults) returns (ok: bool)
      requires Manifest in files && files[Manifest] == m.original
      modifies this`files, this`temps
      ensures ok || !f.tempRemove ==> temps == old(temps)
      ensures ok <==> !f.render && f.manifestWrite.None? && f.registryWrite.None?
      ensures ok ==> files == old(files)[Manifest := m.manifest][Registry := m.registry]
      ensures !ok && f.manifestRestore.None? ==> files == old(files)
    {
      if f.render { return false; }
      ok := WriteAtomic(Manifest, m.manifest, f.manifestWrite, f.tempRemove);
      if !ok { return; }
      ok := WriteAtomic(Registry, m.registry, f.registryWrite, f.tempRemove);
      if !ok {
        var restored := WriteAtomic(Manifest, m.original, f.manifestRestore, f.tempRemove);
        assert restored ==> files == old(files);
      }
    }

    /** Registration, if the resource is managed. */
    method RegisterManaged(plan: Plan, f: Faults) returns (ok: bool)
      requires plan.managed.Some? ==> Manifest in files && files[Manifest] == plan.managed.value.original
      modifies this`files, this`temps
      ensures ok || !f.tempRemove ==> temps == old(temps)
      ensures ok <==> Registers(plan, f)
      ensures ok ==> files == if plan.managed.Some? then old(files)[Manifest := plan.managed.value.manifest][Registry := plan.managed.value.registry]
                              else old(files)
      ensures !ok && UndoWorks(f) ==> files == old(files)
    {
      ok := true;
      if plan.managed.Some? { ok := Register(plan.managed.value, f); }
    }

    /** The rollback of executePlan. */
    method Rollback(written: seq<Path>, snapshot: Option<string>, f: Faults)
      requires forall i :: 0 <= i < |written| ==> written[i] in {UpSql, DownSql}
      modifies this`files, this`target
      ensures UndoWorks(f) ==>
                && target == None
                && files == Undone(old(files), written, snapshot)
    {
      RemoveGenerated(written, f);
      if snapshot.Some? {
        var restored := WriteInPlace(GoMod, snapshot.value, f.goModRestore, f.restoreLeft);
      }
      if !f.packageRemove { target := None; }
    }

    /** The resource files are written to a directory of their own, which is renamed to the
        package if there is none yet, and removed otherwise. */
    method Publish(plan: Plan, f: Faults) returns (ok: bool)
      modifies this`target, this`staging
      ensures ok <==> Publishes(old(target), plan, f)
      ensures target == if ok then Some(PackageOf(plan.files)) else old(target)
      ensures ok || (!f.prepare && !f.stagingRemove) ==> staging == None
      ensures f.prepare ==> staging == old(staging)
    {
      if f.prepare { return false; }
      var staged: map<string, string> := map[];
      staging := Some(staged);
      var k: nat := 0;
      while k < |plan.files| && f.stageStops != Some(k)
        invariant k <= |plan.files| && staged == PackageOf(plan.files[..k]) && staging == Some(staged) && target == old(target)
      {
        assert plan.files[..k + 1][..k] == plan.files[..k];
        staged := staged[plan.files[k].0 := plan.files[k].1];
        staging := Some(staged);
        k := k + 1;
      }
      ok := f.stageStops.None? && !f.publish && target.None?;
      if ok {
        assert plan.files[..|plan.files|] == plan.files;
        target, staging := staging, None;
      } else if !f.stagingRemove {
        staging := None;
      }
    }

    /** The migration pair, if there is one, undone if it fails. */
    method Migrate(plan: Plan, snapshot: Option<string>, f: Faults) returns (written: seq<Path>, ok: bool)
      requires snapshot.Some? ==> GoMod in files && snapshot.value == files[GoMod]
      modifies this`files, this`temps, this`target
      ensures ok || !f.tempRemove ==> temps == old(temps)
      ensures ok <==> Migrates(old(files), plan, f)
      ensures ok ==> target == old(target) && MigratedBy(old(files), files, written)
                     && files == if plan.migration.Some? then old(files)[UpSql := plan.migration.value.0][DownSql := plan.migration.value.1]
                                 else old(files)
      ensures !ok && UndoWorks(f) ==> target == None && files == old(files)
    {
      hide Undone, MigratedBy, UndoWorks, Migrates;
      ghost var files0 := files;
      NothingWritten(files);
      MigratesIs(files, plan, f);
      if plan.migration.None? { return [], true; }
      written, ok := WriteMigration(plan.migration.value, f);
      if !ok {
        UndoneIs(files0, files, written, None, snapshot);
        OnlySqlWritten(files0, files, written);
        Rollback(written, snapshot, f);
      }
    }

    /** executePlan from the published package on; `pins` is what the pins left in go.mod. */
    method Finish(plan: Plan, f: Faults) returns (ok: bool, ghost pins: Option<string>)
      requires plan.managed.Some? ==> Manifest in files && files[Manifest] == plan.managed.value.original
      modifies this`files, this`temps, this`target
      ensures ok || !f.tempRemove ==> temps == old(temps)
      ensures ok <==> Migrates(old(files), plan, f) && Pins(old(files), plan, f) && Registers(plan, f)
      ensures ok ==> target == old(target) && files == PublishedFiles(old(files), plan)
      ensures pins == if Migrates(old(files), plan, f) then LeftByPins(old(files), plan, f) else None
      ensures !ok && UndoWorks(f) ==>
                target == None
                && files == if pins.None? || !f.snapshot then old(files) else old(files)[GoMod := pins.value]
    {
      hide Undone, MigratedBy, Registers, UndoWorks, PublishedFiles, Migrates, Pins, Repins, LeftByPins;
      ghost var files0 := files;
      var snapshot := if GoMod in files && !f.snapshot then Some(files[GoMod]) else None;
      var written;
      pins := None;
      written, ok := Migrate(plan, snapshot, f);
      if !ok { return; }
      ghost var files1 := files;
      OnlySqlWritten(files0, files, written);
      PinsAlike(files0, files1, plan, f);
      ok := ApplyPins(plan, f);
      pins := LeftByPins(files0, plan, f);
      LeftByPinsInFile(files0, plan, f);
      UndoneIs(files0, files1, written, pins, snapshot);
      if !ok {
        Rollback(written, snapshot, f);
        return;
      }
      ok := RegisterManaged(plan, f);
      if !ok {
        Rollback(written, snapshot, f);
        return;
      }
      PublishedIs(files0, files1, plan, f);
      ok := true;
    }

    /** executePlan.  A successful generation publishes everything.  When a failed one could
        be undone, the project is exactly as before, unless the pins changed go.mod and the
        snapshot of go.mod could not be read: that failure is ignored when it happens, and
        then there is nothing to put back. */
    method ExecutePlan(plan: Plan, f: Faults) returns (ok: bool)
      requires plan.managed.Some? ==> Manifest in files && files[Manifest] == plan.managed.value.original
      modifies this
      ensures ok <==> Publishes(old(target), plan, f) && Migrates(old(files), plan, f) && Pins(old(files), plan, f) && Registers(plan, f)
      ensures f == NO_FAULTS ==>
                (ok <==> && old(target) == None && (plan.migration.Some? ==> UpSql !in old(files) && DownSql !in old(files))
                         && (plan.hasPins && GoMod in old(files) ==> plan.repin(old(files)[GoMod]).Some?))
      ensures ok ==> target == Some(PackageOf(plan.files)) && files == PublishedFiles(old(files), plan)
      ensures !ok && UndoWorks(f) ==> target == old(target)
      ensures !ok && UndoWorks(f) ==> (files == old(files) <==> !Stranded(old(files), old(target), plan, f))
      ensures !ok && UndoWorks(f) && Stranded(old(files), old(target), plan, f) ==>
                files == old(files)[GoMod := LeftByPins(old(files), plan, f).value]
      ensures ok || !f.tempRemove ==> temps == old(temps)
      ensures old(staging) == None && (ok || !f.stagingRemove) ==> staging == None
    {
      ok := Publish(plan, f);
      if !ok { return; }
      ghost var pins;
      ok, pins := Finish(plan, f);
    }
  }

  /** What the pins leave in go.mod, where that differs from what was there. */
  function LeftByPins(files: map<Path, string>, plan: Plan, f: Faults): Option<string> {
    if !Repins(files, plan, f) then None
    else if !f.pinsWrite then plan.repin(files[GoMod])
    else if f.pinsLeft.Some? && f.pinsLeft.value != files[GoMod] then f.pinsLeft
    else None
  }

  lemma LeftByPinsInFile(files: map<Path, string>, plan: Plan, f: Faults)
    ensures LeftByPins(files, plan, f).Some? ==> GoMod in files && LeftByPins(files, plan, f).value != files[GoMod]
  {
  }

  /** The pins look at go.mod only. */
  lemma PinsAlike(files0: map<Path, string>, files: map<Path, string>, plan: Plan, f: Faults)
    requires (GoMod in files <==> GoMod in files0) && (GoMod in files0 ==> files[GoMod] == files0[GoMod])
    ensures Pins(files, plan, f) == Pins(files0, plan, f) && Repins(files, plan, f) == Repins(files0, plan, f)
    ensures LeftByPins(files, plan, f) == LeftByPins(files0, plan, f)
  {
  }

  lemma MigratesIs(files: map<Path, string>, plan: Plan, f: Faults)
    ensures Migrates(files, plan, f) <==>
              plan.migration.None? || (!f.upLook && UpSql !in files && f.upWrite.None? && !f.downLook && DownSql !in files && f.downWrite.None?)
  {
  }

  /** The files the published ones are made of. */
  lemma PublishedIs(files0: map<Path, string>, files1: map<Path, string>, plan: Plan, f: Faults)
    requires files1 == if plan.migration.Some? then files0[UpSql := plan.migration.value.0][DownSql := plan.migration.value.1] else files0
    requires Pins(files0, plan, f)
    ensures var pinned := if LeftByPins(files0, plan, f).Some? then files1[GoMod := LeftByPins(files0, plan, f).value] else files1;
            PublishedFiles(files0, plan)
            == if plan.managed.Some? then pinned[Manifest := plan.managed.value.manifest][Registry := plan.managed.value.registry] else pinned
  {
    if GoMod in files0 { assert files1[GoMod := files0[GoMod]] == files1; }
  }

  lemma NothingWritten(files: map<Path, string>)
    ensures MigratedBy(files, files, [])
  {
    assert files - PathSet([]) == files;
  }

  lemma OnlySqlWritten(files0: map<Path, string>, files: map<Path, string>, written: seq<Path>)
    requires MigratedBy(files0, files, written)
    ensures forall p :: p in {GoMod, Manifest, Registry} ==> (p in files <==> p in files0) && (p in files0 ==> files[p] == files0[p])
    ensures forall i :: 0 <= i < |written| ==> written[i] in {UpSql, DownSql}
  {
    var kept := files - PathSet(written);
    forall p | p in {GoMod, Manifest, Registry} ensures (p in files <==> p in kept) && (p in kept ==> kept[p] == files[p]) {
    }
  }

  /** The pins of a failed generation left behind: go.mod is there and can be rewritten, its
      snapshot cannot be read, and the registration fails. */
  method PinsLeftBehind() returns (p: Project)
    ensures GoMod in p.files && p.files[GoMod] == "pinned" && p.target == None
  {
    p := new Project(None, map[GoMod := "original", Manifest := "manifest"]);
    var plan := Plan([], None, true, (s: string) => Some("pinned"), Some(Managed("manifest", "manifest+", "registry")));
    var f := NO_FAULTS.(snapshot := true, manifestWrite := Some(Rename));
    assert Stranded(p.files, p.target, plan, f);
    var ok := p.ExecutePlan(plan, f);
  }
}
