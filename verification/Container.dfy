/** The bean container and the lifecycle's entries, kept in step by every registration. */
module Container {
  import opened Wrappers

  datatype Type = Concrete(name: nat) | Interface(name: nat)

  type ConcreteType = t: Type | t.Concrete? witness Concrete(0)

  /** A pointer bean: its identity, its concrete type, and whether it says it is already started. */
  datatype Bean = Bean(id: nat, typ: ConcreteType, prestarted: bool)

  /** A lifecycle entry; `types` are the types it is registered under. */
  datatype Entry = Entry(bean: Bean, types: set<Type>, active: bool, started: bool)

  /** The lifecycle's part: the components in order, and the entry of each registered type,
      named by its bean. */
  datatype Entries = Entries(components: seq<Entry>, index: map<Type, Bean>)

  datatype Beans = Beans(beans: map<Type, Bean>, order: seq<Type>, concrete: map<Type, Bean>, conflicts: set<Type>)

  // ----- the lifecycle's side -----

  /** findComponentEntry. */
  function Find(cs: seq<Entry>, b: Bean): (i: nat)
    ensures i <= |cs|
    ensures i < |cs| ==> cs[i].bean == b
    ensures i == |cs| ==> forall j :: 0 <= j < |cs| ==> cs[j].bean != b
  {
    if cs == [] then 0 else if cs[0].bean == b then 0 else 1 + Find(cs[1..], b)
  }

  /** One entry per instance; an entry's types are exactly those whose entry it is; an entry
      without types is kept only if it runs, and is not active. */
  predicate EntriesOk(l: Entries) {
    ComponentsOk(l.components, l.index) && Indexed(l.components, l.index)
  }

  predicate ComponentsOk(cs: seq<Entry>, index: map<Type, Bean>) {
    && (forall i, j :: 0 <= i < j < |cs| ==> cs[i].bean != cs[j].bean)
    && (forall i :: 0 <= i < |cs| ==> EntryOk(cs[i]) && cs[i].types == TypesOf(index, cs[i].bean))
  }

  predicate Indexed(cs: seq<Entry>, index: map<Type, Bean>) {
    forall t :: t in index ==> Find(cs, index[t]) < |cs|
  }

  predicate EntryOk(e: Entry) {
    && (e.active <==> e.types != {})
    && (e.types == {} ==> e.started)
    && (e.bean.prestarted ==> e.started)
  }

  function TypesOf(index: map<Type, Bean>, b: Bean): set<Type> {
    set t | t in index && index[t] == b
  }

  /** retireUnregisteredEntry, after a type has left the entry's registrations. */
  function Retire(cs: seq<Entry>, i: nat, t: Type): seq<Entry>
    requires i < |cs|
  {
    var types := cs[i].types - {t};
    if types != {} then cs[i := cs[i].(types := types)]
    else if cs[i].started then cs[i := cs[i].(types := {}, active := false)]
    else cs[..i] + cs[i + 1..]
  }

  /** The type leaves its entry, if it has one. */
  function Release(l: Entries, t: Type): Entries {
    if t !in l.index then l
    else
      var i := Find(l.components, l.index[t]);
      Entries(if i < |l.components| then Retire(l.components, i, t) else l.components, l.index - {t})
  }

  /** The type joins the entry of a bean, which is made if there is none. */
  function Join(l: Entries, t: Type, b: Bean): Entries {
    var i := Find(l.components, b);
    var components :=
      if i < |l.components| then
        l.components[i := l.components[i].(types := l.components[i].types + {t}, active := true,
                                           started := l.components[i].started || b.prestarted)]
      else l.components + [Entry(b, {t}, true, b.prestarted)];
    Entries(components, l.index[t := b])
  }

  /** setBeanLocked. */
  function SetBean(l: Entries, t: Type, b: Bean): Entries {
    if t in l.index && l.index[t] == b then l else Join(Release(l, t), t, b)
  }

  lemma ReleaseOk(l: Entries, t: Type)
    requires EntriesOk(l)
    ensures EntriesOk(Release(l, t)) && t !in Release(l, t).index && Release(l, t).index == l.index - {t}
  {
    hide EntryOk;
    if t in l.index {
      var i := Find(l.components, l.index[t]);
      var l' := Release(l, t);
      RetireOk(l, i, t);
    }
  }

  lemma RetireOk(l: Entries, i: nat, t: Type)
    requires EntriesOk(l) && t in l.index && i == Find(l.components, l.index[t]) && i < |l.components|
    ensures EntriesOk(Entries(Retire(l.components, i, t), l.index - {t}))
  {
    RetireComponents(l, i, t);
    hide EntryOk, Indexed, Retire, Find;
    RetireIndexed(l.components, l.index, i, t);
  }

  lemma RetireIndexed(cs: seq<Entry>, index: map<Type, Bean>, i: nat, t: Type)
    requires Indexed(cs, index) && i < |cs| && cs[i].types == TypesOf(index, cs[i].bean)
    ensures Indexed(Retire(cs, i, t), index - {t})
  {
    hide TypesOf;
    var cs' := Retire(cs, i, t);
    forall u | u in index && u != t ensures Find(cs', index[u]) < |cs'| {
      var j := Find(cs, index[u]);
      if j == i {
        assert u in cs[i].types - {t} by { TypesHold(index, u); }
        assert cs'[i].bean == index[u];
      } else if |cs'| == |cs| {
        assert cs'[j].bean == index[u];
      } else {
        assert cs'[if j < i then j else j - 1].bean == index[u];
      }
    }
  }

  lemma TypesHold(index: map<Type, Bean>, u: Type)
    requires u in index
    ensures u in TypesOf(index, index[u])
  {
  }

  lemma RetireComponents(l: Entries, i: nat, t: Type)
    requires EntriesOk(l) && t in l.index && i == Find(l.components, l.index[t]) && i < |l.components|
    ensures ComponentsOk(Retire(l.components, i, t), l.index - {t})
  {
    hide Find;
    var index' := l.index - {t};
    forall b ensures TypesOf(index', b) == if b == l.index[t] then TypesOf(l.index, b) - {t} else TypesOf(l.index, b) {
    }
  }

  lemma JoinOk(l: Entries, t: Type, b: Bean)
    requires EntriesOk(l) && t !in l.index
    ensures EntriesOk(Join(l, t, b))
  {
    JoinComponents(l, t, b);
    hide EntryOk, ComponentsOk;
    var cs, cs', index' := l.components, Join(l, t, b).components, l.index[t := b];
    forall u | u in index' ensures Find(cs', index'[u]) < |cs'| {
      if u == t {
        var i := Find(cs, b);
        assert cs'[i].bean == b;
      } else {
        var j := Find(cs, l.index[u]);
        assert cs'[j].bean == index'[u];
      }
    }
  }

  lemma JoinComponents(l: Entries, t: Type, b: Bean)
    requires EntriesOk(l) && t !in l.index
    ensures ComponentsOk(Join(l, t, b).components, l.index[t := b])
  {
    hide Find, Indexed;
    var cs, cs', index' := l.components, Join(l, t, b).components, l.index[t := b];
    forall c ensures TypesOf(index', c) == if c == b then TypesOf(l.index, c) + {t} else TypesOf(l.index, c) {
    }
    var at := Find(cs, b);
    forall i | 0 <= i < |cs'| ensures EntryOk(cs'[i]) && cs'[i].types == TypesOf(index', cs'[i].bean) {
      if i < |cs| && i != at {
        assert EntryOk(cs[i]);
        assert cs[i].bean != b;
      } else if at < |cs| {
        assert EntryOk(cs[at]);
      } else {
        NewBean(l, b);
      }
    }
  }

  lemma NewBean(l: Entries, b: Bean)
    requires EntriesOk(l) && Find(l.components, b) == |l.components|
    ensures TypesOf(l.index, b) == {}
  {
    forall t | t in l.index ensures l.index[t] != b {
      assert Find(l.components, l.index[t]) < |l.components|;
    }
  }

  // ----- the order of the components -----

  function Instances(cs: seq<Entry>): seq<Bean> {
    seq(|cs|, i requires 0 <= i < |cs| => cs[i].bean)
  }

  predicate Runs(cs: seq<Entry>, b: Bean) {
    exists i :: 0 <= i < |cs| && cs[i].bean == b && cs[i].started
  }

  /** The bean's entry leaves with this type: it has no other, and does not run. */
  predicate Leaves(l: Entries, t: Type) {
    t in l.index && TypesOf(l.index, l.index[t]) == {t} && !Runs(l.components, l.index[t])
  }

  /** A released type takes at most its own entry out of the list; the others stay in their
      order, and none of them is started or stopped. */
  lemma ReleaseKeeps(l: Entries, t: Type)
    requires EntriesOk(l)
    ensures var cs, cs' := l.components, Release(l, t).components;
            && (if Leaves(l, t)
                then exists i :: 0 <= i < |cs| && cs[i].bean == l.index[t] && Instances(cs') == Instances(cs[..i] + cs[i + 1..])
                else Instances(cs') == Instances(cs))
            && forall b :: Runs(cs', b) <==> Runs(cs, b)
  {
    hide Indexed;
    if t in l.index {
      var cs, i := l.components, Find(l.components, l.index[t]);
      assert i < |cs| by { TypesIndexed(l, t); }
      var cs' := Retire(cs, i, t);
      assert cs[i].types == TypesOf(l.index, cs[i].bean);
      assert t in cs[i].types;
      assert cs[i].types - {t} == {} <==> cs[i].types == {t};
      forall b ensures Runs(cs', b) <==> Runs(cs, b) { RetireRuns(cs, i, t, b); }
      if Runs(cs, cs[i].bean) {
        var k :| 0 <= k < |cs| && cs[k].bean == cs[i].bean && cs[k].started;
        assert k == i;
      }
    }
  }

  lemma TypesIndexed(l: Entries, t: Type)
    requires EntriesOk(l) && t in l.index
    ensures Find(l.components, l.index[t]) < |l.components|
  {
  }

  lemma RetireRuns(cs: seq<Entry>, i: nat, t: Type, b: Bean)
    requires i < |cs|
    ensures Runs(Retire(cs, i, t), b) <==> Runs(cs, b)
  {
    var cs' := Retire(cs, i, t);
    if k :| 0 <= k < |cs| && cs[k].bean == b && cs[k].started {
      assert cs'[if |cs'| == |cs| || k < i then k else k - 1] == cs[k] || (|cs'| == |cs| && k == i && cs'[k].bean == b && cs'[k].started);
    }
    if k :| 0 <= k < |cs'| && cs'[k].bean == b && cs'[k].started {
      assert cs[if |cs'| == |cs| || k < i then k else k + 1].bean == b;
    }
  }

  /** A type that joins adds at most its bean's entry, at the end; a bean that says so runs
      from then on, and nothing else is started or stopped. */
  lemma JoinKeeps(l: Entries, t: Type, b: Bean)
    requires EntriesOk(l)
    ensures var cs, cs' := l.components, Join(l, t, b).components;
            && Instances(cs') == (if b in Instances(cs) then Instances(cs) else Instances(cs) + [b])
            && forall c :: Runs(cs', c) <==> Runs(cs, c) || (c == b && b.prestarted)
  {
    hide Indexed;
    var cs, cs', at := l.components, Join(l, t, b).components, Find(l.components, b);
    if at < |cs| { assert Instances(cs)[at] == b; }
    if b in Instances(cs) {
      var k :| 0 <= k < |cs| && Instances(cs)[k] == b;
      assert cs[k].bean == b;
    }
    forall c ensures Runs(cs', c) <==> Runs(cs, c) || (c == b && b.prestarted) {
      if k :| 0 <= k < |cs| && cs[k].bean == c && cs[k].started { assert cs'[k].bean == c && cs'[k].started; }
      if c == b && b.prestarted { assert cs'[at].bean == b && cs'[at].started; }
      if k :| 0 <= k < |cs'| && cs'[k].bean == c && cs'[k].started {
        assert k < |cs| ==> cs[k].bean == c;
      }
    }
  }

  // ----- the container's side -----

  /** A bean is registered under its own concrete type or under an interface. */
  predicate Names(t: Type, b: Bean) {
    t.Interface? || t == b.typ
  }

  /** The order lists the registered types once each; every registered bean is in the index
      by concrete type, unless its type has a reported conflict. */
  predicate BeansOk(c: Beans) {
    && Distinct(c.order) && Listed(c.order) == c.beans.Keys
    && (forall t :: t in c.beans ==> Names(t, c.beans[t]))
    && (forall t :: t in c.concrete ==> c.concrete[t].typ == t)
    && (forall t :: t in c.beans ==> c.beans[t].typ in c.concrete)
    && (forall t :: t in c.beans && c.beans[t].typ !in c.conflicts ==> c.concrete[c.beans[t].typ] == c.beans[t])
  }

  predicate Distinct(order: seq<Type>) {
    forall i, j :: 0 <= i < j < |order| ==> order[i] != order[j]
  }

  function Listed(order: seq<Type>): set<Type> {
    set t | t in order
  }

  /** A conflict reported for exactly the concrete types with two registered instances. */
  ghost predicate ConflictsExact(beans: map<Type, Bean>, conflicts: set<Type>) {
    forall c :: c in conflicts <==> exists t, u :: t in beans && u in beans && beans[t].typ == c == beans[u].typ && beans[t] != beans[u]
  }

  /** No reported conflict means one instance per concrete type. */
  lemma NoConflictOneInstance(c: Beans, t: Type, u: Type)
    requires BeansOk(c) && c.conflicts == {} && t in c.beans && u in c.beans && c.beans[t].typ == c.beans[u].typ
    ensures c.beans[t] == c.beans[u]
  {
    assert c.concrete[c.beans[t].typ] == c.beans[t] && c.concrete[c.beans[u].typ] == c.beans[u];
  }

  predicate Conflicts(c: Beans, b: Bean) {
    b.typ in c.concrete && c.concrete[b.typ] != b
  }

  /** The commit of registerLocked. */
  function Put(c: Beans, t: Type, b: Bean): Beans {
    Beans(c.beans[t := b], if t in c.beans then c.order else c.order + [t], c.concrete[b.typ := b],
          if Conflicts(c, b) then c.conflicts + {b.typ} else c.conflicts)
  }

  lemma OrderGrows(order: seq<Type>, t: Type)
    requires Distinct(order) && t !in Listed(order)
    ensures Distinct(order + [t]) && Listed(order + [t]) == Listed(order) + {t}
  {
    assert t !in order;
  }

  lemma PutOk(c: Beans, t: Type, b: Bean)
    requires BeansOk(c) && Names(t, b)
    ensures BeansOk(Put(c, t, b)) && c.order <= Put(c, t, b).order
  {
    hide Distinct, Listed;
    var c' := Put(c, t, b);
    if t !in c.beans { OrderGrows(c.order, t); }
    forall u | u in c'.beans && c'.beans[u].typ !in c'.conflicts ensures c'.concrete[c'.beans[u].typ] == c'.beans[u] {
      if u != t { assert c.concrete[c.beans[u].typ] == c.beans[u]; }
    }
  }

  /** The two sides hold the same types with the same instances. */
  predicate Agree(c: Beans, l: Entries) {
    l.index == c.beans
  }

  class Registry {
    var container: Beans
    var entries: Entries
    /** The lifecycle still accepts registrations. */
    var open: bool
    const strict: bool

    ghost predicate Valid()
      reads this
    {
      BeansOk(container) && EntriesOk(entries) && Agree(container, entries)
    }

    constructor (strict0: bool)
      ensures Valid() && container == Beans(map[], [], map[], {}) && open && strict == strict0
    {
      container, entries, open, strict := Beans(map[], [], map[], {}), Entries([], map[]), true, strict0;
    }

    /** registerLocked with the lifecycle's registerBean: both sides change, or neither. */
    method Register(t: Type, b: Bean, enforce: bool) returns (ok: bool)
      requires Valid() && Names(t, b)
      modifies this`container, this`entries
      ensures Valid()
      ensures var known := t in old(container).beans && old(container).beans[t] == b;
              ok <==> known || (!(enforce && strict && Conflicts(old(container), b)) && open)
      ensures ok ==> container.beans == old(container).beans[t := b]
      ensures ok ==> container == if t in old(container).beans && old(container).beans[t] == b then old(container)
                                  else Put(old(container), t, b)
      ensures !ok ==> container == old(container) && entries == old(entries)
    {
      hide BeansOk, EntriesOk, SetBean, Conflicts;
      if t in container.beans && container.beans[t] == b {
        assert container.beans == container.beans[t := b];
        return true;
      }
      if Conflicts(container, b) && enforce && strict { return false; }
      if !open { return false; }
      PutOk(container, t, b);
      container := Put(container, t, b);
      SetBeanOk(entries, t, b);
      entries := SetBean(entries, t, b);
      ok := true;
    }

    /** trySetBatchStrict: every bean of the batch is registered under its concrete type, or
        nothing changes. */
    method SetBatch(bs: seq<Bean>) returns (ok: bool)
      requires Valid()
      modifies this`container, this`entries
      ensures Valid()
      ensures ok <==> Compatible(old(container), bs, |bs|) && open
      ensures ok ==> IsBatch(old(container).beans, container.beans, bs, |bs|)
      ensures !ok ==> container == old(container) && entries == old(entries)
    {
      var accepted;
      accepted, ok := PlanBatch(bs);
      if !ok || !open { return false; }
      CommitBatch(accepted);
      RegisterBatch(accepted);
    }

    /** The checks, on copies. */
    method PlanBatch(bs: seq<Bean>) returns (accepted: seq<Bean>, ok: bool)
      requires Valid()
      ensures ok <==> Compatible(container, bs, |bs|)
      ensures ok ==> NewBeans(container, accepted) && IsBatch(container.beans, Extend(container.beans, accepted, |accepted|), bs, |bs|)
    {
      hide BeansOk, EntriesOk, Extend, Planned, Compatible, NewBeans, IsBatch;
      var planned: map<Type, Bean>, plannedConcrete: map<Type, Bean> := container.beans, container.concrete;
      accepted := [];
      PlanStarts(container, bs);
      for i := 0 to |bs|
        invariant Planned(container, bs, i, planned, plannedConcrete, accepted)
      {
        var b := bs[i];
        if b.typ in planned {
          if planned[b.typ] != b {
            PlanRefuses(container, bs, i, planned, plannedConcrete, accepted);
            return accepted, false;
          }
          PlanKnows(container, bs, i, planned, plannedConcrete, accepted);
        } else {
          if b.typ in plannedConcrete && plannedConcrete[b.typ] != b {
            PlanRefuses(container, bs, i, planned, plannedConcrete, accepted);
            return accepted, false;
          }
          PlanAdds(container, bs, i, planned, plannedConcrete, accepted);
          planned := planned[b.typ := b];
          plannedConcrete := plannedConcrete[b.typ := b];
          accepted := accepted + [b];
        }
      }
      PlanEnds(container, bs, planned, plannedConcrete, accepted);
      ok := true;
    }

    /** The commit: the container's side. */
    method CommitBatch(accepted: seq<Bean>)
      requires BeansOk(container) && NewBeans(container, accepted)
      modifies this`container
      ensures BeansOk(container) && container.beans == Extend(old(container).beans, accepted, |accepted|)
      ensures container.conflicts == old(container).conflicts
    {
      hide BeansOk, Extend;
      ghost var beans0 := container.beans;
      ExtendNone(beans0, accepted);
      for k := 0 to |accepted|
        invariant BeansOk(container) && container.beans == Extend(beans0, accepted, k)
        invariant container.conflicts == old(container).conflicts
        invariant NewBeans(container, accepted[k..])
      {
        var b := accepted[k];
        assert accepted[k..][0] == b && accepted[k..][1..] == accepted[k + 1..];
        PutOk(container, b.typ, b);
        ExtendNext(beans0, accepted, k);
        NewBeansNext(container, accepted[k..]);
        container := Beans(container.beans[b.typ := b], container.order + [b.typ], container.concrete[b.typ := b], container.conflicts);
      }
    }

    /** The lifecycle's side of the batch. */
    method RegisterBatch(accepted: seq<Bean>)
      requires EntriesOk(entries)
      modifies this`entries
      ensures EntriesOk(entries) && entries.index == Extend(old(entries).index, accepted, |accepted|)
    {
      hide EntriesOk, Extend, SetBean;
      ghost var index0 := entries.index;
      ExtendNone(index0, accepted);
      for k := 0 to |accepted|
        invariant EntriesOk(entries) && entries.index == Extend(index0, accepted, k)
      {
        var b := accepted[k];
        SetBeanOk(entries, b.typ, b);
        ExtendNext(index0, accepted, k);
        entries := SetBean(entries, b.typ, b);
      }
    }

    /** TryRemove: the type goes from both sides, and the conflicts are found anew. */
    method Remove(t: Type) returns (ok: bool)
      requires Valid()
      modifies this`container, this`entries
      ensures Valid() && ok == open
      ensures ok ==> container.beans == old(container).beans - {t} && ConflictsExact(container.beans, container.conflicts)
      ensures ok ==> IndexCurrent(container) && (t !in old(container).beans ==> container.order == old(container).order)
      ensures ok && t in old(container).beans ==>
                exists i :: 0 <= i < |old(container).order| && old(container).order[i] == t
                            && container.order == old(container).order[..i] + old(container).order[i + 1..]
      ensures !ok ==> container == old(container) && entries == old(entries)
    {
      hide BeansOk, EntriesOk, Release, IndexCurrent, ConflictsExact, Distinct, Listed;
      if !open { return false; }
      OrderListed(container);
      var order := Dropped(container.order, t);
      var beans := container.beans - {t};
      var concrete, conflicts := Rebuild(beans, order);
      RebuiltOk(container, beans, order, concrete, conflicts);
      container := Beans(beans, order, concrete, conflicts);
      ReleaseOk(entries, t);
      assert t !in entries.index ==> entries.index - {t} == entries.index;
      entries := Release(entries, t);
      ok := true;
    }
  }

  lemma OrderListed(c: Beans)
    requires BeansOk(c)
    ensures Distinct(c.order) && Listed(c.order) == c.beans.Keys
    ensures forall t :: t in Listed(c.order) <==> t in c.beans
  {
  }

  lemma RebuiltOk(c: Beans, beans: map<Type, Bean>, order: seq<Type>, concrete: map<Type, Bean>, conflicts: set<Type>)
    requires BeansOk(c) && beans.Keys <= c.beans.Keys && forall t :: t in beans ==> beans[t] == c.beans[t]
    requires Distinct(order) && Listed(order) == beans.Keys
    requires forall x :: x in concrete ==> RegisteredIn(beans, concrete[x])
    requires forall x :: x in concrete ==> concrete[x].typ == x
    requires forall t :: t in beans ==> beans[t].typ in concrete
    requires forall t :: t in beans && beans[t].typ !in conflicts ==> concrete[beans[t].typ] == beans[t]
    ensures BeansOk(Beans(beans, order, concrete, conflicts)) && IndexCurrent(Beans(beans, order, concrete, conflicts))
  {
    hide Distinct, Listed, RegisteredIn;
  }

  /** The order without a type. */
  method Dropped(order: seq<Type>, t: Type) returns (rest: seq<Type>)
    requires Distinct(order)
    ensures Distinct(rest) && Listed(rest) == Listed(order) - {t}
    ensures t !in Listed(order) ==> rest == order
    ensures t in Listed(order) ==> exists i :: 0 <= i < |order| && order[i] == t && rest == order[..i] + order[i + 1..]
  {
    var at := 0;
    while at < |order| && order[at] != t
      invariant at <= |order| && forall j :: 0 <= j < at ==> order[j] != t
    {
      at := at + 1;
    }
    rest := if at < |order| then order[..at] + order[at + 1..] else order;
    WithoutOk(order, rest, t, at);
  }

  /** rebuildConcreteIndexesLocked. */
  method Rebuild(beans: map<Type, Bean>, order: seq<Type>) returns (concrete: map<Type, Bean>, conflicts: set<Type>)
    requires Listed(order) == beans.Keys
    ensures forall x :: x in concrete ==> RegisteredIn(beans, concrete[x])
    ensures forall c :: c in concrete ==> concrete[c].typ == c
    ensures forall t :: t in beans ==> beans[t].typ in concrete
    ensures forall t :: t in beans && beans[t].typ !in conflicts ==> concrete[beans[t].typ] == beans[t]
    ensures ConflictsExact(beans, conflicts)
    ensures forall c :: c in concrete ==> IsLastOf(beans, order, |order|, concrete[c])
  {
    hide Rebuilt;
    concrete, conflicts := map[], {};
    IndexStarts(beans, order);
    for i := 0 to |order|
      invariant Rebuilt(beans, order, i, concrete, conflicts)
      invariant forall c :: c in conflicts ==> Clash(beans, c)
    {
      assert order[i] in Listed(order);
      var bean := beans[order[i]];
      IndexNext(beans, order, i, concrete, conflicts);
      if bean.typ in concrete && concrete[bean.typ] != bean {
        IndexClash(beans, order, i, concrete, conflicts);
        conflicts := conflicts + {bean.typ};
      }
      concrete := concrete[bean.typ := bean];
    }
    IndexEnds(beans, order, concrete, conflicts);
  }

  /** Of the instances of one concrete type, the one registered last. */
  ghost predicate IsLastOf(beans: map<Type, Bean>, order: seq<Type>, i: nat, b: Bean) {
    exists j :: LastAt(beans, order, i, b, j)
  }

  predicate LastAt(beans: map<Type, Bean>, order: seq<Type>, i: nat, b: Bean, j: int) {
    && 0 <= j < i <= |order| && order[j] in beans && beans[order[j]] == b
    && forall k :: j < k < i && order[k] in beans ==> beans[order[k]].typ != b.typ
  }

  /** The index of the first i types of the order, and their conflicts. */
  ghost predicate Rebuilt(beans: map<Type, Bean>, order: seq<Type>, i: nat, concrete: map<Type, Bean>, conflicts: set<Type>)
    requires i <= |order|
  {
    && (forall c :: c in concrete ==> concrete[c].typ == c && IsLastOf(beans, order, i, concrete[c]))
    && (forall j :: 0 <= j < i ==> order[j] in beans && beans[order[j]].typ in concrete)
    && (forall j :: 0 <= j < i && beans[order[j]].typ !in conflicts ==> concrete[beans[order[j]].typ] == beans[order[j]])
  }

  lemma IndexStarts(beans: map<Type, Bean>, order: seq<Type>)
    ensures Rebuilt(beans, order, 0, map[], {})
  {
  }

  lemma IndexNext(beans: map<Type, Bean>, order: seq<Type>, i: nat, concrete: map<Type, Bean>, conflicts: set<Type>)
    requires i < |order| && order[i] in beans && Rebuilt(beans, order, i, concrete, conflicts)
    ensures var b := beans[order[i]];
            Rebuilt(beans, order, i + 1, concrete[b.typ := b],
                    if b.typ in concrete && concrete[b.typ] != b then conflicts + {b.typ} else conflicts)
  {
    var b := beans[order[i]];
    var concrete' := concrete[b.typ := b];
    forall c | c in concrete' ensures IsLastOf(beans, order, i + 1, concrete'[c]) {
      if c == b.typ {
        assert LastAt(beans, order, i + 1, b, i);
      } else {
        var j :| LastAt(beans, order, i, concrete[c], j);
        assert LastAt(beans, order, i + 1, concrete[c], j);
      }
    }
  }

  /** Two instances of one concrete type. */
  lemma IndexClash(beans: map<Type, Bean>, order: seq<Type>, i: nat, concrete: map<Type, Bean>, conflicts: set<Type>)
    requires i < |order| && order[i] in beans && Rebuilt(beans, order, i, concrete, conflicts)
    requires var b := beans[order[i]]; b.typ in concrete && concrete[b.typ] != b
    ensures Clash(beans, beans[order[i]].typ)
  {
    var b := beans[order[i]];
    var j :| LastAt(beans, order, i, concrete[b.typ], j);
    ClashOf(beans, order[j], order[i]);
  }

  lemma IndexEnds(beans: map<Type, Bean>, order: seq<Type>, concrete: map<Type, Bean>, conflicts: set<Type>)
    requires Listed(order) == beans.Keys && Rebuilt(beans, order, |order|, concrete, conflicts)
    requires forall c :: c in conflicts ==> Clash(beans, c)
    ensures forall x :: x in concrete ==> RegisteredIn(beans, concrete[x])
    ensures forall c :: c in concrete ==> concrete[c].typ == c
    ensures forall t :: t in beans ==> beans[t].typ in concrete
    ensures forall t :: t in beans && beans[t].typ !in conflicts ==> concrete[beans[t].typ] == beans[t]
    ensures ConflictsExact(beans, conflicts)
    ensures forall c :: c in concrete ==> IsLastOf(beans, order, |order|, concrete[c])
  {
    forall c | c in concrete ensures RegisteredIn(beans, concrete[c]) && IsLastOf(beans, order, |order|, concrete[c]) {
      var j :| LastAt(beans, order, |order|, concrete[c], j);
    }
    forall t | t in beans
      ensures beans[t].typ in concrete && (beans[t].typ !in conflicts ==> concrete[beans[t].typ] == beans[t])
    {
      assert t in Listed(order);
      var j :| 0 <= j < |order| && order[j] == t;
    }
  }

  ghost predicate Clash(beans: map<Type, Bean>, c: Type) {
    exists t, u :: t in beans && u in beans && beans[t].typ == c == beans[u].typ && beans[t] != beans[u]
  }

  lemma ClashOf(beans: map<Type, Bean>, t: Type, u: Type)
    requires t in beans && u in beans && beans[t].typ == beans[u].typ && beans[t] != beans[u]
    ensures Clash(beans, beans[t].typ)
  {
  }

  lemma WithoutOk(order: seq<Type>, order': seq<Type>, t: Type, at: nat)
    requires Distinct(order) && at <= |order| && (forall j :: 0 <= j < at ==> order[j] != t) && (at < |order| ==> order[at] == t)
    requires order' == if at < |order| then order[..at] + order[at + 1..] else order
    ensures Distinct(order') && Listed(order') == Listed(order) - {t}
  {
    forall u | u in Listed(order) - {t} ensures u in Listed(order') {
      var j :| 0 <= j < |order| && order[j] == u;
      assert order'[if j < at then j else if at < |order| then j - 1 else j] == u;
    }
    forall u | u in Listed(order') ensures u in order && u != t {
      var j :| 0 <= j < |order'| && order'[j] == u;
      assert order[if j < at then j else if at < |order| then j + 1 else j] == u;
    }
  }

  // ----- the index may hold an instance that is registered no more -----

  /** The instance is registered under some type. */
  ghost predicate RegisteredIn(beans: map<Type, Bean>, b: Bean) {
    exists t :: t in beans && beans[t] == b
  }

  ghost predicate IndexCurrent(c: Beans) {
    forall x :: x in c.concrete ==> RegisteredIn(c.beans, c.concrete[x])
  }

  /** Another instance of the bean's concrete type is registered. */
  ghost predicate Contradicted(beans: map<Type, Bean>, b: Bean) {
    exists t :: t in beans && beans[t].typ == b.typ && beans[t] != b
  }

  /** The bean is refused over an instance that is registered under no type. */
  ghost predicate Stale(c: Beans, b: Bean) {
    Conflicts(c, b) && !RegisteredIn(c.beans, c.concrete[b.typ])
  }

  /** A refusal over the indexed instance is spurious, no other instance of the concrete type
      being registered, exactly when the indexed one is registered under no type.  Where a
      conflict is reported for the type, others may be registered. */
  lemma SpuriousIff(c: Beans, b: Bean)
    requires BeansOk(c) && Conflicts(c, b)
    ensures b.typ !in c.conflicts ==> (!Contradicted(c.beans, b) <==> !RegisteredIn(c.beans, c.concrete[b.typ]))
    ensures !Contradicted(c.beans, b) ==> !RegisteredIn(c.beans, c.concrete[b.typ])
  {
    var held := c.concrete[b.typ];
    if t :| t in c.beans && c.beans[t] == held {
      assert c.beans[t].typ == b.typ && c.beans[t] != b;
    }
    if t :| t in c.beans && c.beans[t].typ == b.typ && c.beans[t] != b {
      assert b.typ !in c.conflicts ==> c.beans[t] == held;
    }
  }

  /** What the check on the index refuses: another registered instance, or a stale one. */
  lemma ConflictsIff(c: Beans, b: Bean)
    requires BeansOk(c) && b.typ !in c.conflicts
    ensures Conflicts(c, b) <==> Contradicted(c.beans, b) || Stale(c, b)
  {
    if Conflicts(c, b) { SpuriousIff(c, b); }
  }

  /** While the index is current, a registration reports a conflict for its concrete type
      exactly when another instance of it is registered, and for no other type. */
  lemma PutReports(c: Beans, t: Type, b: Bean, x: Type)
    requires BeansOk(c) && IndexCurrent(c) && b.typ !in c.conflicts
    ensures x in Put(c, t, b).conflicts <==> x in c.conflicts || (x == b.typ && Contradicted(c.beans, b))
  {
    ConflictsIff(c, b);
  }

  /** The registration takes the place of the last one of an indexed instance of another
      concrete type, which only an interface allows. */
  ghost predicate Orphans(c: Beans, t: Type, b: Bean)
    requires BeansOk(c)
  {
    && t in c.beans && c.beans[t].typ != b.typ && c.concrete[c.beans[t].typ] == c.beans[t]
    && forall u :: u in c.beans && c.beans[u] == c.beans[t] ==> u == t
  }

  /** A registration leaves an instance in the index that is registered no more exactly when
      it takes the place of the last registration of an indexed instance of another type. */
  lemma IndexStaysCurrentIff(c: Beans, t: Type, b: Bean)
    requires BeansOk(c) && IndexCurrent(c) && Names(t, b)
    ensures IndexCurrent(Put(c, t, b)) <==> !Orphans(c, t, b)
    ensures Orphans(c, t, b) ==> t.Interface?
  {
    var c' := Put(c, t, b);
    if Orphans(c, t, b) {
      var gone := c.beans[t];
      assert c'.concrete[gone.typ] == gone;
      forall u | u in c'.beans ensures c'.beans[u] != gone {
        if u != t { assert c'.beans[u] == c.beans[u]; }
      }
    } else {
      forall x | x in c'.concrete ensures RegisteredIn(c'.beans, c'.concrete[x]) {
        if x == b.typ {
          assert c'.beans[t] == b;
        } else {
          var u :| u in c.beans && c.beans[u] == c.concrete[x];
          var v := if u != t then u else OtherName(c, t, b);
          assert v != t && c'.beans[v] == c.concrete[x];
        }
      }
    }
  }

  /** Another type the same bean is registered under. */
  ghost function OtherName(c: Beans, t: Type, b: Bean): (u: Type)
    requires BeansOk(c) && t in c.beans && c.beans[t].typ != b.typ && !Orphans(c, t, b)
    requires c.concrete[c.beans[t].typ] == c.beans[t]
    ensures u in c.beans && u != t && c.beans[u] == c.beans[t]
  {
    var u :| u in c.beans && u != t && c.beans[u] == c.beans[t];
    u
  }

  /** An interface bound to one bean and then to another of a second concrete type. */
  function Rebound(): Beans {
    Put(Put(Beans(map[], [], map[], {}), Interface(0), Bean(1, Concrete(1), false)), Interface(0), Bean(2, Concrete(2), false))
  }

  /** No bean of the first concrete type is registered, no conflict is reported, and yet
      another bean of that type is refused, alone and in a batch. */
  lemma RefusedOverNothing()
    ensures BeansOk(Rebound()) && Rebound().conflicts == {}
    ensures var b := Bean(3, Concrete(1), false);
            && !Contradicted(Rebound().beans, b) && Conflicts(Rebound(), b) && Stale(Rebound(), b)
            && Consistent(Rebound().beans, [b]) && !Compatible(Rebound(), [b], 1)
  {
    var empty, first, second := Beans(map[], [], map[], {}), Bean(1, Concrete(1), false), Bean(2, Concrete(2), false);
    PutOk(empty, Interface(0), first);
    PutOk(Put(empty, Interface(0), first), Interface(0), second);
    assert Rebound().beans == map[Interface(0) := second];
    assert Rebound().concrete == map[Concrete(1) := first, Concrete(2) := second];
    var b := Bean(3, Concrete(1), false);
    assert [b][0] == b;
  }

  /** The same through the operations of a strict container; a removal makes the index anew,
      and then the bean is accepted. */
  method RefusedUntilRemoval() returns (alone: bool, batch: bool, afterwards: bool)
    ensures !alone && !batch && afterwards
  {
    hide BeansOk, EntriesOk, Conflicts, Put, Rebound, Compatible, ConflictsExact, IndexCurrent, Agree;
    var r := new Registry(true);
    var b := Bean(3, Concrete(1), false);
    Rebinds();
    var bound := r.Register(Interface(0), Bean(1, Concrete(1), false), true);
    bound := r.Register(Interface(0), Bean(2, Concrete(2), false), true);
    RefusedOverNothing();
    alone := r.Register(Concrete(1), b, true);
    batch := r.SetBatch([b]);
    var removed := r.Remove(Interface(1));
    NothingStale(r.container);
    afterwards := r.SetBatch([b]);
  }

  lemma Rebinds()
    ensures var empty, first, second := Beans(map[], [], map[], {}), Bean(1, Concrete(1), false), Bean(2, Concrete(2), false);
            && !Conflicts(empty, first) && !Conflicts(Put(empty, Interface(0), first), second)
            && Put(empty, Interface(0), first).beans == map[Interface(0) := first]
            && Put(Put(empty, Interface(0), first), Interface(0), second) == Rebound()
            && Rebound().beans == map[Interface(0) := second]
  {
    var empty, first, second := Beans(map[], [], map[], {}), Bean(1, Concrete(1), false), Bean(2, Concrete(2), false);
    assert Rebound().beans == map[Interface(0) := second];
  }

  /** With the index made anew. */
  lemma NothingStale(c: Beans)
    requires BeansOk(c) && IndexCurrent(c) && ConflictsExact(c.beans, c.conflicts)
    requires c.beans == map[Interface(0) := Bean(2, Concrete(2), false)] - {Interface(1)}
    ensures Compatible(c, [Bean(3, Concrete(1), false)], 1)
  {
    var b := Bean(3, Concrete(1), false);
    forall x | x in c.concrete ensures x == Concrete(2) {
      assert RegisteredIn(c.beans, c.concrete[x]);
    }
    assert [b][0] == b && Concrete(1) !in c.beans;
  }

  // ----- batches -----

  /** No bean of the batch meets another instance of its concrete type, registered under that
      type, in the batch, or else in the index, which may hold an instance registered no more. */
  predicate Compatible(c: Beans, bs: seq<Bean>, k: nat)
    requires k <= |bs|
  {
    forall i :: 0 <= i < k ==>
      && (bs[i].typ in c.beans ==> c.beans[bs[i].typ] == bs[i])
      && (bs[i].typ !in c.beans && bs[i].typ in c.concrete ==> c.concrete[bs[i].typ] == bs[i])
      && (forall j :: 0 <= j < i && bs[j].typ == bs[i].typ ==> bs[j] == bs[i])
  }

  /** The registrations with the first k beans of a batch added. */
  predicate IsBatch(m0: map<Type, Bean>, m: map<Type, Bean>, bs: seq<Bean>, k: nat)
    requires k <= |bs|
  {
    && (forall t :: t in m0 ==> t in m && m[t] == m0[t])
    && (forall i :: 0 <= i < k ==> bs[i].typ in m && m[bs[i].typ] == bs[i])
    && (forall t :: t in m && t !in m0 ==> exists i :: 0 <= i < k && bs[i].typ == t)
  }

  /** The batch contradicts neither what is registered nor itself. */
  ghost predicate Consistent(beans: map<Type, Bean>, bs: seq<Bean>) {
    && (forall i :: 0 <= i < |bs| ==> !Contradicted(beans, bs[i]))
    && (forall i, j :: 0 <= j < i < |bs| && bs[j].typ == bs[i].typ ==> bs[j] == bs[i])
  }

  /** What a batch is refused for: it contradicts what is registered or itself, or one of its
      beans meets an instance in the index that is registered no more. */
  lemma BatchRefusedIff(c: Beans, bs: seq<Bean>)
    requires BeansOk(c) && forall i :: 0 <= i < |bs| ==> bs[i].typ !in c.conflicts
    ensures Compatible(c, bs, |bs|) <==> Consistent(c.beans, bs) && forall i :: 0 <= i < |bs| ==> !Stale(c, bs[i])
  {
    hide Contradicted, Stale;
    forall i | 0 <= i < |bs|
      ensures Conflicts(c, bs[i]) <==> Contradicted(c.beans, bs[i]) || Stale(c, bs[i])
      ensures bs[i].typ in c.beans ==> (c.beans[bs[i].typ] == bs[i] <==> !Conflicts(c, bs[i]))
    {
      ConflictsIff(c, bs[i]);
    }
  }

  function Extend(m: map<Type, Bean>, bs: seq<Bean>, k: nat): map<Type, Bean>
    requires k <= |bs|
  {
    if k == 0 then m else Extend(m, bs, k - 1)[bs[k - 1].typ := bs[k - 1]]
  }

  lemma ExtendNone(m: map<Type, Bean>, bs: seq<Bean>)
    ensures Extend(m, bs, 0) == m
  {
  }

  lemma ExtendNext(m: map<Type, Bean>, bs: seq<Bean>, k: nat)
    requires k < |bs|
    ensures Extend(m, bs, k + 1) == Extend(m, bs, k)[bs[k].typ := bs[k]]
  {
  }

  lemma {:induction false} ExtendPrefix(m: map<Type, Bean>, a: seq<Bean>, b: seq<Bean>, k: nat)
    requires k <= |a| <= |b| && b[..|a|] == a
    ensures Extend(m, b, k) == Extend(m, a, k)
  {
    if k > 0 {
      ExtendPrefix(m, a, b, k - 1);
      assert b[k - 1] == b[..|a|][k - 1];
    }
  }

  lemma ExtendSnoc(m: map<Type, Bean>, bs: seq<Bean>, b: Bean)
    ensures Extend(m, bs + [b], |bs| + 1) == Extend(m, bs, |bs|)[b.typ := b]
  {
    ExtendPrefix(m, bs, bs + [b], |bs|);
  }

  /** Beans of types that are not registered, all different, and in conflict with nothing. */
  predicate NewBeans(c: Beans, bs: seq<Bean>) {
    && (forall i :: 0 <= i < |bs| ==> bs[i].typ !in c.beans && !Conflicts(c, bs[i]))
    && (forall i, j :: 0 <= i < j < |bs| ==> bs[i].typ != bs[j].typ)
  }

  lemma NewBeansNext(c: Beans, bs: seq<Bean>)
    requires NewBeans(c, bs) && bs != []
    ensures Put(c, bs[0].typ, bs[0])
            == Beans(c.beans[bs[0].typ := bs[0]], c.order + [bs[0].typ], c.concrete[bs[0].typ := bs[0]], c.conflicts)
    ensures NewBeans(Put(c, bs[0].typ, bs[0]), bs[1..])
  {
    var c', rest := Put(c, bs[0].typ, bs[0]), bs[1..];
    forall i | 0 <= i < |rest| ensures rest[i].typ !in c'.beans && !Conflicts(c', rest[i]) {
      assert rest[i] == bs[i + 1] && bs[i + 1].typ != bs[0].typ;
    }
  }

  /** What the checks have established before bean i of a batch. */
  ghost predicate Planned(c: Beans, bs: seq<Bean>, i: nat, planned: map<Type, Bean>, plannedConcrete: map<Type, Bean>, accepted: seq<Bean>)
    requires i <= |bs|
  {
    && Compatible(c, bs, i) && NewBeans(c, accepted)
    && planned == Extend(c.beans, accepted, |accepted|)
    && IsBatch(c.beans, planned, bs, i)
    && (forall t :: t !in planned ==> (t in plannedConcrete <==> t in c.concrete))
    && (forall t :: t !in planned && t in plannedConcrete ==> plannedConcrete[t] == c.concrete[t])
    && (forall j :: 0 <= j < |accepted| ==> accepted[j].typ in planned)
  }

  lemma PlanStarts(c: Beans, bs: seq<Bean>)
    ensures Planned(c, bs, 0, c.beans, c.concrete, [])
  {
  }

  lemma PlanKnows(c: Beans, bs: seq<Bean>, i: nat, planned: map<Type, Bean>, plannedConcrete: map<Type, Bean>, accepted: seq<Bean>)
    requires i < |bs| && Planned(c, bs, i, planned, plannedConcrete, accepted)
    requires bs[i].typ in planned && planned[bs[i].typ] == bs[i]
    ensures Planned(c, bs, i + 1, planned, plannedConcrete, accepted)
  {
    hide Extend, NewBeans;
  }

  lemma PlanAdds(c: Beans, bs: seq<Bean>, i: nat, planned: map<Type, Bean>, plannedConcrete: map<Type, Bean>, accepted: seq<Bean>)
    requires i < |bs| && Planned(c, bs, i, planned, plannedConcrete, accepted)
    requires bs[i].typ !in planned && (bs[i].typ in plannedConcrete ==> plannedConcrete[bs[i].typ] == bs[i])
    ensures var b := bs[i]; Planned(c, bs, i + 1, planned[b.typ := b], plannedConcrete[b.typ := b], accepted + [b])
  {
    hide Extend;
    ExtendSnoc(c.beans, accepted, bs[i]);
  }

  lemma PlanRefuses(c: Beans, bs: seq<Bean>, i: nat, planned: map<Type, Bean>, plannedConcrete: map<Type, Bean>, accepted: seq<Bean>)
    requires i < |bs| && Planned(c, bs, i, planned, plannedConcrete, accepted)
    requires if bs[i].typ in planned then planned[bs[i].typ] != bs[i]
             else bs[i].typ in plannedConcrete && plannedConcrete[bs[i].typ] != bs[i]
    ensures !Compatible(c, bs, |bs|)
  {
    hide Extend, NewBeans;
  }

  lemma PlanEnds(c: Beans, bs: seq<Bean>, planned: map<Type, Bean>, plannedConcrete: map<Type, Bean>, accepted: seq<Bean>)
    requires Planned(c, bs, |bs|, planned, plannedConcrete, accepted)
    ensures Compatible(c, bs, |bs|) && NewBeans(c, accepted)
    ensures IsBatch(c.beans, Extend(c.beans, accepted, |accepted|), bs, |bs|)
  {
    hide Extend, NewBeans, Compatible, IsBatch;
  }

  lemma SetBeanOk(l: Entries, t: Type, b: Bean)
    requires EntriesOk(l)
    ensures EntriesOk(SetBean(l, t, b)) && SetBean(l, t, b).index == l.index[t := b]
  {
    hide EntriesOk, Release;
    ReleaseOk(l, t);
    JoinOk(Release(l, t), t, b);
    assert (l.index - {t})[t := b] == l.index[t := b];
    if t in l.index && l.index[t] == b { assert l.index[t := b] == l.index; }
  }
}
