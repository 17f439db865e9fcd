/** A whole tool declaration against the argument objects its tool accepts. */
module ToolDeclaration {
  import opened Wrappers
  import opened ToolSchema

  // ----- how many values a parameter accepts -----

  /** The check accepts values without end. */
  predicate Endless(m: Mirror) {
    match m.typ
    case TString => m.options == []
    case TNumber => true
    case TInteger => true
    case TBoolean => false
    case TArray => true
    case TObject => m.sub == map[] || exists k :: k in m.sub && Endless(m.sub[k])
    case TNull => false
  }

  /** Otherwise these are all. */
  ghost function Values(m: Mirror): set<Json>
    decreases m, 1, 0
  {
    match m.typ
    case TString => set i | 0 <= i < |m.options| :: Str(m.options[i])
    case TBoolean => {Bool(true), Bool(false)}
    case TNull => {Null}
    case TObject => set a | a in Products(m, m.sub.Keys) :: Obj(a)
    case _ => {}
  }

  /** The argument objects over some of the parameters. */
  ghost function Products(m: Mirror, keys: set<string>): set<map<string, Json>>
    requires keys <= m.sub.Keys
    decreases m, 0, |keys|
  {
    if keys == {} then {map[]}
    else
      var k :| k in keys;
      With(Products(m, keys - {k}), k, Values(m.sub[k]), m.sub[k].required)
  }

  /** The objects with one more parameter, present with one of its values or, if it may be, absent. */
  ghost function With(rest: set<map<string, Json>>, k: string, values: set<Json>, required: bool): set<map<string, Json>> {
    (set a, v | a in rest && v in values :: a[k := v]) + (if required then {} else rest)
  }

  lemma {:induction false} WithMember(rest: set<map<string, Json>>, k: string, values: set<Json>, required: bool, args: map<string, Json>)
    requires forall a :: a in rest ==> k !in a
    ensures args in With(rest, k, values, required) <==>
              if k in args then args - {k} in rest && args[k] in values else !required && args in rest
  {
    if k in args {
      var a := args - {k};
      assert a[k := args[k]] == args;
      if args in With(rest, k, values, required) {
        var b, v :| b in rest && v in values && b[k := v] == args;
        assert b == a;
      }
    }
  }

  lemma {:induction false} ProductsUnfold(m: Mirror, keys: set<string>) returns (k: string)
    requires keys <= m.sub.Keys && keys != {}
    ensures k in keys && Products(m, keys) == With(Products(m, keys - {k}), k, Values(m.sub[k]), m.sub[k].required)
  {
    k :| k in keys && Products(m, keys) == With(Products(m, keys - {k}), k, Values(m.sub[k]), m.sub[k].required);
  }

  /** The part of checkParams about some of the parameters, and nothing else. */
  predicate Passes(m: Mirror, keys: set<string>, args: map<string, Json>)
    requires keys <= m.sub.Keys
  {
    && args.Keys <= keys
    && forall k :: k in keys ==> if k in args then CheckValue(m.sub[k], args[k]) else !m.sub[k].required
  }

  lemma {:induction false} ValuesExact(m: Mirror, v: Json)
    requires !Endless(m)
    ensures v in Values(m) <==> CheckValue(m, v)
    decreases m, 1, 0
  {
    match m.typ
    case TString =>
      if v.Str? && v.s in m.options {
        var i :| 0 <= i < |m.options| && m.options[i] == v.s;
        assert Str(m.options[i]) == v;
      }
    case TObject =>
      if v.Obj? { ProductsExact(m, m.sub.Keys, v.members); }
    case _ =>
  }

  lemma {:induction false} ProductsExact(m: Mirror, keys: set<string>, args: map<string, Json>)
    requires keys <= m.sub.Keys && forall k :: k in keys ==> !Endless(m.sub[k])
    ensures args in Products(m, keys) <==> Passes(m, keys, args)
    decreases m, 0, |keys|
  {
    hide CheckValue, Endless, Values, With;
    if keys == {} {
      NoProducts(m);
    } else {
      var k := ProductsUnfold(m, keys);
      var others, rest := keys - {k}, Products(m, keys - {k});
      forall a | a in rest ensures k !in a {
        ProductsExact(m, others, a);
      }
      WithMember(rest, k, Values(m.sub[k]), m.sub[k].required, args);
      ProductsExact(m, others, args);
      if k in args {
        ProductsExact(m, others, args - {k});
        ValuesExact(m.sub[k], args[k]);
        PassesApart(m, keys, k, args);
      }
    }
  }

  lemma {:induction false} PassesApart(m: Mirror, keys: set<string>, k: string, args: map<string, Json>)
    requires keys <= m.sub.Keys && k in keys && k in args
    ensures Passes(m, keys, args) <==> CheckValue(m.sub[k], args[k]) && Passes(m, keys - {k}, args - {k})
  {
    hide CheckValue;
    var rest := args - {k};
    assert rest.Keys == args.Keys - {k};
    if Passes(m, keys - {k}, rest) && CheckValue(m.sub[k], args[k]) {
      forall j | j in args ensures j in keys {
        if j != k { assert j in rest; }
      }
      forall j | j in keys ensures if j in args then CheckValue(m.sub[j], args[j]) else !m.sub[j].required {
        if j != k { assert j in rest <==> j in args; }
      }
    }
  }

  lemma {:induction false} NoProducts(m: Mirror)
    ensures Products(m, {}) == {map[]}
  {
  }

  // ----- values without end -----

  /** Some value the check accepts. */
  function Accepted(m: Mirror): Json {
    Sample(Render(m))
  }

  lemma {:induction false} AcceptedChecks(m: Mirror)
    requires WellFormed(m)
    ensures CheckValue(m, Accepted(m))
  {
    RenderNormalises(m);
    SampleChecks(Render(m));
    RequiredApart(m, false, Accepted(m));
  }

  function Letters(n: nat): string {
    if n == 0 then "" else Letters(n - 1) + "a"
  }

  lemma {:induction false} LettersLength(n: nat)
    ensures |Letters(n)| == n
  {
    if n > 0 { LettersLength(n - 1); }
  }

  /** The n-th of the values of an endless parameter. */
  ghost function Nth(m: Mirror, n: nat): Json
    requires Endless(m)
    decreases m
  {
    match m.typ
    case TString => Str(Letters(n))
    case TNumber => Num(n as real)
    case TInteger => Num(n as real)
    case TArray => Arr(seq(n, _ => if m.elem.Some? then Accepted(m.elem.value) else Null))
    case TObject =>
      if m.sub == map[] then Obj(map["x" := Num(n as real)])
      else
        var k :| k in m.sub && Endless(m.sub[k]);
        Obj((map j | j in m.sub :: Accepted(m.sub[j]))[k := Nth(m.sub[k], n)])
    case _ => Null
  }

  lemma {:induction false} NthChecks(m: Mirror, n: nat)
    requires WellFormed(m) && Endless(m)
    ensures CheckValue(m, Nth(m, n))
    decreases m
  {
    match m.typ
    case TArray => if m.elem.Some? { AcceptedChecks(m.elem.value); }
    case TObject =>
      if m.sub != map[] {
        var k := NthUnfold(m, n);
        NthChecks(m.sub[k], n);
        FilledChecks(m, k, Nth(m.sub[k], n));
      }
    case _ =>
  }

  lemma {:induction false} NthUnfold(m: Mirror, n: nat) returns (k: string)
    requires Endless(m) && m.typ == TObject && m.sub != map[]
    ensures k in m.sub && Endless(m.sub[k])
    ensures Nth(m, n) == Obj((map j | j in m.sub :: Accepted(m.sub[j]))[k := Nth(m.sub[k], n)])
  {
    hide Accepted;
    k :| k in m.sub && Endless(m.sub[k]) && Nth(m, n) == Obj((map j | j in m.sub :: Accepted(m.sub[j]))[k := Nth(m.sub[k], n)]);
  }

  /** Every parameter present, all but one with some accepted value. */
  lemma {:induction false} FilledChecks(m: Mirror, k: string, v: Json)
    requires WellFormed(m) && m.typ == TObject && k in m.sub && CheckValue(m.sub[k], v)
    ensures CheckValue(m, Obj((map j | j in m.sub :: Accepted(m.sub[j]))[k := v]))
  {
    hide Accepted;
    forall j | j in m.sub ensures CheckValue(m.sub[j], Accepted(m.sub[j])) { AcceptedChecks(m.sub[j]); }
    var args := (map j | j in m.sub :: Accepted(m.sub[j]))[k := v];
    assert CheckParams(m, args);
  }

  lemma {:induction false} NthDiffers(m: Mirror, i: nat, j: nat)
    requires Endless(m) && Nth(m, i) == Nth(m, j)
    ensures i == j
    decreases m
  {
    match m.typ
    case TString => LettersLength(i); LettersLength(j);
    case TNumber => assert (i as real).Floor == (j as real).Floor;
    case TInteger => assert (i as real).Floor == (j as real).Floor;
    case TArray => assert |Nth(m, i).elements| == i && |Nth(m, j).elements| == j;
    case TObject =>
      if m.sub == map[] {
        assert Nth(m, i).members["x"] == Nth(m, j).members["x"];
        assert (i as real).Floor == (j as real).Floor;
      } else {
        var k :| k in m.sub && Endless(m.sub[k])
          && Nth(m, i) == Obj((map l | l in m.sub :: Accepted(m.sub[l]))[k := Nth(m.sub[k], i)])
          && Nth(m, j) == Obj((map l | l in m.sub :: Accepted(m.sub[l]))[k := Nth(m.sub[k], j)]);
        assert Nth(m, i).members[k] == Nth(m, j).members[k];
        NthDiffers(m.sub[k], i, j);
      }
  }

  /** No list holds all of them. */
  lemma {:induction false} NthOutside(m: Mirror, list: seq<Json>, n: nat) returns (i: nat)
    requires Endless(m)
    ensures i >= n && Nth(m, i) !in list
    decreases |list|
  {
    if list == [] {
      i := n;
    } else {
      i := NthOutside(m, list[1..], n);
      if Nth(m, i) == list[0] {
        var other := NthOutside(m, list[1..], i + 1);
        if Nth(m, other) == list[0] {
          NthDiffers(m, i, other);
        }
        i := other;
      }
      assert list == [list[0]] + list[1..];
    }
  }

  // ----- the declaration and its argument objects -----

  /** The parameters a declaration is enforced with. */
  function Root(c: Schema): Schema {
    Schema(Named(TObject), false, None, [], true, c.props, c.required, false, None)
  }

  /** The declared type allows objects. */
  predicate TypeAllowsObjects(c: Schema) {
    match c.typ
    case Blank => true
    case Named(t) => t == TObject
    case Unknown => false
    case Listed(ts) => ts == [] || Some(TObject) in ts
  }

  /** Every argument object with these parameters is in the list; the parameters leave a
      finite choice, and the list covers it. */
  ghost predicate Covers(list: seq<Json>, owner: Mirror) {
    && (forall k :: k in owner.sub ==> !Endless(owner.sub[k]))
    && (forall a :: a in Products(owner, owner.sub.Keys) ==> Obj(a) in list)
  }

  /** Where the enforced parameters hold all that a declaration says: its type allows
      objects; with properties, they are held faithfully, "required" names only them, and
      const and enum list every argument object they leave; without properties nothing else
      is said. */
  ghost predicate DeclaresFaithfully(c: Schema) {
    && TypeAllowsObjects(c)
    && (if c.hasProps then
          && c.required <= c.props.Keys
          && (forall k :: k in c.props ==> Faithful(c.props[k]))
          && (MirrorOf(Root(c)).Some? ==>
                && (c.constant.Some? ==> Covers([c.constant.value], MirrorOf(Root(c)).value))
                && (c.options != [] ==> Covers(c.options, MirrorOf(Root(c)).value)))
        else c.required == {} && !c.closed && c.constant.None? && c.options == [])
  }

  /** What a declaration says of an argument object, keyword by keyword. */
  lemma {:induction false} ValidParts(c: Schema, args: map<string, Json>)
    ensures Valid(c, Obj(args)) <==>
              && TypeAllowsObjects(c)
              && (c.constant.Some? ==> Obj(args) == c.constant.value)
              && (c.options != [] ==> Obj(args) in c.options)
              && c.required <= args.Keys
              && (c.hasProps ==> forall k :: k in c.props && k in args ==> Valid(c.props[k], args[k]))
              && (c.closed ==> forall k :: k in args ==> c.hasProps && k in c.props)
  {
    if c.typ.Listed? && Some(TObject) in c.typ.ts {
      var i :| 0 <= i < |c.typ.ts| && c.typ.ts[i] == Some(TObject);
      assert HasType(Obj(args), c.typ.ts[i].value);
    }
  }

  lemma {:induction false} OwnerFacts(c: Schema)
    requires DeclaredParams(Some(c)).Params?
    ensures var owner := DeclaredParams(Some(c)).owner;
            && c.hasProps && MirrorOf(Root(c)) == Some(owner) && WellFormed(owner)
            && owner.typ == TObject && owner.sub.Keys == c.props.Keys
            && (forall args :: ToolArgsOk(DeclaredParams(Some(c)), args) <==> Passes(owner, owner.sub.Keys, args))
  {
    MirrorParts(Root(c));
    MirrorWellFormed(Root(c));
    hide CheckValue;
    var owner := DeclaredParams(Some(c)).owner;
    forall args ensures CheckParams(owner, args) <==> Passes(owner, owner.sub.Keys, args) {
    }
  }

  /** Only finitely many argument objects, all listed, or one that is not. */
  lemma {:induction false} CoversOrNot(owner: Mirror, list: seq<Json>) returns (args: map<string, Json>)
    requires WellFormed(owner) && owner.typ == TObject && !Covers(list, owner)
    ensures Passes(owner, owner.sub.Keys, args) && Obj(args) !in list
  {
    hide CheckValue, Products, Endless, Values;
    if k :| k in owner.sub && Endless(owner.sub[k]) {
      args := Outside(owner, list);
    } else {
      args :| args in Products(owner, owner.sub.Keys) && Obj(args) !in list;
      ProductsExact(owner, owner.sub.Keys, args);
    }
  }

  lemma {:induction false} Outside(owner: Mirror, list: seq<Json>) returns (args: map<string, Json>)
    requires WellFormed(owner) && owner.typ == TObject && exists k :: k in owner.sub && Endless(owner.sub[k])
    ensures Passes(owner, owner.sub.Keys, args) && Obj(args) !in list
  {
    assert owner.sub != map[] && Endless(owner);
    var i := NthOutside(owner, list, 0);
    NthChecks(owner, i);
    args := Nth(owner, i).members;
  }

  /** Every listed argument object is one the parameters leave. */
  lemma {:induction false} CoveredArgs(owner: Mirror, list: seq<Json>, args: map<string, Json>)
    requires Covers(list, owner) && Passes(owner, owner.sub.Keys, args)
    ensures Obj(args) in list
  {
    ProductsExact(owner, owner.sub.Keys, args);
  }

  /** Whatever passes the check before a tool runs is valid under the tool's declaration,
      exactly when the declaration is held faithfully. */
  lemma {:induction false} ToolNeverDowngradedIff(c: Schema)
    requires !DeclaredParams(Some(c)).Refused?
    ensures (forall args :: ToolArgsOk(DeclaredParams(Some(c)), args) ==> Valid(c, Obj(args))) <==> DeclaresFaithfully(c)
  {
    hide Valid, CheckValue, Passes, ToolArgsOk, MirrorOf, DeclaresFaithfully;
    var d := DeclaredParams(Some(c));
    if DeclaresFaithfully(c) {
      forall args | ToolArgsOk(d, args) ensures Valid(c, Obj(args)) {
        FaithfulHolds(c, args);
      }
    } else {
      var args := UnfaithfulShows(c);
    }
  }

  lemma {:induction false} FaithfulHolds(c: Schema, args: map<string, Json>)
    requires !DeclaredParams(Some(c)).Refused? && DeclaresFaithfully(c) && ToolArgsOk(DeclaredParams(Some(c)), args)
    ensures Valid(c, Obj(args))
  {
    hide Valid, CheckValue, MirrorOf, Faithful, Covers;
    ValidParts(c, args);
    if c.hasProps {
      OwnerFacts(c);
      var owner := DeclaredParams(Some(c)).owner;
      if c.constant.Some? { CoveredArgs(owner, [c.constant.value], args); }
      if c.options != [] { CoveredArgs(owner, c.options, args); }
      RootFaithful(c);
      PassesRoot(c, args);
      ValidParts(Root(c), args);
    }
  }

  lemma {:induction false} RootFaithful(c: Schema)
    ensures Faithful(Root(c)) <==> c.required <= c.props.Keys && forall k :: k in c.props ==> Faithful(c.props[k])
  {
  }

  /** Arguments that pass are valid under the enforced properties. */
  lemma {:induction false} PassesRoot(c: Schema, args: map<string, Json>)
    requires DeclaredParams(Some(c)).Params? && Faithful(Root(c)) && ToolArgsOk(DeclaredParams(Some(c)), args)
    ensures Valid(Root(c), Obj(args))
  {
    hide Valid, MirrorOf, Faithful;
    OwnerFacts(c);
    var owner := DeclaredParams(Some(c)).owner;
    assert CheckValue(owner, Obj(args));
    NothingLost(Root(c), Obj(args));
  }

  /** Arguments that pass although the declaration forbids them. */
  lemma {:induction false} UnfaithfulShows(c: Schema) returns (args: map<string, Json>)
    requires !DeclaredParams(Some(c)).Refused? && !DeclaresFaithfully(c)
    ensures ToolArgsOk(DeclaredParams(Some(c)), args) && !Valid(c, Obj(args))
  {
    hide Valid, CheckValue, MirrorOf, Faithful, Covers;
    if c.hasProps {
      OwnerFacts(c);
      var owner := DeclaredParams(Some(c)).owner;
      if c.constant.Some? && !Covers([c.constant.value], owner) {
        args := CoversOrNot(owner, [c.constant.value]);
        assert Obj(args) != c.constant.value by { assert [c.constant.value][0] == c.constant.value; }
      } else if c.options != [] && !Covers(c.options, owner) {
        args := CoversOrNot(owner, c.options);
      } else {
        RootFaithful(c);
        args := SampleArgs(c);
      }
    } else if c.constant.Some? {
      args := OpenArgs([c.constant.value]);
      assert Obj(args) != c.constant.value by { assert [c.constant.value][0] == c.constant.value; }
    } else if c.options != [] {
      args := OpenArgs(c.options);
    } else if c.closed {
      args := map["x" := Null];
      assert "x" in args;
    } else {
      args := map[];
    }
    ValidParts(c, args);
  }

  lemma {:induction false} OpenArgs(list: seq<Json>) returns (args: map<string, Json>)
    ensures Obj(args) !in list
  {
    var open := Mirror(TObject, [], false, map[], None);
    var i := NthOutside(open, list, 0);
    args := Nth(open, i).members;
  }

  /** The full sample passes; it shows a type that allows no objects, an undeclared required
      name, or an unfaithful property. */
  lemma {:induction false} SampleArgs(c: Schema) returns (args: map<string, Json>)
    requires DeclaredParams(Some(c)).Params?
    ensures ToolArgsOk(DeclaredParams(Some(c)), args)
    ensures !(TypeAllowsObjects(c) && Faithful(Root(c))) ==> !Valid(c, Obj(args))
  {
    hide Valid, CheckValue, MirrorOf, Faithful;
    OwnerFacts(c);
    RootFaithful(c);
    if c.props == map[] {
      args := map[];
    } else {
      args := Sample(Root(c)).members;
      SampleChecks(Root(c));
      RootPasses(c, args);
      if !Faithful(Root(c)) { SampleInvalid(Root(c)); }
      ValidParts(Root(c), args);
    }
    ValidParts(c, args);
  }

  /** A value the enforced parameters accept is an argument object that passes. */
  lemma {:induction false} RootPasses(c: Schema, args: map<string, Json>)
    requires DeclaredParams(Some(c)).Params? && c.props != map[]
    requires MirrorOf(Root(c)).Some? && CheckValue(MirrorOf(Root(c)).value, Obj(args))
    ensures ToolArgsOk(DeclaredParams(Some(c)), args)
  {
    hide MirrorOf;
    OwnerFacts(c);
  }
}
