/** Tool parameter contracts: the normaliser from JSON Schema to the enforceable subset,
    the check made before a tool runs, and the schema shown to the model vendor. */
module ToolSchema {
  import opened Wrappers

  datatype Json =
    | Null
    | Bool(b: bool)
    | Num(r: real)
    | Str(s: string)
    | Arr(elements: seq<Json>)
    | Obj(members: map<string, Json>)

  datatype JType = TString | TNumber | TInteger | TBoolean | TArray | TObject | TNull

  /** The "type" keyword after trimming and lower-casing: missing, one of the seven names,
      another name, or a list of names (None: a name that is not one of the seven). */
  datatype TypeName = Blank | Named(t: JType) | Unknown | Listed(ts: seq<Option<JType>>)

  /** A JSON Schema.  `outside` marks references, combinators, conditional and tuple forms;
      `hasProps` says that "properties" is present; `closed` is "additionalProperties": false. */
  datatype Schema = Schema(
    typ: TypeName, outside: bool, constant: Option<Json>, options: seq<Json>,
    hasProps: bool, props: map<string, Schema>, required: set<string>, closed: bool, items: Option<Schema>)

  /** The enforceable subset. */
  datatype Mirror = Mirror(typ: JType, options: seq<string>, required: bool, sub: map<string, Mirror>, elem: Option<Mirror>)

  // ----- what JSON Schema says -----

  predicate HasType(v: Json, t: JType) {
    match t
    case TString => v.Str?
    case TNumber => v.Num?
    case TInteger => v.Num? && v.r.Floor as real == v.r
    case TBoolean => v.Bool?
    case TArray => v.Arr?
    case TObject => v.Obj?
    case TNull => v.Null?
  }

  /** Validity under the type, const, enum, required, properties, additionalProperties and
      items keywords (JSON Schema Validation draft 2020-12, sections 6.1.1 to 6.1.3 and
      6.5.3; JSON Schema Core draft 2020-12, section 10.3). */
  predicate Valid(c: Schema, v: Json) {
    && (match c.typ
        case Blank => true
        case Named(t) => HasType(v, t)
        case Unknown => false
        case Listed(ts) => ts != [] ==> exists i :: 0 <= i < |ts| && ts[i].Some? && HasType(v, ts[i].value))
    && (c.constant.Some? ==> v == c.constant.value)
    && (c.options != [] ==> v in c.options)
    && (v.Obj? ==>
          && c.required <= v.members.Keys
          && (c.hasProps ==> forall k :: k in c.props && k in v.members ==> Valid(c.props[k], v.members[k]))
          && (c.closed ==> forall k :: k in v.members ==> c.hasProps && k in c.props))
    && (v.Arr? && c.items.Some? ==> forall i :: 0 <= i < |v.elements| ==> Valid(c.items.value, v.elements[i]))
  }

  // ----- the check made before a tool runs -----

  /** checkParams, for the parameters of an object. */
  predicate CheckParams(owner: Mirror, args: map<string, Json>)
    decreases owner, 0
  {
    var params := owner.sub;
    && (forall k :: k in params ==> if k in args then CheckValue(params[k], args[k]) else !params[k].required)
    && (forall k :: k in args ==> k in params)
  }

  /** checkValue. */
  predicate CheckValue(m: Mirror, v: Json)
    decreases m, 1
  {
    match m.typ
    case TString => v.Str? && (m.options != [] ==> v.s in m.options)
    case TNumber => v.Num?
    case TInteger => v.Num? && v.r.Floor as real == v.r
    case TBoolean => v.Bool?
    case TArray => v.Arr? && (m.elem.Some? ==> forall i :: 0 <= i < |v.elements| ==> CheckValue(m.elem.value, v.elements[i]))
    case TObject => v.Obj? && (m.sub != map[] ==> CheckParams(m, v.members))
    case TNull => v.Null?
  }

  // ----- the normaliser -----

  /** The type a schema is enforced as, if it can be. */
  function EnforcedType(c: Schema): Option<JType> {
    match c.typ
    case Blank => if c.hasProps then Some(TObject) else None
    case Named(t) => Some(t)
    case Unknown => None
    case Listed(ts) =>
      if |ts| == 1 then ts[0] else if ts == [] && c.hasProps then Some(TObject) else None
  }

  /** One known type name, alone or in a list; or no name at all beside properties. */
  lemma EnforcedIs(c: Schema, t: JType)
    ensures EnforcedType(c) == Some(t) <==>
              c.typ == Named(t) || c.typ == Listed([Some(t)]) || (t == TObject && c.hasProps && (c.typ == Blank || c.typ == Listed([])))
  {
    if c.typ.Listed? && |c.typ.ts| == 1 { assert c.typ.ts == [c.typ.ts[0]]; }
  }

  predicate AllText(options: seq<Json>) {
    forall i :: 0 <= i < |options| ==> options[i].Str?
  }

  function Texts(options: seq<Json>): seq<string>
    requires AllText(options)
  {
    seq(|options|, i requires 0 <= i < |options| => options[i].s)
  }

  /** mirrorFromJSONSchema: None where it reports an error. */
  function MirrorOf(c: Schema): Option<Mirror> {
    if c.outside || EnforcedType(c).None? || (c.constant.Some? && !c.constant.value.Str?) || !AllText(c.options) then None
    else
      var t := EnforcedType(c).value;
      var options := (if c.constant.Some? then [c.constant.value.s] else []) + Texts(c.options);
      if t == TObject && c.hasProps && exists k :: k in c.props && MirrorOf(c.props[k]).None? then None
      else
        var sub :=
          if t == TObject && c.hasProps then map k | k in c.props :: MirrorOf(c.props[k]).value.(required := k in c.required)
          else map[];
        if t == TArray && c.items.Some? then
          var elem := MirrorOf(c.items.value);
          if elem.None? then None else Some(Mirror(t, options, false, sub, elem))
        else Some(Mirror(t, options, false, sub, None))
  }

  // ----- the schema shown to the vendor -----

  function Quoted(options: seq<string>): seq<Json> {
    seq(|options|, i requires 0 <= i < |options| => Str(options[i]))
  }

  /** renderObjectSchema. */
  function RenderObject(params: map<string, Mirror>): Schema {
    Schema(Named(TObject), false, None, [], true, map k | k in params :: Render(params[k]),
           (set k | k in params && params[k].required), true, None)
  }

  /** renderParamSchema. */
  function Render(m: Mirror): Schema {
    Schema(Named(m.typ), false, None, Quoted(m.options),
           m.sub != map[], map k | k in m.sub :: Render(m.sub[k]),
           (set k | k in m.sub && m.sub[k].required), m.sub != map[],
           if m.elem.Some? then Some(Render(m.elem.value)) else None)
  }

  // ----- nothing is downgraded, exactly when -----

  /** The properties an object schema is enforced with. */
  function Names(c: Schema): map<string, Schema> {
    if EnforcedType(c) == Some(TObject) && c.hasProps then c.props else map[]
  }

  /** Where the enforceable subset can hold a schema to all it says: const and enum only on
      strings and, together, only when they agree; "required" only of declared properties;
      an object without properties left open. */
  predicate Faithful(c: Schema) {
    && (EnforcedType(c) != Some(TString) ==> c.constant.None? && c.options == [])
    && (c.constant.Some? ==> forall i :: 0 <= i < |c.options| ==> c.options[i] == c.constant.value)
    && (EnforcedType(c) == Some(TObject) ==>
          && c.required <= Names(c).Keys
          && (Names(c) == map[] ==> !c.closed))
    && (EnforcedType(c) == Some(TObject) && c.hasProps ==> forall k :: k in c.props ==> Faithful(c.props[k]))
    && (EnforcedType(c) == Some(TArray) && c.items.Some? ==> Faithful(c.items.value))
  }

  /** What the normaliser makes of an accepted schema's parts. */
  lemma {:induction false} MirrorParts(c: Schema)
    requires MirrorOf(c).Some?
    ensures EnforcedType(c).Some? && MirrorOf(c).value.typ == EnforcedType(c).value
    ensures AllText(c.options) && (c.constant.Some? ==> c.constant.value.Str?)
    ensures MirrorOf(c).value.options == (if c.constant.Some? then [c.constant.value.s] else []) + Texts(c.options)
    ensures MirrorOf(c).value.sub.Keys == Names(c).Keys
    ensures forall k :: k in Names(c) ==> MirrorOf(Names(c)[k]).Some?
    ensures forall k :: k in Names(c) ==> MirrorOf(c).value.sub[k] == MirrorOf(Names(c)[k]).value.(required := k in c.required)
    ensures EnforcedType(c) == Some(TArray) && c.items.Some? ==>
              MirrorOf(c.items.value).Some? && MirrorOf(c).value.elem == MirrorOf(c.items.value)
    ensures !(EnforcedType(c) == Some(TArray) && c.items.Some?) ==> MirrorOf(c).value.elem == None
    ensures !MirrorOf(c).value.required
  {
  }

  /** What makes the normaliser refuse. */
  lemma {:induction false} RefusedParts(c: Schema)
    ensures MirrorOf(c).None? <==>
              || c.outside || EnforcedType(c).None? || (c.constant.Some? && !c.constant.value.Str?) || !AllText(c.options)
              || (exists k :: k in Names(c) && MirrorOf(Names(c)[k]).None?)
              || (EnforcedType(c) == Some(TArray) && c.items.Some? && MirrorOf(c.items.value).None?)
  {
    if k :| k in Names(c) && MirrorOf(Names(c)[k]).None? {
      assert k in c.props && MirrorOf(c.props[k]).None?;
    }
    if k :| k in c.props && MirrorOf(c.props[k]).None? {
      assert Names(c) == c.props ==> k in Names(c) && MirrorOf(Names(c)[k]).None?;
    }
  }

  /** The required mark of a mirror is the parent's business. */
  lemma {:induction false} RequiredApart(m: Mirror, r: bool, v: Json)
    ensures CheckValue(m.(required := r), v) == CheckValue(m, v)
  {
  }

  lemma {:induction false} TextAllowed(c: Schema, v: Json)
    requires MirrorOf(c).Some? && Faithful(c) && v.Str? && EnforcedType(c) == Some(TString)
    requires MirrorOf(c).value.options != [] ==> v.s in MirrorOf(c).value.options
    ensures c.constant.Some? ==> v == c.constant.value
    ensures c.options != [] ==> v in c.options
  {
    hide MirrorOf;
    MirrorParts(c);
    var options := MirrorOf(c).value.options;
    if options != [] {
      var i :| 0 <= i < |options| && options[i] == v.s;
      if c.constant.None? {
        assert c.options[i] == v;
      } else if i > 0 {
        assert c.options[i - 1] == v;
      } else if c.options != [] {
        assert c.options[0] == v;
      }
    }
  }

  /** What passes the check is valid under the declared schema. */
  lemma {:induction false} NothingLost(c: Schema, v: Json)
    requires MirrorOf(c).Some? && Faithful(c) && CheckValue(MirrorOf(c).value, v)
    ensures Valid(c, v)
    decreases c
  {
    hide MirrorOf;
    MirrorParts(c);
    var m := MirrorOf(c).value;
    if v.Str? { TextAllowed(c, v); }
    if v.Obj? {
      forall k | k in Names(c) && k in v.members ensures Valid(Names(c)[k], v.members[k]) {
        RequiredApart(MirrorOf(Names(c)[k]).value, k in c.required, v.members[k]);
        NothingLost(Names(c)[k], v.members[k]);
      }
    }
    if v.Arr? && c.items.Some? {
      forall i | 0 <= i < |v.elements| ensures Valid(c.items.value, v.elements[i]) {
        NothingLost(c.items.value, v.elements[i]);
      }
    }
  }

  /** The first option that differs from the const. */
  function FirstOther(options: seq<Json>, not: Json): (i: nat)
    ensures i <= |options|
    ensures i == |options| ==> forall j :: 0 <= j < |options| ==> options[j] == not
    ensures i < |options| ==> options[i] != not
  {
    if options == [] then 0 else if options[0] != not then 0 else 1 + FirstOther(options[1..], not)
  }

  function OtherOption(c: Schema): Option<Json> {
    if c.constant.None? then None
    else
      var i := FirstOther(c.options, c.constant.value);
      if i < |c.options| then Some(c.options[i]) else None
  }

  /** A full value of the enforced shape that the check accepts and that, if the schema says
      more than the check enforces, shows it. */
  function Sample(c: Schema): Json {
    match EnforcedType(c)
    case Some(TString) =>
      if OtherOption(c).Some? then OtherOption(c).value
      else if c.constant.Some? then c.constant.value
      else if c.options != [] then c.options[0]
      else Str("")
    case Some(TNumber) => Num(0.0)
    case Some(TInteger) => Num(0.0)
    case Some(TBoolean) => Bool(false)
    case Some(TArray) => if c.items.Some? then Arr([Sample(c.items.value)]) else Arr([])
    case Some(TObject) =>
      if c.hasProps && c.props != map[] then Obj(map k | k in c.props :: Sample(c.props[k]))
      else if c.closed then Obj(map["x" := Null])
      else Obj(map[])
    case _ => Null
  }

  lemma {:induction false} SampleChecks(c: Schema)
    requires MirrorOf(c).Some?
    ensures CheckValue(MirrorOf(c).value, Sample(c))
    decreases c
  {
    hide MirrorOf;
    MirrorParts(c);
    var m := MirrorOf(c).value;
    match EnforcedType(c) {
      case Some(TString) => SampleText(c);
      case Some(TObject) =>
        forall k | k in Names(c) ensures CheckValue(m.sub[k], Sample(Names(c)[k])) {
          SampleChecks(Names(c)[k]);
          RequiredApart(MirrorOf(Names(c)[k]).value, k in c.required, Sample(Names(c)[k]));
        }
      case Some(TArray) => if c.items.Some? { SampleChecks(c.items.value); }
      case _ =>
    }
  }

  lemma {:induction false} SampleText(c: Schema)
    requires MirrorOf(c).Some? && EnforcedType(c) == Some(TString)
    ensures CheckValue(MirrorOf(c).value, Sample(c))
  {
    hide MirrorOf;
    MirrorParts(c);
    var m := MirrorOf(c).value;
    var v := Sample(c);
    if OtherOption(c).Some? {
      var i := FirstOther(c.options, c.constant.value);
      assert m.options[1 + i] == v.s;
    } else if c.constant.Some? {
      assert m.options[0] == v.s;
    } else if c.options != [] {
      assert m.options[0] == v.s;
    }
  }

  lemma {:induction false} SampleObjectInvalid(c: Schema)
    requires MirrorOf(c).Some? && !Faithful(c) && EnforcedType(c) == Some(TObject)
    requires forall k :: k in Names(c) ==> Faithful(Names(c)[k])
    ensures !Valid(c, Sample(c))
  {
    hide MirrorOf;
    MirrorParts(c);
    assert c.closed && Names(c) == map[] ==> "x" in Sample(c).members;
    if !(c.required <= Names(c).Keys) && !(c.closed && Names(c) == map[]) {
      var r :| r in c.required && r !in Names(c);
      assert r !in Sample(c).members;
    }
  }

  /** Where the schema says more than is enforced, the sample shows it. */
  lemma {:induction false} SampleInvalid(c: Schema)
    requires MirrorOf(c).Some? && !Faithful(c)
    ensures !Valid(c, Sample(c))
    decreases c
  {
    hide MirrorOf;
    MirrorParts(c);
    match EnforcedType(c) {
      case Some(TString) =>
        var i :| 0 <= i < |c.options| && c.options[i] != c.constant.value;
        assert c.options[i] in c.options;
      case Some(TObject) =>
        if k :| k in Names(c) && !Faithful(Names(c)[k]) {
          SampleInvalid(Names(c)[k]);
          assert Sample(c).members[k] == Sample(Names(c)[k]);
        } else {
          SampleObjectInvalid(c);
        }
      case Some(TArray) =>
        if c.items.Some? && !Faithful(c.items.value) {
          SampleInvalid(c.items.value);
          assert Sample(c).elements[0] == Sample(c.items.value);
        }
      case _ =>
    }
  }

  /** "Outside the subset is rejected, never downgraded" holds of a schema the normaliser
      accepts exactly when the schema is faithful. */
  lemma {:induction false} NeverDowngradedIff(c: Schema)
    requires MirrorOf(c).Some?
    ensures (forall v :: CheckValue(MirrorOf(c).value, v) ==> Valid(c, v)) <==> Faithful(c)
  {
    if Faithful(c) {
      forall v | CheckValue(MirrorOf(c).value, v) ensures Valid(c, v) {
        NothingLost(c, v);
      }
    } else {
      SampleChecks(c);
      SampleInvalid(c);
    }
  }

  // ----- nothing valid is refused -----

  /** Every schema names its type and every object with properties is closed. */
  predicate Tight(c: Schema) {
    && c.typ.Named?
    && (c.typ == Named(TObject) && c.hasProps && c.props != map[] ==> c.closed)
    && (c.typ == Named(TObject) && c.hasProps ==> forall k :: k in c.props ==> Tight(c.props[k]))
    && (c.typ == Named(TArray) && c.items.Some? ==> Tight(c.items.value))
  }

  lemma {:induction false} NothingRefused(c: Schema, v: Json)
    requires MirrorOf(c).Some? && Tight(c) && Valid(c, v)
    ensures CheckValue(MirrorOf(c).value, v)
    decreases c
  {
    hide MirrorOf;
    MirrorParts(c);
    var m := MirrorOf(c).value;
    match c.typ.t {
      case TString =>
        if c.constant.Some? {
          assert m.options[0] == v.s;
        } else if c.options != [] {
          var i :| 0 <= i < |c.options| && c.options[i] == v;
          assert m.options[i] == v.s;
        }
      case TObject =>
        forall k | k in Names(c) && k in v.members ensures CheckValue(m.sub[k], v.members[k]) {
          NothingRefused(Names(c)[k], v.members[k]);
          RequiredApart(MirrorOf(Names(c)[k]).value, k in c.required, v.members[k]);
        }
      case TArray =>
        if c.items.Some? {
          forall i | 0 <= i < |v.elements| ensures CheckValue(m.elem.value, v.elements[i]) {
            NothingRefused(c.items.value, v.elements[i]);
          }
        }
      case _ =>
    }
  }

  // ----- what the vendor is shown -----

  /** A mirror as the normaliser makes them: parameters only on objects, elements only on
      arrays. */
  predicate WellFormed(m: Mirror) {
    && (m.sub != map[] ==> m.typ == TObject)
    && (m.elem.Some? ==> m.typ == TArray && WellFormed(m.elem.value) && !m.elem.value.required)
    && (forall k :: k in m.sub ==> WellFormed(m.sub[k]))
  }

  predicate EnumsOnText(m: Mirror) {
    && (m.options != [] ==> m.typ == TString)
    && (forall k :: k in m.sub ==> EnumsOnText(m.sub[k]))
    && (m.elem.Some? ==> EnumsOnText(m.elem.value))
  }

  lemma {:induction false} MirrorWellFormed(c: Schema)
    requires MirrorOf(c).Some?
    ensures WellFormed(MirrorOf(c).value)
    decreases c
  {
    hide MirrorOf;
    MirrorParts(c);
    var m := MirrorOf(c).value;
    forall k | k in Names(c) ensures WellFormed(m.sub[k]) {
      MirrorWellFormed(Names(c)[k]);
    }
    if EnforcedType(c) == Some(TArray) && c.items.Some? {
      MirrorWellFormed(c.items.value);
      MirrorParts(c.items.value);
    }
  }

  /** Round trip: normalising the rendered schema gives back the mirror. */
  lemma {:induction false} RenderNormalises(m: Mirror)
    requires WellFormed(m)
    ensures MirrorOf(Render(m)) == Some(m.(required := false))
    decreases m
  {
    hide MirrorOf, Render;
    forall k | k in m.sub ensures MirrorOf(Render(m.sub[k])) == Some(m.sub[k].(required := false)) {
      RenderNormalises(m.sub[k]);
    }
    if m.elem.Some? {
      RenderNormalises(m.elem.value);
    }
    RenderOne(m);
  }

  /** One level of it. */
  lemma {:induction false} RenderOne(m: Mirror)
    requires m.sub != map[] ==> m.typ == TObject
    requires m.elem.Some? ==> m.typ == TArray && !m.elem.value.required
    requires forall k :: k in m.sub ==> MirrorOf(Render(m.sub[k])) == Some(m.sub[k].(required := false))
    requires m.elem.Some? ==> MirrorOf(Render(m.elem.value)) == Some(m.elem.value.(required := false))
    ensures MirrorOf(Render(m)) == Some(m.(required := false))
  {
    hide MirrorOf;
    var c := Render(m);
    assert Texts(Quoted(m.options)) == m.options;
    RefusedParts(c);
    assert MirrorOf(c).Some?;
    MirrorParts(c);
    var r := MirrorOf(c).value;
    assert r.sub.Keys == m.sub.Keys;
    assert r.sub == m.sub;
    assert r.options == m.options;
    assert r.elem == m.elem;
  }

  lemma {:induction false} RenderTight(m: Mirror)
    requires WellFormed(m)
    ensures Tight(Render(m)) && (Faithful(Render(m)) <==> EnumsOnText(m))
    decreases m
  {
    var c := Render(m);
    assert m.options != [] <==> c.options != [];
    forall k | k in m.sub ensures Tight(c.props[k]) && (Faithful(c.props[k]) <==> EnumsOnText(m.sub[k])) {
      RenderTight(m.sub[k]);
    }
    if m.elem.Some? {
      RenderTight(m.elem.value);
    }
    assert m.typ == TObject ==> Names(c).Keys == m.sub.Keys;
  }

  /** The check accepts exactly the values valid under the rendered schema. */
  lemma {:induction false} RenderAgrees(m: Mirror, v: Json)
    requires WellFormed(m) && EnumsOnText(m)
    ensures CheckValue(m, v) <==> Valid(Render(m), v)
  {
    RenderNormalises(m);
    RenderTight(m);
    RequiredApart(m, false, v);
    if CheckValue(m, v) { NothingLost(Render(m), v); }
    if Valid(Render(m), v) { NothingRefused(Render(m), v); }
  }

  // ----- a whole tool -----

  /** declaredParams: the declaration is refused, absent, or a mirror that owns the parameters. */
  datatype Declared = Refused | Undeclared | Params(owner: Mirror)

  function DeclaredParams(contract: Option<Schema>): Declared {
    match contract
    case None => Undeclared
    case Some(c) =>
      if c.outside then Refused
      else if !c.hasProps then
        if c.typ.Unknown? || (c.typ.Named? && c.typ.t != TObject) then Refused else Undeclared
      else
        match MirrorOf(Schema(Named(TObject), false, None, [], true, c.props, c.required, false, None))
        case None => Refused
        case Some(owner) => Params(owner)
  }

  /** Whether a declaration is refused, declares nothing, or declares its properties: then the
      parameters are exactly these, each enforced as its schema and required if listed. */
  lemma {:induction false} DeclaredIs(contract: Option<Schema>)
    ensures var d := DeclaredParams(contract);
            match contract
            case None => d == Undeclared
            case Some(c) =>
              && (d.Undeclared? <==> !c.outside && !c.hasProps && (c.typ == Blank || c.typ.Listed? || c.typ == Named(TObject)))
              && (d.Params? <==> !c.outside && c.hasProps && forall k :: k in c.props ==> MirrorOf(c.props[k]).Some?)
              && (d.Params? ==> d.owner.sub.Keys == c.props.Keys
                                && forall k :: k in c.props ==> d.owner.sub[k] == MirrorOf(c.props[k]).value.(required := k in c.required))
  {
    hide MirrorOf;
    if contract.Some? {
      var c := contract.value;
      var root := Schema(Named(TObject), false, None, [], true, c.props, c.required, false, None);
      RefusedParts(root);
      if MirrorOf(root).Some? { MirrorParts(root); }
    }
  }

  /** validateToolArgs. */
  predicate ToolArgsOk(d: Declared, args: map<string, Json>) {
    match d
    case Refused => false
    case Undeclared => true
    case Params(owner) => CheckParams(owner, args)
  }

  /** vendorParameters: a tool without parameters is shown without a schema. */
  function VendorParameters(d: Declared): Option<Schema> {
    if d.Params? && d.owner.sub != map[] then Some(RenderObject(d.owner.sub)) else None
  }

  predicate VendorAllows(shown: Option<Schema>, args: map<string, Json>) {
    shown.Some? ==> Valid(shown.value, Obj(args))
  }

  /** What the vendor may send and what the runner accepts are the same exactly when the
      tool has a parameter and its enums are on strings. */
  lemma {:induction false} VendorAgreesIff(contract: Option<Schema>)
    requires DeclaredParams(contract).Params?
    ensures var d := DeclaredParams(contract);
            (forall args :: ToolArgsOk(d, args) <==> VendorAllows(VendorParameters(d), args))
            <==> (d.owner.sub != map[] && EnumsOnText(d.owner))
  {
    hide MirrorOf, Valid, RenderObject;
    var c := contract.value;
    var root := Schema(Named(TObject), false, None, [], true, c.props, c.required, false, None);
    var d := DeclaredParams(contract);
    MirrorParts(root);
    MirrorWellFormed(root);
    if d.owner.sub == map[] {
      var args := map["x" := Null];
      assert "x" in args;
      assert !ToolArgsOk(d, args) && VendorAllows(VendorParameters(d), args);
    } else {
      OwnerRenders(d.owner);
      if EnumsOnText(d.owner) {
        forall args ensures ToolArgsOk(d, args) <==> VendorAllows(VendorParameters(d), args) {
          RenderAgrees(d.owner, Obj(args));
        }
      } else {
        var v := Sample(Render(d.owner));
        RenderNormalises(d.owner);
        RenderTight(d.owner);
        SampleChecks(Render(d.owner));
        SampleInvalid(Render(d.owner));
        assert ToolArgsOk(d, v.members) && !VendorAllows(VendorParameters(d), v.members);
      }
    }
  }

  lemma {:induction false} OwnerRenders(owner: Mirror)
    requires owner.typ == TObject && owner.options == [] && owner.elem == None && owner.sub != map[]
    ensures RenderObject(owner.sub) == Render(owner)
  {
    assert Quoted([]) == [];
  }

  // ----- the loops -----

  /** mirrorFromJSONSchema, filling the parameters one property at a time. */
  method Normalise(c: Schema) returns (r: Option<Mirror>)
    ensures r == MirrorOf(c)
    decreases c
  {
    hide MirrorOf;
    if c.outside || EnforcedType(c).None? || (c.constant.Some? && !c.constant.value.Str?) || !AllText(c.options) {
      RefusedParts(c);
      return None;
    }
    var t := EnforcedType(c).value;
    var options := if c.constant.Some? then [c.constant.value.s] else [];
    var sub: map<string, Mirror> := map[];
    var elem: Option<Mirror> := None;
    for i := 0 to |c.options|
      invariant options == (if c.constant.Some? then [c.constant.value.s] else []) + Texts(c.options)[..i]
    {
      options := options + [c.options[i].s];
    }
    if t == TObject && c.hasProps {
      var rest := c.props.Keys;
      while rest != {}
        invariant rest <= c.props.Keys && sub.Keys == c.props.Keys - rest
        invariant forall k :: k in sub ==> MirrorOf(c.props[k]).Some?
        invariant forall k :: k in sub ==> sub[k] == MirrorOf(c.props[k]).value.(required := k in c.required)
        decreases rest
      {
        var k :| k in rest;
        var child := Normalise(c.props[k]);
        if child.None? {
          assert k in Names(c) && MirrorOf(Names(c)[k]).None?;
          RefusedParts(c);
          return None;
        }
        sub := sub[k := child.value.(required := k in c.required)];
        rest := rest - {k};
      }
    }
    if t == TArray && c.items.Some? {
      elem := Normalise(c.items.value);
      if elem.None? {
        RefusedParts(c);
        return None;
      }
    }
    assert options == (if c.constant.Some? then [c.constant.value.s] else []) + Texts(c.options);
    RefusedParts(c);
    MirrorParts(c);
    assert sub == MirrorOf(c).value.sub;
    r := Some(Mirror(t, options, false, sub, elem));
  }

  /** renderObjectSchema, one parameter at a time. */
  method RenderParams(owner: Mirror) returns (c: Schema)
    ensures c == RenderObject(owner.sub)
    decreases owner, 0
  {
    var properties: map<string, Schema> := map[];
    var required: set<string> := {};
    var rest := owner.sub.Keys;
    while rest != {}
      invariant rest <= owner.sub.Keys && properties.Keys == owner.sub.Keys - rest
      invariant forall k :: k in properties ==> properties[k] == Render(owner.sub[k])
      invariant required == set k | k in owner.sub && k !in rest && owner.sub[k].required
      decreases rest
    {
      var k :| k in rest;
      var property := RenderParam(owner.sub[k]);
      properties := properties[k := property];
      if owner.sub[k].required { required := required + {k}; }
      rest := rest - {k};
    }
    c := Schema(Named(TObject), false, None, [], true, properties, required, true, None);
  }

  /** renderParamSchema. */
  method RenderParam(m: Mirror) returns (c: Schema)
    ensures c == Render(m)
    decreases m, 1
  {
    c := Schema(Named(m.typ), false, None, Quoted(m.options), false, map[], {}, false, None);
    if m.sub != map[] {
      var nested := RenderParams(m);
      c := c.(hasProps := true, props := nested.props, required := nested.required, closed := true);
    }
    if m.elem.Some? {
      var element := RenderParam(m.elem.value);
      c := c.(items := Some(element));
    }
  }
}
