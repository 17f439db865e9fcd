/** The plugin dispatcher: routes with parameters and catch-alls, kept by registration order,
    matched by specificity. */
module Dispatcher {
  import opened Wrappers

  // ----- paths -----

  predicate NoSlash(s: string) {
    '/' !in s
  }

  /** strings.Split at slashes. */
  function Split(s: string): (segments: seq<string>)
    ensures |segments| > 0 && forall i :: 0 <= i < |segments| ==> NoSlash(segments[i])
  {
    if s == "" then [""]
    else
      var rest := Split(s[1..]);
      if s[0] == '/' then [""] + rest else [[s[0]] + rest[0]] + rest[1..]
  }

  /** strings.Join with slashes. */
  function Join(segments: seq<string>): string {
    if segments == [] then "" else if |segments| == 1 then segments[0] else segments[0] + "/" + Join(segments[1..])
  }

  lemma {:induction false} JoinSplit(s: string)
    ensures Join(Split(s)) == s
  {
    if s != "" {
      JoinSplit(s[1..]);
      var rest := Split(s[1..]);
      if s[0] == '/' {
        assert Split(s)[1..] == rest;
        assert s == "/" + s[1..];
      } else {
        assert Split(s)[1..] == rest[1..];
        assert s == [s[0]] + s[1..];
        assert Join(Split(s)) == [s[0]] + Join(rest);
      }
    }
  }

  lemma {:induction false} SplitFirst(s: string, t: string)
    requires NoSlash(s)
    ensures Split(s + "/" + t) == [s] + Split(t)
    ensures Split(s) == [s]
  {
    if s == "" {
      assert (s + "/" + t)[1..] == t;
    } else {
      SplitFirst(s[1..], t);
      assert (s + "/" + t)[1..] == s[1..] + "/" + t;
      assert s == [s[0]] + s[1..];
    }
  }

  lemma {:induction false} SplitJoin(segments: seq<string>)
    requires segments != [] && forall i :: 0 <= i < |segments| ==> NoSlash(segments[i])
    ensures Split(Join(segments)) == segments
  {
    if |segments| == 1 {
      SplitFirst(segments[0], "");
    } else {
      SplitJoin(segments[1..]);
      SplitFirst(segments[0], Join(segments[1..]));
      assert segments == [segments[0]] + segments[1..];
    }
  }

  /** A nested join is a join. */
  lemma {:induction false} JoinNested(a: seq<string>, b: seq<string>)
    requires b != []
    ensures Join(a + [Join(b)]) == Join(a + b)
  {
    if a != [] {
      JoinNested(a[1..], b);
      assert (a + [Join(b)])[1..] == a[1..] + [Join(b)];
      assert (a + b)[1..] == a[1..] + b;
    } else {
      assert a + [Join(b)] == [Join(b)] && a + b == b;
    }
  }

  function TrimLeading(s: string): string {
    if s != "" && s[0] == '/' then s[1..] else s
  }

  /** splitPluginPath. */
  function SplitPath(path: string): (segments: seq<string>)
    ensures |segments| > 0 && forall i :: 0 <= i < |segments| ==> NoSlash(segments[i])
  {
    Split(TrimLeading(path))
  }

  predicate Rooted(path: string) {
    path != "" && path[0] == '/'
  }

  lemma SplitPathInjective(a: string, b: string)
    requires Rooted(a) && Rooted(b) && SplitPath(a) == SplitPath(b)
    ensures a == b
  {
    JoinSplit(a[1..]);
    JoinSplit(b[1..]);
    assert a == "/" + a[1..] && b == "/" + b[1..];
  }

  function TrimLeft(s: string, drop: set<char>): string {
    if s != "" && s[0] in drop then TrimLeft(s[1..], drop) else s
  }

  function TrimRight(s: string, drop: set<char>): string {
    if s != "" && s[|s| - 1] in drop then TrimRight(s[..|s| - 1], drop) else s
  }

  const SPACES := {' ', '\t', '\n', '\r', '\U{0B}', '\U{0C}'}

  /** normalizePluginPath: the trailing slash is already gone when it is trimmed again. */
  function Normalize(path: string): (p: string)
    ensures Rooted(p)
  {
    "/" + TrimRight(TrimLeft(TrimRight(TrimLeft(path, SPACES), SPACES), {'/'}), {'/'})
  }

  predicate AllIn(s: string, chars: set<char>) {
    forall i :: 0 <= i < |s| ==> s[i] in chars
  }

  predicate EndsOutside(s: string, chars: set<char>) {
    s != "" ==> s[0] !in chars && s[|s| - 1] !in chars
  }

  lemma {:induction false} TrimLeftIs(s: string, drop: set<char>) returns (l: string)
    ensures AllIn(l, drop) && s == l + TrimLeft(s, drop) && (TrimLeft(s, drop) != "" ==> TrimLeft(s, drop)[0] !in drop)
  {
    l := "";
    if s != "" && s[0] in drop {
      var k := TrimLeftIs(s[1..], drop);
      l := [s[0]] + k;
      assert s == [s[0]] + s[1..];
    }
  }

  lemma {:induction false} TrimRightIs(s: string, drop: set<char>) returns (r: string)
    ensures AllIn(r, drop) && s == TrimRight(s, drop) + r
    ensures TrimRight(s, drop) != "" ==> TrimRight(s, drop)[|TrimRight(s, drop)| - 1] !in drop
  {
    r := "";
    if s != "" && s[|s| - 1] in drop {
      var k := TrimRightIs(s[..|s| - 1], drop);
      r := k + [s[|s| - 1]];
      assert s == s[..|s| - 1] + [s[|s| - 1]];
    }
  }

  lemma TrimIs(s: string, drop: set<char>) returns (l: string, r: string)
    ensures var core := TrimRight(TrimLeft(s, drop), drop);
            AllIn(l, drop) && AllIn(r, drop) && s == l + core + r && EndsOutside(core, drop)
  {
    l := TrimLeftIs(s, drop);
    r := TrimRightIs(TrimLeft(s, drop), drop);
    assert s == l + (TrimRight(TrimLeft(s, drop), drop) + r);
  }

  /** A normalized path is a slash and what is left of the path without the spaces around it
      and then the slashes around it. */
  lemma NormalizeIs(path: string) returns (core: string, l: string, r: string, slashes: string, slashes': string)
    ensures Normalize(path) == "/" + core && path == l + (slashes + core + slashes') + r
    ensures AllIn(l, SPACES) && AllIn(r, SPACES) && EndsOutside(slashes + core + slashes', SPACES)
    ensures AllIn(slashes, {'/'}) && AllIn(slashes', {'/'}) && EndsOutside(core, {'/'})
  {
    l, r := TrimIs(path, SPACES);
    var inner := TrimRight(TrimLeft(path, SPACES), SPACES);
    slashes, slashes' := TrimIs(inner, {'/'});
    core := TrimRight(TrimLeft(inner, {'/'}), {'/'});
  }

  // ----- routes -----

  predicate IsCatchAll(segment: string) {
    |segment| > 1 && segment[0] == '*'
  }

  predicate IsParam(segment: string) {
    |segment| > 1 && segment[0] == ':'
  }

  predicate IsDynamic(segments: seq<string>) {
    exists i :: 0 <= i < |segments| && (IsCatchAll(segments[i]) || IsParam(segments[i]))
  }

  type Handler = nat

  datatype Param = Param(key: string, value: string)

  datatype Route = Route(handler: Handler, segments: seq<string>)

  /** pluginRouteShape: parameter names are forgotten. */
  function ShapeSegment(segment: string): string {
    if IsCatchAll(segment) || IsParam(segment) then segment[..1] else segment
  }

  function Shape(path: string): string {
    var segments := SplitPath(path);
    Join(seq(|segments|, i requires 0 <= i < |segments| => ShapeSegment(segments[i])))
  }

  /** Segments that a route cannot tell apart by shape: the same text, or both of one marker,
      with a name or without. */
  predicate Alike(a: string, b: string) {
    a == b || (a != "" && b != "" && a[0] == b[0] && a[0] in {':', '*'})
  }

  /** Two paths have one shape exactly when they are alike segment by segment. */
  lemma ShapeIff(p: string, q: string)
    ensures Shape(p) == Shape(q) <==>
              |SplitPath(p)| == |SplitPath(q)| && forall i :: 0 <= i < |SplitPath(p)| ==> Alike(SplitPath(p)[i], SplitPath(q)[i])
  {
    var a, b := SplitPath(p), SplitPath(q);
    var x := seq(|a|, i requires 0 <= i < |a| => ShapeSegment(a[i]));
    var y := seq(|b|, i requires 0 <= i < |b| => ShapeSegment(b[i]));
    hide SplitPath, Join;
    SplitJoin(x);
    SplitJoin(y);
    forall s, t ensures ShapeSegment(s) == ShapeSegment(t) <==> Alike(s, t) { ShapeAlike(s, t); }
    if Shape(p) == Shape(q) {
      assert x == y;
      forall i | 0 <= i < |a| ensures Alike(a[i], b[i]) {
        assert x[i] == y[i];
      }
    }
    if |a| == |b| && forall i :: 0 <= i < |a| ==> Alike(a[i], b[i]) {
      assert x == y;
    }
  }

  lemma ShapeAlike(s: string, t: string)
    ensures ShapeSegment(s) == ShapeSegment(t) <==> Alike(s, t)
  {
  }

  function Rank(segment: string): nat {
    if IsCatchAll(segment) then 0 else if IsParam(segment) then 1 else 2
  }

  /** specificity. */
  function Specificity(segments: seq<string>): seq<nat> {
    seq(|segments|, i requires 0 <= i < |segments| => Rank(segments[i]))
  }

  /** pluginRouteMoreSpecific. */
  predicate MoreSpecific(a: seq<nat>, b: seq<nat>) {
    if a == [] || b == [] then |a| > |b|
    else if a[0] != b[0] then a[0] > b[0]
    else MoreSpecific(a[1..], b[1..])
  }

  /** pluginRoute.match from segment i on: the parameters, or None. */
  function MatchFrom(segments: seq<string>, path: seq<string>, i: nat): Option<seq<Param>>
    requires i <= |segments|
    decreases |segments| - i
  {
    if i == |segments| then (if |path| == |segments| then Some([]) else None)
    else if IsCatchAll(segments[i]) then
      if i != |segments| - 1 || i >= |path| then None
      else Some([Param(segments[i][1..], "/" + Join(path[i..]))])
    else if i >= |path| then None
    else if IsParam(segments[i]) then
      if path[i] == "" then None
      else
        match MatchFrom(segments, path, i + 1)
        case None => None
        case Some(rest) => Some([Param(segments[i][1..], path[i])] + rest)
    else if segments[i] != path[i] then None
    else MatchFrom(segments, path, i + 1)
  }

  function MatchRoute(segments: seq<string>, path: seq<string>): Option<seq<Param>> {
    MatchFrom(segments, path, 0)
  }

  // ----- what a match means -----

  datatype SegmentKind = Literal | Parameter | Rest

  /** A colon or a star makes a segment dynamic if a name follows. */
  function KindOf(segment: string): SegmentKind {
    if |segment| < 2 then Literal
    else match segment[0]
         case ':' => Parameter
         case '*' => Rest
         case _ => Literal
  }

  /** What one segment of a route asks of the path. */
  predicate FitsAt(segments: seq<string>, path: seq<string>, i: nat)
    requires i < |segments|
  {
    match KindOf(segments[i])
    case Literal => i < |path| && path[i] == segments[i]
    case Parameter => i < |path| && path[i] != ""
    case Rest => i == |segments| - 1 && i < |path|
  }

  /** A route answers a path exactly when its literals are the path's, its parameters stand
      for segments that are not empty, and only a catch-all, at the very end, takes more than
      one. */
  lemma {:induction false} MatchIff(segments: seq<string>, path: seq<string>, i: nat)
    requires i <= |segments|
    ensures MatchFrom(segments, path, i).Some? <==>
              && (forall j :: i <= j < |segments| ==> FitsAt(segments, path, j))
              && (|path| == |segments| || (i < |segments| < |path| && KindOf(segments[|segments| - 1]).Rest?))
    decreases |segments| - i
  {
    if i < |segments| {
      hide Join;
      var here, later := FitsAt(segments, path, i), forall j :: i < j < |segments| ==> FitsAt(segments, path, j);
      assert (forall j :: i <= j < |segments| ==> FitsAt(segments, path, j)) <==> here && later;
      if KindOf(segments[i]) != Rest { MatchIff(segments, path, i + 1); }
    }
  }

  /** A catch-all stands for the rest of the path, with its slash. */
  lemma {:induction false} CatchAllValue(segments: seq<string>, path: seq<string>, i: nat)
    requires i < |segments| && MatchFrom(segments, path, i).Some? && KindOf(segments[|segments| - 1]).Rest?
    ensures var params := MatchFrom(segments, path, i).value;
            && params != [] && |segments| <= |path|
            && params[|params| - 1] == Param(segments[|segments| - 1][1..], "/" + Join(path[|segments| - 1..]))
    decreases |segments| - i
  {
    if i < |segments| - 1 { CatchAllValue(segments, path, i + 1); }
  }

  /** The route with its parameters put in. */
  function Fill(segments: seq<string>, params: seq<Param>): seq<string> {
    if segments == [] then []
    else if IsCatchAll(segments[0]) && params != [] then [TrimLeading(params[0].value)] + Fill(segments[1..], params[1..])
    else if IsParam(segments[0]) && params != [] then [params[0].value] + Fill(segments[1..], params[1..])
    else [segments[0]] + Fill(segments[1..], params)
  }

  /** The names of a route's parameters, in order. */
  function Keys(segments: seq<string>): seq<string> {
    if segments == [] then []
    else (if IsCatchAll(segments[0]) || IsParam(segments[0]) then [segments[0][1..]] else []) + Keys(segments[1..])
  }

  /** Filling in the returned parameters rebuilds the request path, and they carry the
      route's own names. */
  lemma {:induction false} FillRebuilds(segments: seq<string>, path: seq<string>, i: nat)
    requires i <= |segments| && i <= |path| && MatchFrom(segments, path, i).Some?
    ensures Join(path[..i] + Fill(segments[i..], MatchFrom(segments, path, i).value)) == Join(path)
    ensures Keys(segments[i..]) == seq(|MatchFrom(segments, path, i).value|, j requires 0 <= j < |MatchFrom(segments, path, i).value| => MatchFrom(segments, path, i).value[j].key)
    decreases |segments| - i
  {
    if i == |segments| {
      assert path[..i] + [] == path;
    } else if IsCatchAll(segments[i]) {
      FillLast(segments, path, i);
    } else {
      hide Fill, Join, MatchFrom, Keys;
      FillNext(segments, path, i);
      KeysNext(segments, path, i);
      FillRebuilds(segments, path, i + 1);
    }
  }

  /** The catch-all takes the rest of the path. */
  lemma FillLast(segments: seq<string>, path: seq<string>, i: nat)
    requires i < |segments| && i <= |path| && MatchFrom(segments, path, i).Some? && IsCatchAll(segments[i])
    ensures Join(path[..i] + Fill(segments[i..], MatchFrom(segments, path, i).value)) == Join(path)
    ensures Keys(segments[i..]) == [segments[i][1..]] && |MatchFrom(segments, path, i).value| == 1
    ensures MatchFrom(segments, path, i).value[0].key == segments[i][1..]
  {
    var tail := segments[i..];
    assert tail[0] == segments[i] && tail[1..] == [];
    assert ("/" + Join(path[i..]))[1..] == Join(path[i..]);
    assert Fill(tail, MatchFrom(segments, path, i).value) == [Join(path[i..])];
    JoinNested(path[..i], path[i..]);
    assert path[..i] + path[i..] == path;
  }

  /** Any other segment takes one of the path. */
  lemma FillNext(segments: seq<string>, path: seq<string>, i: nat)
    requires i < |segments| && i <= |path| && MatchFrom(segments, path, i).Some? && !IsCatchAll(segments[i])
    ensures i < |path| && MatchFrom(segments, path, i + 1).Some?
    ensures path[..i + 1] + Fill(segments[i + 1..], MatchFrom(segments, path, i + 1).value)
         == path[..i] + Fill(segments[i..], MatchFrom(segments, path, i).value)
  {
    hide Join;
    var tail := segments[i..];
    assert tail[0] == segments[i] && tail[1..] == segments[i + 1..];
    assert path[..i + 1] == path[..i] + [path[i]];
  }

  lemma KeysNext(segments: seq<string>, path: seq<string>, i: nat)
    requires i < |segments| && i <= |path| && MatchFrom(segments, path, i).Some? && !IsCatchAll(segments[i])
    ensures MatchFrom(segments, path, i + 1).Some?
    ensures var params, rest := MatchFrom(segments, path, i).value, MatchFrom(segments, path, i + 1).value;
            if IsParam(segments[i]) then
              Keys(segments[i..]) == [segments[i][1..]] + Keys(segments[i + 1..])
              && |params| == 1 + |rest| && params[0].key == segments[i][1..] && params[1..] == rest
            else Keys(segments[i..]) == Keys(segments[i + 1..]) && params == rest
  {
    hide Join;
    var tail := segments[i..];
    assert tail[0] == segments[i] && tail[1..] == segments[i + 1..];
  }

  /** Two routes of equal specificity that match the same path have the same shape. */
  lemma {:induction false} EqualRankSameShape(a: seq<string>, b: seq<string>, path: seq<string>, i: nat)
    requires i <= |a| == |b| && Specificity(a) == Specificity(b)
    requires MatchFrom(a, path, i).Some? && MatchFrom(b, path, i).Some?
    ensures forall j :: i <= j < |a| ==> ShapeSegment(a[j]) == ShapeSegment(b[j])
    decreases |a| - i
  {
    if i < |a| {
      assert Specificity(a)[i] == Rank(a[i]) && Specificity(b)[i] == Rank(b[i]);
      if !IsCatchAll(a[i]) {
        EqualRankSameShape(a, b, path, i + 1);
      }
    }
  }

  lemma {:induction false} MoreSpecificTotal(a: seq<nat>, b: seq<nat>)
    ensures a == b || MoreSpecific(a, b) || MoreSpecific(b, a)
    ensures !(MoreSpecific(a, b) && MoreSpecific(b, a)) && !MoreSpecific(a, a)
    decreases |a|
  {
    if a != [] && b != [] && a[0] == b[0] {
      MoreSpecificTotal(a[1..], b[1..]);
      assert a == [a[0]] + a[1..] && b == [b[0]] + b[1..];
    }
    if a != [] { MoreSpecificTotal(a[1..], a[1..]); }
  }

  lemma {:induction false} MoreSpecificTransitive(a: seq<nat>, b: seq<nat>, c: seq<nat>)
    requires MoreSpecific(a, b) && MoreSpecific(b, c)
    ensures MoreSpecific(a, c)
    decreases |a|
  {
    if a != [] && b != [] && c != [] && a[0] == b[0] == c[0] {
      MoreSpecificTransitive(a[1..], b[1..], c[1..]);
    }
  }

  // ----- the routes of one HTTP method -----

  datatype Routes = Routes(routes: map<string, Route>, shapes: map<string, string>, order: seq<string>)

  /** Shapes are claimed by exactly the registered paths, so no two of those share one; the
      order lists every registered path, perhaps with stale and repeated entries. */
  predicate RoutesOk(rs: Routes) {
    && (forall p :: p in rs.routes ==> Rooted(p) && rs.routes[p].segments == SplitPath(p))
    && (forall p :: p in rs.routes ==> Shape(p) in rs.shapes && rs.shapes[Shape(p)] == p)
    && (forall s :: s in rs.shapes ==> rs.shapes[s] in rs.routes && Shape(rs.shapes[s]) == s)
    && (forall p :: p in rs.routes ==> p in rs.order)
  }

  /** A registered route that answers a path; a path that does not begin with a slash is
      never found among the static routes. */
  predicate Candidate(routes: map<string, Route>, p: string, path: string) {
    && p in routes
    && MatchRoute(routes[p].segments, SplitPath(path)).Some?
    && (Rooted(path) || IsDynamic(routes[p].segments))
  }

  datatype Found = Found(handler: Handler, params: seq<Param>)

  /** The answer of the winning route, if any route answers. */
  ghost predicate IsAnswer(routes: map<string, Route>, path: string, answer: Option<Found>) {
    if answer.None? then forall p :: p in routes ==> !Candidate(routes, p, path)
    else exists p :: Candidate(routes, p, path) && Wins(routes, p, path, answer.value)
  }

  ghost predicate Wins(routes: map<string, Route>, p: string, path: string, found: Found) {
    && Candidate(routes, p, path)
    && found == Found(routes[p].handler, MatchRoute(routes[p].segments, SplitPath(path)).value)
    && forall q :: q in routes && q != p && Candidate(routes, q, path) ==>
         MoreSpecific(Specificity(routes[p].segments), Specificity(routes[q].segments))
  }

  lemma EqualRankEqualShape(rs: Routes, p: string, q: string, path: string)
    requires RoutesOk(rs) && Candidate(rs.routes, p, path) && Candidate(rs.routes, q, path)
    requires Specificity(rs.routes[p].segments) == Specificity(rs.routes[q].segments)
    ensures Shape(p) == Shape(q)
  {
    var a, b := rs.routes[p].segments, rs.routes[q].segments;
    assert |Specificity(a)| == |a| && |Specificity(b)| == |b|;
    EqualRankSameShape(a, b, SplitPath(path), 0);
    assert seq(|a|, i requires 0 <= i < |a| => ShapeSegment(a[i])) == seq(|b|, i requires 0 <= i < |b| => ShapeSegment(b[i]));
  }

  /** Two registered routes that answer the same path differ in specificity. */
  lemma CandidatesDiffer(rs: Routes, p: string, q: string, path: string)
    requires RoutesOk(rs) && p != q && Candidate(rs.routes, p, path) && Candidate(rs.routes, q, path)
    ensures Specificity(rs.routes[p].segments) != Specificity(rs.routes[q].segments)
  {
    if Specificity(rs.routes[p].segments) == Specificity(rs.routes[q].segments) {
      EqualRankEqualShape(rs, p, q, path);
      assert false;
    }
  }

  // ----- which route is the more specific -----

  predicate Finer(k: SegmentKind, l: SegmentKind) {
    (k == Literal && l != Literal) || (k == Parameter && l == Rest)
  }

  /** At the first segment at which they differ in kind, a literal is preferred to a
      parameter, and both to a catch-all. */
  ghost predicate FinerThan(a: seq<string>, b: seq<string>) {
    exists i :: FinerFrom(a, b, i)
  }

  predicate FinerFrom(a: seq<string>, b: seq<string>, i: int) {
    && 0 <= i < |a| && i < |b| && Finer(KindOf(a[i]), KindOf(b[i]))
    && forall j :: 0 <= j < i ==> KindOf(a[j]) == KindOf(b[j])
  }

  lemma {:induction false} MoreSpecificAt(a: seq<nat>, b: seq<nat>) returns (i: nat)
    requires MoreSpecific(a, b)
    ensures i <= |a| && i <= |b| && a[..i] == b[..i]
    ensures if i < |a| && i < |b| then a[i] > b[i] else i == |b| < |a|
  {
    if a == [] || b == [] || a[0] != b[0] {
      i := 0;
    } else {
      var k := MoreSpecificAt(a[1..], b[1..]);
      i := k + 1;
      assert a[..i] == [a[0]] + a[1..][..k] && b[..i] == [b[0]] + b[1..][..k];
    }
  }

  /** Of two routes that answer one path, neither goes on where the other, alike so far, ends. */
  lemma NoLonger(a: seq<string>, b: seq<string>, path: seq<string>)
    requires MatchRoute(a, path).Some? && MatchRoute(b, path).Some? && |b| <= |a|
    requires forall j :: 0 <= j < |b| ==> KindOf(a[j]) == KindOf(b[j])
    ensures |a| == |b|
  {
    hide MatchFrom;
    MatchIff(a, path, 0);
    MatchIff(b, path, 0);
    var next, last := |b| < |a| && FitsAt(a, path, |b|), b != [] && FitsAt(a, path, |b| - 1);
  }

  /** Among the routes that answer one path, a more specific one is finer. */
  lemma MoreSpecificIsFiner(a: seq<string>, b: seq<string>, path: seq<string>)
    requires MatchRoute(a, path).Some? && MatchRoute(b, path).Some? && MoreSpecific(Specificity(a), Specificity(b))
    ensures FinerThan(a, b)
  {
    hide MatchFrom, MoreSpecific;
    var i := MoreSpecificAt(Specificity(a), Specificity(b));
    forall j | 0 <= j < i ensures KindOf(a[j]) == KindOf(b[j]) {
      assert Specificity(a)[..i][j] == Specificity(b)[..i][j];
    }
    if i == |b| { NoLonger(a, b, path); }
    assert FinerFrom(a, b, i);
  }

  /** The answer comes from the finest of the routes that answer. */
  ghost predicate IsFinest(routes: map<string, Route>, path: string, answer: Option<Found>) {
    answer.Some? ==> exists p :: Finest(routes, p, path, answer.value)
  }

  ghost predicate Finest(routes: map<string, Route>, p: string, path: string, found: Found) {
    && Candidate(routes, p, path)
    && found == Found(routes[p].handler, MatchRoute(routes[p].segments, SplitPath(path)).value)
    && forall q :: q != p && Candidate(routes, q, path) ==> FinerThan(routes[p].segments, routes[q].segments)
  }

  lemma AnswerIsFinest(routes: map<string, Route>, path: string, answer: Option<Found>)
    requires IsAnswer(routes, path, answer)
    ensures IsFinest(routes, path, answer)
  {
    hide MatchRoute, MoreSpecific, Specificity, SplitPath, FinerThan, IsDynamic;
    if answer.Some? {
      var p :| Candidate(routes, p, path) && Wins(routes, p, path, answer.value);
      forall q | q != p && Candidate(routes, q, path) ensures FinerThan(routes[p].segments, routes[q].segments) {
        MoreSpecificIsFiner(routes[p].segments, routes[q].segments, SplitPath(path));
      }
      assert Finest(routes, p, path, answer.value);
    }
  }

  /** Only one route can win. */
  lemma WinnerUnique(rs: Routes, path: string, p: string, a: Found, q: string, b: Found)
    requires RoutesOk(rs) && Wins(rs.routes, p, path, a) && Wins(rs.routes, q, path, b)
    ensures p == q && a == b
  {
    MoreSpecificTotal(Specificity(rs.routes[p].segments), Specificity(rs.routes[q].segments));
  }

  /** The answer depends on the set of registered routes alone: neither the order of
      registration nor stale or repeated entries matter. */
  lemma AnswerUnique(rs: Routes, path: string, a: Option<Found>, b: Option<Found>)
    requires RoutesOk(rs) && IsAnswer(rs.routes, path, a) && IsAnswer(rs.routes, path, b)
    ensures a == b
  {
    if a.Some? && b.Some? {
      var p :| Candidate(rs.routes, p, path) && Wins(rs.routes, p, path, a.value);
      var q :| Candidate(rs.routes, q, path) && Wins(rs.routes, q, path, b.value);
      WinnerUnique(rs, path, p, a.value, q, b.value);
    }
  }

  /** The returned parameters rebuild the request path from the winning route. */
  lemma AnswerRebuilds(routes: map<string, Route>, p: string, path: string, found: Found)
    requires Wins(routes, p, path, found) && Rooted(path)
    ensures "/" + Join(Fill(routes[p].segments, found.params)) == path
    ensures Keys(routes[p].segments) == seq(|found.params|, j requires 0 <= j < |found.params| => found.params[j].key)
  {
    var segments, parts := routes[p].segments, SplitPath(path);
    FillRebuilds(segments, parts, 0);
    assert segments[0..] == segments;
    assert parts[..0] + Fill(segments, found.params) == Fill(segments, found.params);
    JoinSplit(path[1..]);
    assert path == "/" + path[1..];
  }

  // ----- the static shortcut -----

  lemma {:induction false} LiteralMatch(segments: seq<string>, path: seq<string>, i: nat)
    requires i <= |segments| && !IsDynamic(segments)
    ensures MatchFrom(segments, path, i).Some? <==> |path| == |segments| && path[i..] == segments[i..]
    ensures MatchFrom(segments, path, i).Some? ==> MatchFrom(segments, path, i).value == []
    decreases |segments| - i
  {
    if i < |segments| {
      LiteralMatch(segments, path, i + 1);
      if i < |path| {
        assert segments[i..] == [segments[i]] + segments[i + 1..];
        assert path[i..] == [path[i]] + path[i + 1..];
        assert path[i..][0] == path[i] && segments[i..][0] == segments[i];
        assert path[i..][1..] == path[i + 1..] && segments[i..][1..] == segments[i + 1..];
      }
    }
  }

  /** A static route answers exactly its own path. */
  lemma StaticAnswers(rs: Routes, p: string, path: string)
    requires RoutesOk(rs) && p in rs.routes && !IsDynamic(rs.routes[p].segments)
    ensures Candidate(rs.routes, p, path) <==> p == path
    ensures p == path ==> MatchRoute(rs.routes[p].segments, SplitPath(path)) == Some([])
  {
    var a, b := rs.routes[p].segments, SplitPath(path);
    LiteralMatch(a, b, 0);
    assert a[0..] == a && b[0..] == b;
    if Candidate(rs.routes, p, path) { SplitPathInjective(p, path); }
  }

  lemma {:induction false} AllLiteralTops(a: seq<nat>, b: seq<nat>)
    requires (forall i :: 0 <= i < |a| ==> a[i] == 2) && (forall i :: 0 <= i < |b| ==> b[i] <= 2)
    requires a != b && |b| <= |a|
    ensures MoreSpecific(a, b)
  {
    if b != [] && a[0] == b[0] {
      assert a == [a[0]] + a[1..] && b == [b[0]] + b[1..];
      AllLiteralTops(a[1..], b[1..]);
    }
  }

  lemma {:induction false} MatchLength(segments: seq<string>, path: seq<string>, i: nat)
    requires i <= |segments| && MatchFrom(segments, path, i).Some?
    ensures |segments| <= |path|
    decreases |segments| - i
  {
    if i < |segments| && !IsCatchAll(segments[i]) { MatchLength(segments, path, i + 1); }
  }

  /** The static shortcut returns what the general rule would. */
  lemma StaticWins(rs: Routes, path: string)
    requires RoutesOk(rs) && path in rs.routes && !IsDynamic(rs.routes[path].segments)
    ensures Wins(rs.routes, path, path, Found(rs.routes[path].handler, []))
  {
    StaticAnswers(rs, path, path);
    var a := Specificity(rs.routes[path].segments);
    forall q | q in rs.routes && q != path && Candidate(rs.routes, q, path)
      ensures MoreSpecific(a, Specificity(rs.routes[q].segments))
    {
      CandidatesDiffer(rs, path, q, path);
      MatchLength(rs.routes[q].segments, SplitPath(path), 0);
      AllLiteralTops(a, Specificity(rs.routes[q].segments));
    }
  }

  // ----- the dispatcher -----

  class PluginDispatcher {
    var handlers: map<string, Routes>

    ghost predicate Valid()
      reads this
    {
      forall m :: m in handlers ==> RoutesOk(handlers[m])
    }

    function RoutesOf(m: string): map<string, Route>
      reads this
    {
      if m in handlers then handlers[m].routes else map[]
    }

    constructor ()
      ensures Valid() && handlers == map[]
    {
      handlers := map[];
    }

    /** RegisterE: refused exactly when another path of the same shape is registered. */
    method RegisterE(m: string, path: string, handler: Handler) returns (ok: bool)
      requires Valid()
      modifies this
      ensures Valid()
      ensures ok <==> forall q :: q in old(RoutesOf(m)) && Shape(q) == Shape(Normalize(path)) ==> q == Normalize(path)
      ensures RoutesOf(m) == if ok then old(RoutesOf(m))[Normalize(path) := Route(handler, SplitPath(Normalize(path)))]
                             else old(RoutesOf(m))
      ensures forall n :: n != m ==> RoutesOf(n) == old(RoutesOf(n))
    {
      hide RoutesOk, Shape, SplitPath, Normalize;
      var p := Normalize(path);
      var shape := Shape(p);
      NoRoutesOk();
      if m !in handlers {
        handlers := handlers[m := Routes(map[], map[], [])];
      }
      var rs := handlers[m];
      ShapeClaims(rs, p);
      if shape in rs.shapes && rs.shapes[shape] != p {
        return false;
      }
      ClaimShape(rs, p, handler);
      handlers := handlers[m := Claimed(rs, p, handler)];
      ok := true;
    }

    /** Unregister: the order keeps its entry. */
    method Unregister(m: string, path: string)
      requires Valid()
      modifies this
      ensures Valid()
      ensures RoutesOf(m) == old(RoutesOf(m)) - {Normalize(path)}
      ensures forall n :: n != m ==> RoutesOf(n) == old(RoutesOf(n))
    {
      hide RoutesOk, Shape, SplitPath, Normalize;
      var p := Normalize(path);
      if m in handlers {
        var rs := handlers[m];
        UnclaimShape(rs, p);
        var shapes := if p in rs.routes then rs.shapes - {Shape(p)} else rs.shapes;
        handlers := handlers[m := Routes(rs.routes - {p}, shapes, rs.order)];
      }
    }

    /** match: the static shortcut, or the best of the dynamic routes in registration order. */
    method Match(m: string, path: string) returns (answer: Option<Found>)
      requires Valid()
      ensures IsAnswer(RoutesOf(m), path, answer) && IsFinest(RoutesOf(m), path, answer)
    {
      if m !in handlers { return None; }
      var rs := handlers[m];
      if path in rs.routes && !IsDynamic(rs.routes[path].segments) {
        StaticWins(rs, path);
        answer := Some(Found(rs.routes[path].handler, []));
        AnswerIsFinest(rs.routes, path, answer);
        return;
      }
      answer := BestDynamic(rs, path);
      Listed(rs, path, answer);
      AnswerIsFinest(rs.routes, path, answer);
    }
  }

  /** The loop over the order: stale entries are skipped, repeated ones change nothing. */
  method BestDynamic(rs: Routes, path: string) returns (answer: Option<Found>)
    requires RoutesOk(rs) && (path in rs.routes ==> IsDynamic(rs.routes[path].segments))
    ensures BestListed(rs, path, |rs.order|, answer)
  {
    hide RoutesOk, MoreSpecific, MatchRoute, SplitPath, Specificity, IsDynamic, BestSoFar;
    var parts := SplitPath(path);
    var best: seq<nat> := [];
    ghost var leader := "";
    answer := None;
    for i := 0 to |rs.order|
      invariant answer.None? ==> forall k :: 0 <= k < i ==> !Candidate(rs.routes, rs.order[k], path)
      invariant answer.Some? ==> BestSoFar(rs, path, i, leader, answer.value)
      invariant answer.Some? ==> leader in rs.routes && best == Specificity(rs.routes[leader].segments)
    {
      var p := rs.order[i];
      if p in rs.routes && IsDynamic(rs.routes[p].segments) {
        var params := MatchRoute(rs.routes[p].segments, parts);
        if params.Some? {
          var rank := Specificity(rs.routes[p].segments);
          if answer.Some? {
            Challenge(rs, path, i, leader, answer.value);
          } else {
            First(rs, path, i);
          }
          if answer.None? || MoreSpecific(rank, best) {
            best, leader, answer := rank, p, Some(Found(rs.routes[p].handler, params.value));
          }
        } else if answer.Some? {
          Passed(rs, path, i, leader, answer.value);
        }
      } else {
        if p in rs.routes { StaticAnswers(rs, p, path); }
        if answer.Some? { Passed(rs, path, i, leader, answer.value); }
      }
    }
  }

  ghost predicate BestListed(rs: Routes, path: string, i: nat, answer: Option<Found>) {
    && i <= |rs.order|
    && (answer.None? ==> forall k :: 0 <= k < i ==> !Candidate(rs.routes, rs.order[k], path))
    && (answer.Some? ==> exists leader :: BestSoFar(rs, path, i, leader, answer.value))
  }

  lemma First(rs: Routes, path: string, i: nat)
    requires i < |rs.order| && Candidate(rs.routes, rs.order[i], path)
    requires forall k :: 0 <= k < i ==> !Candidate(rs.routes, rs.order[k], path)
    ensures BestSoFar(rs, path, i + 1, rs.order[i],
                      Found(rs.routes[rs.order[i]].handler, MatchRoute(rs.routes[rs.order[i]].segments, SplitPath(path)).value))
  {
  }

  lemma Passed(rs: Routes, path: string, i: nat, leader: string, found: Found)
    requires i < |rs.order| && BestSoFar(rs, path, i, leader, found) && !Candidate(rs.routes, rs.order[i], path)
    ensures BestSoFar(rs, path, i + 1, leader, found)
  {
  }

  lemma NoRoutesOk()
    ensures RoutesOk(Routes(map[], map[], []))
  {
  }

  lemma ShapeClaims(rs: Routes, p: string)
    requires RoutesOk(rs)
    ensures (Shape(p) in rs.shapes && rs.shapes[Shape(p)] != p) <==> exists q :: q in rs.routes && Shape(q) == Shape(p) && q != p
  {
    hide Shape, SplitPath;
  }

  lemma UnclaimShape(rs: Routes, p: string)
    requires RoutesOk(rs)
    ensures RoutesOk(Routes(rs.routes - {p}, if p in rs.routes then rs.shapes - {Shape(p)} else rs.shapes, rs.order))
  {
    hide Shape, SplitPath;
  }

  function Claimed(rs: Routes, p: string, handler: Handler): Routes {
    Routes(rs.routes[p := Route(handler, SplitPath(p))], rs.shapes[Shape(p) := p],
           if p in rs.routes then rs.order else rs.order + [p])
  }

  lemma ClaimShape(rs: Routes, p: string, handler: Handler)
    requires RoutesOk(rs) && Rooted(p) && (Shape(p) in rs.shapes ==> rs.shapes[Shape(p)] == p)
    ensures RoutesOk(Claimed(rs, p, handler))
  {
    hide Shape, SplitPath;
  }

  /** The best of the first i entries of the order. */
  ghost predicate BestSoFar(rs: Routes, path: string, i: nat, leader: string, found: Found) {
    && i <= |rs.order| && Candidate(rs.routes, leader, path)
    && found == Found(rs.routes[leader].handler, MatchRoute(rs.routes[leader].segments, SplitPath(path)).value)
    && forall k :: 0 <= k < i && rs.order[k] != leader && Candidate(rs.routes, rs.order[k], path) ==>
         MoreSpecific(Specificity(rs.routes[leader].segments), Specificity(rs.routes[rs.order[k]].segments))
  }

  /** A new entry that answers replaces the best one exactly when it is more specific. */
  lemma Challenge(rs: Routes, path: string, i: nat, leader: string, found: Found)
    requires RoutesOk(rs) && i < |rs.order| && BestSoFar(rs, path, i, leader, found) && Candidate(rs.routes, rs.order[i], path)
    ensures var p := rs.order[i];
            if MoreSpecific(Specificity(rs.routes[p].segments), Specificity(rs.routes[leader].segments))
            then BestSoFar(rs, path, i + 1, p, Found(rs.routes[p].handler, MatchRoute(rs.routes[p].segments, SplitPath(path)).value))
            else BestSoFar(rs, path, i + 1, leader, found)
  {
    hide RoutesOk, MoreSpecific, MatchRoute, SplitPath, Specificity, IsDynamic;
    var p := rs.order[i];
    var a, b := Specificity(rs.routes[p].segments), Specificity(rs.routes[leader].segments);
    MoreSpecificTotal(a, b);
    if p != leader { CandidatesDiffer(rs, p, leader, path); }
    if MoreSpecific(a, b) {
      forall k | 0 <= k < i + 1 && rs.order[k] != p && Candidate(rs.routes, rs.order[k], path)
        ensures MoreSpecific(a, Specificity(rs.routes[rs.order[k]].segments))
      {
        if rs.order[k] != leader {
          MoreSpecificTransitive(a, b, Specificity(rs.routes[rs.order[k]].segments));
        }
      }
    }
  }

  /** Every registered route is listed, so the best of the list is the best of all. */
  lemma Listed(rs: Routes, path: string, answer: Option<Found>)
    requires RoutesOk(rs) && BestListed(rs, path, |rs.order|, answer)
    ensures IsAnswer(rs.routes, path, answer)
  {
    hide MoreSpecific, MatchRoute, SplitPath, Specificity, IsDynamic, Shape;
    forall p | p in rs.routes ensures exists k :: 0 <= k < |rs.order| && rs.order[k] == p {
      assert p in rs.order;
    }
    if answer.Some? {
      var leader :| BestSoFar(rs, path, |rs.order|, leader, answer.value);
      assert Wins(rs.routes, leader, path, answer.value);
    }
  }
}
