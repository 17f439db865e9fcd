/** Streamed answers: the pump that merges tool-call fragments by index, and the collector
    that merges its chunks into one message. */
module ToolStream {
  import opened Wrappers

  datatype ToolCall = ToolCall(id: string, name: string, arguments: string)

  /** One piece of a tool call as the vendor sends it; continuation pieces usually carry
      neither id nor name, and a missing index stands for 0. */
  datatype Fragment = Fragment(index: Option<int>, id: string, name: string, arguments: string)

  /** One line of the event stream: not a decodable event, the end mark, or an event.  An
      event that reports usage is not looked at further. */
  datatype Line = Ignored | Stop | Event(usage: nat, hasChoice: bool, content: string, calls: seq<Fragment>)

  datatype Chunk = Text(text: string) | Call(call: ToolCall) | Usage(tokens: nat)

  datatype Message = Message(content: string, calls: seq<ToolCall>, usage: Option<nat>)

  // ----- the pump -----

  function Slot(f: Fragment): int {
    if f.index.Some? then f.index.value else 0
  }

  /** A fragment is merged into the call of its index. */
  function Merge(m: map<int, ToolCall>, f: Fragment): map<int, ToolCall> {
    var known := if Slot(f) in m then m[Slot(f)] else ToolCall(f.id, "", "");
    m[Slot(f) := ToolCall(if f.id != "" then f.id else known.id, known.name + f.name, known.arguments + f.arguments)]
  }

  function MergeAll(m: map<int, ToolCall>, fs: seq<Fragment>): map<int, ToolCall> {
    if fs == [] then m else Merge(MergeAll(m, fs[..|fs| - 1]), fs[|fs| - 1])
  }

  /** The lines before the end mark. */
  function BeforeStop(lines: seq<Line>): seq<Line> {
    if lines == [] || lines[0].Stop? then [] else [lines[0]] + BeforeStop(lines[1..])
  }

  function FragmentsOf(l: Line): seq<Fragment> {
    if l.Event? && l.usage == 0 && l.hasChoice then l.calls else []
  }

  function Fragments(lines: seq<Line>): seq<Fragment> {
    if lines == [] then [] else Fragments(lines[..|lines| - 1]) + FragmentsOf(lines[|lines| - 1])
  }

  /** What is forwarded as soon as a line arrives. */
  function ToldOf(l: Line): seq<Chunk> {
    if !l.Event? then []
    else if l.usage > 0 then [Usage(l.usage)]
    else if l.hasChoice && l.content != "" then [Text(l.content)]
    else []
  }

  function Told(lines: seq<Line>): seq<Chunk> {
    if lines == [] then [] else Told(lines[..|lines| - 1]) + ToldOf(lines[|lines| - 1])
  }

  predicate IsMin(s: set<int>, m: int) {
    m in s && forall x :: x in s ==> m <= x
  }

  lemma {:induction false} MinExists(s: set<int>) returns (m: int)
    requires s != {}
    ensures IsMin(s, m)
    decreases |s|
  {
    assert exists x :: x in s by {
      if forall x :: x !in s { assert false; }
    }
    m :| m in s;
    var rest := s - {m};
    if rest == {} {
      assert s == {m};
    } else {
      var other := MinExists(rest);
      MinOfBoth(s, m, other);
      m := if m < other then m else other;
    }
  }

  lemma MinOfBoth(s: set<int>, a: int, m: int)
    requires a in s && IsMin(s - {a}, m)
    ensures IsMin(s, if a < m then a else m)
  {
    forall x | x in s && x != a ensures m <= x {
      assert x in s - {a};
    }
  }

  function Min(s: set<int>): (m: int)
    requires s != {}
    ensures IsMin(s, m)
  {
    assert exists m :: IsMin(s, m) by { var m := MinExists(s); }
    var m :| IsMin(s, m);
    m
  }

  function Ascending(s: set<int>): seq<int> {
    if s == {} then [] else [Min(s)] + Ascending(s - {Min(s)})
  }

  /** The finished calls, by ascending index. */
  function Flushed(m: map<int, ToolCall>, keys: seq<int>): seq<Chunk>
    requires forall i :: 0 <= i < |keys| ==> keys[i] in m
  {
    seq(|keys|, i requires 0 <= i < |keys| => Call(m[keys[i]]))
  }

  lemma {:induction false} AscendingExact(s: set<int>)
    ensures forall x :: x in Ascending(s) <==> x in s
    ensures forall i, j :: 0 <= i < j < |Ascending(s)| ==> Ascending(s)[i] < Ascending(s)[j]
    decreases |s|
  {
    if s != {} {
      var later := Ascending(s - {Min(s)});
      AscendingExact(s - {Min(s)});
      forall j | 0 <= j < |later| ensures Min(s) < later[j] {
        assert later[j] in later;
      }
    }
  }

  /** Everything the pump sends to a consumer that stays. */
  function Pumped(lines: seq<Line>): seq<Chunk> {
    var seen := BeforeStop(lines);
    var merged := MergeAll(map[], Fragments(seen));
    AscendingExact(merged.Keys);
    var keys := Ascending(merged.Keys);
    assert forall i :: 0 <= i < |keys| ==> keys[i] in merged by {
      forall i | 0 <= i < |keys| ensures keys[i] in merged { assert keys[i] in keys; }
    }
    Told(seen) + Flushed(merged, keys)
  }

  // ----- the collector -----

  /** A call with the id of an earlier one continues it; a call without an id never does. */
  function Absorb(calls: seq<ToolCall>, c: ToolCall): seq<ToolCall> {
    var at := Find(calls, c.id);
    if c.id != "" && at < |calls| then
      calls[at := calls[at].(name := calls[at].name + c.name, arguments := calls[at].arguments + c.arguments)]
    else calls + [c]
  }

  /** The position of the first call with an id. */
  function Find(calls: seq<ToolCall>, id: string): (i: nat)
    ensures i <= |calls|
    ensures i < |calls| ==> calls[i].id == id
    ensures forall j :: 0 <= j < i ==> calls[j].id != id
  {
    if calls == [] then 0 else if calls[0].id == id then 0 else 1 + Find(calls[1..], id)
  }

  function Take(m: Message, c: Chunk): Message {
    match c
    case Text(text) => m.(content := m.content + text)
    case Call(call) => m.(calls := Absorb(m.calls, call))
    case Usage(tokens) => m.(usage := Some(tokens))
  }

  function Collected(chunks: seq<Chunk>): Message {
    if chunks == [] then Message("", [], None) else Take(Collected(chunks[..|chunks| - 1]), chunks[|chunks| - 1])
  }

  // ----- the round trip -----

  /** The fragments of one index, in the order they arrive. */
  function Of(fs: seq<Fragment>, k: int): seq<Fragment> {
    if fs == [] then []
    else Of(fs[..|fs| - 1], k) + (if Slot(fs[|fs| - 1]) == k then [fs[|fs| - 1]] else [])
  }

  function Names(fs: seq<Fragment>): string {
    if fs == [] then "" else Names(fs[..|fs| - 1]) + fs[|fs| - 1].name
  }

  function Arguments(fs: seq<Fragment>): string {
    if fs == [] then "" else Arguments(fs[..|fs| - 1]) + fs[|fs| - 1].arguments
  }

  /** The fragments are a cut of the call: name and arguments in pieces, the id at least
      once if there is one and no other. */
  predicate IsCut(fs: seq<Fragment>, c: ToolCall) {
    && fs != [] && Names(fs) == c.name && Arguments(fs) == c.arguments
    && (forall i :: 0 <= i < |fs| ==> fs[i].id == "" || fs[i].id == c.id)
    && (c.id != "" ==> exists i :: 0 <= i < |fs| && fs[i].id == c.id)
  }

  /** The lines carry the calls, call i under index ks[i], interleaved in any way. */
  predicate Carries(lines: seq<Line>, ks: seq<int>, cs: seq<ToolCall>) {
    var fs := Fragments(BeforeStop(lines));
    && |ks| == |cs|
    && (forall i, j :: 0 <= i < j < |ks| ==> ks[i] < ks[j])
    && (forall i :: 0 <= i < |ks| ==> IsCut(Of(fs, ks[i]), cs[i]))
    && (forall i :: 0 <= i < |fs| ==> Slot(fs[i]) in ks)
  }

  predicate DistinctIds(cs: seq<ToolCall>) {
    forall i, j :: 0 <= i < j < |cs| ==> cs[i].id == "" || cs[i].id != cs[j].id
  }

  function Texts(lines: seq<Line>): string {
    if lines == [] then ""
    else Texts(lines[..|lines| - 1])
         + (var l := lines[|lines| - 1]; if l.Event? && l.usage == 0 && l.hasChoice then l.content else "")
  }

  lemma CollectedSnoc(chunks: seq<Chunk>, c: Chunk)
    ensures Collected(chunks + [c]) == Take(Collected(chunks), c)
  {
    hide Take;
    assert (chunks + [c])[..|chunks|] == chunks;
  }

  lemma CollectedNone()
    ensures Collected([]) == Message("", [], None)
  {
  }

  lemma PiecesSnoc(fs: seq<Fragment>, f: Fragment, k: int)
    ensures Names(fs + [f]) == Names(fs) + f.name && Arguments(fs + [f]) == Arguments(fs) + f.arguments
    ensures Of(fs + [f], k) == if Slot(f) == k then Of(fs, k) + [f] else Of(fs, k)
    ensures MergeAll(map[], fs + [f]) == Merge(MergeAll(map[], fs), f)
  {
    hide Merge, Slot;
    assert (fs + [f])[..|fs|] == fs;
  }

  /** What the merger holds for an index is what these fragments say. */
  predicate Holds(held: map<int, ToolCall>, pieces: seq<Fragment>, k: int) {
    && (k in held <==> pieces != [])
    && (k in held ==>
          && held[k].name == Names(pieces) && held[k].arguments == Arguments(pieces)
          && IdFrom(held[k].id, pieces))
  }

  /** The identifier is the last one the fragments name, or empty if they name none. */
  predicate IdFrom(id: string, pieces: seq<Fragment>) {
    if id == "" then forall i :: 0 <= i < |pieces| ==> pieces[i].id == ""
    else exists i :: 0 <= i < |pieces| && pieces[i].id == id && forall j :: i < j < |pieces| ==> pieces[j].id == ""
  }

  lemma IdNext(id: string, pieces: seq<Fragment>, f: Fragment)
    requires IdFrom(id, pieces)
    ensures IdFrom(if f.id != "" then f.id else id, pieces + [f])
  {
    var all := pieces + [f];
    assert all[|pieces|] == f;
    if f.id == "" && id != "" {
      var i :| 0 <= i < |pieces| && pieces[i].id == id && forall j :: i < j < |pieces| ==> pieces[j].id == "";
      assert all[i].id == id;
    }
  }

  lemma HoldsNext(held: map<int, ToolCall>, pieces: seq<Fragment>, f: Fragment, k: int)
    requires Holds(held, pieces, k)
    ensures Holds(Merge(held, f), if Slot(f) == k then pieces + [f] else pieces, k)
  {
    hide IdFrom, Names, Arguments, Of, MergeAll;
    if Slot(f) == k {
      PiecesSnoc(pieces, f, k);
      NoPieces();
      IdNext(if k in held then held[k].id else "", pieces, f);
    }
  }

  lemma NoPieces()
    ensures Names([]) == "" && Arguments([]) == "" && IdFrom("", [])
  {
  }

  lemma {:induction false} MergedIs(fs: seq<Fragment>, k: int)
    ensures Holds(MergeAll(map[], fs), Of(fs, k), k)
  {
    if fs != [] {
      var front, f := fs[..|fs| - 1], fs[|fs| - 1];
      hide Holds, Merge, Slot, Names, Arguments;
      MergedIs(front, k);
      assert fs == front + [f];
      PiecesSnoc(front, f, k);
      HoldsNext(MergeAll(map[], front), Of(front, k), f, k);
    }
  }

  lemma CutMerges(fs: seq<Fragment>, k: int, c: ToolCall)
    requires IsCut(Of(fs, k), c)
    ensures k in MergeAll(map[], fs) && MergeAll(map[], fs)[k] == c
  {
    MergedIs(fs, k);
  }

  lemma {:induction false} AscendingUnique(s: set<int>, ks: seq<int>)
    requires forall i, j :: 0 <= i < j < |ks| ==> ks[i] < ks[j]
    requires s == set i | 0 <= i < |ks| :: ks[i]
    ensures Ascending(s) == ks
    decreases |ks|
  {
    if ks != [] {
      assert ks[0] in s;
      assert Min(s) == ks[0];
      var rest := ks[1..];
      forall x ensures x in s - {ks[0]} <==> exists i :: 0 <= i < |rest| && rest[i] == x {
        if x in s && x != ks[0] {
          var i :| 0 <= i < |ks| && ks[i] == x;
          assert rest[i - 1] == x;
        }
        if i :| 0 <= i < |rest| && rest[i] == x {
          assert ks[i + 1] == x;
        }
      }
      AscendingUnique(s - {ks[0]}, rest);
    }
  }

  function CallChunks(cs: seq<ToolCall>): seq<Chunk> {
    seq(|cs|, i requires 0 <= i < |cs| => Call(cs[i]))
  }

  /** The pump sends each call whole, in index order, after all text. */
  lemma PumpedCalls(lines: seq<Line>, ks: seq<int>, cs: seq<ToolCall>)
    requires Carries(lines, ks, cs)
    ensures Pumped(lines) == Told(BeforeStop(lines)) + CallChunks(cs)
  {
    hide IsCut, MergeAll, Fragments, BeforeStop, Told, Slot;
    var fs := Fragments(BeforeStop(lines));
    var m := MergeAll(map[], fs);
    forall k ensures k in m.Keys <==> exists i :: 0 <= i < |ks| && ks[i] == k {
      MergedIs(fs, k);
      if i :| 0 <= i < |ks| && ks[i] == k {
        CutMerges(fs, ks[i], cs[i]);
      }
      if Of(fs, k) != [] { OfMember(fs, k); }
    }
    assert m.Keys == set i | 0 <= i < |ks| :: ks[i];
    AscendingUnique(m.Keys, ks);
    forall i | 0 <= i < |ks| ensures m[ks[i]] == cs[i] {
      CutMerges(fs, ks[i], cs[i]);
    }
    assert Flushed(m, ks) == CallChunks(cs);
  }

  lemma {:induction false} OfMember(fs: seq<Fragment>, k: int)
    requires Of(fs, k) != []
    ensures exists i :: 0 <= i < |fs| && Slot(fs[i]) == k
  {
    if Slot(fs[|fs| - 1]) != k {
      OfMember(fs[..|fs| - 1], k);
      var i :| 0 <= i < |fs| - 1 && Slot(fs[..|fs| - 1][i]) == k;
      assert Slot(fs[i]) == k;
    }
  }

  lemma {:induction false} ToldCollects(lines: seq<Line>)
    ensures Collected(Told(lines)).content == Texts(lines) && Collected(Told(lines)).calls == []
  {
    hide Collected, Absorb;
    CollectedNone();
    if lines != [] {
      var front, l := lines[..|lines| - 1], lines[|lines| - 1];
      ToldCollects(front);
      if ToldOf(l) != [] {
        CollectedSnoc(Told(front), ToldOf(l)[0]);
        assert Told(lines) == Told(front) + [ToldOf(l)[0]];
      } else {
        assert Told(lines) == Told(front);
      }
    }
  }

  /** Whole calls with distinct ids are kept as they are; otherwise some are fused. */
  lemma {:induction false} CallsCollect(told: seq<Chunk>, cs: seq<ToolCall>)
    requires Collected(told).calls == []
    ensures Collected(told + CallChunks(cs)).content == Collected(told).content
    ensures DistinctIds(cs) ==> Collected(told + CallChunks(cs)).calls == cs
    ensures !DistinctIds(cs) ==> |Collected(told + CallChunks(cs)).calls| < |cs|
    ensures |Collected(told + CallChunks(cs)).calls| <= |cs|
    decreases |cs|
  {
    hide Collected, DistinctIds, CallChunks;
    if cs == [] {
      NoChunks(told);
    } else {
      var front, c := cs[..|cs| - 1], cs[|cs| - 1];
      CallsCollect(told, front);
      ChunksSnoc(told, front, c);
      assert cs == front + [c];
      assert told + CallChunks(cs) == told + CallChunks(front) + [Call(c)];
      CollectedSnoc(told + CallChunks(front), Call(c));
      DistinctSnoc(front, c);
      assert cs == front + [c];
    }
  }

  lemma NoChunks(told: seq<Chunk>)
    ensures told + CallChunks([]) == told && DistinctIds([])
  {
  }

  lemma ChunksSnoc(told: seq<Chunk>, cs: seq<ToolCall>, c: ToolCall)
    ensures told + CallChunks(cs + [c]) == told + CallChunks(cs) + [Call(c)]
  {
    assert CallChunks(cs + [c]) == CallChunks(cs) + [Call(c)];
  }

  lemma DistinctSnoc(cs: seq<ToolCall>, c: ToolCall)
    ensures DistinctIds(cs + [c]) <==> DistinctIds(cs) && (c.id == "" || Find(cs, c.id) == |cs|)
  {
    var all := cs + [c];
    if DistinctIds(all) {
      forall i, j | 0 <= i < j < |cs| ensures cs[i].id == "" || cs[i].id != cs[j].id {
        assert all[i].id == "" || all[i].id != all[j].id;
      }
      var at := Find(cs, c.id);
      if at < |cs| { assert all[at].id == all[|cs|].id; }
    }
  }

  /** Streaming round trip.  However the calls are cut and interleaved, pump and collector
      give the original calls back exactly when no two share a non-empty id, and the text is
      always the concatenation of the deltas. */
  lemma RoundTripIff(lines: seq<Line>, ks: seq<int>, cs: seq<ToolCall>)
    requires Carries(lines, ks, cs)
    ensures Collected(Pumped(lines)).calls == cs <==> DistinctIds(cs)
    ensures Collected(Pumped(lines)).content == Texts(BeforeStop(lines))
  {
    PumpedCalls(lines, ks, cs);
    ToldCollects(BeforeStop(lines));
    CallsCollect(Told(BeforeStop(lines)), cs);
  }

  // ----- calls that share an identifier -----

  function WithId(cs: seq<ToolCall>, id: string): seq<ToolCall> {
    if cs == [] then []
    else WithId(cs[..|cs| - 1], id) + (if cs[|cs| - 1].id == id then [cs[|cs| - 1]] else [])
  }

  function AllNames(cs: seq<ToolCall>): string {
    if cs == [] then "" else AllNames(cs[..|cs| - 1]) + cs[|cs| - 1].name
  }

  function AllArguments(cs: seq<ToolCall>): string {
    if cs == [] then "" else AllArguments(cs[..|cs| - 1]) + cs[|cs| - 1].arguments
  }

  /** The calls with one identifier as a single call. */
  function Fused(cs: seq<ToolCall>, id: string): seq<ToolCall> {
    if WithId(cs, id) == [] then [] else [ToolCall(id, AllNames(WithId(cs, id)), AllArguments(WithId(cs, id)))]
  }

  lemma WithIdSnoc(cs: seq<ToolCall>, c: ToolCall, id: string)
    ensures WithId(cs + [c], id) == if c.id == id then WithId(cs, id) + [c] else WithId(cs, id)
    ensures AllNames(cs + [c]) == AllNames(cs) + c.name && AllArguments(cs + [c]) == AllArguments(cs) + c.arguments
  {
    assert (cs + [c])[..|cs|] == cs;
  }

  lemma {:induction false} WithIdNone(cs: seq<ToolCall>, id: string)
    ensures WithId(cs, id) == [] <==> forall i :: 0 <= i < |cs| ==> cs[i].id != id
  {
    if cs != [] { WithIdNone(cs[..|cs| - 1], id); }
  }

  /** A call that alone has its identifier is replaced by a longer one. */
  lemma {:induction false} WithIdUpdate(cs: seq<ToolCall>, at: nat, c: ToolCall, id: string)
    requires at < |cs| && cs[at].id == c.id && |WithId(cs, c.id)| == 1
    ensures WithId(cs[at := c], id) == if id == c.id then [c] else WithId(cs, id)
    ensures WithId(cs, c.id) == [cs[at]]
  {
    var front, last := cs[..|cs| - 1], cs[|cs| - 1];
    if at == |cs| - 1 {
      assert cs[at := c] == front + [c];
      WithIdSnoc(front, c, id);
    } else {
      assert cs[at := c] == front[at := c] + [last];
      assert cs == front + [last];
      WithIdSnoc(front[at := c], last, id);
      WithIdNone(front, c.id);
      assert front[at].id == c.id;
      WithIdUpdate(front, at, c, id);
    }
  }

  lemma AbsorbFuses(calls: seq<ToolCall>, cs: seq<ToolCall>, c: ToolCall, id: string)
    requires WithId(calls, id) == if id == "" then WithId(cs, id) else Fused(cs, id)
    requires WithId(calls, c.id) == if c.id == "" then WithId(cs, c.id) else Fused(cs, c.id)
    ensures WithId(Absorb(calls, c), id) == if id == "" then WithId(cs + [c], id) else Fused(cs + [c], id)
  {
    hide WithId, AllNames, AllArguments;
    WithIdSnoc(cs, c, id);
    WithIdSnoc(WithId(cs, id), c, id);
    WithIdNone(calls, c.id);
    NoCalls();
    var at := Find(calls, c.id);
    if c.id != "" && at < |calls| {
      var longer := Absorb(calls, c)[at];
      WithIdUpdate(calls, at, longer, id);
      assert WithId(calls, c.id) == [calls[at]] == Fused(cs, c.id);
      if id == c.id {
        assert Fused(cs + [c], id) == [longer];
      }
    } else {
      assert Absorb(calls, c) == calls + [c];
      WithIdSnoc(calls, c, id);
      if id == c.id != "" {
        assert WithId(calls, id) == [] && WithId(cs, id) == [];
        assert "" + c.name == c.name && "" + c.arguments == c.arguments;
        assert Fused(cs + [c], id) == [c];
      }
    }
  }

  lemma NoCalls()
    ensures AllNames([]) == "" && AllArguments([]) == "" && forall id :: WithId([], id) == []
  {
  }

  /** Calls without an identifier are kept one by one; those that share one are collected as
      one call, its name and arguments in the order sent. */
  lemma {:induction false} SharedIdsFuse(told: seq<Chunk>, cs: seq<ToolCall>, id: string)
    requires Collected(told).calls == []
    ensures WithId(Collected(told + CallChunks(cs)).calls, id) == if id == "" then WithId(cs, id) else Fused(cs, id)
    decreases |cs|
  {
    hide Collected, CallChunks, Absorb, WithId;
    NoCalls();
    if cs == [] {
      NoChunks(told);
    } else {
      var front, c := cs[..|cs| - 1], cs[|cs| - 1];
      SharedIdsFuse(told, front, id);
      SharedIdsFuse(told, front, c.id);
      ChunksSnoc(told, front, c);
      assert cs == front + [c];
      CollectedSnoc(told + CallChunks(front), Call(c));
      AbsorbFuses(Collected(told + CallChunks(front)).calls, front, c, id);
    }
  }

  // ----- usage -----

  predicate Reports(l: Line, tokens: nat) {
    l.Event? && l.usage == tokens > 0
  }

  /** The usage is that of the last event that reports one. */
  predicate LastReport(lines: seq<Line>, usage: Option<nat>) {
    if usage.None? then forall i :: 0 <= i < |lines| ==> lines[i].Event? ==> lines[i].usage == 0
    else
      exists i :: 0 <= i < |lines| && Reports(lines[i], usage.value) && forall j :: i < j < |lines| && lines[j].Event? ==> lines[j].usage == 0
  }

  lemma LastReportSnoc(lines: seq<Line>, l: Line, usage: Option<nat>)
    requires LastReport(lines, usage)
    ensures LastReport(lines + [l], if l.Event? && l.usage > 0 then Some(l.usage) else usage)
  {
    var all := lines + [l];
    if l.Event? && l.usage > 0 {
      assert Reports(all[|lines|], l.usage);
    } else if usage.Some? {
      var i :| 0 <= i < |lines| && Reports(lines[i], usage.value) && forall j :: i < j < |lines| && lines[j].Event? ==> lines[j].usage == 0;
      assert Reports(all[i], usage.value);
    }
  }

  lemma ToldSnoc(lines: seq<Line>, l: Line)
    ensures Told(lines + [l]) == Told(lines) + ToldOf(l)
    ensures ToldOf(l) == [] ==> Told(lines + [l]) == Told(lines)
  {
    assert (lines + [l])[..|lines|] == lines;
  }

  lemma {:induction false} ToldUsage(lines: seq<Line>)
    ensures LastReport(lines, Collected(Told(lines)).usage)
  {
    if lines == [] {
      assert Told(lines) == [];
    } else {
      hide Collected, Absorb, Told, LastReport;
      var front, l := lines[..|lines| - 1], lines[|lines| - 1];
      ToldUsage(front);
      assert lines == front + [l];
      ToldSnoc(front, l);
      if ToldOf(l) != [] { CollectedSnoc(Told(front), ToldOf(l)[0]); }
      LastReportSnoc(front, l, Collected(Told(front)).usage);
    }
  }

  lemma {:induction false} CallsReportNothing(told: seq<Chunk>, m: map<int, ToolCall>, keys: seq<int>)
    requires forall i :: 0 <= i < |keys| ==> keys[i] in m
    ensures Collected(told + Flushed(m, keys)).usage == Collected(told).usage
    ensures Collected(told + Flushed(m, keys)).content == Collected(told).content
    decreases |keys|
  {
    hide Collected;
    if keys == [] {
      assert told + Flushed(m, keys) == told;
    } else {
      var front := keys[..|keys| - 1];
      CallsReportNothing(told, m, front);
      assert told + Flushed(m, keys) == told + Flushed(m, front) + [Call(m[keys[|keys| - 1]])];
      CollectedSnoc(told + Flushed(m, front), Call(m[keys[|keys| - 1]]));
    }
  }

  /** What a streamed turn is charged by: the collected usage is the one reported last before
      the end mark, and there is none exactly when none was reported. */
  lemma UsageCollects(lines: seq<Line>)
    ensures LastReport(BeforeStop(lines), Collected(Pumped(lines)).usage)
    ensures Collected(Pumped(lines)).content == Texts(BeforeStop(lines))
  {
    hide Collected, Flushed, LastReport, Told, Texts, MergeAll, Fragments, BeforeStop;
    var seen := BeforeStop(lines);
    var m := MergeAll(map[], Fragments(seen));
    KeysListed(m);
    ToldUsage(seen);
    ToldCollects(seen);
    CallsReportNothing(Told(seen), m, Ascending(m.Keys));
  }

  /** What is left of a line when an event that reports usage, or has no choice, is stripped. */
  function Bare(l: Line): Line {
    if !l.Event? then l
    else if l.usage > 0 then Event(l.usage, false, "", [])
    else if !l.hasChoice then Ignored
    else l
  }

  function BareAll(lines: seq<Line>): seq<Line> {
    seq(|lines|, i requires 0 <= i < |lines| => Bare(lines[i]))
  }

  lemma {:induction false} BareStop(lines: seq<Line>)
    ensures BeforeStop(BareAll(lines)) == BareAll(BeforeStop(lines))
  {
    if lines != [] && !lines[0].Stop? {
      BareStop(lines[1..]);
      assert BareAll(lines)[1..] == BareAll(lines[1..]);
      assert BareAll([lines[0]] + BeforeStop(lines[1..])) == [Bare(lines[0])] + BareAll(BeforeStop(lines[1..]));
    }
  }

  lemma {:induction false} BareSame(lines: seq<Line>)
    ensures Told(BareAll(lines)) == Told(lines) && Fragments(BareAll(lines)) == Fragments(lines)
  {
    if lines != [] {
      BareSame(lines[..|lines| - 1]);
      assert BareAll(lines)[..|lines| - 1] == BareAll(lines[..|lines| - 1]);
    }
  }

  /** Text and calls beside a usage report, or without a choice, are not looked at. */
  lemma ReportsStandAlone(lines: seq<Line>)
    ensures Pumped(BareAll(lines)) == Pumped(lines)
  {
    hide Told, Fragments, MergeAll, Flushed;
    BareStop(lines);
    BareSame(BeforeStop(lines));
  }

  // ----- the programs -----

  /** What a consumer that closes after `room` chunks receives. */
  function Received(chunks: seq<Chunk>, room: nat): seq<Chunk> {
    if |chunks| <= room then chunks else chunks[..room]
  }

  /** Everything sent when the context is found expired at line `expiry`, if the scan gets there. */
  function PumpedUntil(lines: seq<Line>, expiry: nat): seq<Chunk> {
    if expiry < |lines| && BeforeStop(lines[..expiry]) == lines[..expiry] then Told(lines[..expiry]) else Pumped(lines)
  }

  lemma {:induction false} ToldNoCall(lines: seq<Line>)
    ensures forall i :: 0 <= i < |Told(lines)| ==> !Told(lines)[i].Call?
  {
    if lines != [] { ToldNoCall(lines[..|lines| - 1]); }
  }

  /** A context that expires before the end mark and before the last line silences every call;
      the text and usage of the lines scanned have been sent.  Otherwise it makes no difference. */
  lemma ExpirySilencesCalls(lines: seq<Line>, expiry: nat)
    ensures var sent := PumpedUntil(lines, expiry);
            if expiry < |lines| && (forall j :: 0 <= j < expiry ==> !lines[j].Stop?) then
              && (forall i :: 0 <= i < |sent| ==> !sent[i].Call?)
              && Collected(sent).content == Texts(lines[..expiry]) && LastReport(lines[..expiry], Collected(sent).usage)
            else sent == Pumped(lines)
  {
    hide Collected, Told, Texts, BeforeStop, Pumped, LastReport;
    if expiry < |lines| {
      BeforeStopWhole(lines[..expiry]);
      ToldNoCall(lines[..expiry]);
      ToldCollects(lines[..expiry]);
      ToldUsage(lines[..expiry]);
    }
  }

  /** pumpSSE's flush: the finished calls by ascending index, until the consumer closes. */
  method FlushCalls(merged: map<int, ToolCall>, before: seq<Chunk>, room: nat)
    returns (sent: seq<Chunk>, left: map<int, ToolCall>, open: bool)
    requires |before| <= room
    ensures AscendingIn(merged) && sent == Received(before + Flushed(merged, Ascending(merged.Keys)), room)
    ensures if open then left == map[] else |sent| == room
  {
    hide Ascending, Listed, Flushed;
    KeysListed(merged);
    var keys := Ascending(merged.Keys);
    ListedNone(keys);
    FlushedSize(merged, keys);
    sent, left, open := before, merged, true;
    ghost var all := before + Flushed(merged, keys);
    for i := 0 to |keys|
      invariant left.Keys == merged.Keys - Listed(keys, i)
      invariant sent == before + Flushed(merged, keys)[..i] && |sent| <= room
    {
      left := left - {keys[i]};
      ListedNext(keys, i);
      FlushedNext(merged, keys, i);
      if |sent| == room {
        assert all[..room] == sent;
        return sent, left, false;
      }
      sent := sent + [Call(merged[keys[i]])];
    }
    assert left.Keys == {};
  }

  function Listed(keys: seq<int>, k: nat): set<int>
    requires k <= |keys|
  {
    set i | 0 <= i < k :: keys[i]
  }

  lemma ListedNone(keys: seq<int>)
    ensures Listed(keys, 0) == {}
  {
  }

  lemma ListedNext(keys: seq<int>, i: nat)
    requires i < |keys|
    ensures Listed(keys, i + 1) == Listed(keys, i) + {keys[i]}
  {
  }

  lemma FlushedSize(m: map<int, ToolCall>, keys: seq<int>)
    requires forall i :: 0 <= i < |keys| ==> keys[i] in m
    ensures |Flushed(m, keys)| == |keys|
  {
  }

  lemma FlushedNext(m: map<int, ToolCall>, keys: seq<int>, i: nat)
    requires i < |keys| && forall j :: 0 <= j < |keys| ==> keys[j] in m
    ensures |Flushed(m, keys)| == |keys| && Flushed(m, keys)[..i + 1] == Flushed(m, keys)[..i] + [Call(m[keys[i]])]
  {
  }

  predicate AscendingIn(m: map<int, ToolCall>) {
    forall i :: 0 <= i < |Ascending(m.Keys)| ==> Ascending(m.Keys)[i] in m
  }

  lemma KeysListed(m: map<int, ToolCall>)
    ensures AscendingIn(m) && m.Keys == Listed(Ascending(m.Keys), |Ascending(m.Keys)|)
  {
    AscendingExact(m.Keys);
    var keys := Ascending(m.Keys);
    forall i | 0 <= i < |keys| ensures keys[i] in m {
      assert keys[i] in keys;
    }
    forall k | k in m ensures k in Listed(keys, |keys|) {
      assert k in keys;
    }
  }

  /** pumpSSE: text and usage at once, calls when the round ends; an expired context ends
      the stream without sending any call. */
  method PumpSSE(lines: seq<Line>, expiry: nat, room: nat) returns (sent: seq<Chunk>)
    ensures sent == Received(PumpedUntil(lines, expiry), room)
    ensures sent <= PumpedUntil(lines, expiry) && |sent| <= room && (|sent| < room ==> sent == PumpedUntil(lines, expiry))
  {
    hide Told, MergeAll, Fragments, Flushed, Ascending, BeforeStop;
    sent := [];
    var merged: map<int, ToolCall> := map[];
    PumpStart();
    var i: nat := 0;
    while i < |lines| && !lines[i].Stop?
      invariant i <= |lines| && i <= expiry && |sent| <= room
      invariant forall j :: 0 <= j < i ==> !lines[j].Stop?
      invariant sent == Told(lines[..i]) && merged == MergeAll(map[], Fragments(lines[..i]))
    {
      if i == expiry {
        BeforeStopAt(lines[..i], i);
        assert lines[..i][..i] == lines[..i];
        return;
      }
      var l := lines[i];
      PumpStep(lines, i);
      if l.Event? && l.usage > 0 {
        if |sent| == room {
          PumpClosed(lines, expiry, i);
          return;
        }
        sent := sent + [Usage(l.usage)];
      } else if l.Event? && l.hasChoice {
        if l.content != "" {
          if |sent| == room {
            PumpClosed(lines, expiry, i);
            return;
          }
          sent := sent + [Text(l.content)];
        }
        merged := MergeLine(merged, l.calls);
      }
      i := i + 1;
    }
    if i < |lines| && i == expiry {
      BeforeStopAt(lines[..i], i);
      assert lines[..i][..i] == lines[..i];
      return;
    }
    BeforeStopAt(lines, i);
    NotExpired(lines, expiry, i);
    var open;
    sent, merged, open := FlushCalls(merged, sent, room);
    assert sent == Received(Pumped(lines), room);
    // After the end mark the calls are flushed once more: nothing is left, or nobody listens.
    FlushAgain(merged, sent, room);
    sent, merged, open := FlushCalls(merged, sent, room);
  }

  method MergeLine(before: map<int, ToolCall>, calls: seq<Fragment>) returns (merged: map<int, ToolCall>)
    ensures merged == MergeAll(before, calls)
  {
    merged := before;
    for k := 0 to |calls|
      invariant merged == MergeAll(before, calls[..k])
    {
      assert calls[..k + 1][..k] == calls[..k];
      merged := Merge(merged, calls[k]);
    }
    assert calls[..|calls|] == calls;
  }

  lemma PumpStart()
    ensures Told([]) == [] && MergeAll(map[], Fragments([])) == map[]
  {
  }

  lemma PumpStep(lines: seq<Line>, i: nat)
    requires i < |lines|
    ensures Told(lines[..i + 1]) == Told(lines[..i]) + ToldOf(lines[i])
    ensures Fragments(lines[..i + 1]) == Fragments(lines[..i]) + FragmentsOf(lines[i])
    ensures MergeAll(map[], Fragments(lines[..i + 1])) == MergeAll(MergeAll(map[], Fragments(lines[..i])), FragmentsOf(lines[i]))
    ensures MergeAll(MergeAll(map[], Fragments(lines[..i])), []) == MergeAll(map[], Fragments(lines[..i]))
  {
    assert lines[..i + 1][..i] == lines[..i];
    MergeAppend(map[], Fragments(lines[..i]), FragmentsOf(lines[i]));
  }

  lemma {:induction false} MergeAppend(m: map<int, ToolCall>, a: seq<Fragment>, b: seq<Fragment>)
    ensures MergeAll(m, a + b) == MergeAll(MergeAll(m, a), b)
  {
    hide Merge;
    if b == [] {
      assert a + b == a;
    } else {
      var front := b[..|b| - 1];
      MergeAppend(m, a, front);
      assert (a + b)[..|a + b| - 1] == a + front;
    }
  }

  lemma {:induction false} BeforeStopAt(lines: seq<Line>, k: nat)
    requires k <= |lines| && (forall j :: 0 <= j < k ==> !lines[j].Stop?) && (k == |lines| || lines[k].Stop?)
    ensures BeforeStop(lines) == lines[..k]
  {
    if k > 0 {
      BeforeStopAt(lines[1..], k - 1);
      assert lines[1..][..k - 1] == lines[1..k];
      assert lines[..k] == [lines[0]] + lines[1..k];
    }
  }

  lemma {:induction false} BeforeStopWhole(lines: seq<Line>)
    ensures BeforeStop(lines) == lines <==> forall j :: 0 <= j < |lines| ==> !lines[j].Stop?
    ensures BeforeStop(lines) <= lines
  {
    if lines != [] && !lines[0].Stop? {
      BeforeStopWhole(lines[1..]);
      assert lines == [lines[0]] + lines[1..];
      assert BeforeStop(lines)[1..] == BeforeStop(lines[1..]);
    }
  }

  /** The scan ended, or met the end mark, before the context expired. */
  lemma NotExpired(lines: seq<Line>, expiry: nat, i: nat)
    requires i <= |lines| && i <= expiry && (i == |lines| || (lines[i].Stop? && i < expiry))
    ensures PumpedUntil(lines, expiry) == Pumped(lines)
  {
    if expiry < |lines| {
      BeforeStopWhole(lines[..expiry]);
      assert lines[..expiry][i].Stop?;
    }
  }

  /** The consumer closed at line i: the rest does not matter. */
  lemma PumpClosed(lines: seq<Line>, expiry: nat, i: nat)
    requires i < |lines| && i < expiry && ToldOf(lines[i]) != []
    requires forall j :: 0 <= j <= i ==> !lines[j].Stop?
    ensures Told(lines[..i]) < PumpedUntil(lines, expiry)
  {
    hide Flushed, MergeAll, Fragments, Told, ToldOf, BeforeStop, Ascending;
    PumpStep(lines, i);
    assert Told(lines[..i]) < Told(lines[..i + 1]);
    if expiry < |lines| && BeforeStop(lines[..expiry]) == lines[..expiry] {
      assert lines[..expiry][..i + 1] == lines[..i + 1];
      ToldPrefix(lines[..expiry], i + 1);
    } else {
      StopLater(lines, i);
      var seen := BeforeStop(lines);
      assert seen[..i + 1] == lines[..i + 1];
      ToldPrefix(seen, i + 1);
    }
  }

  lemma {:induction false} StopLater(lines: seq<Line>, i: nat)
    requires i < |lines| && forall j :: 0 <= j <= i ==> !lines[j].Stop?
    ensures i < |BeforeStop(lines)| && BeforeStop(lines) <= lines
  {
    BeforeStopWhole(lines);
    if i > 0 { StopLater(lines[1..], i - 1); }
  }

  lemma {:induction false} ToldPrefix(lines: seq<Line>, k: nat)
    requires k <= |lines|
    ensures Told(lines[..k]) <= Told(lines)
    decreases |lines|
  {
    if k == |lines| {
      assert lines[..k] == lines;
    } else {
      var front := lines[..|lines| - 1];
      ToldPrefix(front, k);
      assert front[..k] == lines[..k];
    }
  }

  lemma FlushAgain(left: map<int, ToolCall>, sent: seq<Chunk>, room: nat)
    requires |sent| <= room && (left == map[] || |sent| == room)
    ensures AscendingIn(left) && Received(sent + Flushed(left, Ascending(left.Keys)), room) == sent
  {
    KeysListed(left);
    assert (sent + Flushed(left, Ascending(left.Keys)))[..|sent|] == sent;
  }

  /** collectStream: a broken stream gives no message; otherwise the merged message, whose
      text is what was forwarded. */
  method CollectStream(chunks: seq<Chunk>, broken: bool) returns (r: Option<Message>, deltas: string)
    ensures r == if broken then None else Some(Collected(chunks))
    ensures deltas == Collected(chunks).content
  {
    hide Collected;
    CollectedNone();
    var content, usage := "", None;
    var calls: seq<ToolCall> := [];
    var byID: map<string, nat> := map[];
    deltas := "";
    for k := 0 to |chunks|
      invariant Collected(chunks[..k]) == Message(content, calls, usage) && deltas == content
      invariant Indexed(byID, calls)
    {
      assert chunks[..k + 1] == chunks[..k] + [chunks[k]];
      CollectedSnoc(chunks[..k], chunks[k]);
      match chunks[k] {
        case Text(text) =>
          content := content + text;
          deltas := deltas + text;
        case Call(call) =>
          if call.id in byID && call.id != "" {
            IndexedContinue(byID, calls, call);
            var at := byID[call.id];
            calls := calls[at := calls[at].(name := calls[at].name + call.name, arguments := calls[at].arguments + call.arguments)];
          } else {
            IndexedNew(byID, calls, call);
            byID := byID[call.id := |calls|];
            calls := calls + [call];
          }
        case Usage(tokens) => usage := Some(tokens);
      }
    }
    assert chunks[..|chunks|] == chunks;
    r := if broken then None else Some(Message(content, calls, usage));
  }

  predicate Indexed(byID: map<string, nat>, calls: seq<ToolCall>) {
    && (forall id :: id in byID && id != "" ==> byID[id] < |calls| && byID[id] == Find(calls, id))
    && (forall i :: 0 <= i < |calls| && calls[i].id != "" ==> calls[i].id in byID)
  }

  lemma IndexedContinue(byID: map<string, nat>, calls: seq<ToolCall>, c: ToolCall)
    requires Indexed(byID, calls) && c.id in byID && c.id != ""
    ensures byID[c.id] < |calls| && byID[c.id] == Find(calls, c.id) && Indexed(byID, Absorb(calls, c))
  {
    hide Find;
    var after := Absorb(calls, c);
    forall id | id in byID && id != "" ensures byID[id] < |after| && byID[id] == Find(after, id) {
      FindSame(calls, after, id);
    }
  }

  lemma IndexedNew(byID: map<string, nat>, calls: seq<ToolCall>, c: ToolCall)
    requires Indexed(byID, calls) && !(c.id in byID && c.id != "")
    ensures Absorb(calls, c) == calls + [c] && Indexed(byID[c.id := |calls|], calls + [c])
  {
    hide Find;
    var after, byID' := calls + [c], byID[c.id := |calls|];
    forall id | id in byID' && id != "" ensures byID'[id] < |after| && byID'[id] == Find(after, id) {
      if id != c.id {
        FindSame(calls, after, id);
      } else {
        assert after[|calls|].id == id;
        assert forall i :: 0 <= i < |calls| ==> after[i].id == calls[i].id != id;
      }
    }
  }

  lemma FindSame(a: seq<ToolCall>, b: seq<ToolCall>, id: string)
    requires |a| <= |b| && Find(a, id) < |a| && forall i :: 0 <= i < |a| ==> a[i].id == b[i].id
    ensures Find(b, id) == Find(a, id)
  {
  }
}
