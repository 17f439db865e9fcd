/** One agent run under a budget: the plain loop, the streaming loop, the ledger they charge
    and the gate that admits runs. */
module AgentRun {
  import opened Wrappers
  import opened ToolStream

  /** The limits of one run; a limit that is not positive stands for its default. */
  datatype Budget = Budget(
    maxRounds: int, maxTokens: int, reserve: int, maxOutput: int, totalSeconds: int, toolSeconds: int,
    maxCallsPerTool: int, maxConcurrent: int, maxUserCalls: int)

  predicate Positive(b: Budget) {
    && b.maxRounds > 0 && b.maxTokens > 0 && b.reserve > 0 && b.maxOutput > 0 && b.totalSeconds > 0
    && b.toolSeconds > 0 && b.maxCallsPerTool > 0 && b.maxConcurrent > 0 && b.maxUserCalls > 0
  }

  function Default(value: int, otherwise: int): (v: int)
    ensures otherwise > 0 ==> v > 0
    ensures value > 0 ==> v == value
  {
    if value <= 0 then otherwise else value
  }

  /** withDefaults: every limit is positive afterwards, and a budget that has them all is kept. */
  function WithDefaults(b: Budget): (r: Budget)
    ensures Positive(r) && (Positive(b) ==> r == b)
  {
    Budget(Default(b.maxRounds, 8), Default(b.maxTokens, 20000), Default(b.reserve, 2000), Default(b.maxOutput, 1024),
           Default(b.totalSeconds, 120), Default(b.toolSeconds, 20), Default(b.maxCallsPerTool, 10),
           Default(b.maxConcurrent, 4), Default(b.maxUserCalls, 100))
  }

  /** A message of the conversation: text, proposed calls, and for a tool's answer the call it belongs to. */
  datatype Msg = Msg(content: string, calls: seq<ToolCall>, answers: Option<string>)

  /** What an error's text says, which is all the loop looks at. */
  datatype ToolError = ToolError(namesBudget: bool, namesCancel: bool)

  /** An unknown tool, bad arguments or a denial; or a tool that would run if its cap allows. */
  datatype Attempt = Rejected(detail: string, error: ToolError) | Runs(output: string, failure: Option<ToolError>)

  datatype Reply = Refusal | NoMessage | Answer(m: Message)

  datatype Ending = NotEnded | TokensSpent | RoundsSpent | ToolEnded(error: ToolError)

  datatype RunResult = RunResult(text: string, rounds: nat, toolCalls: nat, budgetEnd: bool, terminated: Ending)

  datatype RunError = NotAdmitted | ContextExpired | TurnFailed

  /** The outside world: the model's plain and streamed answers, the tools, and the rounds at
      which the context is found expired. */
  datatype World = World(
    generate: (seq<Msg>, int) -> Reply,
    stream: (seq<Msg>, int) -> Option<seq<Chunk>>,
    breaks: (seq<Msg>, int) -> bool,
    tool: (seq<Msg>, ToolCall) -> Attempt,
    expired: nat -> bool)

  // ----- accounting -----

  function CallSize(calls: seq<ToolCall>): nat {
    if calls == [] then 0
    else
      var c := calls[|calls| - 1];
      CallSize(calls[..|calls| - 1]) + |c.id| + |c.name| + |c.arguments| + 32
  }

  function Size(messages: seq<Msg>): nat {
    if messages == [] then 0
    else
      var m := messages[|messages| - 1];
      Size(messages[..|messages| - 1]) + |m.content| + 64 + CallSize(m.calls)
  }

  /** The output cap of one turn, or None when the budget cannot cover it. */
  function Allowance(b: Budget, spent: int, messages: seq<Msg>): (a: Option<int>)
    ensures a.Some? <==> b.maxOutput >= 1 && spent + Size(messages) / 4 < b.maxTokens
    ensures a.Some? ==> 1 <= a.value <= b.maxOutput && spent + Size(messages) / 4 + a.value <= b.maxTokens
    ensures a.Some? && a.value < b.maxOutput ==> spent + Size(messages) / 4 + a.value == b.maxTokens
  {
    var remaining := b.maxTokens - spent;
    var estimate := Size(messages) / 4;
    if remaining <= 0 || estimate >= remaining then None
    else
      var capped := if b.maxOutput > remaining - estimate then remaining - estimate else b.maxOutput;
      if capped < 1 then None else Some(capped)
  }

  /** The usage a vendor reports, if it does. */
  function Reported(m: Message): Option<nat> {
    if m.usage.Some? && m.usage.value > 0 then m.usage else None
  }

  /** What a turn is charged: the vendor's report, or the reserve when it is silent. */
  function Charge(b: Budget, m: Message): int {
    if Reported(m).Some? then Reported(m).value else b.reserve
  }

  // ----- a run as a function of the world -----

  /** One answered vendor call: what was spent before it, its input estimate, its cap, its
      charge, and whether the vendor reported no usage. */
  datatype Turn = Turn(spent: int, estimate: int, allowance: int, charge: int, silent: bool)

  /** One vendor call as it is made: the conversation and the output cap. */
  datatype Dial = Dial(messages: seq<Msg>, allowance: int)

  /** `executed` lists the tools run, in order; `dials` the vendor calls made and `turns` those
      that were answered. */
  datatype Progress = Progress(
    messages: seq<Msg>, tokens: int, charged: map<string, nat>, executed: seq<string>, result: RunResult,
    dials: seq<Dial>, turns: seq<Turn>)

  datatype Outcome = Outcome(at: Progress, failure: Option<RunError>)

  function Count(m: map<string, nat>, k: string): nat {
    if k in m then m[k] else 0
  }

  function Stops(e: Option<ToolError>): bool {
    e.Some? && (e.value.namesBudget || e.value.namesCancel)
  }

  const CAP_EXCEEDED := ToolError(true, false)

  /** One proposed call: it is charged before it runs, and runs only within its cap. */
  function Invoke(w: World, b: Budget, p: Progress, c: ToolCall): (Progress, Option<ToolError>) {
    match w.tool(p.messages, c)
    case Rejected(detail, error) =>
      (p.(messages := p.messages + [Msg(detail, [], Some(c.id))]), Some(error))
    case Runs(output, failure) =>
      var charged := p.charged[c.name := Count(p.charged, c.name) + 1];
      if charged[c.name] > b.maxCallsPerTool then
        (p.(charged := charged, messages := p.messages + [Msg("call cap exceeded", [], Some(c.id))]), Some(CAP_EXCEEDED))
      else
        (p.(charged := charged, executed := p.executed + [c.name],
            messages := p.messages + [Msg(output, [], Some(c.id))],
            result := p.result.(toolCalls := p.result.toolCalls + 1)), failure)
  }

  /** The proposed calls in order, until one ends the run. */
  function InvokeAll(w: World, b: Budget, p: Progress, cs: seq<ToolCall>): (Progress, bool)
    decreases |cs|
  {
    if cs == [] then (p, false)
    else
      var (next, error) := Invoke(w, b, p, cs[0]);
      if Stops(error) then
        (next.(result := next.result.(budgetEnd := error.value.namesBudget, terminated := ToolEnded(error.value))), true)
      else InvokeAll(w, b, next, cs[1..])
  }

  function Rounds(reply: (seq<Msg>, int) -> Reply, w: World, b: Budget, p: Progress, round: nat): Outcome
    decreases b.maxRounds - round
  {
    if round >= b.maxRounds then Outcome(p.(result := p.result.(budgetEnd := true, terminated := RoundsSpent)), None)
    else if w.expired(round) then Outcome(p, Some(ContextExpired))
    else
      var a := Allowance(b, p.tokens, p.messages);
      if a.None? then Outcome(Exhausted(p), None)
      else
        var asked := Asked(p, a.value);
        match reply(p.messages, a.value)
        case Refusal => Outcome(asked, Some(TurnFailed))
        case NoMessage => Outcome(asked, Some(TurnFailed))
        case Answer(m) =>
          var charged := Charged(b, asked, m, a.value);
          if charged.tokens > b.maxTokens then Outcome(Exhausted(charged), None)
          else
            var counted := charged.(result := charged.result.(rounds := round + 1));
            if m.calls == [] then Outcome(counted.(result := counted.result.(text := m.content)), None)
            else
              var (after, ended) := InvokeAll(w, b, counted.(messages := counted.messages + [Msg(m.content, m.calls, None)]), m.calls);
              if ended then Outcome(after, None) else Rounds(reply, w, b, after, round + 1)
  }

  function Exhausted(p: Progress): Progress {
    p.(result := p.result.(budgetEnd := true, terminated := TokensSpent))
  }

  function Asked(p: Progress, allowance: int): Progress {
    p.(dials := p.dials + [Dial(p.messages, allowance)])
  }

  function Charged(b: Budget, p: Progress, m: Message, allowance: int): Progress {
    p.(tokens := p.tokens + Charge(b, m), turns := p.turns + [Turn(p.tokens, Size(p.messages) / 4, allowance, Charge(b, m), Reported(m).None?)])
  }

  function Begin(input: seq<Msg>): Progress {
    Progress(input, 0, map[], [], RunResult("", 0, 0, false, NotEnded), [], [])
  }

  /** A streamed answer, merged. */
  function Streamed(w: World): (seq<Msg>, int) -> Reply {
    (messages, allowance) =>
      if w.stream(messages, allowance).None? || w.breaks(messages, allowance) then Refusal
      else Answer(Collected(w.stream(messages, allowance).value))
  }

  // ----- both loops agree -----

  /** Two replies a run cannot tell apart: neither is an answer, or both say the same. */
  predicate SameReply(x: Reply, y: Reply) {
    if x.Answer? then y.Answer? && x.m.content == y.m.content && x.m.calls == y.m.calls && Reported(x.m) == Reported(y.m)
    else !y.Answer?
  }

  /** The streams of these conversations merge to the plain answers. */
  predicate Merges(w: World, dials: seq<Dial>) {
    forall i :: 0 <= i < |dials| ==>
      SameReply(w.generate(dials[i].messages, dials[i].allowance), Streamed(w)(dials[i].messages, dials[i].allowance))
  }

  lemma {:induction false} InvokeAllDials(w: World, b: Budget, p: Progress, cs: seq<ToolCall>)
    ensures InvokeAll(w, b, p, cs).0.dials == p.dials
    decreases |cs|
  {
    if cs != [] { InvokeAllDials(w, b, Invoke(w, b, p, cs[0]).0, cs[1..]); }
  }

  lemma {:induction false} DialsGrow(reply: (seq<Msg>, int) -> Reply, w: World, b: Budget, p: Progress, round: nat)
    ensures p.dials <= Rounds(reply, w, b, p, round).at.dials
    decreases b.maxRounds - round
  {
    hide InvokeAll, Allowance, Charge, Reported;
    if round < b.maxRounds && !w.expired(round) {
      var a := Allowance(b, p.tokens, p.messages);
      if a.Some? && reply(p.messages, a.value).Answer? {
        var next := Answered(b, p, reply(p.messages, a.value).m, a.value, round);
        InvokeAllDials(w, b, next, reply(p.messages, a.value).m.calls);
        DialsGrow(reply, w, b, InvokeAll(w, b, next, reply(p.messages, a.value).m.calls).0, round + 1);
      }
    }
  }

  /** The progress with which the calls of an answer are served. */
  function Answered(b: Budget, p: Progress, m: Message, allowance: int, round: nat): Progress {
    var charged := Charged(b, Asked(p, allowance), m, allowance);
    charged.(result := charged.result.(rounds := round + 1), messages := charged.messages + [Msg(m.content, m.calls, None)])
  }

  /** Run and RunStream take the same course and end the same way when the streams of the
      conversations the plain run meets merge to its answers; what a stream would do on any
      other conversation does not matter. */
  lemma {:induction false} LoopsAgree(w: World, b: Budget, p: Progress, round: nat)
    requires Merges(w, Rounds(w.generate, w, b, p, round).at.dials)
    ensures Rounds(w.generate, w, b, p, round) == Rounds(Streamed(w), w, b, p, round)
    decreases b.maxRounds - round
  {
    hide InvokeAll, Allowance, Reported, SameReply, Streamed;
    if round < b.maxRounds && !w.expired(round) {
      var a := Allowance(b, p.tokens, p.messages);
      if a.Some? {
        var o := Rounds(w.generate, w, b, p, round);
        var x, y := w.generate(p.messages, a.value), Streamed(w)(p.messages, a.value);
        Meets(w.generate, w, b, p, round);
        assert o.at.dials[|p.dials|] == Dial(p.messages, a.value);
        SameReplies(b, x, y);
        if x.Answer? {
          var next := Answered(b, p, x.m, a.value, round);
          assert Answered(b, p, y.m, a.value, round) == next;
          if x.m.calls != [] && !InvokeAll(w, b, next, x.m.calls).1 && Charged(b, Asked(p, a.value), x.m, a.value).tokens <= b.maxTokens {
            LoopsAgree(w, b, InvokeAll(w, b, next, x.m.calls).0, round + 1);
          }
        }
      }
    }
  }

  lemma SameReplies(b: Budget, x: Reply, y: Reply)
    requires SameReply(x, y)
    ensures x.Answer? <==> y.Answer?
    ensures x.Answer? ==> x.m.content == y.m.content && x.m.calls == y.m.calls && Reported(x.m) == Reported(y.m) && Charge(b, x.m) == Charge(b, y.m)
  {
  }

  /** A run that dials meets that conversation next. */
  lemma Meets(reply: (seq<Msg>, int) -> Reply, w: World, b: Budget, p: Progress, round: nat)
    requires round < b.maxRounds && !w.expired(round) && Allowance(b, p.tokens, p.messages).Some?
    ensures Asked(p, Allowance(b, p.tokens, p.messages).value).dials <= Rounds(reply, w, b, p, round).at.dials
  {
    hide InvokeAll, Allowance, Charge, Reported;
    var a := Allowance(b, p.tokens, p.messages).value;
    if reply(p.messages, a).Answer? {
      var next := Answered(b, p, reply(p.messages, a).m, a, round);
      InvokeAllDials(w, b, next, reply(p.messages, a).m.calls);
      DialsGrow(reply, w, b, InvokeAll(w, b, next, reply(p.messages, a).m.calls).0, round + 1);
    }
  }

  // ----- the budget holds -----

  function Total(turns: seq<Turn>): int {
    if turns == [] then 0 else Total(turns[..|turns| - 1]) + turns[|turns| - 1].charge
  }

  function Capped(n: nat, cap: int): int {
    if n <= cap then n else cap
  }

  /** What holds between rounds: the ledger holds the sum of the charges, every vendor call
      was affordable, and a tool ran once per charge up to its cap. */
  ghost predicate Sound(b: Budget, p: Progress) {
    && p.tokens == Total(p.turns)
    && (forall i :: 0 <= i < |p.turns| ==> Affordable(b, p.turns, i))
    && p.result.toolCalls == |p.executed|
    && ToolsCapped(b, p)
  }

  predicate Affordable(b: Budget, turns: seq<Turn>, i: nat)
    requires i < |turns|
  {
    && turns[i].spent == Total(turns[..i]) && turns[i].estimate >= 0 && 1 <= turns[i].allowance <= b.maxOutput
    && turns[i].spent + turns[i].estimate + turns[i].allowance <= b.maxTokens && turns[i].charge > 0
    && (turns[i].silent ==> turns[i].charge == b.reserve)
  }

  ghost predicate ToolsCapped(b: Budget, p: Progress) {
    forall n :: multiset(p.executed)[n] == Capped(Count(p.charged, n), b.maxCallsPerTool)
  }

  lemma InvokeSound(w: World, b: Budget, p: Progress, c: ToolCall)
    requires Positive(b) && Sound(b, p)
    ensures var (q, e) := Invoke(w, b, p, c);
            Sound(b, q) && q.turns == p.turns && q.result == p.result.(toolCalls := q.result.toolCalls)
  {
    hide Total, Affordable, ToolsCapped, Count;
    var (q, e) := Invoke(w, b, p, c);
    Executes(b, p, q, c);
  }

  lemma Executes(b: Budget, p: Progress, q: Progress, c: ToolCall)
    requires ToolsCapped(b, p) && b.maxCallsPerTool > 0
    requires (q.charged == p.charged && q.executed == p.executed)
             || (q.charged == p.charged[c.name := Count(p.charged, c.name) + 1]
                 && q.executed == if q.charged[c.name] > b.maxCallsPerTool then p.executed else p.executed + [c.name])
    ensures ToolsCapped(b, q)
  {
    forall n ensures multiset(q.executed)[n] == Capped(Count(q.charged, n), b.maxCallsPerTool) {
      assert multiset(p.executed)[n] == Capped(Count(p.charged, n), b.maxCallsPerTool);
    }
  }

  lemma {:induction false} InvokeAllSound(w: World, b: Budget, p: Progress, cs: seq<ToolCall>)
    requires Positive(b) && Sound(b, p)
    ensures var (q, ended) := InvokeAll(w, b, p, cs);
            && Sound(b, q) && q.turns == p.turns && q.result.rounds == p.result.rounds && q.result.text == p.result.text
            && (!ended ==> q.result == p.result.(toolCalls := q.result.toolCalls))
            && (ended ==> q.result.terminated.ToolEnded? && q.result.budgetEnd == q.result.terminated.error.namesBudget)
    decreases |cs|
  {
    hide Sound, Invoke;
    if cs != [] {
      InvokeSound(w, b, p, cs[0]);
      var (next, error) := Invoke(w, b, p, cs[0]);
      if Stops(error) {
        SoundApart(b, next, next.result.(budgetEnd := error.value.namesBudget, terminated := ToolEnded(error.value)));
      } else {
        InvokeAllSound(w, b, next, cs[1..]);
      }
    }
  }

  lemma SoundApart(b: Budget, p: Progress, r: RunResult)
    requires Sound(b, p) && r.toolCalls == p.result.toolCalls
    ensures Sound(b, p.(result := r))
    ensures forall ms :: Sound(b, p.(result := r, messages := ms))
  {
  }

  lemma AskedSound(b: Budget, p: Progress, a: int)
    requires Sound(b, p)
    ensures Sound(b, Asked(p, a))
  {
  }

  /** A charge runs no tool. */
  lemma ChargedTools(b: Budget, p: Progress, m: Message, a: int)
    requires ToolsCapped(b, p)
    ensures ToolsCapped(b, Asked(p, a)) && ToolsCapped(b, Charged(b, Asked(p, a), m, a))
  {
  }

  lemma ChargedSound(b: Budget, p: Progress, m: Message, a: int)
    requires Positive(b) && Sound(b, p) && Allowance(b, p.tokens, p.messages) == Some(a)
    ensures Sound(b, Asked(p, a)) && Sound(b, Charged(b, Asked(p, a), m, a))
  {
    hide ToolsCapped;
    ChargedTools(b, p, m, a);
    var q := Charged(b, Asked(p, a), m, a);
    assert q.turns[..|q.turns| - 1] == p.turns;
    forall i | 0 <= i < |q.turns| ensures Affordable(b, q.turns, i) {
      if i < |p.turns| {
        assert Affordable(b, p.turns, i);
        assert q.turns[..i] == p.turns[..i];
      }
    }
  }

  predicate BudgetEnding(e: Ending) {
    e == TokensSpent || e == RoundsSpent || (e.ToolEnded? && e.error.namesBudget)
  }

  /** What a run leaves behind. */
  ghost predicate Ended(b: Budget, o: Outcome) {
    && Sound(b, o.at)
    && o.at.result.rounds <= |o.at.turns| <= b.maxRounds
    && (o.at.tokens > b.maxTokens ==> o.failure.None? && o.at.result.terminated == TokensSpent)
    && (o.failure.Some? ==> o.at.result.text == "" && !o.at.result.budgetEnd && o.at.result.terminated == NotEnded)
    && (o.at.result.terminated != NotEnded ==> o.at.result.text == "")
    && (o.at.result.budgetEnd == BudgetEnding(o.at.result.terminated))
  }

  lemma {:induction false} RoundsEnd(reply: (seq<Msg>, int) -> Reply, w: World, b: Budget, p: Progress, round: nat)
    requires Positive(b) && Sound(b, p) && |p.turns| == round == p.result.rounds && round <= b.maxRounds && p.tokens <= b.maxTokens
    requires p.result.text == "" && !p.result.budgetEnd && p.result.terminated == NotEnded
    ensures Ended(b, Rounds(reply, w, b, p, round))
    decreases b.maxRounds - round
  {
    hide Sound, InvokeAll, Allowance, Charge;
    SoundApart(b, p, p.result.(budgetEnd := true, terminated := RoundsSpent));
    SoundApart(b, p, p.result.(budgetEnd := true, terminated := TokensSpent));
    if round < b.maxRounds && !w.expired(round) {
      var a := Allowance(b, p.tokens, p.messages);
      if a.Some? {
        var r := reply(p.messages, a.value);
        AskedSound(b, p, a.value);
        if r.Answer? {
          ChargedSound(b, p, r.m, a.value);
          var charged := Charged(b, Asked(p, a.value), r.m, a.value);
          SoundApart(b, charged, charged.result.(budgetEnd := true, terminated := TokensSpent));
          SoundApart(b, charged, charged.result.(rounds := round + 1));
          SoundApart(b, charged, charged.result.(rounds := round + 1, text := r.m.content));
          if charged.tokens <= b.maxTokens && r.m.calls != [] {
            var next := charged.(result := charged.result.(rounds := round + 1),
                                 messages := charged.messages + [Msg(r.m.content, r.m.calls, None)]);
            assert Sound(b, next);
            InvokeAllSound(w, b, next, r.m.calls);
            TokensSame(b, next, InvokeAll(w, b, next, r.m.calls).0);
            if !InvokeAll(w, b, next, r.m.calls).1 {
              RoundsEnd(reply, w, b, InvokeAll(w, b, next, r.m.calls).0, round + 1);
            }
          }
        }
      }
    }
  }

  lemma TokensSame(b: Budget, p: Progress, q: Progress)
    requires Sound(b, p) && Sound(b, q) && p.turns == q.turns
    ensures p.tokens == q.tokens
  {
  }

  /** The budget holds over every run: rounds and executions are capped, every vendor call
      is made with room for its input estimate and its output cap, and what is spent beyond
      the budget is spent by the last call alone. */
  lemma BudgetHolds(reply: (seq<Msg>, int) -> Reply, w: World, b: Budget, input: seq<Msg>)
    requires Positive(b)
    ensures var o := Rounds(reply, w, b, Begin(input), 0);
            && Ended(b, o)
            && (forall i :: 0 <= i < |o.at.turns| ==> o.at.turns[i].spent < b.maxTokens)
            && (forall n :: multiset(o.at.executed)[n] <= b.maxCallsPerTool)
            && (o.at.turns != [] ==>
                  var t := o.at.turns[|o.at.turns| - 1];
                  && Affordable(b, o.at.turns, |o.at.turns| - 1)
                  && o.at.tokens == t.spent + t.charge
                  && o.at.tokens - b.maxTokens <= t.charge - t.estimate - t.allowance)
            && (o.at.turns == [] ==> o.at.tokens == 0)
  {
    hide Rounds;
    assert Sound(b, Begin(input));
    RoundsEnd(reply, w, b, Begin(input), 0);
    var o := Rounds(reply, w, b, Begin(input), 0);
    forall i | 0 <= i < |o.at.turns| ensures o.at.turns[i].spent < b.maxTokens {
      assert Affordable(b, o.at.turns, i);
    }
    forall n ensures multiset(o.at.executed)[n] <= b.maxCallsPerTool {
      assert multiset(o.at.executed)[n] == Capped(Count(o.at.charged, n), b.maxCallsPerTool);
    }
    if o.at.turns != [] {
      assert Affordable(b, o.at.turns, |o.at.turns| - 1);
    }
  }

  /** The vendor keeps its reports within the input estimate and the output cap. */
  predicate ReportsKept(turns: seq<Turn>) {
    forall i :: 0 <= i < |turns| ==> turns[i].silent || turns[i].charge <= turns[i].estimate + turns[i].allowance
  }

  /** With such a vendor a run spends more than its budget exactly when its last call stayed
      silent although the reserve was more than what was left, which is known before the
      call; the excess is less than the reserve. */
  lemma OverspentIff(reply: (seq<Msg>, int) -> Reply, w: World, b: Budget, input: seq<Msg>)
    requires Positive(b) && ReportsKept(Rounds(reply, w, b, Begin(input), 0).at.turns)
    ensures var at := Rounds(reply, w, b, Begin(input), 0).at;
            && (at.tokens > b.maxTokens <==>
                  at.turns != [] && at.turns[|at.turns| - 1].silent && b.reserve > b.maxTokens - at.turns[|at.turns| - 1].spent)
            && at.tokens - b.maxTokens < b.reserve
  {
    hide Rounds;
    BudgetHolds(reply, w, b, input);
  }

  /** A run that overspends: the vendor answers one question and reports no usage. */
  lemma Overspends() returns (b: Budget, w: World, input: seq<Msg>)
    ensures Positive(b) && Rounds(w.generate, w, b, Begin(input), 0).at.tokens > b.maxTokens
    ensures ReportsKept(Rounds(w.generate, w, b, Begin(input), 0).at.turns)
  {
    b := Budget(8, 500, 2000, 100, 120, 20, 10, 4, 100);
    var m := Message("yes", [], None);
    w := World((ms, a) => Answer(m), (ms, a) => None, (ms, a) => false, (ms, c) => Rejected("", ToolError(false, false)), r => false);
    input := [Msg("well?", [], None)];
    var p := Begin(input);
    assert input[..0] == [];
    assert Size(input) == 69 && Allowance(b, 0, input) == Some(100);
    assert w.generate(input, 100) == Answer(m);
    assert Rounds(w.generate, w, b, p, 0).at.turns == [Turn(0, 17, 100, 2000, true)];
  }

  // ----- the course of a run -----

  /** What a tool has to say about a call. */
  function Says(a: Attempt): string {
    match a
    case Rejected(detail, _) => detail
    case Runs(output, _) => output
  }

  /** How the tool failed, if it did. */
  function Fails(a: Attempt): Option<ToolError> {
    match a
    case Rejected(_, error) => Some(error)
    case Runs(_, failure) => failure
  }

  /** A served call: the tool sees the conversation up to it, the next message answers the
      call's id with what the tool said, and the failure, if any, does not end the run. */
  predicate Answers(w: World, before: seq<Msg>, c: ToolCall, message: Msg) {
    var error := Fails(w.tool(before, c));
    message == Msg(Says(w.tool(before, c)), [], Some(c.id)) && (error.Some? ==> !error.value.namesBudget && !error.value.namesCancel)
  }

  /** The first k calls were served, in order and one message each. */
  predicate Serves(w: World, before: seq<Msg>, cs: seq<ToolCall>, after: seq<Msg>, k: nat) {
    && k <= |cs| && |before| + k <= |after| && before <= after
    && forall j :: 0 <= j < k ==> Answers(w, after[..|before| + j], cs[j], after[|before| + j])
  }

  /** The call that ends a run: its own failure stops the run, or its tool was called too often. */
  predicate Cuts(w: World, b: Budget, before: seq<Msg>, c: ToolCall, p: Progress, e: ToolError) {
    && (e.namesBudget || e.namesCancel) && |p.messages| == |before| + 1 && before <= p.messages
    && ((Fails(w.tool(before, c)) == Some(e) && p.messages[|before|] == Msg(Says(w.tool(before, c)), [], Some(c.id)))
        || (w.tool(before, c).Runs? && e == CAP_EXCEEDED && Count(p.charged, c.name) > b.maxCallsPerTool))
  }

  predicate CutAt(w: World, b: Budget, before: seq<Msg>, cs: seq<ToolCall>, p: Progress, e: ToolError, k: nat) {
    k < |cs| && |before| + k <= |p.messages| && Serves(w, before, cs, p.messages, k) && Cuts(w, b, p.messages[..|before| + k], cs[k], p, e)
  }

  predicate Cut(w: World, b: Budget, before: seq<Msg>, cs: seq<ToolCall>, p: Progress, e: ToolError) {
    exists k :: 0 <= k < |cs| && CutAt(w, b, before, cs, p, e, k)
  }

  /** The tools run for these calls, the first of which is answered at position `from`. */
  function RanFor(w: World, from: nat, cs: seq<ToolCall>, after: seq<Msg>): seq<string>
    decreases |cs|
  {
    if cs == [] || from > |after| then []
    else (if w.tool(after[..from], cs[0]).Runs? then [cs[0].name] else []) + RanFor(w, from + 1, cs[1..], after)
  }

  /** The same when the run ends with one of the calls: its tool ran unless it was called too often. */
  function RanCut(w: World, b: Budget, from: nat, cs: seq<ToolCall>, p: Progress): seq<string> {
    var k := |p.messages| - from - 1;
    if !(0 <= k < |cs|) then []
    else
      RanFor(w, from, cs[..k], p.messages)
        + (if w.tool(p.messages[..from + k], cs[k]).Runs? && Count(p.charged, cs[k].name) <= b.maxCallsPerTool then [cs[k].name] else [])
  }

  lemma InvokeRan(w: World, b: Budget, p: Progress, c: ToolCall)
    ensures var (q, error) := Invoke(w, b, p, c);
            && |q.messages| == |p.messages| + 1 && p.messages <= q.messages
            && q.executed == p.executed + (if w.tool(p.messages, c).Runs? && Count(q.charged, c.name) <= b.maxCallsPerTool then [c.name] else [])
            && (!Stops(error) && w.tool(p.messages, c).Runs? ==> Count(q.charged, c.name) <= b.maxCallsPerTool)
  {
  }

  lemma RanForFirst(w: World, before: seq<Msg>, cs: seq<ToolCall>, after: seq<Msg>)
    requires cs != [] && before <= after
    ensures RanFor(w, |before|, cs, after)
            == (if w.tool(before, cs[0]).Runs? then [cs[0].name] else []) + RanFor(w, |before| + 1, cs[1..], after)
  {
    assert after[..|before|] == before;
  }

  lemma RanCutFirst(w: World, b: Budget, before: seq<Msg>, cs: seq<ToolCall>, p: Progress)
    requires cs != [] && before <= p.messages && 0 < |p.messages| - |before| - 1 < |cs|
    ensures RanCut(w, b, |before|, cs, p)
            == (if w.tool(before, cs[0]).Runs? then [cs[0].name] else []) + RanCut(w, b, |before| + 1, cs[1..], p)
  {
    var k := |p.messages| - |before| - 1;
    assert cs[..k][0] == cs[0] && cs[..k][1..] == cs[1..][..k - 1] && cs[1..][k - 1] == cs[k];
    RanForFirst(w, before, cs[..k], p.messages);
  }

  lemma RanCutNone(w: World, b: Budget, before: seq<Msg>, cs: seq<ToolCall>, p: Progress)
    requires cs != [] && before <= p.messages && |p.messages| == |before| + 1
    ensures RanCut(w, b, |before|, cs, p)
            == if w.tool(before, cs[0]).Runs? && Count(p.charged, cs[0].name) <= b.maxCallsPerTool then [cs[0].name] else []
  {
    assert p.messages[..|before|] == before && cs[..0] == [];
  }

  function RanAll(w: World, b: Budget, from: nat, cs: seq<ToolCall>, p: Progress, ended: bool): seq<string> {
    if ended then RanCut(w, b, from, cs, p) else RanFor(w, from, cs, p.messages)
  }

  lemma RanAllFirst(w: World, b: Budget, before: seq<Msg>, cs: seq<ToolCall>, p: Progress, ended: bool)
    requires cs != [] && before <= p.messages && (ended ==> 0 < |p.messages| - |before| - 1 < |cs|)
    ensures RanAll(w, b, |before|, cs, p, ended)
            == (if w.tool(before, cs[0]).Runs? then [cs[0].name] else []) + RanAll(w, b, |before| + 1, cs[1..], p, ended)
  {
    hide RanCut, RanFor;
    if ended { RanCutFirst(w, b, before, cs, p); } else { RanForFirst(w, before, cs, p.messages); }
  }

  lemma {:induction false} InvokeAllLength(w: World, b: Budget, p: Progress, cs: seq<ToolCall>)
    ensures var (q, ended) := InvokeAll(w, b, p, cs);
            p.messages <= q.messages && (ended ==> 0 <= |q.messages| - |p.messages| - 1 < |cs|)
    decreases |cs|
  {
    if cs != [] {
      InvokeRan(w, b, p, cs[0]);
      hide Invoke, Stops;
      InvokeAllLength(w, b, Invoke(w, b, p, cs[0]).0, cs[1..]);
    }
  }

  lemma {:induction false} InvokeAllRan(w: World, b: Budget, p: Progress, cs: seq<ToolCall>)
    ensures var (q, ended) := InvokeAll(w, b, p, cs);
            q.executed == p.executed + RanAll(w, b, |p.messages|, cs, q, ended)
    decreases |cs|
  {
    if cs != [] {
      var (next, error) := Invoke(w, b, p, cs[0]);
      var (q, ended) := InvokeAll(w, b, p, cs);
      InvokeRan(w, b, p, cs[0]);
      hide Invoke, Count, RanFor, Stops;
      if Stops(error) {
        RanCutNone(w, b, p.messages, cs, q);
      } else {
        hide RanAll;
        InvokeAllLength(w, b, p, cs);
        InvokeAllLength(w, b, next, cs[1..]);
        InvokeAllRan(w, b, next, cs[1..]);
        RanAllFirst(w, b, p.messages, cs, q, ended);
        var first, rest := if w.tool(p.messages, cs[0]).Runs? then [cs[0].name] else [], RanAll(w, b, |p.messages| + 1, cs[1..], q, ended);
        Regroup(p.executed, next.executed, first, rest);
      }
    }
  }

  lemma Regroup(a: seq<string>, ab: seq<string>, b: seq<string>, c: seq<string>)
    requires ab == a + b
    ensures ab + c == a + (b + c)
  {
  }

  lemma ServesFirst(w: World, before: seq<Msg>, cs: seq<ToolCall>, message: Msg, after: seq<Msg>, k: nat)
    requires cs != [] && Answers(w, before, cs[0], message) && Serves(w, before + [message], cs[1..], after, k)
    ensures Serves(w, before, cs, after, k + 1)
  {
    hide Answers;
    assert after[..|before|] == before && after[|before|] == message;
    forall j | 0 <= j < k + 1 ensures Answers(w, after[..|before| + j], cs[j], after[|before| + j]) {
      if j > 0 { assert cs[1..][j - 1] == cs[j]; }
    }
  }

  /** One call leaves one message: the tool's answer, or the end of the run. */
  lemma InvokeTells(w: World, b: Budget, p: Progress, c: ToolCall)
    ensures var (q, error) := Invoke(w, b, p, c);
            && |q.messages| == |p.messages| + 1 && q.messages == p.messages + [q.messages[|p.messages|]]
            && (if Stops(error) then forall r :: Cuts(w, b, p.messages, c, q.(result := r), error.value)
                else Answers(w, p.messages, c, q.messages[|p.messages|]))
  {
  }

  lemma CutFirst(w: World, b: Budget, before: seq<Msg>, cs: seq<ToolCall>, p: Progress, e: ToolError)
    requires cs != [] && Cuts(w, b, before, cs[0], p, e)
    ensures Cut(w, b, before, cs, p, e)
  {
    assert p.messages[..|before|] == before;
    assert CutAt(w, b, before, cs, p, e, 0);
  }

  lemma {:induction false} InvokeAllServes(w: World, b: Budget, p: Progress, cs: seq<ToolCall>)
    ensures var (q, ended) := InvokeAll(w, b, p, cs);
            if ended then q.result.terminated.ToolEnded? && Cut(w, b, p.messages, cs, q, q.result.terminated.error)
            else |q.messages| == |p.messages| + |cs| && Serves(w, p.messages, cs, q.messages, |cs|)
    decreases |cs|
  {
    if cs != [] {
      var (next, error) := Invoke(w, b, p, cs[0]);
      var (q, ended) := InvokeAll(w, b, p, cs);
      InvokeTells(w, b, p, cs[0]);
      hide Invoke, Answers, Serves, Cuts;
      if Stops(error) {
        CutFirst(w, b, p.messages, cs, q, error.value);
      } else {
        InvokeAllServes(w, b, next, cs[1..]);
        if ended {
          var k :| 0 <= k < |cs[1..]| && CutAt(w, b, next.messages, cs[1..], q, q.result.terminated.error, k);
          ServesFirst(w, p.messages, cs, next.messages[|p.messages|], q.messages, k);
          assert CutAt(w, b, p.messages, cs, q, q.result.terminated.error, k + 1) by {
            assert cs[1..][k] == cs[k + 1];
          }
        } else {
          ServesFirst(w, p.messages, cs, next.messages[|p.messages|], q.messages, |cs| - 1);
        }
      }
    }
  }

  /** The conversation that follows a vendor call: the answer is added, and after it one
      message for each of its calls. */
  predicate Continues(reply: (seq<Msg>, int) -> Reply, w: World, d: Dial, next: seq<Msg>) {
    var r := reply(d.messages, d.allowance);
    && r.Answer? && r.m.calls != [] && |next| == |d.messages| + 1 + |r.m.calls|
    && Serves(w, d.messages + [Msg(r.m.content, r.m.calls, None)], r.m.calls, next, |r.m.calls|)
  }

  /** A turn is charged what its answer reports, or the reserve when it reports nothing. */
  predicate Billed(reply: (seq<Msg>, int) -> Reply, b: Budget, d: Dial, t: Turn) {
    var r := reply(d.messages, d.allowance);
    && r.Answer? && t.allowance == d.allowance && t.estimate == Size(d.messages) / 4
    && (t.silent <==> r.m.usage.None? || r.m.usage.value == 0)
    && t.charge == if t.silent then b.reserve else r.m.usage.value
  }

  /** The tools run by a run, in order, when the conversation after its vendor calls is `next`. */
  function Ran(reply: (seq<Msg>, int) -> Reply, w: World, dials: seq<Dial>, next: seq<Msg>): seq<string>
    decreases |dials|
  {
    if dials == [] then []
    else
      var d := dials[|dials| - 1];
      var r := reply(d.messages, d.allowance);
      Ran(reply, w, dials[..|dials| - 1], d.messages) + (if r.Answer? then RanFor(w, |d.messages| + 1, r.m.calls, next) else [])
  }

  /** The conversation a run has come to, and the tools it has run. */
  predicate Leads(reply: (seq<Msg>, int) -> Reply, w: World, input: seq<Msg>, p: Progress) {
    && (if p.dials == [] then p.messages == input else Continues(reply, w, p.dials[|p.dials| - 1], p.messages))
    && p.executed == Ran(reply, w, p.dials, p.messages)
  }

  /** The vendor calls of a run: the first is made with the input, each later one with the
      conversation that follows the one before, none after the context was found expired,
      and each answer is charged. */
  ghost predicate Course(reply: (seq<Msg>, int) -> Reply, w: World, b: Budget, input: seq<Msg>, p: Progress) {
    && (p.dials != [] ==> p.dials[0].messages == input)
    && (forall i :: 0 < i < |p.dials| ==> Continues(reply, w, p.dials[i - 1], p.dials[i].messages))
    && (forall i :: 0 <= i < |p.dials| ==> !w.expired(i))
    && |p.turns| <= |p.dials|
    && (forall i :: 0 <= i < |p.turns| ==> Billed(reply, b, p.dials[i], p.turns[i]))
  }

  /** How a run ends.  Without a failure and not cut short, its text is the last answer, which
      proposes no call; every other end has its cause. */
  ghost predicate Closes(reply: (seq<Msg>, int) -> Reply, w: World, b: Budget, input: seq<Msg>, o: Outcome) {
    var p, n := o.at, |o.at.dials|;
    match o.failure
    case Some(NotAdmitted) => false
    case Some(TurnFailed) =>
      n > 0 && !Last(reply, p).Answer? && |p.turns| == p.result.rounds == n - 1 && p.executed == RanBefore(reply, w, p)
    case Some(ContextExpired) =>
      |p.turns| == p.result.rounds == n < b.maxRounds && w.expired(n) && Leads(reply, w, input, p)
    case None =>
      |p.turns| == n && p.result.rounds == (if p.tokens > b.maxTokens then n - 1 else n) &&
      match p.result.terminated
      case NotEnded =>
        && n > 0 && Last(reply, p).Answer? && Last(reply, p).m.calls == [] && p.result.text == Last(reply, p).m.content
        && p.executed == RanBefore(reply, w, p)
      case RoundsSpent => n == b.maxRounds && Leads(reply, w, input, p)
      case TokensSpent =>
        if p.tokens > b.maxTokens then n > 0 && p.executed == RanBefore(reply, w, p)
        else Leads(reply, w, input, p) && p.tokens + Size(p.messages) / 4 >= b.maxTokens
      case ToolEnded(e) =>
        n > 0 && Last(reply, p).Answer? &&
        var m, before := Last(reply, p).m, p.dials[n - 1].messages;
        && Cut(w, b, before + [Msg(m.content, m.calls, None)], m.calls, p, e)
        && p.executed == RanBefore(reply, w, p) + RanCut(w, b, |before| + 1, m.calls, p)
  }

  /** The reply to the last vendor call. */
  function Last(reply: (seq<Msg>, int) -> Reply, p: Progress): Reply
    requires p.dials != []
  {
    reply(p.dials[|p.dials| - 1].messages, p.dials[|p.dials| - 1].allowance)
  }

  /** The tools run before the last vendor call. */
  function RanBefore(reply: (seq<Msg>, int) -> Reply, w: World, p: Progress): seq<string>
    requires p.dials != []
  {
    Ran(reply, w, p.dials[..|p.dials| - 1], p.dials[|p.dials| - 1].messages)
  }

  lemma CourseAsked(reply: (seq<Msg>, int) -> Reply, w: World, b: Budget, input: seq<Msg>, p: Progress, a: int)
    requires Course(reply, w, b, input, p) && Leads(reply, w, input, p) && !w.expired(|p.dials|)
    ensures Course(reply, w, b, input, Asked(p, a))
  {
    hide Continues, Billed;
  }

  lemma CourseAnswered(reply: (seq<Msg>, int) -> Reply, w: World, b: Budget, input: seq<Msg>, p: Progress, a: int)
    requires Course(reply, w, b, input, p) && Leads(reply, w, input, p) && !w.expired(|p.dials|) && |p.turns| == |p.dials|
    requires reply(p.messages, a).Answer?
    ensures Course(reply, w, b, input, Charged(b, Asked(p, a), reply(p.messages, a).m, a))
  {
    hide Continues;
    CourseAsked(reply, w, b, input, p, a);
    var q := Charged(b, Asked(p, a), reply(p.messages, a).m, a);
    forall i | 0 <= i < |q.turns| ensures Billed(reply, b, q.dials[i], q.turns[i]) {
      if i < |p.turns| { assert Billed(reply, b, p.dials[i], p.turns[i]); }
    }
  }

  /** What a course says depends on the vendor calls and turns only. */
  lemma CourseSame(reply: (seq<Msg>, int) -> Reply, w: World, b: Budget, input: seq<Msg>, p: Progress, q: Progress)
    requires Course(reply, w, b, input, p) && q.dials == p.dials && q.turns == p.turns
    ensures Course(reply, w, b, input, q)
  {
    hide Continues, Billed;
  }

  lemma {:induction false} InvokeAllKeeps(w: World, b: Budget, p: Progress, cs: seq<ToolCall>)
    ensures var (q, ended) := InvokeAll(w, b, p, cs);
            && q.dials == p.dials && q.turns == p.turns && q.tokens == p.tokens && q.result.rounds == p.result.rounds
            && (!ended ==> q.result.terminated == p.result.terminated)
    decreases |cs|
  {
    if cs != [] { InvokeAllKeeps(w, b, Invoke(w, b, p, cs[0]).0, cs[1..]); }
  }

  /** A vendor call is made with the conversation come to, and after the tools run by then. */
  lemma AskedLast(reply: (seq<Msg>, int) -> Reply, w: World, input: seq<Msg>, p: Progress, a: int, q: Progress)
    requires Leads(reply, w, input, p) && q.dials == Asked(p, a).dials
    ensures Last(reply, q) == reply(p.messages, a) && RanBefore(reply, w, q) == p.executed
    ensures q.dials[|q.dials| - 1].messages == p.messages
  {
    hide Continues;
    assert q.dials[..|q.dials| - 1] == p.dials;
  }

  /** A call answered, and its own calls served, lead on. */
  lemma ServedLeads(reply: (seq<Msg>, int) -> Reply, w: World, input: seq<Msg>, p: Progress, a: int, answered: seq<Msg>, after: Progress)
    requires var r := reply(p.messages, a);
             && Leads(reply, w, input, p) && after.dials == Asked(p, a).dials
             && r.Answer? && r.m.calls != [] && answered == p.messages + [Msg(r.m.content, r.m.calls, None)]
             && |after.messages| == |answered| + |r.m.calls| && Serves(w, answered, r.m.calls, after.messages, |r.m.calls|)
             && after.executed == p.executed + RanFor(w, |answered|, r.m.calls, after.messages)
    ensures Leads(reply, w, input, after)
  {
    hide Serves, RanFor;
    AskedLast(reply, w, input, p, a, after);
  }

  /** Every run takes its course and closes. */
  lemma {:induction false} RoundsCourse(reply: (seq<Msg>, int) -> Reply, w: World, b: Budget, input: seq<Msg>, p: Progress, round: nat)
    requires Positive(b) && Course(reply, w, b, input, p) && Leads(reply, w, input, p)
    requires round <= b.maxRounds && |p.turns| == |p.dials| == p.result.rounds == round
    requires p.tokens <= b.maxTokens && p.result.terminated == NotEnded
    ensures var o := Rounds(reply, w, b, p, round); Course(reply, w, b, input, o.at) && Closes(reply, w, b, input, o)
    decreases b.maxRounds - round
  {
    hide Course, Leads, RanBefore, Last, Size, Allowance, InvokeAll, Cut, Serves, Charge, Reported, RanFor, RanCut;
    var o := Rounds(reply, w, b, p, round);
    LeadsApart(reply, w, input, p);
    CourseSame(reply, w, b, input, p, p.(result := p.result.(budgetEnd := true, terminated := RoundsSpent)));
    CourseSame(reply, w, b, input, p, Exhausted(p));
    if round < b.maxRounds && !w.expired(round) {
      var a := Allowance(b, p.tokens, p.messages);
      if a.Some? {
        var r := reply(p.messages, a.value);
        CourseAsked(reply, w, b, input, p, a.value);
        if !r.Answer? {
          AskedLast(reply, w, input, p, a.value, o.at);
        } else {
          CourseAnswered(reply, w, b, input, p, a.value);
          var charged := Charged(b, Asked(p, a.value), r.m, a.value);
          if charged.tokens > b.maxTokens || r.m.calls == [] {
            AskedLast(reply, w, input, p, a.value, o.at);
            CourseSame(reply, w, b, input, charged, o.at);
          } else {
            var next := Answered(b, p, r.m, a.value, round);
            var (after, ended) := InvokeAll(w, b, next, r.m.calls);
            InvokeAllKeeps(w, b, next, r.m.calls);
            InvokeAllServes(w, b, next, r.m.calls);
            InvokeAllRan(w, b, next, r.m.calls);
            CourseSame(reply, w, b, input, charged, after);
            if ended {
              AskedLast(reply, w, input, p, a.value, after);
            } else {
              ServedLeads(reply, w, input, p, a.value, next.messages, after);
              RoundsCourse(reply, w, b, input, after, round + 1);
            }
          }
        }
      }
    }
  }

  lemma LeadsApart(reply: (seq<Msg>, int) -> Reply, w: World, input: seq<Msg>, p: Progress)
    requires Leads(reply, w, input, p)
    ensures forall r :: Leads(reply, w, input, p.(result := r))
  {
  }

  /** A whole run, from its input. */
  lemma RunTakesCourse(reply: (seq<Msg>, int) -> Reply, w: World, b: Budget, input: seq<Msg>)
    requires Positive(b)
    ensures var o := Rounds(reply, w, b, Begin(input), 0); Course(reply, w, b, input, o.at) && Closes(reply, w, b, input, o)
  {
    hide Rounds;
    RoundsCourse(reply, w, b, input, Begin(input), 0);
  }

  /** The text a caller hears over the vendor calls of a streamed run. */
  function Heard(w: World, dials: seq<Dial>): string {
    if dials == [] then ""
    else
      var d := dials[|dials| - 1];
      var stream := w.stream(d.messages, d.allowance);
      Heard(w, dials[..|dials| - 1]) + (if stream.None? then "" else Collected(stream.value).content)
  }

  lemma HeardNothing(w: World)
    ensures Heard(w, []) == ""
  {
  }

  lemma HeardNext(w: World, p: Progress, a: int)
    ensures Heard(w, Asked(p, a).dials)
            == Heard(w, p.dials) + (if w.stream(p.messages, a).None? then "" else Collected(w.stream(p.messages, a).value).content)
  {
    assert Asked(p, a).dials[..|p.dials|] == p.dials;
  }

  /** A streamed run that is not cut short has forwarded its text last. */
  lemma HeardEndsWithText(w: World, b: Budget, input: seq<Msg>)
    requires Positive(b)
    ensures var o := Rounds(Streamed(w), w, b, Begin(input), 0);
            o.failure.None? && o.at.result.terminated == NotEnded ==>
              exists before :: Heard(w, o.at.dials) == before + o.at.result.text
  {
    hide Rounds, Course;
    var o := Rounds(Streamed(w), w, b, Begin(input), 0);
    RunTakesCourse(Streamed(w), w, b, input);
    if o.failure.None? && o.at.result.terminated == NotEnded {
      var d := o.at.dials[|o.at.dials| - 1];
      assert Heard(w, o.at.dials) == Heard(w, o.at.dials[..|o.at.dials| - 1]) + o.at.result.text;
    }
  }

  // ----- the programs -----

  class Ledger {
    const budget: Budget
    var tokens: int
    var calls: map<string, nat>
    var exhausted: bool

    constructor (b: Budget)
      ensures budget == b && tokens == 0 && calls == map[] && !exhausted
    {
      budget, tokens, calls, exhausted := b, 0, map[], false;
    }

    /** chargeTokens: a silent turn is charged the reserve. */
    method ChargeTokens(reported: int, hasReport: bool) returns (ok: bool)
      modifies this
      ensures tokens == old(tokens) + (if hasReport then reported else budget.reserve)
      ensures ok <==> tokens <= budget.maxTokens
      ensures exhausted <==> old(exhausted) || !ok
      ensures calls == old(calls)
    {
      tokens := tokens + (if hasReport then reported else budget.reserve);
      ok := tokens <= budget.maxTokens;
      if !ok { exhausted := true; }
    }

    /** chargeCall: the call is counted even when it exceeds the cap. */
    method ChargeCall(tool: string) returns (ok: bool)
      modifies this`calls
      ensures calls == old(calls)[tool := Count(old(calls), tool) + 1]
      ensures ok <==> calls[tool] <= budget.maxCallsPerTool
    {
      calls := calls[tool := Count(calls, tool) + 1];
      ok := calls[tool] <= budget.maxCallsPerTool;
    }
  }

  /** Admission across runs: so many at once for a user, and so many in all. */
  class Gate {
    const maxConcurrent: int
    const maxUserCalls: int
    var inflight: map<string, nat>
    var userCalls: map<string, nat>
    /** The users of the runs now open, one entry per run. */
    ghost var open: multiset<string>

    ghost predicate Valid()
      reads this
    {
      forall u :: Count(inflight, u) == open[u] <= maxConcurrent && Count(userCalls, u) <= maxUserCalls
    }

    /** Below both caps. */
    ghost predicate Admits(user: string)
      reads this
    {
      open[user] < maxConcurrent && Count(userCalls, user) < maxUserCalls
    }

    /** NewGate. */
    constructor (b: Budget)
      ensures Valid() && open == multiset{} && userCalls == map[]
      ensures maxConcurrent == WithDefaults(b).maxConcurrent && maxUserCalls == WithDefaults(b).maxUserCalls
    {
      maxConcurrent, maxUserCalls := WithDefaults(b).maxConcurrent, WithDefaults(b).maxUserCalls;
      inflight, userCalls, open := map[], map[], multiset{};
    }

    /** beginRun. */
    method BeginRun(user: string) returns (admitted: bool)
      requires Valid()
      modifies this
      ensures Valid()
      ensures admitted <==> old(Admits(user))
      ensures admitted ==> open == old(open) + multiset{user}
                           && userCalls == old(userCalls)[user := old(Count(userCalls, user)) + 1]
      ensures !admitted ==> open == old(open) && userCalls == old(userCalls)
    {
      if Count(inflight, user) >= maxConcurrent || Count(userCalls, user) >= maxUserCalls { return false; }
      inflight := inflight[user := Count(inflight, user) + 1];
      userCalls := userCalls[user := Count(userCalls, user) + 1];
      open := open + multiset{user};
      admitted := true;
    }

    /** What beginRun hands back to be called at the end of the run. */
    method Release(user: string)
      requires Valid() && user in open
      modifies this`inflight, this`open
      ensures Valid() && open == old(open) - multiset{user}
    {
      inflight := inflight[user := Count(inflight, user) - 1];
      open := open - multiset{user};
    }
  }

  /** invoke. */
  method InvokeOne(w: World, ledger: Ledger, messages: seq<Msg>, c: ToolCall, ghost p: Progress)
    returns (message: Msg, executed: bool, error: Option<ToolError>)
    requires p.messages == messages && p.charged == ledger.calls
    modifies ledger`calls
    ensures var (q, e) := Invoke(w, ledger.budget, p, c);
            && q.messages == messages + [message] && q.charged == ledger.calls && e == error
            && q.executed == (if executed then p.executed + [c.name] else p.executed)
            && q.result.toolCalls == p.result.toolCalls + (if executed then 1 else 0)
  {
    match w.tool(messages, c)
    case Rejected(detail, why) =>
      return Msg(detail, [], Some(c.id)), false, Some(why);
    case Runs(output, failure) =>
      var ok := ledger.ChargeCall(c.name);
      if !ok { return Msg("call cap exceeded", [], Some(c.id)), false, Some(CAP_EXCEEDED); }
      return Msg(output, [], Some(c.id)), true, failure;
  }

  /** The loop over one answer's calls, the same in both programs. */
  method Serve(w: World, ledger: Ledger, before: seq<Msg>, cs: seq<ToolCall>, soFar: RunResult, ghost p: Progress)
    returns (messages: seq<Msg>, result: RunResult, ended: bool, ghost q: Progress)
    requires p.messages == before && p.charged == ledger.calls && p.result == soFar
    modifies ledger`calls
    ensures (q, ended) == InvokeAll(w, ledger.budget, p, cs)
    ensures q.messages == messages && q.charged == ledger.calls && q.result == result && q.tokens == p.tokens && q.dials == p.dials
  {
    messages, result, q := before, soFar, p;
    for i := 0 to |cs|
      invariant q.messages == messages && q.charged == ledger.calls && q.result == result && q.tokens == p.tokens && q.dials == p.dials
      invariant InvokeAll(w, ledger.budget, p, cs) == InvokeAll(w, ledger.budget, q, cs[i..])
    {
      assert cs[i..][0] == cs[i] && cs[i..][1..] == cs[i + 1..];
      var message, executed, error := InvokeOne(w, ledger, messages, cs[i], q);
      messages := messages + [message];
      q := Invoke(w, ledger.budget, q, cs[i]).0;
      if executed { result := result.(toolCalls := result.toolCalls + 1); }
      if Stops(error) {
        result := result.(budgetEnd := error.value.namesBudget, terminated := ToolEnded(error.value));
        q := q.(result := result);
        return messages, result, true, q;
      }
    }
    ended := false;
  }

  /** estimateTokens. */
  method EstimateTokens(messages: seq<Msg>) returns (tokens: nat)
    ensures tokens == Size(messages) / 4
  {
    var total: nat := 0;
    for i := 0 to |messages|
      invariant total == Size(messages[..i])
    {
      assert messages[..i + 1][..i] == messages[..i];
      total := total + |messages[i].content| + 64;
      var m := messages[i];
      for k := 0 to |m.calls|
        invariant total == Size(messages[..i]) + |m.content| + 64 + CallSize(m.calls[..k])
      {
        assert m.calls[..k + 1][..k] == m.calls[..k];
        total := total + |m.calls[k].id| + |m.calls[k].name| + |m.calls[k].arguments| + 32;
      }
      assert m.calls[..|m.calls|] == m.calls;
    }
    assert messages[..|messages|] == messages;
    tokens := total / 4;
  }

  /** streamAllowance. */
  method StreamAllowance(b: Budget, ledger: Ledger, messages: seq<Msg>) returns (a: Option<int>)
    ensures a == Allowance(b, ledger.tokens, messages)
  {
    var remaining := b.maxTokens - ledger.tokens;
    if remaining <= 0 { return None; }
    var estimate := EstimateTokens(messages);
    if estimate >= remaining { return None; }
    var allowance := b.maxOutput;
    if allowance > remaining - estimate { allowance := remaining - estimate; }
    if allowance < 1 { return None; }
    a := Some(allowance);
  }

  /** How a plain turn ends: not made, not answered, or answered with the usage reported. */
  datatype TurnEnd = NotMade | NotAnswered(allowance: int) | Replied(allowance: int, answer: Message, tokens: nat, hasReport: bool)

  /** turn: its own checks before dialing, the call, and what the answer reports. */
  method PlainTurn(w: World, b: Budget, ledger: Ledger, messages: seq<Msg>) returns (end: TurnEnd)
    ensures var a := Allowance(b, ledger.tokens, messages);
            if a.None? then end == NotMade
            else if !w.generate(messages, a.value).Answer? then end == NotAnswered(a.value)
            else end.Replied? && end.allowance == a.value && end.answer == w.generate(messages, a.value).m
                 && (if end.hasReport then Some(end.tokens) else None) == Reported(end.answer)
  {
    var remaining := b.maxTokens - ledger.tokens;
    if remaining <= 0 { return NotMade; }
    var inputEstimate := EstimateTokens(messages);
    if inputEstimate >= remaining { return NotMade; }
    var allowance := b.maxOutput;
    if allowance > remaining - inputEstimate {
      allowance := remaining - inputEstimate;
    }
    if allowance < 1 { return NotMade; }
    var reply := w.generate(messages, allowance);
    match reply
    case Refusal => return NotAnswered(allowance);
    case NoMessage => return NotAnswered(allowance);
    case Answer(m) =>
      var usage := Reported(m);
      end := Replied(allowance, m, if usage.Some? then usage.value else 0, usage.Some?);
  }

  /** admit: a run whose context has already ended gives its slot back at once, but keeps its
      place in the user's quota. */
  method Admit(gate: Gate, user: string, canceled: bool) returns (admitted: bool)
    requires gate.Valid()
    modifies gate
    ensures gate.Valid()
    ensures admitted <==> user != "" && !canceled && old(gate.Admits(user))
    ensures gate.open == if admitted then old(gate.open) + multiset{user} else old(gate.open)
    ensures gate.userCalls == if user != "" && old(gate.Admits(user)) then old(gate.userCalls)[user := Count(old(gate.userCalls), user) + 1]
                              else old(gate.userCalls)
  {
    if user == "" { return false; }
    admitted := gate.BeginRun(user);
    if admitted && canceled {
      gate.Release(user);
      admitted := false;
    }
  }

  /** Run: the plain loop. */
  method Run(w: World, b: Budget, gate: Gate, user: string, canceled: bool, input: seq<Msg>)
    returns (result: Option<RunResult>, failure: Option<RunError>, ghost o: Outcome)
    requires gate.Valid()
    modifies gate
    ensures gate.Valid() && gate.open == old(gate.open)
    ensures result.Some? <==> user != "" && !canceled && old(gate.Admits(user))
    ensures gate.userCalls == if user != "" && old(gate.Admits(user)) then old(gate.userCalls)[user := Count(old(gate.userCalls), user) + 1]
                              else old(gate.userCalls)
    ensures result.Some? ==> o == Rounds(w.generate, w, WithDefaults(b), Begin(input), 0) && o.at.result == result.value && o.failure == failure
    ensures result.Some? ==> Course(w.generate, w, WithDefaults(b), input, o.at) && Closes(w.generate, w, WithDefaults(b), input, o)
  {
    o := Outcome(Begin(input), None);
    var admitted := Admit(gate, user, canceled);
    if !admitted { return None, Some(NotAdmitted), o; }
    var ledger := new Ledger(WithDefaults(b));
    var done;
    done, failure, o := PlainRounds(w, ledger, input);
    RunTakesCourse(w.generate, w, WithDefaults(b), input);
    gate.Release(user);
    result := Some(done);
  }

  method PlainRounds(w: World, ledger: Ledger, input: seq<Msg>) returns (result: RunResult, failure: Option<RunError>, ghost o: Outcome)
    requires ledger.tokens == 0 && ledger.calls == map[] && Positive(ledger.budget)
    modifies ledger
    ensures o == Rounds(w.generate, w, ledger.budget, Begin(input), 0)
    ensures o.at.result == result && o.failure == failure && o.at.tokens == ledger.tokens && o.at.charged == ledger.calls
  {
    hide Allowance, Invoke, InvokeAll;
    var messages := input;
    failure := None;
    ghost var p := Begin(input);
    result := RunResult("", 0, 0, false, NotEnded);
    for round := 0 to ledger.budget.maxRounds
      invariant Rounds(w.generate, w, ledger.budget, Begin(input), 0) == Rounds(w.generate, w, ledger.budget, p, round)
      invariant p.messages == messages && p.tokens == ledger.tokens && p.charged == ledger.calls && p.result == result
      invariant failure == None
    {
      if w.expired(round) { return result, Some(ContextExpired), Outcome(p, Some(ContextExpired)); }
      var turn := PlainTurn(w, ledger.budget, ledger, messages);
      if turn.NotMade? {
        result := result.(budgetEnd := true, terminated := TokensSpent);
        o := Outcome(Exhausted(p), None);
        return;
      }
      p := Asked(p, turn.allowance);
      if turn.NotAnswered? { return result, Some(TurnFailed), Outcome(p, Some(TurnFailed)); }
      var answer := turn.answer;
      var ok := ledger.ChargeTokens(turn.tokens, turn.hasReport);
      p := Charged(ledger.budget, p, answer, turn.allowance);
      if !ok {
        result := result.(budgetEnd := true, terminated := TokensSpent);
        o := Outcome(Exhausted(p), None);
        return;
      }
      result := result.(rounds := round + 1);
      if answer.calls == [] {
        result := result.(text := answer.content);
        o := Outcome(p.(result := result), None);
        return;
      }
      messages := messages + [Msg(answer.content, answer.calls, None)];
      p := p.(result := result, messages := messages);
      var ended;
      messages, result, ended, p := Serve(w, ledger, messages, answer.calls, result, p);
      if ended {
        o := Outcome(p, None);
        return;
      }
    }
    result := result.(budgetEnd := true, terminated := RoundsSpent);
    o := Outcome(p.(result := result), None);
  }

  /** RunStream: the streaming loop; `said` is the text forwarded to the caller. */
  method RunStream(w: World, b: Budget, gate: Gate, user: string, canceled: bool, input: seq<Msg>)
    returns (result: Option<RunResult>, failure: Option<RunError>, said: string, ghost o: Outcome)
    requires gate.Valid()
    modifies gate
    ensures gate.Valid() && gate.open == old(gate.open)
    ensures result.Some? <==> user != "" && !canceled && old(gate.Admits(user))
    ensures gate.userCalls == if user != "" && old(gate.Admits(user)) then old(gate.userCalls)[user := Count(old(gate.userCalls), user) + 1]
                              else old(gate.userCalls)
    ensures result.Some? ==> o == Rounds(Streamed(w), w, WithDefaults(b), Begin(input), 0) && o.at.result == result.value && o.failure == failure
    ensures result.Some? ==> Course(Streamed(w), w, WithDefaults(b), input, o.at) && Closes(Streamed(w), w, WithDefaults(b), input, o)
    ensures said == if result.Some? then Heard(w, o.at.dials) else ""
  {
    o, said := Outcome(Begin(input), None), "";
    var admitted := Admit(gate, user, canceled);
    if !admitted { return None, Some(NotAdmitted), said, o; }
    var ledger := new Ledger(WithDefaults(b));
    var done;
    done, failure, said, o := StreamedRounds(w, ledger, input);
    RunTakesCourse(Streamed(w), w, WithDefaults(b), input);
    gate.Release(user);
    result := Some(done);
  }

  method StreamedRounds(w: World, ledger: Ledger, input: seq<Msg>)
    returns (result: RunResult, failure: Option<RunError>, said: string, ghost o: Outcome)
    requires ledger.tokens == 0 && ledger.calls == map[] && Positive(ledger.budget)
    modifies ledger
    ensures o == Rounds(Streamed(w), w, ledger.budget, Begin(input), 0)
    ensures o.at.result == result && o.failure == failure && o.at.tokens == ledger.tokens && o.at.charged == ledger.calls
    ensures said == Heard(w, o.at.dials)
  {
    hide Allowance, Invoke, InvokeAll, Heard;
    HeardNothing(w);
    var messages := input;
    failure, said := None, "";
    ghost var p := Begin(input);
    result := RunResult("", 0, 0, false, NotEnded);
    for round := 0 to ledger.budget.maxRounds
      invariant Rounds(Streamed(w), w, ledger.budget, Begin(input), 0) == Rounds(Streamed(w), w, ledger.budget, p, round)
      invariant p.messages == messages && p.tokens == ledger.tokens && p.charged == ledger.calls && p.result == result
      invariant failure == None && said == Heard(w, p.dials)
    {
      if w.expired(round) { return result, Some(ContextExpired), said, Outcome(p, Some(ContextExpired)); }
      var a := StreamAllowance(ledger.budget, ledger, messages);
      if a.None? {
        result := result.(budgetEnd := true, terminated := TokensSpent);
        o := Outcome(Exhausted(p), None);
        return;
      }
      HeardNext(w, p, a.value);
      p := Asked(p, a.value);
      var stream := w.stream(messages, a.value);
      if stream.None? { return result, Some(TurnFailed), said, Outcome(p, Some(TurnFailed)); }
      var collected, deltas := CollectStream(stream.value, w.breaks(messages, a.value));
      said := said + deltas;
      if collected.None? { return result, Some(TurnFailed), said, Outcome(p, Some(TurnFailed)); }
      var answer := collected.value;
      var reported := answer.usage.Some? && answer.usage.value > 0;
      var ok := ledger.ChargeTokens(if reported then answer.usage.value else 0, reported);
      p := Charged(ledger.budget, p, answer, a.value);
      if !ok {
        result := result.(budgetEnd := true, terminated := TokensSpent);
        o := Outcome(Exhausted(p), None);
        return;
      }
      result := result.(rounds := round + 1);
      if answer.calls == [] {
        result := result.(text := answer.content);
        o := Outcome(p.(result := result), None);
        return;
      }
      messages := messages + [Msg(answer.content, answer.calls, None)];
      p := p.(result := result, messages := messages);
      var ended;
      messages, result, ended, p := Serve(w, ledger, messages, answer.calls, result, p);
      if ended {
        o := Outcome(p, None);
        return;
      }
    }
    result := result.(budgetEnd := true, terminated := RoundsSpent);
    o := Outcome(p.(result := result), None);
  }
}
