/**
 The multi-turn agent loop: conversation, budgets, loop detector and steering.  What the provider,
 the tools, the clock and the steering queue do in a turn is an arbitrary `Turn`; an environment
 gives one for every iteration.
 */
module AgentLoops {
  import opened Basics
  import opened Wrappers

  datatype ToolCall = ToolCall(id: string, name: string, args: string)

  datatype Message =
    | User(text: string)
    | Assistant(text: string)
    | AssistantTools(calls: seq<ToolCall>, content: string)
    | ToolResult(id: string, name: string, result: Option<string>, error: Option<string>)

  datatype Signal = Interrupt | Guidance(text: string)

  datatype ToolOutcome = Succeeded(content: string) | Reported(error: string) | Raised(error: string) | Aborted

  datatype Reply = Answered(text: string, calls: seq<ToolCall>) | TimedOut | CancelledCall | FailedCall

  datatype Turn = Turn(
    now: int, before: Option<Signal>, memory: string, reply: Reply,
    cancelled: nat -> bool, tools: nat -> ToolOutcome, after: Option<Signal>)

  datatype Reason = BudgetExceeded | Steered | ProviderTimeout | DuplicateIds | LoopFound | MaxTurns

  datatype Outcome = Finished(answer: string) | Stopped(reason: Reason) | Propagated

  // --- conversations ----------------------------------------------------------------------------

  predicate DistinctIds(calls: seq<ToolCall>) {
    forall i, j :: 0 <= i < j < |calls| ==> calls[i].id != calls[j].id
  }

  /** The messages answer the calls one for one, in order. */
  predicate Answers(results: seq<Message>, calls: seq<ToolCall>) {
    && |results| == |calls|
    && forall k :: 0 <= k < |calls| ==> results[k].ToolResult? && results[k].id == calls[k].id && results[k].name == calls[k].name
  }

  /** Every tool-call message is immediately followed by exactly its results; results stand nowhere else. */
  predicate WellFormed(messages: seq<Message>)
    decreases |messages|
  {
    if messages == [] then true
    else match messages[0]
      case User(_) => WellFormed(messages[1..])
      case Assistant(_) => WellFormed(messages[1..])
      case ToolResult(_, _, _, _) => false
      case AssistantTools(calls, _) =>
        && DistinctIds(calls) && |messages| > |calls|
        && Answers(messages[1..1 + |calls|], calls)
        && WellFormed(messages[1 + |calls|..])
  }

  lemma {:induction false} WellFormedConcat(a: seq<Message>, b: seq<Message>)
    requires WellFormed(a) && WellFormed(b)
    ensures WellFormed(a + b)
    decreases |a|
  {
    hide Answers, DistinctIds;
    if a == [] {
      assert a + b == b;
    } else {
      var skip := if a[0].AssistantTools? then 1 + |a[0].calls| else 1;
      WellFormedConcat(a[skip..], b);
      assert (a + b)[skip..] == a[skip..] + b;
      assert a[0].AssistantTools? ==> (a + b)[1..skip] == a[1..skip];
    }
  }

  lemma Talk(messages: seq<Message>, m: Message)
    requires WellFormed(messages) && (m.User? || m.Assistant?)
    ensures WellFormed(messages + [m])
  {
    assert [m][1..] == [];
    WellFormedConcat(messages, [m]);
  }

  lemma ToolBlock(messages: seq<Message>, calls: seq<ToolCall>, content: string, results: seq<Message>)
    requires WellFormed(messages) && DistinctIds(calls) && Answers(results, calls)
    ensures WellFormed(messages + [AssistantTools(calls, content)] + results)
  {
    hide *;
    OneBlock(calls, content, results);
    var block := [AssistantTools(calls, content)] + results;
    WellFormedConcat(messages, block);
    assert messages + block == messages + [AssistantTools(calls, content)] + results;
  }

  lemma OneBlock(calls: seq<ToolCall>, content: string, results: seq<Message>)
    requires DistinctIds(calls) && Answers(results, calls)
    ensures WellFormed([AssistantTools(calls, content)] + results)
  {
    var block := [AssistantTools(calls, content)] + results;
    assert block[1..1 + |calls|] == results && block[1 + |calls|..] == [];
    hide Answers, DistinctIds;
  }

  /** A well-formed conversation read at any of its tool-call messages: the results that follow answer it. */
  lemma {:induction false} ResultsFollow(messages: seq<Message>, i: nat)
    requires WellFormed(messages) && i < |messages| && messages[i].AssistantTools?
    ensures i + |messages[i].calls| < |messages| && DistinctIds(messages[i].calls)
    ensures Answers(messages[i + 1..i + 1 + |messages[i].calls|], messages[i].calls)
    decreases |messages|
  {
    var skip := if messages[0].AssistantTools? then 1 + |messages[0].calls| else 1;
    if i >= skip {
      ResultsFollow(messages[skip..], i - skip);
      assert messages[skip..][i - skip + 1..i - skip + 1 + |messages[i].calls|] == messages[i + 1..i + 1 + |messages[i].calls|];
    }
  }

  function ResultFor(call: ToolCall, outcome: ToolOutcome): (m: Message)
    ensures m.ToolResult? && m.id == call.id && m.name == call.name
  {
    match outcome
    case Succeeded(content) => ToolResult(call.id, call.name, Some(content), None)
    case Reported(error) => ToolResult(call.id, call.name, None, Some(error))
    case Raised(error) => ToolResult(call.id, call.name, None, Some(error))
    case Aborted => ToolResult(call.id, call.name, None, None)
  }

  /**
   A call ends the run when its tool propagates a cancellation, and also when it is reached with the
   cancel flag set: the loop then builds a result message that has both a result and an error, and the
   message type raises on that.
   */
  predicate Aborts(t: Turn, k: nat) { t.cancelled(k) || t.tools(k).Aborted? }

  /** The message answers the call with what its tool returned, reported or raised. */
  predicate Reports(m: Message, call: ToolCall, outcome: ToolOutcome) {
    && m.ToolResult? && m.id == call.id && m.name == call.name
    && match outcome
       case Succeeded(content) => m.result == Some(content) && m.error == None
       case Reported(error) => m.result == None && m.error == Some(error)
       case Raised(error) => m.result == None && m.error == Some(error)
       case Aborted => true
  }

  /** The results of the first n calls of a batch. */
  function Results(calls: seq<ToolCall>, t: Turn, n: nat): (results: seq<Message>)
    requires n <= |calls|
    ensures Answers(results, calls[..n])
  {
    if n == 0 then []
    else
      assert calls[..n][..n - 1] == calls[..n - 1];
      Results(calls, t, n - 1) + [ResultFor(calls[n - 1], t.tools(n - 1))]
  }

  ghost predicate SomeAborts(calls: seq<ToolCall>, t: Turn) {
    exists k :: 0 <= k < |calls| && Aborts(t, k)
  }

  // --- the loop detector --------------------------------------------------------------------------

  datatype Record = Record(name: string, args: string, summary: Option<string>)

  datatype Thresholds = Thresholds(consecutive: int, oscillating: int, zeroProgress: int)

  predicate SameCall(a: Record, b: Record) { a.name == b.name && a.args == b.args }

  /** The slice h[-n:], for any n. */
  function Window(h: seq<Record>, n: int): seq<Record> {
    if n > 0 then Newest(n, h) else if -n <= |h| then h[-n..] else []
  }

  /** Whether the last n records are alike; None is the index error on an empty window. */
  function Consecutive(h: seq<Record>, n: int): Option<bool> {
    var w := Window(h, n);
    if |h| < n then Some(false)
    else if w == [] then None
    else Some(forall i :: 0 <= i < |w| ==> SameCall(w[i], w[0]))
  }

  /** A/B/A/B/A/B at the start of the last 2n records, compared from left to right; None is an index error. */
  function Oscillating(h: seq<Record>, n: int): Option<bool> {
    var w := Window(h, 2 * n);
    if |h| < 2 * n then Some(false)
    else if |w| < 3 then None
    else if !SameCall(w[0], w[2]) then Some(false)
    else if |w| < 5 then None
    else if !SameCall(w[2], w[4]) || !SameCall(w[1], w[3]) then Some(false)
    else if |w| < 6 then None
    else Some(SameCall(w[3], w[5]) && !SameCall(w[0], w[1]))
  }

  function CountOf(h: seq<Record>, r: Record): nat {
    if h == [] then 0 else CountOf(h[..|h| - 1], r) + if h[|h| - 1] == r then 1 else 0
  }

  ghost predicate ZeroProgress(h: seq<Record>, n: int) {
    exists i :: 0 <= i < |h| && h[i].summary.Some? && CountOf(h, h[i]) >= n
  }

  /** The three tests in order; None is an index error in one of the first two. */
  ghost function Detected(h: seq<Record>, d: Thresholds): Option<bool> {
    if h == [] then Some(false)
    else if Consecutive(h, d.consecutive) != Some(false) then Consecutive(h, d.consecutive)
    else if Oscillating(h, d.oscillating) != Some(false) then Oscillating(h, d.oscillating)
    else Some(ZeroProgress(h, d.zeroProgress))
  }

  /** The check never fails, whatever was recorded, exactly for these thresholds. */
  lemma CheckNeverFailsIff(d: Thresholds)
    ensures (forall h :: Detected(h, d).Some?) <==> d.consecutive >= 0 && (d.consecutive == 1 || d.oscillating >= 3)
  {
    if d.consecutive >= 0 && (d.consecutive == 1 || d.oscillating >= 3) {
      forall h
        ensures Detected(h, d).Some?
      {
        CheckSucceeds(h, d);
      }
    } else {
      var h := FailingHistory(d);
      assert Detected(h, d).None?;
    }
  }

  lemma CheckSucceeds(h: seq<Record>, d: Thresholds)
    requires d.consecutive >= 0 && (d.consecutive == 1 || d.oscillating >= 3)
    ensures Detected(h, d).Some?
  {
    hide ZeroProgress, SameCall;
    if h != [] {
      assert |h| >= d.consecutive ==> Window(h, d.consecutive) != [];
      if d.consecutive == 1 { assert Window(h, 1) == [h[|h| - 1]]; OneIsAlike(h); }
    }
  }

  lemma OneIsAlike(h: seq<Record>)
    requires h != []
    ensures Consecutive(h, 1) == Some(true)
  {
    assert Window(h, 1) == [h[|h| - 1]];
  }

  /** A history on which the other thresholds make the check fail: one call, or two calls in turn. */
  lemma FailingHistory(d: Thresholds) returns (h: seq<Record>)
    requires d.consecutive < 0 || (d.consecutive != 1 && d.oscillating < 3)
    ensures Detected(h, d).None?
  {
    var a, b := Record("a", "", None), Record("b", "", None);
    hide ZeroProgress;
    if d.consecutive < 0 {
      h := [a];
      assert Window(h, d.consecutive) == [];
    } else {
      h := if d.oscillating == 2 then [a, b, a, b] else [a, b];
      NeighboursDiffer(h, d.consecutive);
      ShortWindow(h, d.oscillating);
    }
  }

  lemma NeighboursDiffer(h: seq<Record>, n: int)
    requires |h| >= 2 && n >= 0 && n != 1 && forall i :: 0 <= i < |h| - 1 ==> !SameCall(h[i + 1], h[i])
    ensures Consecutive(h, n) == Some(false)
  {
    hide SameCall;
    if |h| >= n {
      var k := if n == 0 then 0 else |h| - n;
      assert Window(h, n) == h[k..];
      assert !SameCall(h[k + 1], h[k]);
    }
  }

  lemma ShortWindow(h: seq<Record>, n: int)
    requires n < 3 && if n == 2 then |h| == 4 && SameCall(h[0], h[2]) else |h| == 2
    ensures Oscillating(h, n).None?
  {
    hide SameCall;
    if n == 2 {
      assert Window(h, 4) == h;
    } else {
      assert |Window(h, 2 * n)| <= 2;
    }
  }

  /** Where the slice h[-n:] begins. */
  function From(h: seq<Record>, n: int): nat {
    if n > 0 then Max(0, |h| - n) else Min(|h|, -n)
  }

  /** From the n-th last record on, all name the same tool with the same arguments. */
  predicate Repeating(h: seq<Record>, n: int) {
    var a := From(h, n);
    n <= |h| && a < |h| && forall j :: a <= j < |h| ==> h[j].name == h[a].name && h[j].args == h[a].args
  }

  /** From the 2n-th last record on, two different calls take turns, three times each. */
  predicate Alternating(h: seq<Record>, n: int) {
    var a := From(h, 2 * n);
    && 2 * n <= |h| && a + 6 <= |h|
    && (forall j :: a <= j < a + 4 ==> h[j].name == h[j + 2].name && h[j].args == h[j + 2].args)
    && !(h[a].name == h[a + 1].name && h[a].args == h[a + 1].args)
  }

  lemma {:induction false} CountIsMultiplicity(h: seq<Record>, r: Record)
    ensures CountOf(h, r) == multiset(h)[r]
  {
    if h != [] {
      CountIsMultiplicity(h[..|h| - 1], r);
      assert h == h[..|h| - 1] + [h[|h| - 1]];
    }
  }

  /**
   Every check that does not raise finds a loop exactly if the newest calls are all alike, two calls took
   turns, or some call with a result summary was recorded often enough, summary included.
   */
  lemma DetectsIff(h: seq<Record>, d: Thresholds)
    requires Detected(h, d).Some?
    ensures Detected(h, d).value <==>
      && h != []
      && (|| Repeating(h, d.consecutive) || Alternating(h, d.oscillating)
          || exists r :: r in h && r.summary.Some? && multiset(h)[r] >= d.zeroProgress)
  {
    if h != [] {
      ConsecutiveIff(h, d.consecutive);
      OscillatingIff(h, d.oscillating);
      hide Consecutive, Oscillating, Repeating, Alternating;
      forall r
        ensures CountOf(h, r) == multiset(h)[r]
      {
        CountIsMultiplicity(h, r);
      }
    }
  }

  lemma ConsecutiveIff(h: seq<Record>, n: int)
    requires h != []
    ensures Consecutive(h, n) == Some(true) <==> Repeating(h, n)
  {
    var w, a := Window(h, n), From(h, n);
    assert w == h[a..];
    if Repeating(h, n) {
      forall i | 0 <= i < |w|
        ensures SameCall(w[i], w[0])
      {
        assert w[i] == h[a + i];
      }
    }
    if Consecutive(h, n) == Some(true) {
      forall j | a <= j < |h|
        ensures SameCall(h[j], h[a])
      {
        assert w[j - a] == h[j];
      }
    }
  }

  lemma OscillatingIff(h: seq<Record>, n: int)
    ensures Oscillating(h, n) == Some(true) <==> Alternating(h, n)
  {
    var w, a := Window(h, 2 * n), From(h, 2 * n);
    assert w == h[a..];
    if a + 6 <= |h| {
      assert w[0] == h[a] && w[1] == h[a + 1] && w[2] == h[a + 2] && w[3] == h[a + 3] && w[4] == h[a + 4] && w[5] == h[a + 5];
    }
  }

  lemma {:induction false} CountGrows(h: seq<Record>, i: nat, r: Record)
    requires i <= |h|
    ensures CountOf(h[..i], r) <= CountOf(h, r)
    decreases |h| - i
  {
    if i < |h| {
      assert h[..i + 1][..i] == h[..i];
      CountGrows(h, i + 1, r);
    } else {
      assert h[..i] == h;
    }
  }

  class LoopDetector {
    var history: seq<Record>
    const limits: Thresholds

    constructor (limits: Thresholds)
      ensures this.limits == limits && history == []
    {
      this.limits := limits;
      history := [];
    }

    method RecordCall(name: string, args: string, summary: Option<string>)
      modifies this
      ensures history == old(history) + [Record(name, args, summary)]
    {
      history := history + [Record(name, args, summary)];
    }

    /** None stands for an index error. */
    method CheckLoop() returns (found: Option<bool>)
      ensures found == Detected(history, limits)
    {
      if history == [] {
        return Some(false);
      }
      if |history| >= limits.consecutive {
        var w := Window(history, limits.consecutive);
        if w == [] {
          return None;
        }
        var same := true;
        for i := 0 to |w|
          invariant same <==> forall j :: 0 <= j < i ==> SameCall(w[j], w[0])
        {
          same := same && SameCall(w[i], w[0]);
        }
        if same {
          return Some(true);
        }
      }
      var swings := Oscillating(history, limits.oscillating);
      if swings != Some(false) {
        return swings;
      }
      var stuck := CheckZeroProgress();
      found := Some(stuck);
    }

    /** Counts every record with a result summary; stops at the first that reaches the limit. */
    method CheckZeroProgress() returns (found: bool)
      ensures found <==> ZeroProgress(history, limits.zeroProgress)
    {
      var counts: map<Record, nat> := map[];
      for i := 0 to |history|
        invariant forall r :: r in counts ==> r.summary.Some? && counts[r] == CountOf(history[..i], r)
        invariant forall r :: r !in counts && r.summary.Some? ==> CountOf(history[..i], r) == 0
        invariant forall j :: 0 <= j < i && history[j].summary.Some? ==> CountOf(history[..i], history[j]) < limits.zeroProgress
      {
        var r := history[i];
        assert history[..i + 1][..i] == history[..i];
        if r.summary.Some? {
          counts := counts[r := (if r in counts then counts[r] else 0) + 1];
          if counts[r] >= limits.zeroProgress {
            CountGrows(history, i + 1, r);
            assert ZeroProgress(history, limits.zeroProgress);
            return true;
          }
        }
      }
      assert history[..|history|] == history;
      return false;
    }
  }

  method DuplicateToolCallIds(calls: seq<ToolCall>) returns (duplicates: seq<string>)
    ensures duplicates == [] <==> DistinctIds(calls)
    ensures forall id :: id in duplicates <==> exists i, j :: 0 <= i < j < |calls| && calls[i].id == id && calls[j].id == id
    ensures forall i, j :: 0 <= i < j < |duplicates| ==> duplicates[i] != duplicates[j]
  {
    var seen: set<string> := {};
    duplicates := [];
    for k := 0 to |calls|
      invariant forall id :: id in seen <==> exists i :: 0 <= i < k && calls[i].id == id
      invariant forall id :: id in duplicates <==> exists i, j :: 0 <= i < j < k && calls[i].id == id && calls[j].id == id
      invariant forall i, j :: 0 <= i < j < |duplicates| ==> duplicates[i] != duplicates[j]
    {
      if calls[k].id in seen && calls[k].id !in duplicates {
        duplicates := duplicates + [calls[k].id];
      }
      seen := seen + {calls[k].id};
    }
    if duplicates != [] {
      assert duplicates[0] in duplicates;
    }
    forall i, j | 0 <= i < j < |calls| && calls[i].id == calls[j].id
      ensures duplicates != []
    {
      assert calls[i].id in duplicates;
    }
  }

  // --- one turn -------------------------------------------------------------------------------------

  datatype Config = Config(maxToolCalls: int, maxTurns: int, timeout: int, startTime: int, limits: Thresholds)

  /** `observed` is what the on_message callback has been given. */
  datatype State = State(
    messages: seq<Message>, observed: seq<Message>, turnCount: int, toolCallCount: int, history: seq<Record>)

  datatype Progress = Next(state: State) | Halt(state: State, outcome: Outcome)

  function Say(s: State, m: Message): State { s.(messages := s.messages + [m], observed := s.observed + [m]) }

  predicate Exceeded(cfg: Config, s: State, now: int) {
    s.toolCallCount >= cfg.maxToolCalls || s.turnCount >= cfg.maxTurns || now - cfg.startTime >= cfg.timeout
  }

  function Records(calls: seq<ToolCall>): seq<Record> {
    if calls == [] then [] else Records(calls[..|calls| - 1]) + [Record(calls[|calls| - 1].name, calls[|calls| - 1].args, None)]
  }

  function Steer(s: State, signal: Option<Signal>): Progress {
    match signal
    case None => Next(s)
    case Some(Interrupt) => Halt(s, Stopped(Steered))
    case Some(Guidance(text)) => Next(Say(s, User(if text == "" then "User guidance injected" else text)))
  }

  /** What the provider is given: the conversation, behind the memory context if there is one. */
  function Shown(s: State, t: Turn): seq<Message> {
    (if t.memory == "" then [] else [User(t.memory)]) + s.messages
  }

  ghost function ToolTurn(cfg: Config, s: State, t: Turn): Progress
    requires t.reply.Answered?
  {
    var calls := t.reply.calls;
    var s1 := s.(toolCallCount := s.toolCallCount + 1, history := s.history + Records(calls));
    var found := Detected(s1.history, cfg.limits);
    if found != Some(false) then Halt(s1, if found.None? then Propagated else Stopped(LoopFound))
    else
      var s2 := Say(s1, AssistantTools(calls, t.reply.text));
      if SomeAborts(calls, t) then Halt(s2, Propagated)
      else
        var s3 := s2.(messages := s2.messages + Results(calls, t, |calls|));
        var steered := Steer(s3, t.after);
        if steered.Halt? then steered
        else if s3.turnCount >= cfg.maxTurns then Halt(steered.state, Stopped(MaxTurns))
        else steered
  }

  ghost function ReplyTurn(cfg: Config, s: State, t: Turn): Progress
  {
    var counted := s.(turnCount := s.turnCount + 1);
    match t.reply
    case TimedOut => Halt(counted, Stopped(ProviderTimeout))
    case CancelledCall => Halt(counted, Propagated)
    case FailedCall => Next(s)
    case Answered(text, calls) =>
      if !DistinctIds(calls) then Halt(counted, Stopped(DuplicateIds))
      else if calls == [] then Halt(Say(counted, Assistant(text)), Finished(text))
      else ToolTurn(cfg, counted, t)
  }

  /** One iteration of the loop. */
  ghost function TurnStep(cfg: Config, s: State, t: Turn): Progress
  {
    if Exceeded(cfg, s, t.now) then Halt(s, Stopped(BudgetExceeded))
    else
      var steered := Steer(s, t.before);
      if steered.Halt? then steered
      else if steered.state.turnCount >= cfg.maxTurns then Halt(steered.state, Stopped(MaxTurns))
      else ReplyTurn(cfg, steered.state, t)
  }

  // --- what a turn does, outcome by outcome ---------------------------------------------------------------

  /** The turn gets to its provider call: all three budgets have something left, and no interrupt was queued. */
  predicate Asks(cfg: Config, s: State, t: Turn) {
    && s.turnCount < cfg.maxTurns && s.toolCallCount < cfg.maxToolCalls && t.now < cfg.startTime + cfg.timeout
    && t.before != Some(Interrupt)
  }

  /** The reply carries tool calls with distinct identifiers. */
  predicate CallsTools(t: Turn) {
    t.reply.Answered? && t.reply.calls != [] && forall i, j :: 0 <= i < j < |t.reply.calls| ==> t.reply.calls[i].id != t.reply.calls[j].id
  }

  /** What the loop detector says once the batch is recorded. */
  ghost function Found(cfg: Config, s: State, t: Turn): Option<bool>
    requires t.reply.Answered?
  {
    Detected(s.history + Records(t.reply.calls), cfg.limits)
  }

  /** A call of the batch is reached with the cancel flag set, or its tool propagates a cancellation. */
  predicate Breaks(t: Turn)
    requires t.reply.Answered?
  {
    exists k :: 0 <= k < |t.reply.calls| && (t.cancelled(k) || t.tools(k) == Aborted)
  }

  /** The batch got a result for every call. */
  ghost predicate Runs(cfg: Config, s: State, t: Turn) {
    Asks(cfg, s, t) && CallsTools(t) && Found(cfg, s, t) == Some(false) && !Breaks(t)
  }

  lemma BreaksIff(calls: seq<ToolCall>, t: Turn)
    ensures SomeAborts(calls, t) <==> exists k :: 0 <= k < |calls| && (t.cancelled(k) || t.tools(k) == Aborted)
  {
    if k :| 0 <= k < |calls| && Aborts(t, k) { assert t.cancelled(k) || t.tools(k) == Aborted; }
    if k :| 0 <= k < |calls| && (t.cancelled(k) || t.tools(k) == Aborted) { assert Aborts(t, k); }
  }

  /** How a batch ends its turn. */
  lemma BatchEnds(cfg: Config, s: State, t: Turn)
    requires CallsTools(t)
    ensures var p := ToolTurn(cfg, s, t);
      if Found(cfg, s, t) != Some(false) then p.Halt? && p.outcome == if Found(cfg, s, t).None? then Propagated else Stopped(LoopFound)
      else if Breaks(t) then p.Halt? && p.outcome == Propagated
      else if t.after == Some(Interrupt) then p.Halt? && p.outcome == Stopped(Steered)
      else if s.turnCount >= cfg.maxTurns then p.Halt? && p.outcome == Stopped(MaxTurns)
      else p.Next?
  {
    BreaksIff(t.reply.calls, t);
    assert Breaks(t) == SomeAborts(t.reply.calls, t);
    hide Detected, Records, Results, Breaks, SomeAborts;
  }

  /** Every turn: when it goes on, and which outcome it halts with otherwise. */
  lemma TurnEndsIff(cfg: Config, s: State, t: Turn)
    ensures var p := TurnStep(cfg, s, t);
      && (p.Next? <==>
            || (Asks(cfg, s, t) && t.reply.FailedCall?)
            || (Runs(cfg, s, t) && t.after != Some(Interrupt) && s.turnCount + 1 < cfg.maxTurns))
      && (p.Halt? && p.outcome == Stopped(BudgetExceeded) <==>
            s.turnCount >= cfg.maxTurns || s.toolCallCount >= cfg.maxToolCalls || t.now - cfg.startTime >= cfg.timeout)
      && (p.Halt? && p.outcome == Stopped(Steered) <==>
            || (Asks(cfg, s, t.(before := None)) && t.before == Some(Interrupt))
            || (Runs(cfg, s, t) && t.after == Some(Interrupt)))
      && (p.Halt? && p.outcome == Stopped(MaxTurns) <==>
            Runs(cfg, s, t) && t.after != Some(Interrupt) && s.turnCount + 1 >= cfg.maxTurns)
      && (p.Halt? && p.outcome == Stopped(ProviderTimeout) <==> Asks(cfg, s, t) && t.reply.TimedOut?)
      && (p.Halt? && p.outcome == Stopped(DuplicateIds) <==>
            Asks(cfg, s, t) && t.reply.Answered? && t.reply.calls != [] && !CallsTools(t))
      && (p.Halt? && p.outcome == Stopped(LoopFound) <==> Asks(cfg, s, t) && CallsTools(t) && Found(cfg, s, t) == Some(true))
      && (p.Halt? && p.outcome == Propagated <==>
            && Asks(cfg, s, t)
            && (|| t.reply.CancelledCall?
                || (CallsTools(t) && (Found(cfg, s, t) == None || (Found(cfg, s, t) == Some(false) && Breaks(t))))))
      && (p.Halt? && p.outcome.Finished? <==> Asks(cfg, s, t) && t.reply.Answered? && t.reply.calls == [])
      && (p.Halt? && p.outcome.Finished? ==> p.outcome.answer == t.reply.text)
  {
    if CallsTools(t) { BatchEnds(cfg, Steer(s, t.before).state.(turnCount := s.turnCount + 1), t); }
    hide ToolTurn, Detected, Records, Breaks;
  }

  /** What a guidance signal adds to the conversation. */
  function Guided(signal: Option<Signal>): seq<Message> {
    match signal
    case Some(Guidance(text)) => [User(if text == "" then "User guidance injected" else text)]
    case _ => []
  }

  /** One result after the other, each with what became of its call. */
  predicate ReportsAll(results: seq<Message>, t: Turn)
    requires t.reply.Answered?
  {
    |results| == |t.reply.calls| && forall k :: 0 <= k < |results| ==> Reports(results[k], t.reply.calls[k], t.tools(k))
  }

  /** The batch's calls, recorded without a summary. */
  predicate Recorded(records: seq<Record>, calls: seq<ToolCall>) {
    |records| == |calls| && forall k :: 0 <= k < |calls| ==> records[k] == Record(calls[k].name, calls[k].args, None)
  }

  lemma {:induction false} RecordsAre(calls: seq<ToolCall>)
    ensures Recorded(Records(calls), calls)
  {
    if calls != [] { RecordsAre(calls[..|calls| - 1]); }
  }

  lemma {:induction false} ResultsAre(calls: seq<ToolCall>, t: Turn, n: nat)
    requires n <= |calls| && forall k :: 0 <= k < n ==> t.tools(k) != Aborted
    ensures |Results(calls, t, n)| == n && forall k :: 0 <= k < n ==> Reports(Results(calls, t, n)[k], calls[k], t.tools(k))
  {
    if n > 0 { ResultsAre(calls, t, n - 1); }
  }

  /** Every turn: what the provider is shown, if the turn gets to it. */
  lemma TurnShows(cfg: Config, s: State, t: Turn)
    ensures ProviderCall(cfg, s, t) ==
      if Asks(cfg, s, t) then Some((if t.memory == "" then [] else [User(t.memory)]) + (s.messages + Guided(t.before))) else None
  {
    assert s.messages + [] == s.messages;
  }

  /** Every turn: what it counts and records.  A failed provider call does not count. */
  lemma TurnCounts(cfg: Config, s: State, t: Turn)
    ensures var s' := TurnStep(cfg, s, t).state;
      var tools := Asks(cfg, s, t) && CallsTools(t);
      && s'.turnCount == s.turnCount + (if Asks(cfg, s, t) && !t.reply.FailedCall? then 1 else 0)
      && s'.toolCallCount == s.toolCallCount + (if tools then 1 else 0)
      && s.history <= s'.history && Recorded(s'.history[|s.history|..], if tools then t.reply.calls else [])
  {
    if Asks(cfg, s, t) && CallsTools(t) {
      var calls, s1 := t.reply.calls, Steer(s, t.before).state;
      assert TurnStep(cfg, s, t) == ToolTurn(cfg, s1.(turnCount := s1.turnCount + 1), t) by { hide ToolTurn; }
      BatchCounts(cfg, s1.(turnCount := s1.turnCount + 1), t);
      RecordsAre(calls);
      hide Records, Recorded, ToolTurn, TurnStep, CallsTools;
      assert (s.history + Records(calls))[|s.history|..] == Records(calls);
    } else {
      PlainTurnCounts(cfg, s, t);
      assert s.history[|s.history|..] == [];
      hide TurnStep, CallsTools;
    }
  }

  lemma PlainTurnCounts(cfg: Config, s: State, t: Turn)
    requires !(Asks(cfg, s, t) && CallsTools(t))
    ensures var s' := TurnStep(cfg, s, t).state;
      && s'.turnCount == s.turnCount + (if Asks(cfg, s, t) && !t.reply.FailedCall? then 1 else 0)
      && s'.toolCallCount == s.toolCallCount && s'.history == s.history
  {
    hide ToolTurn;
  }

  lemma BatchCounts(cfg: Config, s: State, t: Turn)
    requires t.reply.Answered?
    ensures var p := ToolTurn(cfg, s, t).state;
      && p.turnCount == s.turnCount && p.toolCallCount == s.toolCallCount + 1
      && p.history == s.history + Records(t.reply.calls)
  {
    hide Detected, Results, Records, SomeAborts;
  }

  /** What a batch adds to the conversation. */
  lemma BatchSays(cfg: Config, s: State, t: Turn)
    requires CallsTools(t)
    ensures var s', asked := ToolTurn(cfg, s, t).state, s.messages + [AssistantTools(t.reply.calls, t.reply.text)];
      if Found(cfg, s, t) != Some(false) then s'.messages == s.messages
      else if Breaks(t) then s'.messages == asked
      else exists results :: ReportsAll(results, t) && s'.messages == asked + results + Guided(t.after)
  {
    var calls := t.reply.calls;
    BreaksIff(calls, t);
    assert Breaks(t) == SomeAborts(calls, t);
    if !Breaks(t) {
      var results := Results(calls, t, |calls|);
      ResultsAre(calls, t, |calls|);
      assert ReportsAll(results, t);
      var all := s.messages + [AssistantTools(calls, t.reply.text)] + results;
      hide Detected, Results, Records, SomeAborts, ReportsAll;
      assert all + [] == all;
    }
  }

  /**
   Every turn: what it adds to the conversation.  A provider call that failed, and one that timed out, was
   cancelled or answered a batch nobody runs, adds the guidance before it and nothing else.
   */
  lemma TurnSays(cfg: Config, s: State, t: Turn)
    ensures var messages := TurnStep(cfg, s, t).state.messages;
      if !Asks(cfg, s, t) then messages == s.messages
      else
        var asked := s.messages + Guided(t.before);
        if t.reply.Answered? && t.reply.calls == [] then messages == asked + [Assistant(t.reply.text)]
        else if !CallsTools(t) || Found(cfg, s, t) != Some(false) then messages == asked
        else if Breaks(t) then messages == asked + [AssistantTools(t.reply.calls, t.reply.text)]
        else exists results ::
          ReportsAll(results, t) && messages == asked + [AssistantTools(t.reply.calls, t.reply.text)] + results + Guided(t.after)
  {
    assert s.messages + [] == s.messages;
    if Asks(cfg, s, t) && CallsTools(t) {
      BatchSays(cfg, Steer(s, t.before).state.(turnCount := s.turnCount + 1), t);
    }
    hide Detected, Records, SomeAborts, ToolTurn, Breaks, ReportsAll;
  }

  lemma TurnExtends(cfg: Config, s: State, t: Turn)
    ensures s.messages <= TurnStep(cfg, s, t).state.messages
  {
    TurnSays(cfg, s, t);
    hide TurnStep, Asks, CallsTools, Found, Breaks, ReportsAll, Guided;
  }

  /** No run rewrites the conversation it was given: it only adds to its end. */
  lemma {:induction false} ConversationGrows(cfg: Config, s: State, env: nat -> Turn, n: nat)
    ensures s.messages <= After(cfg, s, env, n).state.messages
  {
    if n > 0 {
      ConversationGrows(cfg, s, env, n - 1);
      if After(cfg, s, env, n - 1).Next? { TurnExtends(cfg, After(cfg, s, env, n - 1).state, env(n - 1)); }
      hide TurnStep;
    }
  }

  /** The check of the turn count behind the steering signal can never hold: the budget check came first. */
  lemma SecondTurnCheckIsDead(cfg: Config, s: State, t: Turn)
    ensures !Exceeded(cfg, s, t.now) ==> Steer(s, t.before).state.turnCount < cfg.maxTurns
  {
  }

  /** The conversation a turn shows its provider, if the turn gets that far. */
  function ProviderCall(cfg: Config, s: State, t: Turn): Option<seq<Message>> {
    if Exceeded(cfg, s, t.now) || Steer(s, t.before).Halt? then None else Some(Shown(Steer(s, t.before).state, t))
  }

  ghost function After(cfg: Config, s: State, env: nat -> Turn, n: nat): Progress
  {
    if n == 0 then Next(s)
    else
      match After(cfg, s, env, n - 1)
      case Halt(s', o) => Halt(s', o)
      case Next(s') => TurnStep(cfg, s', env(n - 1))
  }

  function Start(history: seq<Message>, goal: string, turnCount: int, toolCallCount: int, records: seq<Record>): State {
    Say(State(history, [], turnCount, toolCallCount, records), User(goal))
  }

  // --- safety ---------------------------------------------------------------------------------------

  lemma ToolTurnKeepsWellFormed(cfg: Config, s: State, t: Turn)
    requires WellFormed(s.messages) && t.reply.Answered? && DistinctIds(t.reply.calls)
    ensures ToolTurn(cfg, s, t).Next? ==> WellFormed(ToolTurn(cfg, s, t).state.messages)
    ensures Detected(s.history + Records(t.reply.calls), cfg.limits) == Some(false) && !SomeAborts(t.reply.calls, t) ==>
      WellFormed(ToolTurn(cfg, s, t).state.messages)
  {
    hide WellFormed, Results, Records, Detected, Steer;
    var calls := t.reply.calls;
    assert calls[..|calls|] == calls;
    var s1 := s.(toolCallCount := s.toolCallCount + 1, history := s.history + Records(calls));
    var s2 := Say(s1, AssistantTools(calls, t.reply.text));
    ToolBlock(s.messages, calls, t.reply.text, Results(calls, t, |calls|));
    SteerKeepsWellFormed(s2.(messages := s2.messages + Results(calls, t, |calls|)), t.after);
  }

  /**
   A batch that gets past the loop check leaves a well-formed conversation, a result for every call,
   exactly if no call is reached with the cancel flag set and none aborts; otherwise the run ends there.
   */
  lemma BatchAnsweredIff(cfg: Config, s: State, t: Turn)
    requires WellFormed(s.messages) && t.reply.Answered? && t.reply.calls != [] && DistinctIds(t.reply.calls)
    requires Detected(s.history + Records(t.reply.calls), cfg.limits) == Some(false)
    ensures WellFormed(ToolTurn(cfg, s, t).state.messages) <==> !SomeAborts(t.reply.calls, t)
    ensures SomeAborts(t.reply.calls, t) ==> ToolTurn(cfg, s, t).Halt? && ToolTurn(cfg, s, t).outcome == Propagated
  {
    hide WellFormed, Results, Records, Detected, Steer, SomeAborts;
    var calls := t.reply.calls;
    var asked := s.messages + [AssistantTools(calls, t.reply.text)];
    if SomeAborts(calls, t) {
      if WellFormed(asked) { ResultsFollow(asked, |s.messages|); }
    } else {
      ToolTurnKeepsWellFormed(cfg, s, t);
    }
  }

  /** The cancel flag set while the provider answers with one tool call: the run raises, the call stays unanswered. */
  lemma CancelledCallRaises(cfg: Config, s: State, t: Turn, call: ToolCall)
    requires WellFormed(s.messages) && !Exceeded(cfg, s, t.now) && t.before.None?
    requires t.reply.Answered? && t.reply.calls == [call] && t.cancelled(0)
    requires Detected(s.history + Records([call]), cfg.limits) == Some(false)
    ensures TurnStep(cfg, s, t).Halt? && TurnStep(cfg, s, t).outcome == Propagated
    ensures TurnStep(cfg, s, t).state.messages == s.messages + [AssistantTools([call], t.reply.text)]
    ensures !WellFormed(TurnStep(cfg, s, t).state.messages)
  {
    assert Aborts(t, 0);
    hide WellFormed, Results, Records, Detected;
    BatchAnsweredIff(cfg, s.(turnCount := s.turnCount + 1), t);
  }

  lemma ShownIsWellFormed(s: State, t: Turn)
    requires WellFormed(s.messages)
    ensures WellFormed(Shown(s, t))
  {
    assert [User(t.memory)][1..] == [] && WellFormed([User(t.memory)]);
    WellFormedConcat([User(t.memory)], s.messages);
    assert [] + s.messages == s.messages;
  }

  lemma TurnKeepsWellFormed(cfg: Config, s: State, t: Turn)
    requires WellFormed(s.messages)
    ensures TurnStep(cfg, s, t).Next? ==> WellFormed(TurnStep(cfg, s, t).state.messages)
    ensures ProviderCall(cfg, s, t).Some? ==> WellFormed(ProviderCall(cfg, s, t).value)
  {
    hide WellFormed, ToolTurn, Shown;
    SteerKeepsWellFormed(s, t.before);
    if Steer(s, t.before).Next? {
      var s1 := Steer(s, t.before).state;
      ShownIsWellFormed(s1, t);
      if t.reply.Answered? && DistinctIds(t.reply.calls) {
        ToolTurnKeepsWellFormed(cfg, s1.(turnCount := s1.turnCount + 1), t);
      }
    }
  }

  lemma SteerKeepsWellFormed(s: State, signal: Option<Signal>)
    requires WellFormed(s.messages)
    ensures WellFormed(Steer(s, signal).state.messages)
  {
    match signal
    case Some(Guidance(text)) => Talk(s.messages, User(if text == "" then "User guidance injected" else text));
    case _ =>
  }

  /**
   Whatever the tools did in the turns before, the conversation of every provider call is well formed,
   given a well-formed initial history.
   */
  lemma {:induction false} EveryProviderCallIsWellFormed(cfg: Config, s: State, env: nat -> Turn, n: nat)
    requires WellFormed(s.messages)
    ensures After(cfg, s, env, n).Next? ==>
              && WellFormed(After(cfg, s, env, n).state.messages)
              && (ProviderCall(cfg, After(cfg, s, env, n).state, env(n)).Some? ==>
                    WellFormed(ProviderCall(cfg, After(cfg, s, env, n).state, env(n)).value))
  {
    if n > 0 {
      EveryProviderCallIsWellFormed(cfg, s, env, n - 1);
      if After(cfg, s, env, n - 1).Next? {
        TurnKeepsWellFormed(cfg, After(cfg, s, env, n - 1).state, env(n - 1));
      }
    }
    if After(cfg, s, env, n).Next? {
      TurnKeepsWellFormed(cfg, After(cfg, s, env, n).state, env(n));
    }
  }

  /** The budgets hold at every point of every run, however the loop ends. */
  lemma {:induction false} BudgetsHold(cfg: Config, s: State, env: nat -> Turn, n: nat)
    ensures After(cfg, s, env, n).state.turnCount <= Max(s.turnCount, cfg.maxTurns)
    ensures After(cfg, s, env, n).state.toolCallCount <= Max(s.toolCallCount, cfg.maxToolCalls)
    ensures After(cfg, s, env, n).state.turnCount >= s.turnCount
    ensures After(cfg, s, env, n).state.toolCallCount - s.toolCallCount <= After(cfg, s, env, n).state.turnCount - s.turnCount
  {
    hide TurnStep;
    if n > 0 {
      BudgetsHold(cfg, s, env, n - 1);
      if After(cfg, s, env, n - 1).Next? { TurnBudgets(cfg, After(cfg, s, env, n - 1).state, env(n - 1)); }
    }
  }

  /** One turn counts at most one turn and one batch, and only below the limits. */
  lemma TurnBudgets(cfg: Config, s: State, t: Turn)
    ensures var s' := TurnStep(cfg, s, t).state;
      && s.turnCount <= s'.turnCount <= Max(s.turnCount, cfg.maxTurns)
      && s.toolCallCount <= s'.toolCallCount <= Max(s.toolCallCount, cfg.maxToolCalls)
      && s'.toolCallCount - s.toolCallCount <= s'.turnCount - s.turnCount
  {
    hide Detected, SomeAborts, Results, Records, DistinctIds;
  }

  function WithoutResults(messages: seq<Message>): seq<Message> {
    if messages == [] then []
    else
      var last := messages[|messages| - 1];
      WithoutResults(messages[..|messages| - 1]) + if last.ToolResult? then [] else [last]
  }

  lemma {:induction false} WithoutResultsConcat(a: seq<Message>, b: seq<Message>)
    ensures WithoutResults(a + b) == WithoutResults(a) + WithoutResults(b)
  {
    if b == [] {
      assert a + b == a;
    } else {
      assert (a + b)[..|a + b| - 1] == a + b[..|b| - 1];
      WithoutResultsConcat(a, b[..|b| - 1]);
    }
  }

  lemma {:induction false} OnlyResults(results: seq<Message>)
    requires forall k :: 0 <= k < |results| ==> results[k].ToolResult?
    ensures WithoutResults(results) == []
  {
    if results != [] {
      OnlyResults(results[..|results| - 1]);
    }
  }

  /** The callback sees every message the run adds except the tool results, in order. */
  ghost predicate Observed(base: seq<Message>, s: State) {
    WithoutResults(s.messages) == WithoutResults(base) + s.observed
  }

  lemma SayObserved(base: seq<Message>, s: State, m: Message)
    requires Observed(base, s) && !m.ToolResult?
    ensures Observed(base, Say(s, m))
  {
    WithoutResultsConcat(s.messages, [m]);
    assert WithoutResults([m]) == [m];
    assert (WithoutResults(base) + s.observed) + [m] == WithoutResults(base) + (s.observed + [m]);
  }

  lemma SteerObserved(base: seq<Message>, s: State, signal: Option<Signal>)
    requires Observed(base, s)
    ensures Observed(base, Steer(s, signal).state)
  {
    match signal
    case Some(Guidance(text)) => SayObserved(base, s, User(if text == "" then "User guidance injected" else text));
    case _ =>
  }

  lemma ResultsUnobserved(base: seq<Message>, s: State, results: seq<Message>)
    requires Observed(base, s) && forall k :: 0 <= k < |results| ==> results[k].ToolResult?
    ensures Observed(base, s.(messages := s.messages + results))
  {
    WithoutResultsConcat(s.messages, results);
    OnlyResults(results);
  }

  lemma ToolTurnObserved(cfg: Config, base: seq<Message>, s: State, t: Turn)
    requires Observed(base, s) && t.reply.Answered?
    ensures Observed(base, ToolTurn(cfg, s, t).state)
  {
    hide WithoutResults, Results, Records, Detected, Steer;
    var calls := t.reply.calls;
    var s1 := s.(toolCallCount := s.toolCallCount + 1, history := s.history + Records(calls));
    var s2 := Say(s1, AssistantTools(calls, t.reply.text));
    SayObserved(base, s1, AssistantTools(calls, t.reply.text));
    assert calls[..|calls|] == calls;
    ResultsUnobserved(base, s2, Results(calls, t, |calls|));
    SteerObserved(base, s2.(messages := s2.messages + Results(calls, t, |calls|)), t.after);
  }

  lemma ReplyObserved(cfg: Config, base: seq<Message>, s: State, t: Turn)
    requires Observed(base, s)
    ensures Observed(base, ReplyTurn(cfg, s, t).state)
  {
    hide WithoutResults, ToolTurn;
    var counted := s.(turnCount := s.turnCount + 1);
    if t.reply.Answered? {
      SayObserved(base, counted, Assistant(t.reply.text));
      ToolTurnObserved(cfg, base, counted, t);
    }
  }

  lemma {:induction false} CallbackSeesAllButResults(cfg: Config, base: seq<Message>, s: State, env: nat -> Turn, n: nat)
    requires Observed(base, s)
    ensures Observed(base, After(cfg, s, env, n).state)
  {
    if n > 0 {
      CallbackSeesAllButResults(cfg, base, s, env, n - 1);
      if After(cfg, s, env, n - 1).Next? {
        var s1, t := After(cfg, s, env, n - 1).state, env(n - 1);
        SteerObserved(base, s1, t.before);
        ReplyObserved(cfg, base, Steer(s1, t.before).state, t);
      }
    }
  }

  lemma {:induction false} RecordsHaveNoSummary(calls: seq<ToolCall>)
    ensures forall i :: 0 <= i < |Records(calls)| ==> Records(calls)[i].summary.None?
  {
    if calls != [] {
      RecordsHaveNoSummary(calls[..|calls| - 1]);
    }
  }

  /** The loop records calls without their results, so in no run can the zero-progress test fire. */
  lemma {:induction false} ZeroProgressNeverFires(cfg: Config, s: State, env: nat -> Turn, n: nat)
    requires forall i :: 0 <= i < |s.history| ==> s.history[i].summary.None?
    ensures var h := After(cfg, s, env, n).state.history;
            (forall i :: 0 <= i < |h| ==> h[i].summary.None?) && !ZeroProgress(h, cfg.limits.zeroProgress)
  {
    if n > 0 {
      ZeroProgressNeverFires(cfg, s, env, n - 1);
      hide TurnStep, ZeroProgress;
      if After(cfg, s, env, n - 1).Next? { TurnRecords(cfg, After(cfg, s, env, n - 1).state, env(n - 1)); }
    }
    NoSummaryNoProgress(After(cfg, s, env, n).state.history, cfg.limits.zeroProgress);
  }

  lemma NoSummaryNoProgress(h: seq<Record>, n: int)
    requires forall i :: 0 <= i < |h| ==> h[i].summary.None?
    ensures !ZeroProgress(h, n)
  {
  }

  lemma TurnRecords(cfg: Config, s: State, t: Turn)
    requires forall i :: 0 <= i < |s.history| ==> s.history[i].summary.None?
    ensures var h := TurnStep(cfg, s, t).state.history; forall i :: 0 <= i < |h| ==> h[i].summary.None?
  {
    hide Detected, SomeAborts, Results, DistinctIds;
    if t.reply.Answered? { RecordsHaveNoSummary(t.reply.calls); }
  }

  // --- termination ------------------------------------------------------------------------------------

  /** Time does not run backwards, and a provider call that fails takes at least one tick. */
  ghost predicate ClockRuns(env: nat -> Turn) {
    forall i: nat :: env(i).now <= env(i + 1).now && (env(i).reply.FailedCall? ==> env(i).now < env(i + 1).now)
  }

  function TurnsLeft(cfg: Config, s: State): nat { Max(0, cfg.maxTurns - s.turnCount) }

  function TimeLeft(cfg: Config, now: int): nat { Max(0, cfg.timeout - (now - cfg.startTime)) }

  /** A turn that goes on either used up a turn of the budget or gave it back because its provider call failed. */
  lemma TurnMeasure(cfg: Config, s: State, t: Turn)
    requires TurnStep(cfg, s, t).Next?
    ensures var s' := TurnStep(cfg, s, t).state;
            && t.now - cfg.startTime < cfg.timeout && s.turnCount < cfg.maxTurns
            && (if t.reply.FailedCall? then s'.turnCount == s.turnCount else s'.turnCount == s.turnCount + 1)
  {
  }

  lemma {:induction false} StillRunning(cfg: Config, s: State, env: nat -> Turn, n: nat)
    requires ClockRuns(env)
    requires After(cfg, s, env, n).Next?
    ensures n <= TurnsLeft(cfg, s) - TurnsLeft(cfg, After(cfg, s, env, n).state)
               + TimeLeft(cfg, env(0).now) - TimeLeft(cfg, env(n).now)
  {
    if n > 0 {
      StillRunning(cfg, s, env, n - 1);
      TurnMeasure(cfg, After(cfg, s, env, n - 1).state, env(n - 1));
      assert env(n - 1).now <= env(n - 1 + 1).now;
    }
  }

  /** The run halts within turns left plus ticks left iterations. */
  lemma Terminates(cfg: Config, s: State, env: nat -> Turn)
    requires ClockRuns(env)
    ensures After(cfg, s, env, TurnsLeft(cfg, s) + TimeLeft(cfg, env(0).now) + 1).Halt?
  {
    var n := TurnsLeft(cfg, s) + TimeLeft(cfg, env(0).now) + 1;
    if After(cfg, s, env, n).Next? {
      StillRunning(cfg, s, env, n);
    }
  }

  /** The clock hypothesis is needed: while calls fail in no time the loop never ends. */
  lemma {:induction false} FrozenClockNeverHalts(cfg: Config, s: State, t: Turn, n: nat)
    requires !Exceeded(cfg, s, t.now) && t.before.None? && t.reply.FailedCall?
    ensures After(cfg, s, i => t, n) == Next(s)
  {
    if n > 0 {
      FrozenClockNeverHalts(cfg, s, t, n - 1);
    }
  }

  // --- the loop itself ----------------------------------------------------------------------------------

  class AgentLoop {
    const maxToolCalls: int
    const maxTurns: int
    const timeout: int
    const startTime: int
    var turnCount: int
    var toolCallCount: int
    const detector: LoopDetector

    ghost function Cfg(): Config { Config(maxToolCalls, maxTurns, timeout, startTime, detector.limits) }

    constructor (maxToolCalls: int, maxTurns: int, timeout: int, startTime: int, detector: LoopDetector)
      ensures Cfg() == Config(maxToolCalls, maxTurns, timeout, startTime, detector.limits)
      ensures turnCount == 0 && toolCallCount == 0 && this.detector == detector
    {
      this.maxToolCalls, this.maxTurns, this.timeout, this.startTime := maxToolCalls, maxTurns, timeout, startTime;
      this.detector := detector;
      turnCount, toolCallCount := 0, 0;
    }

    /** Runs the calls of one batch; stops at the first call that ends the run. */
    method ExecuteTools(calls: seq<ToolCall>, t: Turn) returns (results: seq<Message>, aborted: bool)
      ensures aborted <==> SomeAborts(calls, t)
      ensures aborted <==> exists k :: 0 <= k < |calls| && (t.cancelled(k) || t.tools(k) == Aborted)
      ensures !aborted ==> |results| == |calls| && forall k :: 0 <= k < |calls| ==> Reports(results[k], calls[k], t.tools(k))
      ensures !aborted ==> results == Results(calls, t, |calls|)
    {
      BreaksIff(calls, t);
      results := [];
      for k := 0 to |calls|
        invariant results == Results(calls, t, k)
        invariant forall j :: 0 <= j < k ==> !Aborts(t, j)
      {
        var call := calls[k];
        if t.cancelled(k) {
          assert Aborts(t, k);
          return results, true;
        }
        match t.tools(k) {
          case Aborted =>
            assert Aborts(t, k);
            return results, true;
          case Raised(error) => results := results + [ToolResult(call.id, call.name, None, Some(error))];
          case Reported(error) => results := results + [ToolResult(call.id, call.name, None, Some(error))];
          case Succeeded(content) => results := results + [ToolResult(call.id, call.name, Some(content), None)];
        }
      }
      aborted := false;
      ResultsAre(calls, t, |calls|);
    }

    ghost function Here(messages: seq<Message>, observed: seq<Message>): State
      reads this, detector
    {
      State(messages, observed, turnCount, toolCallCount, detector.history)
    }

    method RecordBatch(calls: seq<ToolCall>)
      modifies detector
      ensures detector.history == old(detector.history) + Records(calls)
    {
      for k := 0 to |calls|
        invariant detector.history == old(detector.history) + Records(calls[..k])
      {
        detector.RecordCall(calls[k].name, calls[k].args, None);
        assert calls[..k + 1][..k] == calls[..k];
      }
      assert calls[..|calls|] == calls;
    }

    /** The steering queue is asked for one signal. */
    method TakeSignal(signal: Option<Signal>, messages: seq<Message>, observed: seq<Message>)
      returns (messages': seq<Message>, observed': seq<Message>, halted: bool)
      ensures halted <==> signal == Some(Interrupt)
      ensures Steer(Here(messages, observed), signal)
           == if halted then Halt(Here(messages', observed'), Stopped(Steered)) else Next(Here(messages', observed'))
    {
      messages', observed', halted := messages, observed, false;
      match signal {
        case None =>
        case Some(Interrupt) => halted := true;
        case Some(Guidance(text)) =>
          var m := User(if text == "" then "User guidance injected" else text);
          messages', observed' := messages + [m], observed + [m];
      }
    }

    /** A turn whose reply carries tool calls, from counting the batch to the last budget check. */
    method ToolBatch(t: Turn, messages: seq<Message>, observed: seq<Message>)
      returns (messages': seq<Message>, observed': seq<Message>, halted: Option<Outcome>)
      requires t.reply.Answered?
      modifies this`toolCallCount, detector
      ensures ToolTurn(Cfg(), old(Here(messages, observed)), t)
           == if halted.Some? then Halt(Here(messages', observed'), halted.value) else Next(Here(messages', observed'))
    {
      messages', observed' := messages, observed;
      var calls := t.reply.calls;
      toolCallCount := toolCallCount + 1;
      RecordBatch(calls);
      var looping := detector.CheckLoop();
      if looping != Some(false) {
        return messages', observed', Some(if looping.None? then Propagated else Stopped(LoopFound));
      }
      var request := AssistantTools(calls, t.reply.text);
      messages', observed' := messages' + [request], observed' + [request];
      var results, aborted := ExecuteTools(calls, t);
      if aborted {
        return messages', observed', Some(Propagated);
      }
      messages' := messages' + results;
      var stop;
      messages', observed', stop := TakeSignal(t.after, messages', observed');
      if stop {
        return messages', observed', Some(Stopped(Steered));
      }
      if turnCount >= maxTurns {
        return messages', observed', Some(Stopped(MaxTurns));
      }
      halted := None;
    }

    /** One iteration; `call` is the conversation its provider call was given. */
    method DoTurn(t: Turn, messages: seq<Message>, observed: seq<Message>)
      returns (messages': seq<Message>, observed': seq<Message>, call: Option<seq<Message>>, halted: Option<Outcome>)
      modifies this, detector
      ensures call == ProviderCall(Cfg(), old(Here(messages, observed)), t)
      ensures TurnStep(Cfg(), old(Here(messages, observed)), t)
           == if halted.Some? then Halt(Here(messages', observed'), halted.value) else Next(Here(messages', observed'))
    {
      messages', observed', call := messages, observed, None;
      if toolCallCount >= maxToolCalls || turnCount >= maxTurns || t.now - startTime >= timeout {
        return messages', observed', call, Some(Stopped(BudgetExceeded));
      }
      var stop;
      messages', observed', stop := TakeSignal(t.before, messages', observed');
      if stop {
        return messages', observed', call, Some(Stopped(Steered));
      }
      turnCount := turnCount + 1;
      call := Some((if t.memory == "" then [] else [User(t.memory)]) + messages');
      match t.reply {
        case TimedOut => halted := Some(Stopped(ProviderTimeout));
        case CancelledCall => halted := Some(Propagated);
        case FailedCall =>
          turnCount := turnCount - 1;
          halted := None;
        case Answered(text, calls) =>
          var duplicates := DuplicateToolCallIds(calls);
          if duplicates != [] {
            halted := Some(Stopped(DuplicateIds));
          } else if calls == [] {
            messages', observed' := messages' + [Assistant(text)], observed' + [Assistant(text)];
            halted := Some(Finished(text));
          } else {
            messages', observed', halted := ToolBatch(t, messages', observed');
          }
      }
    }

    /**
     The run halts, exactly where the turn by turn reading of the environment halts.  `shown` is the
     conversation of every provider call it made, `observed` what the on_message callback got.
     */
    method Run(goal: string, history: seq<Message>, env: nat -> Turn, cancelledBefore: bool)
      returns (outcome: Outcome, messages: seq<Message>, observed: seq<Message>, shown: seq<seq<Message>>)
      requires ClockRuns(env)
      modifies this, detector
      ensures cancelledBefore ==> outcome == Propagated && shown == [] && observed == [] && turnCount == old(turnCount)
      ensures !cancelledBefore ==>
                exists n: nat ::
                  After(Cfg(), old(Start(history, goal, turnCount, toolCallCount, detector.history)), env, n)
                    == Halt(Here(messages, observed), outcome)
      ensures !cancelledBefore ==> history + [User(goal)] <= messages
      ensures !cancelledBefore ==> WithoutResults(messages) == WithoutResults(history) + observed
      ensures WellFormed(history) ==> forall c :: c in shown ==> WellFormed(c)
      ensures turnCount <= Max(old(turnCount), maxTurns) && toolCallCount <= Max(old(toolCallCount), maxToolCalls)
    {
      hide WellFormed, TurnStep, ProviderCall, WithoutResults;
      messages, observed, shown := history, [], [];
      if cancelledBefore {
        return Propagated, messages, observed, shown;
      }
      messages, observed := messages + [User(goal)], observed + [User(goal)];
      ghost var s0 := old(Start(history, goal, turnCount, toolCallCount, detector.history));
      var i: nat := 0;
      StartObserved(history, s0, goal);
      if WellFormed(history) { Talk(history, User(goal)); }
      while true
        invariant After(Cfg(), s0, env, i) == Next(Here(messages, observed))
        invariant WellFormed(history) ==> forall c :: c in shown ==> WellFormed(c)
        decreases TurnsLeft(Cfg(), Here(messages, observed)) + TimeLeft(Cfg(), env(i).now)
      {
        var call, halted;
        ghost var before := Here(messages, observed);
        messages, observed, call, halted := DoTurn(env(i), messages, observed);
        if call.Some? {
          shown := shown + [call.value];
          if WellFormed(history) { EveryProviderCallIsWellFormed(Cfg(), s0, env, i); }
        }
        assert After(Cfg(), s0, env, i + 1) == TurnStep(Cfg(), before, env(i));
        if halted.Some? {
          CallbackSeesAllButResults(Cfg(), history, s0, env, i + 1);
          BudgetsHold(Cfg(), s0, env, i + 1);
          ConversationGrows(Cfg(), s0, env, i + 1);
          return halted.value, messages, observed, shown;
        }
        TurnMeasure(Cfg(), before, env(i));
        i := i + 1;
      }
    }
  }

  lemma StartObserved(history: seq<Message>, s: State, goal: string)
    requires s.messages == history + [User(goal)] && s.observed == [] + [User(goal)]
    ensures Observed(history, s)
  {
    SayObserved(history, State(history, [], 0, 0, []), User(goal));
  }
}
