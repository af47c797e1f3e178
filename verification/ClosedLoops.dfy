/**
 The closed observe-act-verify loop of the computer-control agent: step budget, retry limit, approval
 gate for dangerous actions, and the bounded-history loop detector.  What the screen, the hook, the
 safety policy and the verifier do in an iteration is an arbitrary `Iteration`.
 */
module ClosedLoops {
  import opened Basics
  import opened Wrappers

  datatype Category = NoEffect | Read | Write | Irreversible

  datatype Action = Action(kind: string, target: string, category: Category) {
    predicate IsWrite() { category == Write || category == Irreversible }

    function Signature(): string { kind + ":" + target }
  }

  const DANGEROUS_KINDS: set<string> := {
    "app_kill", "window_close", "close_all", "kill_process", "force_kill", "shutdown", "format",
    "delete_files", "write_system_file", "modify_setting"
  }

  predicate IsDangerous(a: Action) { a.kind in DANGEROUS_KINDS }

  // --- the loop detector --------------------------------------------------------------------------

  /** How many equal elements the sequence ends in. */
  function RunLength(s: seq<string>): nat {
    if s == [] then 0
    else if |s| >= 2 && s[|s| - 2] == s[|s| - 1] then RunLength(s[..|s| - 1]) + 1
    else 1
  }

  /** No element is repeated more than n times in a row anywhere. */
  ghost predicate RunsAtMost(s: seq<string>, n: nat) {
    forall k :: 0 <= k <= |s| ==> RunLength(s[..k]) <= n
  }

  lemma {:induction false} RunLengthIs(s: seq<string>, n: nat)
    requires n <= |s|
    ensures RunLength(s) <= |s|
    ensures RunLength(s) >= n <==> forall i :: |s| - n <= i < |s| ==> s[i] == s[|s| - 1]
  {
    if |s| >= 2 {
      RunLengthIs(s[..|s| - 1], if n == 0 then 0 else n - 1);
      if s[|s| - 2] != s[|s| - 1] && n >= 2 {
        assert !(forall i :: |s| - n <= i < |s| ==> s[i] == s[|s| - 1]);
      }
    }
  }

  /** The bounded history tells as much as the whole one, for any threshold it has room for. */
  lemma BoundedHistoryAgrees(s: seq<string>, maxHistory: nat, n: nat)
    requires n <= maxHistory
    ensures RunLength(Newest(maxHistory, s)) >= n <==> RunLength(s) >= n
  {
    var recent := Newest(maxHistory, s);
    if n <= |recent| {
      RunLengthIs(s, n);
      RunLengthIs(recent, n);
      var shift := |s| - |recent|;
      assert forall i :: 0 <= i < |recent| ==> recent[i] == s[shift + i];
      if RunLength(recent) >= n {
        forall i | |s| - n <= i < |s|
          ensures s[i] == s[|s| - 1]
        {
          assert recent[i - shift] == s[i];
        }
      }
    } else {
      RunLengthIs(s, |s|);
      RunLengthIs(recent, |recent|);
    }
  }

  function Repeat(x: string, n: nat): seq<string> {
    if n == 0 then [] else Repeat(x, n - 1) + [x]
  }

  lemma {:induction false} RunLengthOfRepeat(x: string, n: nat)
    ensures |Repeat(x, n)| == n && RunLength(Repeat(x, n)) == n
    ensures forall i :: 0 <= i < n ==> Repeat(x, n)[i] == x
  {
    if n > 0 {
      RunLengthOfRepeat(x, n - 1);
      assert Repeat(x, n)[..n - 1] == Repeat(x, n - 1);
    }
  }

  /** What check_loop answers, and when it fails on an empty history. */
  function Detect(h: seq<string>, maxRepeats: int): Option<bool> {
    if |h| < maxRepeats then Some(false)
    else if h == [] then None
    else Some(RunLength(h) >= maxRepeats)
  }

  /** The detector answers for the whole history, whatever it was, exactly if its threshold fits into its history. */
  lemma DetectorIsExactIff(maxHistory: nat, maxRepeats: nat)
    requires maxRepeats >= 1
    ensures (forall s :: Detect(Newest(maxHistory, s), maxRepeats) == Some(RunLength(s) >= maxRepeats)) <==> maxRepeats <= maxHistory
  {
    if maxRepeats <= maxHistory {
      forall s
        ensures Detect(Newest(maxHistory, s), maxRepeats) == Some(RunLength(s) >= maxRepeats)
      {
        BoundedHistoryAgrees(s, maxHistory, maxRepeats);
        RunLengthIs(s, |s|);
      }
    } else {
      RunLengthOfRepeat("", maxRepeats);
      assert Detect(Newest(maxHistory, Repeat("", maxRepeats)), maxRepeats) == Some(false);
    }
  }

  class LoopDetector {
    const maxHistory: nat
    const maxRepeats: int
    var history: seq<string>
    ghost var recorded: seq<string>  // everything recorded since the last reset

    ghost predicate Valid()
      reads this
    {
      history == Newest(maxHistory, recorded)
    }

    constructor (maxHistory: nat, maxRepeats: int)
      ensures Valid() && recorded == [] && this.maxHistory == maxHistory && this.maxRepeats == maxRepeats
    {
      this.maxHistory, this.maxRepeats := maxHistory, maxRepeats;
      history, recorded := [], [];
    }

    method Record(action: Action)
      requires Valid()
      modifies this
      ensures Valid() && recorded == old(recorded) + [action.Signature()]
    {
      recorded := recorded + [action.Signature()];
      history := history + [action.Signature()];
      if |history| > maxHistory {
        history := history[1..];
      }
    }

    /** None stands for the index error on an empty history. */
    method CheckLoop() returns (looping: Option<bool>)
      requires Valid()
      ensures looping == Detect(history, maxRepeats)
      ensures looping.None? <==> history == [] && maxRepeats <= 0
      ensures looping == Some(true) <==>
        && history != [] && maxRepeats <= |history|
        && forall i :: 0 <= i < |history| && |history| - maxRepeats <= i ==> history[i] == history[|history| - 1]
      ensures 1 <= maxRepeats <= maxHistory ==> looping == Some(RunLength(recorded) >= maxRepeats)
    {
      if 1 <= maxRepeats <= maxHistory { DetectorIsExactIff(maxHistory, maxRepeats); }
      if |history| < maxRepeats {
        return Some(false);
      }
      if history == [] {
        return None;
      }
      var last := history[|history| - 1];
      var consecutive := 1;
      var i := |history| - 2;
      while i >= 0 && history[i] == last
        invariant -1 <= i <= |history| - 2
        invariant consecutive == |history| - 1 - i
        invariant forall j :: i < j < |history| ==> history[j] == last
      {
        consecutive := consecutive + 1;
        i := i - 1;
      }
      RunLengthIs(history, consecutive);
      if consecutive < |history| { RunLengthIs(history, consecutive + 1); }
      return Some(consecutive >= maxRepeats);
    }

    method Reset()
      modifies this
      ensures Valid() && recorded == []
    {
      history, recorded := [], [];
    }
  }

  // --- one iteration's environment ----------------------------------------------------------------

  datatype Grounding = Grounded(action: Action) | StaleFrame | GroundingFailed

  datatype HookAnswer = Approved | Refused | HookRaised

  datatype Verdict = NoVerdict | Allowed | PolicyDenied | PolicyRaised

  datatype Execution = Succeeded | Unsuccessful | ExecutionRaised

  datatype Verification = Confirmed | PostFrameStale | FailedForGood | NotConfirmed | VerificationRaised

  datatype Iteration = Iteration(
    now: int, cancelled: bool, grounding: Grounding, dangerHook: HookAnswer, policy: Verdict,
    hook: HookAnswer, execution: Execution, verification: Verification)

  datatype Event =
    | Asked(round: nat, action: Action, answer: HookAnswer)
    | Ruled(round: nat, verdict: Verdict)
    | Executed(round: nat, action: Action, execution: Execution)

  datatype Error = CancellationError | SafetyDenialError | StaleObservationError | LoopError

  datatype Outcome = Complete | VerificationFailed | OutOfBudget | Raised(error: Error)

  function Executes(trace: seq<Event>): nat {
    if trace == [] then 0
    else Executes(trace[..|trace| - 1]) + if trace[|trace| - 1].Executed? then 1 else 0
  }

  /** The signatures of the successful executes, which is what gets recorded. */
  function Successes(trace: seq<Event>): seq<string> {
    if trace == [] then []
    else
      var last := trace[|trace| - 1];
      Successes(trace[..|trace| - 1])
      + if last.Executed? && last.execution.Succeeded? then [last.action.Signature()] else []
  }

  /** The signatures of all executes, whatever came of them. */
  function Signatures(trace: seq<Event>): seq<string> {
    if trace == [] then []
    else
      var last := trace[|trace| - 1];
      Signatures(trace[..|trace| - 1]) + if last.Executed? then [last.action.Signature()] else []
  }

  lemma {:induction false} SignaturesConcat(a: seq<Event>, b: seq<Event>)
    ensures Signatures(a + b) == Signatures(a) + Signatures(b)
  {
    if b == [] {
      assert a + b == a;
    } else {
      assert (a + b)[..|a + b| - 1] == a + b[..|b| - 1];
      SignaturesConcat(a, b[..|b| - 1]);
    }
  }

  /** What must stand before an execute in the trace, in its own round. */
  ghost predicate Gated(trace: seq<Event>, hasHook: bool) {
    forall i :: 0 <= i < |trace| && trace[i].Executed? && trace[i].action.IsWrite() ==>
      && (hasHook ==> exists j :: 0 <= j < i && trace[j] == Asked(trace[i].round, trace[i].action, Approved))
      && (IsDangerous(trace[i].action) ==> hasHook)
      && (forall j :: 0 <= j < |trace| && trace[j].Asked? && trace[j].round == trace[i].round ==> trace[j].answer == Approved)
      && Ruled(trace[i].round, PolicyDenied) !in trace
  }

  ghost predicate RoundsBelow(trace: seq<Event>, round: nat) {
    forall i :: 0 <= i < |trace| ==> trace[i].round < round
  }

  lemma {:induction false} TraceConcat(a: seq<Event>, b: seq<Event>)
    ensures Executes(a + b) == Executes(a) + Executes(b)
    ensures Successes(a + b) == Successes(a) + Successes(b)
    decreases |b|
  {
    if b == [] {
      assert a + b == a;
    } else {
      assert (a + b)[..|a + b| - 1] == a + b[..|b| - 1];
      TraceConcat(a, b[..|b| - 1]);
    }
  }

  /** A round's own events, all gated, extend a gated trace of earlier rounds. */
  lemma GatedConcat(a: seq<Event>, b: seq<Event>, round: nat, hasHook: bool)
    requires Gated(a, hasHook) && Gated(b, hasHook) && RoundsBelow(a, round)
    requires forall i :: 0 <= i < |b| ==> b[i].round == round
    ensures Gated(a + b, hasHook) && RoundsBelow(a + b, round + 1)
  {
    var c := a + b;
    forall i | 0 <= i < |c| && c[i].Executed? && c[i].action.IsWrite()
      ensures hasHook ==> exists j :: 0 <= j < i && c[j] == Asked(c[i].round, c[i].action, Approved)
      ensures IsDangerous(c[i].action) ==> hasHook
      ensures forall j :: 0 <= j < |c| && c[j].Asked? && c[j].round == c[i].round ==> c[j].answer == Approved
      ensures Ruled(c[i].round, PolicyDenied) !in c
    {
      if i < |a| {
        if hasHook {
          var j :| 0 <= j < i && a[j] == Asked(a[i].round, a[i].action, Approved);
          assert c[j] == a[j];
        }
      } else {
        if hasHook {
          var j :| 0 <= j < i - |a| && b[j] == Asked(b[i - |a|].round, b[i - |a|].action, Approved);
          assert c[|a| + j] == b[j];
        }
      }
    }
  }

  /** Recording one more action after the detector found no loop keeps every run within the threshold. */
  lemma RunsGrow(s: seq<string>, x: string, n: nat)
    requires RunsAtMost(s, n) && RunLength(s) < n
    ensures RunsAtMost(s + [x], n)
  {
    var t := s + [x];
    forall k | 0 <= k <= |t|
      ensures RunLength(t[..k]) <= n
    {
      if k <= |s| {
        assert t[..k] == s[..k];
      } else {
        assert t[..k] == t && t[..|t| - 1] == s;
      }
    }
  }

  // --- the loop -----------------------------------------------------------------------------------

  datatype RoundEnd = Ended(outcome: Outcome) | Retry

  datatype Config = Config(maxSteps: int, maxStepsInPhase: int, timeout: int, startTime: int,
                           maxHistory: nat, maxRepeats: int, hasHook: bool, hasPolicy: bool)

  /** The counters, and what the detector has recorded since its last reset. */
  datatype LoopState = LoopState(step: int, phaseStep: int, recorded: seq<string>)

  predicate MayStep(cfg: Config, s: LoopState, now: int) {
    s.step < cfg.maxSteps && s.phaseStep < cfg.maxStepsInPhase && Max(0, cfg.timeout - (now - cfg.startTime)) > 0
  }

  function Advanced(s: LoopState): LoopState { s.(step := s.step + 1, phaseStep := 0) }

  /** An answer of the approval hook that does not approve. */
  function Denial(answer: HookAnswer): Option<Error> {
    match answer
    case Approved => None
    case Refused => Some(CancellationError)
    case HookRaised => Some(LoopError)
  }

  /** The policy and the hook for every write action. */
  function LastGate(cfg: Config, round: nat, action: Action, it: Iteration): (seq<Event>, Option<Error>) {
    var ruled := if cfg.hasPolicy then [Ruled(round, it.policy)] else [];
    if cfg.hasPolicy && it.policy == PolicyDenied then (ruled, Some(SafetyDenialError))
    else if cfg.hasHook then (ruled + [Asked(round, action, it.hook)], Denial(it.hook))
    else (ruled, None)
  }

  /** The gate of a write action; a dangerous one needs the hook before it comes to the rest. */
  function Gate(cfg: Config, round: nat, action: Action, it: Iteration): (seq<Event>, Option<Error>) {
    if !IsDangerous(action) then LastGate(cfg, round, action, it)
    else if !cfg.hasHook then ([], Some(SafetyDenialError))
    else
      var asked := [Asked(round, action, it.dangerHook)];
      if Denial(it.dangerHook).Some? then (asked, Denial(it.dangerHook))
      else var (rest, error) := LastGate(cfg, round, action, it); (asked + rest, error)
  }

  /** What the verifier's answer makes of the round. */
  function Judged(v: Verification): RoundEnd {
    match v
    case Confirmed => Ended(Complete)
    case PostFrameStale => Ended(VerificationFailed)
    case FailedForGood => Ended(VerificationFailed)
    case NotConfirmed => Retry
    case VerificationRaised => Ended(Raised(LoopError))
  }

  /** Loop check, execute, record, verify. */
  function Acted(cfg: Config, s: LoopState, round: nat, action: Action, it: Iteration): (r: (LoopState, seq<Event>, RoundEnd))
    ensures r.0.step >= s.step
  {
    if Detect(Newest(cfg.maxHistory, s.recorded), cfg.maxRepeats) != Some(false) then (s, [], Ended(Raised(LoopError)))
    else
      var executed := [Executed(round, action, it.execution)];
      if !it.execution.Succeeded? then (s, executed, Ended(Raised(LoopError)))
      else if it.verification.Confirmed? then (Advanced(s).(recorded := []), executed, Ended(Complete))
      else (s.(recorded := s.recorded + [action.Signature()]), executed, Judged(it.verification))
  }

  /** One iteration, from the cancellation check to the verifier's answer. */
  function RoundOf(cfg: Config, s: LoopState, round: nat, it: Iteration): (r: (LoopState, seq<Event>, RoundEnd))
    ensures r.0.step >= s.step
  {
    if it.cancelled then (s, [], Ended(Raised(CancellationError)))
    else match it.grounding
      case StaleFrame => (s, [], Ended(Raised(StaleObservationError)))
      case GroundingFailed => (s, [], Ended(Raised(LoopError)))
      case Grounded(action) =>
        if !action.IsWrite() then Acted(cfg, s, round, action, it)
        else
          var (gate, error) := Gate(cfg, round, action, it);
          if error.Some? then (s, gate, Ended(Raised(error.value)))
          else var (s', own, end) := Acted(cfg, s, round, action, it); (s', gate + own, end)
  }

  datatype Result = Result(state: LoopState, trace: seq<Event>, outcome: Outcome)

  /** The rounds from number `round` on, after `retries` retries. */
  function Rounds(cfg: Config, s: LoopState, round: nat, retries: int, maxRetries: int, env: nat -> Iteration): Result
    decreases cfg.maxSteps - s.step
  {
    if !MayStep(cfg, s, env(round).now) then Result(s, [], OutOfBudget)
    else
      var (s', own, end) := RoundOf(cfg, s, round, env(round));
      if end.Ended? then Result(s', own, end.outcome)
      else if retries >= maxRetries then Result(s', own, VerificationFailed)
      else
        var rest := Rounds(cfg, Advanced(s'), round + 1, retries + 1, maxRetries, env);
        rest.(trace := own + rest.trace)
  }

  // ---- what holds of every round and of every run --------------------------

  lemma GateOk(cfg: Config, round: nat, action: Action, it: Iteration)
    ensures var (events, error) := Gate(cfg, round, action, it);
      && (forall i :: 0 <= i < |events| ==> events[i].round == round && !events[i].Executed?)
      && (error.None? ==> Cleared(cfg, round, action, events))
  {
    if IsDangerous(action) && cfg.hasHook && Denial(it.dangerHook).None? {
      var (rest, error) := LastGate(cfg, round, action, it);
      if error.None? { assert rest[|rest| - 1] == Asked(round, action, Approved); }
    }
  }

  /** Everything that was asked about the action was approved, and the policy did not deny it. */
  ghost predicate Cleared(cfg: Config, round: nat, action: Action, events: seq<Event>) {
    && (cfg.hasHook ==> Asked(round, action, Approved) in events)
    && (IsDangerous(action) ==> cfg.hasHook)
    && (forall i :: 0 <= i < |events| && events[i].Asked? ==> events[i].answer == Approved)
    && Ruled(round, PolicyDenied) !in events
  }

  /** The detector's threshold fits its history, and no run of equal records exceeds it. */
  ghost predicate Calm(cfg: Config, s: LoopState) {
    1 <= cfg.maxRepeats <= cfg.maxHistory ==> RunsAtMost(s.recorded, cfg.maxRepeats)
  }

  lemma ActedKeepsCalm(cfg: Config, s: LoopState, round: nat, action: Action, it: Iteration)
    requires Calm(cfg, s)
    ensures Calm(cfg, Acted(cfg, s, round, action, it).0)
  {
    hide RunLength, RunsAtMost;
    if 1 <= cfg.maxRepeats <= cfg.maxHistory {
      EmptyRuns(cfg.maxRepeats);
      DetectorIsExactIff(cfg.maxHistory, cfg.maxRepeats);
      if Acted(cfg, s, round, action, it).0.recorded == s.recorded + [action.Signature()] {
        if RunLength(s.recorded) < cfg.maxRepeats { RunsGrow(s.recorded, action.Signature(), cfg.maxRepeats); }
      }
    }
  }

  /** What one round adds to the trace and to the state. */
  ghost predicate RoundSound(cfg: Config, s: LoopState, round: nat, r: (LoopState, seq<Event>, RoundEnd)) {
    && (forall i :: 0 <= i < |r.1| ==> r.1[i].round == round)
    && Gated(r.1, cfg.hasHook) && Executes(r.1) <= 1
    && r.0.recorded == (if r.2 == Ended(Complete) then [] else s.recorded + Successes(r.1))
    && r.0.step == s.step + (if r.2 == Ended(Complete) then 1 else 0)
    && Calm(cfg, r.0)
  }

  lemma ActedIsSound(cfg: Config, s: LoopState, round: nat, action: Action, it: Iteration, gate: seq<Event>)
    requires Calm(cfg, s)
    requires forall i :: 0 <= i < |gate| ==> gate[i].round == round && !gate[i].Executed?
    requires action.IsWrite() ==> Cleared(cfg, round, action, gate)
    ensures var (s', own, end) := Acted(cfg, s, round, action, it); RoundSound(cfg, s, round, (s', gate + own, end))
  {
    hide RunLength, RunsAtMost, Calm, Gated, Executes, Successes, Detect;
    ActedKeepsCalm(cfg, s, round, action, it);
    NothingExecuted(gate);
    GatedExecute(gate, round, action, it.execution, cfg.hasHook);
    assert gate + [] == gate && s.recorded + [] == s.recorded;
  }

  lemma RoundIsSound(cfg: Config, s: LoopState, round: nat, it: Iteration)
    requires Calm(cfg, s)
    ensures RoundSound(cfg, s, round, RoundOf(cfg, s, round, it))
  {
    hide Calm, Gated, Executes, Successes, Acted, Gate;
    NothingExecuted([]);
    assert s.recorded + [] == s.recorded;
    if !it.cancelled && it.grounding.Grounded? {
      var action := it.grounding.action;
      if action.IsWrite() {
        var (gate, error) := Gate(cfg, round, action, it);
        GateOk(cfg, round, action, it);
        NothingExecuted(gate);
        if error.None? { ActedIsSound(cfg, s, round, action, it, gate); }
      } else {
        ActedIsSound(cfg, s, round, action, it, []);
        assert [] + Acted(cfg, s, round, action, it).1 == Acted(cfg, s, round, action, it).1;
      }
    }
  }

  /** The whole run, given the trace of the rounds before. */
  lemma {:induction false} RoundsAreSound(cfg: Config, s: LoopState, round: nat, retries: int, maxRetries: int,
                                          env: nat -> Iteration, trace: seq<Event>)
    requires Calm(cfg, s) && Gated(trace, cfg.hasHook) && RoundsBelow(trace, round)
    ensures var x := Rounds(cfg, s, round, retries, maxRetries, env);
      && Gated(trace + x.trace, cfg.hasHook)
      && Executes(x.trace) <= Max(0, Min(cfg.maxSteps - s.step, Max(0, maxRetries - retries) + 1))
      && x.state.recorded == (if x.outcome == Complete then [] else s.recorded + Successes(x.trace))
      && s.step <= x.state.step <= Max(s.step, cfg.maxSteps)
      && Calm(cfg, x.state)
    decreases cfg.maxSteps - s.step
  {
    hide RunsAtMost, Calm, Gated, Executes, Successes, RoundOf;
    NothingExecuted([]);
    assert trace + [] == trace && s.recorded + [] == s.recorded;
    if MayStep(cfg, s, env(round).now) {
      var (s', own, end) := RoundOf(cfg, s, round, env(round));
      RoundIsSound(cfg, s, round, env(round));
      GatedConcat(trace, own, round, cfg.hasHook);
      if end.Retry? && retries < maxRetries {
        AdvancedCalm(cfg, s');
        RoundsAreSound(cfg, Advanced(s'), round + 1, retries + 1, maxRetries, env, trace + own);
        var rest := Rounds(cfg, Advanced(s'), round + 1, retries + 1, maxRetries, env).trace;
        TraceConcat(own, rest);
        assert trace + own + rest == trace + (own + rest);
        assert s.recorded + Successes(own) + Successes(rest) == s.recorded + (Successes(own) + Successes(rest));
      }
    }
  }

  lemma AdvancedCalm(cfg: Config, s: LoopState)
    requires Calm(cfg, s)
    ensures Calm(cfg, Advanced(s))
  {
  }

  // ---- repeats --------------------------------------------------------------

  predicate Fits(cfg: Config) { 1 <= cfg.maxRepeats <= cfg.maxHistory }

  lemma {:induction false} GateHasNoSignature(events: seq<Event>)
    requires forall i :: 0 <= i < |events| ==> !events[i].Executed?
    ensures Signatures(events) == []
  {
    if events != [] { GateHasNoSignature(events[..|events| - 1]); }
  }

  /** An execute, successful or not, comes after fewer than `maxRepeats` equal records. */
  lemma ActedRepeats(cfg: Config, s: LoopState, round: nat, action: Action, it: Iteration)
    requires Fits(cfg) && RunsAtMost(s.recorded, cfg.maxRepeats)
    ensures var r := Acted(cfg, s, round, action, it);
      && RunsAtMost(s.recorded + Signatures(r.1), cfg.maxRepeats)
      && (r.2.Retry? ==> r.0.recorded == s.recorded + Signatures(r.1))
  {
    hide RunLength, RunsAtMost;
    var own := Acted(cfg, s, round, action, it).1;
    DetectorIsExactIff(cfg.maxHistory, cfg.maxRepeats);
    assert s.recorded + [] == s.recorded;
    if own != [] {
      assert Detect(Newest(cfg.maxHistory, s.recorded), cfg.maxRepeats) == Some(RunLength(s.recorded) >= cfg.maxRepeats);
      assert own[..0] == [] && Signatures(own) == [action.Signature()];
      RunsGrow(s.recorded, action.Signature(), cfg.maxRepeats);
    }
  }

  lemma RoundRepeats(cfg: Config, s: LoopState, round: nat, it: Iteration)
    requires Fits(cfg) && RunsAtMost(s.recorded, cfg.maxRepeats)
    ensures var r := RoundOf(cfg, s, round, it);
      && RunsAtMost(s.recorded + Signatures(r.1), cfg.maxRepeats)
      && (r.2.Retry? ==> r.0.recorded == s.recorded + Signatures(r.1))
  {
    hide RunLength, RunsAtMost, Acted, Gate;
    GateHasNoSignature([]);
    assert s.recorded + [] == s.recorded;
    if !it.cancelled && it.grounding.Grounded? {
      var action := it.grounding.action;
      ActedRepeats(cfg, s, round, action, it);
      var gate := Gate(cfg, round, action, it).0;
      GateOk(cfg, round, action, it);
      GateHasNoSignature(gate);
      SignaturesConcat(gate, Acted(cfg, s, round, action, it).1);
      assert [] + Signatures(Acted(cfg, s, round, action, it).1) == Signatures(Acted(cfg, s, round, action, it).1);
    }
  }

  /** In a run, no more than `maxRepeats` executes alike follow one another, however they end and however the run ends. */
  lemma {:induction false} RoundsRepeat(cfg: Config, s: LoopState, round: nat, retries: int, maxRetries: int, env: nat -> Iteration)
    requires Fits(cfg) && RunsAtMost(s.recorded, cfg.maxRepeats)
    ensures RunsAtMost(s.recorded + Signatures(Rounds(cfg, s, round, retries, maxRetries, env).trace), cfg.maxRepeats)
    decreases cfg.maxSteps - s.step
  {
    hide RunLength, RunsAtMost, RoundOf;
    GateHasNoSignature([]);
    assert s.recorded + [] == s.recorded;
    if MayStep(cfg, s, env(round).now) {
      var (s', own, end) := RoundOf(cfg, s, round, env(round));
      RoundRepeats(cfg, s, round, env(round));
      if end.Retry? && retries < maxRetries {
        var rest := Rounds(cfg, Advanced(s'), round + 1, retries + 1, maxRetries, env).trace;
        RoundsRepeat(cfg, Advanced(s'), round + 1, retries + 1, maxRetries, env);
        SignaturesConcat(own, rest);
        assert s.recorded + Signatures(own) + Signatures(rest) == s.recorded + (Signatures(own) + Signatures(rest));
      }
    }
  }

  /**
   Every run: executes are bounded by the steps and the retries left; every execute of a write action was
   let through by the gate of its own round; no more than max_repeats executes alike follow one another,
   counted on from what was recorded before; the detector has recorded the successful ones since its reset.
   */
  lemma RunsAreSafe(cfg: Config, s: LoopState, maxRetries: int, env: nat -> Iteration)
    requires Calm(cfg, s)
    ensures var x := Rounds(cfg, s, 0, 0, maxRetries, env);
      && Executes(x.trace) <= Max(0, Min(cfg.maxSteps - s.step, Max(0, maxRetries) + 1))
      && Gated(x.trace, cfg.hasHook)
      && x.state.recorded == (if x.outcome == Complete then [] else s.recorded + Successes(x.trace))
      && s.step <= x.state.step <= Max(s.step, cfg.maxSteps)
      && (Fits(cfg) ==> RunsAtMost(s.recorded + Signatures(x.trace), cfg.maxRepeats))
  {
    NothingExecuted([]);
    RoundsAreSound(cfg, s, 0, 0, maxRetries, env, []);
    var x := Rounds(cfg, s, 0, 0, maxRetries, env);
    assert [] + x.trace == x.trace;
    if Fits(cfg) { RoundsRepeat(cfg, s, 0, 0, maxRetries, env); }
  }

  // ---- repeats over several runs -------------------------------------------

  /** One call of run. */
  datatype Call = Call(maxRetries: int, env: nat -> Iteration)

  function Called(cfg: Config, s: LoopState, c: Call): Result { Rounds(cfg, s, 0, 0, c.maxRetries, c.env) }

  /** No execute of the calls fails. */
  ghost predicate NoneFails(cfg: Config, s: LoopState, calls: seq<Call>)
    decreases |calls|
  {
    calls == [] ||
    var x := Called(cfg, s, calls[0]);
    && (forall i :: 0 <= i < |x.trace| && x.trace[i].Executed? ==> x.trace[i].execution.Succeeded?)
    && NoneFails(cfg, x.state, calls[1..])
  }

  /** Since the last reset, at every point of the calls, no more than `maxRepeats` executes alike follow one another. */
  ghost predicate RepeatsBounded(cfg: Config, s: LoopState, seen: seq<string>, calls: seq<Call>)
    requires Fits(cfg)
    decreases |calls|
  {
    calls == [] ||
    var x := Called(cfg, s, calls[0]);
    var seen' := seen + Signatures(x.trace);
    && RunsAtMost(seen', cfg.maxRepeats)
    && RepeatsBounded(cfg, x.state, if x.outcome == Complete then [] else seen', calls[1..])
  }

  /** Some call could execute something. */
  predicate CanExecute(cfg: Config, s: LoopState) {
    s.step < cfg.maxSteps && s.phaseStep < cfg.maxStepsInPhase && RunLength(s.recorded) < cfg.maxRepeats
  }

  lemma {:induction false} AllSucceed(trace: seq<Event>)
    requires forall i :: 0 <= i < |trace| && trace[i].Executed? ==> trace[i].execution.Succeeded?
    ensures Signatures(trace) == Successes(trace)
  {
    if trace != [] { AllSucceed(trace[..|trace| - 1]); }
  }

  /** As long as no execute fails, the recorded actions are the executed ones, over any number of calls. */
  lemma {:induction false} SuccessfulCallsAreBounded(cfg: Config, s: LoopState, calls: seq<Call>)
    requires Fits(cfg) && RunsAtMost(s.recorded, cfg.maxRepeats) && NoneFails(cfg, s, calls)
    ensures RepeatsBounded(cfg, s, s.recorded, calls)
    decreases |calls|
  {
    if calls != [] {
      hide RunLength, Rounds, Gated;
      var x := Called(cfg, s, calls[0]);
      RunsAreSafe(cfg, s, calls[0].maxRetries, calls[0].env);
      AllSucceed(x.trace);
      EmptyRuns(cfg.maxRepeats);
      hide RunsAtMost;
      SuccessfulCallsAreBounded(cfg, x.state, calls[1..]);
    }
  }

  /** When nothing can be executed, every call ends without an execute and leaves the detector as it is. */
  lemma IdleCall(cfg: Config, s: LoopState, c: Call)
    requires Fits(cfg) && !CanExecute(cfg, s)
    ensures Called(cfg, s, c).state == s && Signatures(Called(cfg, s, c).trace) == [] && Called(cfg, s, c).outcome != Complete
  {
    hide RunLength;
    GateHasNoSignature([]);
    DetectorIsExactIff(cfg.maxHistory, cfg.maxRepeats);
    if MayStep(cfg, s, c.env(0).now) {
      IdleRound(cfg, s, c.env(0));
    }
  }

  lemma IdleRound(cfg: Config, s: LoopState, it: Iteration)
    requires Detect(Newest(cfg.maxHistory, s.recorded), cfg.maxRepeats) != Some(false)
    ensures var r := RoundOf(cfg, s, 0, it);
      r.0 == s && Signatures(r.1) == [] && r.2.Ended? && r.2.outcome != Complete
  {
    hide Detect, Gate;
    GateHasNoSignature([]);
    if it.grounding.Grounded? {
      var gate := Gate(cfg, 0, it.grounding.action, it).0;
      GateOk(cfg, 0, it.grounding.action, it);
      GateHasNoSignature(gate);
      assert gate + [] == gate;
    }
  }

  lemma {:induction false} IdleCallsAreBounded(cfg: Config, s: LoopState, seen: seq<string>, calls: seq<Call>)
    requires Fits(cfg) && RunsAtMost(seen, cfg.maxRepeats) && !CanExecute(cfg, s)
    ensures RepeatsBounded(cfg, s, seen, calls)
    decreases |calls|
  {
    if calls != [] {
      hide CanExecute, RunsAtMost;
      IdleCall(cfg, s, calls[0]);
      assert seen + [] == seen;
      IdleCallsAreBounded(cfg, s, seen, calls[1..]);
    }
  }

  /** A call whose first execute, of a read action, fails. */
  function FailingCall(cfg: Config): Call {
    var it := Iteration(cfg.startTime + cfg.timeout - 1, false, Grounded(Action("", "", Read)), Approved, NoVerdict,
                        Approved, Unsuccessful, Confirmed);
    Call(0, i => it)
  }

  /** The failing call executes once and leaves no record. */
  lemma FailingCallRepeats(cfg: Config, s: LoopState)
    requires Fits(cfg) && CanExecute(cfg, s)
    ensures var x := Called(cfg, s, FailingCall(cfg));
      x.state == s && x.outcome != Complete && Signatures(x.trace) == [FailingSignature()]
  {
    hide RunLength;
    DetectorIsExactIff(cfg.maxHistory, cfg.maxRepeats);
    assert Detect(Newest(cfg.maxHistory, s.recorded), cfg.maxRepeats) == Some(false);
    hide Detect;
    var e := Executed(0, Action("", "", Read), Unsuccessful);
    assert [e][..0] == [];
  }

  function Again(c: Call, n: nat): seq<Call> { if n == 0 then [] else [c] + Again(c, n - 1) }

  /** The signature of the failing call's action. */
  function FailingSignature(): string { Action("", "", Read).Signature() }

  /** One more failing call adds one more execute alike, and nothing else changes. */
  lemma OneMoreFailure(cfg: Config, s: LoopState, seen: seq<string>, n: nat)
    requires Fits(cfg) && CanExecute(cfg, s) && n > 0
    requires RepeatsBounded(cfg, s, seen, Again(FailingCall(cfg), n))
    ensures RunsAtMost(seen + [FailingSignature()], cfg.maxRepeats)
    ensures RepeatsBounded(cfg, s, seen + [FailingSignature()], Again(FailingCall(cfg), n - 1))
  {
    hide RunLength, RunsAtMost, CanExecute, FailingCall, Called;
    var c := FailingCall(cfg);
    FailingCallRepeats(cfg, s);
    assert Again(c, n)[0] == c && Again(c, n)[1..] == Again(c, n - 1);
  }

  /** Calls that fail alike pile up executes the detector never sees. */
  lemma {:induction false} FailuresAreUnbounded(cfg: Config, s: LoopState, seen: seq<string>, n: nat)
    requires Fits(cfg) && CanExecute(cfg, s) && n > 0 && RunLength(seen) + n > cfg.maxRepeats
    requires seen != [] && seen[|seen| - 1] == FailingSignature()
    ensures !RepeatsBounded(cfg, s, seen, Again(FailingCall(cfg), n))
    decreases n
  {
    hide CanExecute, FailingCall, FailingSignature, RepeatsBounded, Again;
    if RepeatsBounded(cfg, s, seen, Again(FailingCall(cfg), n)) {
      OneMoreFailure(cfg, s, seen, n);
      var seen' := seen + [FailingSignature()];
      assert seen'[..|seen'| - 1] == seen && RunLength(seen') == RunLength(seen) + 1;
      assert seen'[..|seen'|] == seen';
      if n > 1 { FailuresAreUnbounded(cfg, s, seen', n - 1); }
    }
  }

  lemma FailuresFromHere(cfg: Config, s: LoopState)
    requires Fits(cfg) && CanExecute(cfg, s)
    ensures !RepeatsBounded(cfg, s, s.recorded, Again(FailingCall(cfg), cfg.maxRepeats + 1))
  {
    hide CanExecute, FailingCall, FailingSignature, RepeatsBounded, Again;
    if RepeatsBounded(cfg, s, s.recorded, Again(FailingCall(cfg), cfg.maxRepeats + 1)) {
      OneMoreFailure(cfg, s, s.recorded, cfg.maxRepeats + 1);
      FailuresAreUnbounded(cfg, s, s.recorded + [FailingSignature()], cfg.maxRepeats);
    }
  }

  /**
   Over every series of calls, the bound on executes alike holds between resets exactly if no execute may
   fail or nothing can be executed at all: an execute that fails is not recorded.
   */
  lemma RepeatsAcrossCallsIff(cfg: Config, s: LoopState, mayFail: bool)
    requires Fits(cfg) && RunsAtMost(s.recorded, cfg.maxRepeats)
    ensures (forall calls :: mayFail || NoneFails(cfg, s, calls) ==> RepeatsBounded(cfg, s, s.recorded, calls))
      <==> !mayFail || !CanExecute(cfg, s)
  {
    hide CanExecute, RunsAtMost, NoneFails, RepeatsBounded;
    if mayFail && CanExecute(cfg, s) {
      FailuresFromHere(cfg, s);
    } else {
      forall calls | mayFail || NoneFails(cfg, s, calls)
        ensures RepeatsBounded(cfg, s, s.recorded, calls)
      {
        if mayFail { IdleCallsAreBounded(cfg, s, s.recorded, calls); } else { SuccessfulCallsAreBounded(cfg, s, calls); }
      }
    }
  }

  // ---- how rounds and runs end ----------------------------------------------

  /** A write action is let through: by the hook if it is dangerous, by the policy, and by the hook again. */
  predicate LetThrough(cfg: Config, action: Action, it: Iteration) {
    && (IsDangerous(action) ==> cfg.hasHook && it.dangerHook == Approved)
    && (cfg.hasPolicy ==> it.policy != PolicyDenied)
    && (cfg.hasHook ==> it.hook == Approved)
  }

  /** The iteration comes to its execute. */
  predicate Performs(cfg: Config, s: LoopState, it: Iteration) {
    && !it.cancelled && it.grounding.Grounded?
    && (it.grounding.action.IsWrite() ==> LetThrough(cfg, it.grounding.action, it))
    && Detect(Newest(cfg.maxHistory, s.recorded), cfg.maxRepeats) == Some(false)
  }

  /**
   Every iteration: its action is executed exactly if nothing stands against it, and then as the last thing
   it does; and which way it ends, whatever the screen, the hook, the policy and the verifier answered.
   */
  lemma RoundEndsIff(cfg: Config, s: LoopState, round: nat, it: Iteration)
    ensures var (s', own, end) := RoundOf(cfg, s, round, it);
      var done := Performs(cfg, s, it) && it.execution.Succeeded?;
      && (if Performs(cfg, s, it)
          then own != [] && own[|own| - 1] == Executed(round, it.grounding.action, it.execution)
          else forall e :: e in own ==> !e.Executed?)
      && (end == Retry <==> done && it.verification == NotConfirmed)
      && (end == Ended(Complete) <==> done && it.verification == Confirmed)
      && (end == Ended(VerificationFailed) <==> done && (it.verification == PostFrameStale || it.verification == FailedForGood))
      && end != Ended(OutOfBudget)
      && (end == Ended(Raised(StaleObservationError)) <==> !it.cancelled && it.grounding == StaleFrame)
      && (end == Ended(Raised(SafetyDenialError)) <==> Denied(cfg, it))
      && (end == Ended(Raised(CancellationError)) <==> it.cancelled || TurnedDown(cfg, it))
  {
    if it.grounding.Grounded? {
      GateEndsIff(cfg, round, it.grounding.action, it);
      var gate := Gate(cfg, round, it.grounding.action, it).0;
      GateOk(cfg, round, it.grounding.action, it);
      assert forall e :: e in gate ==> !e.Executed?;
      hide Gate, Detect, IsDangerous;
    }
  }

  /** A write action that the policy denies, or that is dangerous and has no hook to ask. */
  predicate Denied(cfg: Config, it: Iteration) {
    && !it.cancelled && it.grounding.Grounded? && it.grounding.action.IsWrite()
    && if IsDangerous(it.grounding.action) && !cfg.hasHook then true
       else (IsDangerous(it.grounding.action) ==> it.dangerHook == Approved) && cfg.hasPolicy && it.policy == PolicyDenied
  }

  /** A write action that the hook refuses, either time it is asked. */
  predicate TurnedDown(cfg: Config, it: Iteration) {
    && !it.cancelled && it.grounding.Grounded? && it.grounding.action.IsWrite() && cfg.hasHook
    && if IsDangerous(it.grounding.action) && it.dangerHook != Approved then it.dangerHook == Refused
       else it.hook == Refused && !(cfg.hasPolicy && it.policy == PolicyDenied)
  }

  lemma GateEndsIff(cfg: Config, round: nat, action: Action, it: Iteration)
    ensures var error := Gate(cfg, round, action, it).1;
      && (error == None <==> LetThrough(cfg, action, it))
      && (!it.cancelled && it.grounding == Grounded(action) && action.IsWrite() ==>
            && (error == Some(SafetyDenialError) <==> Denied(cfg, it))
            && (error == Some(CancellationError) <==> TurnedDown(cfg, it)))
      && error != Some(StaleObservationError)
  {
    hide IsDangerous;
  }

  /** The step was executed and the verifier asked for another try. */
  predicate Retried(it: Iteration) {
    !it.cancelled && it.grounding.Grounded? && it.execution.Succeeded? && it.verification == NotConfirmed
  }

  /**
   In state `at`, before an iteration, the run is over: it is out of steps, phase steps or time, or this
   iteration ends it, or that one wants another try and there is none left.  `executes` are those of the iteration.
   */
  ghost predicate EndsAt(cfg: Config, outcome: Outcome, state: LoopState, executes: int, at: LoopState, round: nat, it: Iteration,
                         spent: bool) {
    var (s', own, end) := RoundOf(cfg, at, round, it);
    if at.step >= cfg.maxSteps || at.phaseStep >= cfg.maxStepsInPhase || it.now - cfg.startTime >= cfg.timeout
    then outcome == OutOfBudget && state == at && executes == 0
    else
      && state == s' && executes == Executes(own)
      && if end.Ended? then outcome == end.outcome else outcome == VerificationFailed && spent
  }

  lemma RunStops(cfg: Config, s: LoopState, round: nat, retries: int, maxRetries: int, env: nat -> Iteration)
    requires var end := RoundOf(cfg, s, round, env(round)).2;
      !MayStep(cfg, s, env(round).now) || end.Ended? || retries >= maxRetries
    ensures var x := Rounds(cfg, s, round, retries, maxRetries, env);
      EndsAt(cfg, x.outcome, x.state, Executes(x.trace), s, round, env(round), 0 == Max(0, maxRetries - retries))
  {
    RunUnfold(cfg, s, round, retries, maxRetries, env);
    hide Rounds, RoundOf, Executes;
  }

  /**
   Every run: n iterations are tried again, as many as the retries allow at most; each costs one step and ends
   its phase.  Then the run ends, for one of the reasons of `EndsAt`.
   */
  lemma {:induction false} RunEnds(cfg: Config, s: LoopState, round: nat, retries: int, maxRetries: int, env: nat -> Iteration)
    returns (n: nat, at: LoopState)
    ensures n <= Max(0, maxRetries - retries) && forall k :: round <= k < round + n ==> Retried(env(k))
    ensures at.step == s.step + n && at.phaseStep == if n == 0 then s.phaseStep else 0
    ensures var x := Rounds(cfg, s, round, retries, maxRetries, env);
      EndsAt(cfg, x.outcome, x.state, Executes(x.trace) - n, at, round + n, env(round + n), n == Max(0, maxRetries - retries))
    decreases cfg.maxSteps - s.step
  {
    hide Rounds, Retried, Executes, EndsAt, RoundOf, MayStep;
    n, at := 0, s;
    if MayStep(cfg, s, env(round).now) && RoundOf(cfg, s, round, env(round)).2.Retry? && retries < maxRetries {
      var next := RetryStep(cfg, s, round, retries, maxRetries, env);
      var m;
      m, at := RunEnds(cfg, next, round + 1, retries + 1, maxRetries, env);
      n := m + 1;
    } else {
      RunStops(cfg, s, round, retries, maxRetries, env);
    }
  }

  lemma RetryStep(cfg: Config, s: LoopState, round: nat, retries: int, maxRetries: int, env: nat -> Iteration) returns (next: LoopState)
    requires MayStep(cfg, s, env(round).now) && RoundOf(cfg, s, round, env(round)).2.Retry? && retries < maxRetries
    ensures next.step == s.step + 1 <= cfg.maxSteps && next.phaseStep == 0 && Retried(env(round))
    ensures var x, rest := Rounds(cfg, s, round, retries, maxRetries, env), Rounds(cfg, next, round + 1, retries + 1, maxRetries, env);
      x.outcome == rest.outcome && x.state == rest.state && Executes(x.trace) == 1 + Executes(rest.trace)
  {
    RunUnfold(cfg, s, round, retries, maxRetries, env);
    RetriedRound(cfg, s, round, env(round));
    hide RoundOf, Rounds, Executes;
    next := Advanced(RoundOf(cfg, s, round, env(round)).0);
  }

  lemma RunUnfold(cfg: Config, s: LoopState, round: nat, retries: int, maxRetries: int, env: nat -> Iteration)
    ensures var x, (s', own, end) := Rounds(cfg, s, round, retries, maxRetries, env), RoundOf(cfg, s, round, env(round));
      if !MayStep(cfg, s, env(round).now) then x.outcome == OutOfBudget && x.state == s && Executes(x.trace) == 0
      else if end.Ended? then x.outcome == end.outcome && x.state == s' && Executes(x.trace) == Executes(own)
      else if retries >= maxRetries then x.outcome == VerificationFailed && x.state == s' && Executes(x.trace) == Executes(own)
      else
        var rest := Rounds(cfg, Advanced(s'), round + 1, retries + 1, maxRetries, env);
        x.outcome == rest.outcome && x.state == rest.state && Executes(x.trace) == Executes(own) + Executes(rest.trace)
  {
    NothingExecuted([]);
    hide RoundOf, MayStep, Executes;
    var (s', own, end) := RoundOf(cfg, s, round, env(round));
    if MayStep(cfg, s, env(round).now) && end.Retry? && retries < maxRetries {
      RetryUnfold(cfg, s, round, retries, maxRetries, env, []);
      var x, rest := Rounds(cfg, s, round, retries, maxRetries, env), Rounds(cfg, Advanced(s'), round + 1, retries + 1, maxRetries, env);
      hide Rounds;
      TraceConcat(own, rest.trace);
      assert [] + x.trace == x.trace && [] + own == own;
    }
  }

  lemma RetriedRound(cfg: Config, s: LoopState, round: nat, it: Iteration)
    requires RoundOf(cfg, s, round, it).2.Retry?
    ensures Retried(it) && Executes(RoundOf(cfg, s, round, it).1) == 1
    ensures RoundOf(cfg, s, round, it).0.step == s.step && RoundOf(cfg, s, round, it).0.phaseStep == s.phaseStep
  {
    var action := it.grounding.action;
    var gate := if action.IsWrite() then Gate(cfg, round, action, it).0 else [];
    GateOk(cfg, round, action, it);
    NothingExecuted(gate);
    hide Gate, Executes;
    RetriedAct(cfg, s, round, action, it);
    var executed := Acted(cfg, s, round, action, it).1;
    hide Acted;
    TraceConcat(gate, executed);
  }

  lemma RetriedAct(cfg: Config, s: LoopState, round: nat, action: Action, it: Iteration)
    ensures var (s', own, end) := Acted(cfg, s, round, action, it);
      end.Retry? ==> it.execution.Succeeded? && it.verification == NotConfirmed && Executes(own) == 1
                     && s'.step == s.step && s'.phaseStep == s.phaseStep
  {
    OneExecute(Executed(round, action, it.execution));
    hide Detect, Executes;
  }

  lemma OneExecute(e: Event)
    requires e.Executed?
    ensures Executes([e]) == 1
  {
    assert [e][..0] == [];
  }

  // ---- what the gate does not cover ----------------------------------------

  /** A dangerous action that is executed had the approval of the hook exactly if it is a write action. */
  lemma DangerNeedsHookIff(cfg: Config, s: LoopState, round: nat, it: Iteration, action: Action)
    requires it.grounding == Grounded(action) && IsDangerous(action)
    requires exists e :: e in RoundOf(cfg, s, round, it).1 && e.Executed?
    ensures Asked(round, action, Approved) in RoundOf(cfg, s, round, it).1 <==> action.IsWrite()
  {
    GateOk(cfg, round, action, it);
    hide Gate, Detect;
    if action.IsWrite() {
      var gate := Gate(cfg, round, action, it).0;
      assert Asked(round, action, Approved) in gate;
    }
  }

  /** With every hook answer approving, the policy stops a write action exactly by denying it; raising does not. */
  lemma PolicyStopsIff(cfg: Config, round: nat, action: Action, it: Iteration)
    requires cfg.hasPolicy && it.dangerHook.Approved? && it.hook.Approved? && (IsDangerous(action) ==> cfg.hasHook)
    ensures Gate(cfg, round, action, it).1.Some? <==> it.policy.PolicyDenied?
  {
  }

  /** The kind the documentation names is not in the table; the one the table has is. */
  lemma CloseWindow(target: string, category: Category)
    ensures !IsDangerous(Action("close_window", target, category))
    ensures IsDangerous(Action("window_close", target, category))
  {
    assert "close_window"[0] == 'c' && "close_all"[5] == '_' && |"close_all"| == 9;
  }

  class VisionComputerAgent {
    const maxSteps: int
    const maxStepsInPhase: int
    const timeout: int
    const startTime: int
    var step: int
    var phaseStep: int
    const detector: LoopDetector
    const hasHook: bool
    const hasPolicy: bool

    constructor (maxSteps: int, maxStepsInPhase: int, timeout: int, startTime: int,
                 detector: LoopDetector, hasHook: bool, hasPolicy: bool)
      ensures step == 0 && phaseStep == 0 && this.detector == detector
      ensures Cfg() == Config(maxSteps, maxStepsInPhase, timeout, startTime,
                              detector.maxHistory, detector.maxRepeats, hasHook, hasPolicy)
    {
      this.maxSteps, this.maxStepsInPhase, this.timeout, this.startTime := maxSteps, maxStepsInPhase, timeout, startTime;
      this.detector, this.hasHook, this.hasPolicy := detector, hasHook, hasPolicy;
      step, phaseStep := 0, 0;
    }

    ghost function Cfg(): Config {
      Config(maxSteps, maxStepsInPhase, timeout, startTime, detector.maxHistory, detector.maxRepeats, hasHook, hasPolicy)
    }

    ghost function View(): LoopState
      reads this, detector
    {
      LoopState(step, phaseStep, detector.recorded)
    }

    method CanStep(now: int) returns (may: bool)
      ensures may == MayStep(Cfg(), View(), now)
    {
      var remaining := timeout - (now - startTime);
      may := step < maxSteps && phaseStep < maxStepsInPhase && remaining > 0;
    }

    method AdvancePhase()
      modifies this`step, this`phaseStep
      ensures View() == Advanced(old(View()))
    {
      step := step + 1;
      phaseStep := 0;
    }

    /** The gate of a write action: the hook for a dangerous one, then the checks for every one. */
    method Approve(round: nat, action: Action, it: Iteration) returns (events: seq<Event>, error: Option<Error>)
      ensures (events, error) == Gate(Cfg(), round, action, it)
    {
      events, error := [], None;
      if IsDangerous(action) {
        if !hasHook {
          return events, Some(SafetyDenialError);
        }
        events := [Asked(round, action, it.dangerHook)];
        match it.dangerHook {
          case Refused => return events, Some(CancellationError);
          case HookRaised => return events, Some(LoopError);
          case Approved =>
        }
      }
      var rest;
      rest, error := ApproveWrite(round, action, it);
      assert [] + rest == rest;
      events := events + rest;
    }

    /** The policy, then the hook. */
    method ApproveWrite(round: nat, action: Action, it: Iteration) returns (events: seq<Event>, error: Option<Error>)
      ensures (events, error) == LastGate(Cfg(), round, action, it)
    {
      events, error := [], None;
      if hasPolicy {
        events := [Ruled(round, it.policy)];
        if it.policy == PolicyDenied {
          return events, Some(SafetyDenialError);
        }
      }
      if hasHook {
        events := events + [Asked(round, action, it.hook)];
        match it.hook {
          case Refused => return events, Some(CancellationError);
          case HookRaised => return events, Some(LoopError);
          case Approved =>
        }
      }
    }

    /** Loop check, execute, record, verify. */
    method Act(round: nat, action: Action, it: Iteration) returns (events: seq<Event>, end: RoundEnd)
      requires detector.Valid()
      modifies this`step, this`phaseStep, detector
      ensures detector.Valid()
      ensures (View(), events, end) == Acted(Cfg(), old(View()), round, action, it)
    {
      hide RunLength;
      var looping := detector.CheckLoop();
      if looping != Some(false) {
        return [], Ended(Raised(LoopError));
      }
      events := [Executed(round, action, it.execution)];
      if !it.execution.Succeeded? {
        return events, Ended(Raised(LoopError));
      }
      detector.Record(action);
      match it.verification {
        case Confirmed =>
          AdvancePhase();
          detector.Reset();
          end := Ended(Complete);
        case PostFrameStale => end := Ended(VerificationFailed);
        case FailedForGood => end := Ended(VerificationFailed);
        case VerificationRaised => end := Ended(Raised(LoopError));
        case NotConfirmed => end := Retry;
      }
    }

    /** One iteration, from the cancellation check to the verifier's answer. */
    method Round(round: nat, it: Iteration) returns (events: seq<Event>, end: RoundEnd)
      requires detector.Valid()
      modifies this`step, this`phaseStep, detector
      ensures detector.Valid()
      ensures (View(), events, end) == RoundOf(Cfg(), old(View()), round, it)
    {
      hide Acted, Gate;
      events := [];
      if it.cancelled {
        return events, Ended(Raised(CancellationError));
      }
      match it.grounding {
        case StaleFrame => return events, Ended(Raised(StaleObservationError));
        case GroundingFailed => return events, Ended(Raised(LoopError));
        case Grounded(_) =>
      }
      var action := it.grounding.action;
      if action.IsWrite() {
        var error;
        events, error := Approve(round, action, it);
        if error.Some? {
          return events, Ended(Raised(error.value));
        }
      }
      var own;
      own, end := Act(round, action, it);
      assert [] + own == own;
      events := events + own;
    }

    method Run(maxRetries: int, env: nat -> Iteration) returns (outcome: Outcome, trace: seq<Event>)
      requires detector.Valid()
      modifies this`step, this`phaseStep, detector
      ensures detector.Valid()
      ensures Result(View(), trace, outcome) == Rounds(Cfg(), old(View()), 0, 0, maxRetries, env)
    {
      hide RoundOf;
      trace := [];
      var retries := 0;
      var round: nat := 0;
      ghost var all := Rounds(Cfg(), View(), 0, 0, maxRetries, env);
      while true
        invariant detector.Valid()
        invariant all.trace == trace + Rounds(Cfg(), View(), round, retries, maxRetries, env).trace
        invariant all.state == Rounds(Cfg(), View(), round, retries, maxRetries, env).state
        invariant all.outcome == Rounds(Cfg(), View(), round, retries, maxRetries, env).outcome
        decreases maxSteps - step
      {
        var may := CanStep(env(round).now);
        if !may {
          assert trace + [] == trace;
          return OutOfBudget, trace;
        }
        ghost var before, s := trace, View();
        var events, end := Round(round, env(round));
        trace := trace + events;
        if end.Ended? {
          return end.outcome, trace;
        }
        if retries >= maxRetries {
          return VerificationFailed, trace;
        }
        RetryUnfold(Cfg(), s, round, retries, maxRetries, env, before);
        retries, round := retries + 1, round + 1;
        AdvancePhase();
      }
    }
  }

  lemma RetryUnfold(cfg: Config, s: LoopState, round: nat, retries: int, maxRetries: int, env: nat -> Iteration, trace: seq<Event>)
    requires MayStep(cfg, s, env(round).now) && RoundOf(cfg, s, round, env(round)).2.Retry? && retries < maxRetries
    ensures var (s', own, end), x := RoundOf(cfg, s, round, env(round)), Rounds(cfg, s, round, retries, maxRetries, env);
      var rest := Rounds(cfg, Advanced(s'), round + 1, retries + 1, maxRetries, env);
      trace + x.trace == trace + own + rest.trace && x.state == rest.state && x.outcome == rest.outcome
  {
    hide RoundOf;
    var (s', own, end) := RoundOf(cfg, s, round, env(round));
    var rest := Rounds(cfg, Advanced(s'), round + 1, retries + 1, maxRetries, env);
    assert Rounds(cfg, s, round, retries, maxRetries, env) == rest.(trace := own + rest.trace);
    assert trace + (own + rest.trace) == trace + own + rest.trace;
  }

  lemma EmptyRuns(n: nat)
    ensures RunsAtMost([], n)
  {
  }

  lemma {:induction false} NothingExecuted(events: seq<Event>)
    requires forall i :: 0 <= i < |events| ==> !events[i].Executed?
    ensures Executes(events) == 0 && Successes(events) == []
    ensures forall hasHook :: Gated(events, hasHook)
  {
    if events != [] {
      NothingExecuted(events[..|events| - 1]);
    }
  }

  lemma GatedExecute(gate: seq<Event>, round: nat, action: Action, execution: Execution, hasHook: bool)
    requires forall i :: 0 <= i < |gate| ==> gate[i].round == round && !gate[i].Executed?
    requires action.IsWrite() ==>
               && (hasHook ==> Asked(round, action, Approved) in gate)
               && (IsDangerous(action) ==> hasHook)
               && (forall i :: 0 <= i < |gate| && gate[i].Asked? ==> gate[i].answer == Approved)
               && Ruled(round, PolicyDenied) !in gate
    ensures var events := gate + [Executed(round, action, execution)];
            && Gated(events, hasHook) && Executes(events) == 1
            && Successes(events) == if execution.Succeeded? then [action.Signature()] else []
  {
    NothingExecuted(gate);
    assert (gate + [Executed(round, action, execution)])[..|gate|] == gate;
    var events := gate + [Executed(round, action, execution)];
    if action.IsWrite() && hasHook {
      var j :| 0 <= j < |gate| && gate[j] == Asked(round, action, Approved);
      assert events[j] == gate[j];
    }
  }
}
