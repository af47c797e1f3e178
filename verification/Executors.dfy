/**
 The plan executor: attempts, fixes and replans.  Planner, tools, error analyst and cancellation flag
 are an arbitrary `World`; the trace lists the tool calls and skips of a run in order.
 */
module Executors {
  const MAX_REPLAN_ATTEMPTS := 2

  datatype Step = Step(tool: string, critical: bool)

  datatype Decision = Retry | Skip | Replan | Abort

  /** What the model says about a failed step, before the handler's own rules. */
  datatype Analysis = Says(decision: Decision, fixSuggested: bool) | AnalysisFailed

  /** Decision and whether a fix suggestion comes with it. */
  datatype Recovery = Recovery(decision: Decision, fixSuggested: bool)

  datatype Fix = Fixed(ok: bool) | NoFix

  datatype World = World(
    plans: nat -> seq<Step>,
    cancelledStep: (nat, nat) -> bool,
    cancelledAttempt: (nat, nat, nat) -> bool,
    calls: (nat, nat, nat) -> bool,
    handlerRaises: (nat, nat, nat) -> bool,
    analyses: (nat, nat, nat) -> Analysis,
    fixes: (nat, nat, nat) -> Fix)

  datatype Event =
    | Called(plan: nat, step: nat, fix: bool, ok: bool)
    | Skipped(plan: nat, step: nat)
    | Planned(plan: nat)

  datatype Result = Success | Cancelled | Aborted | NoPlan | GaveUp | HandlerError

  datatype StepEnd = Done | Failed | StopWith(result: Result)

  /**
   The handler: from the second attempt on a replan is forced, and so it is when the analysis fails; a
   critical step is replanned instead of skipped; anything else is the model's decision.
   */
  function AnalyzeError(step: Step, attempt: nat, analysis: Analysis): (r: Recovery)
    ensures attempt >= 2 ==> r == Recovery(Replan, true)
    ensures step.critical ==> r.decision != Skip
    ensures forall d, f :: attempt < 2 && analysis == Says(d, f) ==> r == Recovery(if step.critical && d.Skip? then Replan else d, f)
    ensures analysis.AnalysisFailed? ==> r == Recovery(Replan, true)
  {
    if attempt >= 2 then Recovery(Replan, true)
    else match analysis
      case AnalysisFailed => Recovery(Replan, true)
      case Says(decision, fix) =>
        if step.critical && decision == Skip then Recovery(Replan, fix) else Recovery(decision, fix)
  }

  function CallsOf(trace: seq<Event>, plan: nat, step: nat, fix: bool): nat {
    if trace == [] then 0
    else
      var last := trace[|trace| - 1];
      CallsOf(trace[..|trace| - 1], plan, step, fix)
      + if last.Called? && last.plan == plan && last.step == step && last.fix == fix then 1 else 0
  }

  function Plans(trace: seq<Event>): nat {
    if trace == [] then 0
    else Plans(trace[..|trace| - 1]) + if trace[|trace| - 1].Planned? then 1 else 0
  }

  /** The step's own call or its fix's returned normally. */
  ghost predicate Achieved(trace: seq<Event>, plan: nat, step: nat) {
    exists fix :: Called(plan, step, fix, true) in trace
  }

  /** Every step of the plan below n was achieved, or was skipped and is not critical. */
  ghost predicate StepsDone(trace: seq<Event>, plan: nat, steps: seq<Step>, n: nat) {
    forall i :: 0 <= i < n <= |steps| ==> Achieved(trace, plan, i) || (!steps[i].critical && Skipped(plan, i) in trace)
  }

  /** No step of any plan is called more than twice itself and once as a fix. */
  ghost predicate CallsBounded(trace: seq<Event>) {
    forall plan, step :: CallsOf(trace, plan, step, false) <= 2 && CallsOf(trace, plan, step, true) <= 1
  }

  ghost predicate Of(trace: seq<Event>, plan: nat, step: nat) {
    forall e :: e in trace ==> !e.Planned? && e.plan == plan && e.step == step
  }

  /** Calls of the trace belong to earlier plans, or to this one below the step. */
  ghost predicate Earlier(trace: seq<Event>, plan: nat, step: nat) {
    forall e :: e in trace ==> e.plan < plan || (e.plan == plan && (e.Planned? || e.step < step))
  }

  lemma {:induction false} CallsConcat(a: seq<Event>, b: seq<Event>, plan: nat, step: nat, fix: bool)
    ensures CallsOf(a + b, plan, step, fix) == CallsOf(a, plan, step, fix) + CallsOf(b, plan, step, fix)
  {
    if b == [] {
      assert a + b == a;
    } else {
      assert (a + b)[..|a + b| - 1] == a + b[..|b| - 1];
      CallsConcat(a, b[..|b| - 1], plan, step, fix);
    }
  }

  lemma {:induction false} PlansConcat(a: seq<Event>, b: seq<Event>)
    ensures Plans(a + b) == Plans(a) + Plans(b)
  {
    if b == [] {
      assert a + b == a;
    } else {
      assert (a + b)[..|a + b| - 1] == a + b[..|b| - 1];
      PlansConcat(a, b[..|b| - 1]);
    }
  }

  lemma {:induction false} NoCalls(trace: seq<Event>, plan: nat, step: nat, fix: bool)
    requires forall e :: e in trace && e.Called? ==> e.plan != plan || e.step != step
    ensures CallsOf(trace, plan, step, fix) == 0
  {
    if trace != [] {
      NoCalls(trace[..|trace| - 1], plan, step, fix);
    }
  }

  lemma {:induction false} NoPlans(trace: seq<Event>)
    requires forall e :: e in trace ==> !e.Planned?
    ensures Plans(trace) == 0
  {
    if trace != [] {
      NoPlans(trace[..|trace| - 1]);
    }
  }

  /** Appending the calls of one step to a trace that had none of it keeps every step within its bounds. */
  lemma AppendStep(trace: seq<Event>, own: seq<Event>, plan: nat, step: nat)
    requires CallsBounded(trace) && Earlier(trace, plan, step) && Of(own, plan, step)
    requires CallsOf(own, plan, step, false) <= 2 && CallsOf(own, plan, step, true) <= 1
    ensures CallsBounded(trace + own) && Earlier(trace + own, plan, step + 1)
    ensures Plans(trace + own) == Plans(trace)
  {
    forall p, s
      ensures CallsOf(trace + own, p, s, false) <= 2 && CallsOf(trace + own, p, s, true) <= 1
    {
      CallsConcat(trace, own, p, s, false);
      CallsConcat(trace, own, p, s, true);
      if p == plan && s == step {
        NoCalls(trace, p, s, false);
        NoCalls(trace, p, s, true);
      } else {
        NoCalls(own, p, s, false);
        NoCalls(own, p, s, true);
      }
    }
    PlansConcat(trace, own);
    NoPlans(own);
  }

  lemma AppendPlan(trace: seq<Event>, plan: nat)
    requires CallsBounded(trace) && (forall e :: e in trace ==> e.plan < plan)
    ensures CallsBounded(trace + [Planned(plan)]) && Earlier(trace + [Planned(plan)], plan, 0)
    ensures Plans(trace + [Planned(plan)]) == Plans(trace) + 1
  {
    forall p, s
      ensures CallsOf(trace + [Planned(plan)], p, s, false) == CallsOf(trace, p, s, false)
      ensures CallsOf(trace + [Planned(plan)], p, s, true) == CallsOf(trace, p, s, true)
    {
      assert (trace + [Planned(plan)])[..|trace|] == trace;
    }
    assert (trace + [Planned(plan)])[..|trace|] == trace;
  }

  lemma StepsStayDone(trace: seq<Event>, own: seq<Event>, plan: nat, steps: seq<Step>, n: nat)
    requires StepsDone(trace, plan, steps, n)
    ensures StepsDone(trace + own, plan, steps, n)
  {
    forall i | 0 <= i < n <= |steps|
      ensures Achieved(trace + own, plan, i) || (!steps[i].critical && Skipped(plan, i) in trace + own)
    {
      if Achieved(trace, plan, i) {
        var fix :| Called(plan, i, fix, true) in trace;
        assert Called(plan, i, fix, true) in trace + own;
      }
    }
  }

  // ---- what a run does, as a function of the world ------------------------

  /** The call made in place of a failed step after a replan decision, if there is one. */
  function FixCalls(w: World, plan: nat, index: nat, step: Step, attempt: nat, recovery: Recovery): seq<Event> {
    if recovery.fixSuggested && step.tool != "generated_code" && w.fixes(plan, index, attempt).Fixed?
    then [Called(plan, index, true, w.fixes(plan, index, attempt).ok)] else []
  }

  /** The attempts of a step from number `attempt` on, and how they end. */
  function Attempts(w: World, plan: nat, index: nat, step: Step, attempt: nat): (seq<Event>, StepEnd)
    decreases 3 - attempt
  {
    if attempt > 3 || w.cancelledAttempt(plan, index, attempt) then ([], Failed)
    else
      var ok := w.calls(plan, index, attempt);
      var called := [Called(plan, index, false, ok)];
      if ok then (called, Done)
      else if w.handlerRaises(plan, index, attempt) then (called, StopWith(HandlerError))
      else
        var recovery := AnalyzeError(step, attempt, w.analyses(plan, index, attempt));
        match recovery.decision
        case Retry => var (rest, end) := Attempts(w, plan, index, step, attempt + 1); (called + rest, end)
        case Skip => (called + [Skipped(plan, index)], Done)
        case Abort => (called, StopWith(Aborted))
        case Replan =>
          var fix := FixCalls(w, plan, index, step, attempt, recovery);
          (called + fix, if fix != [] && fix[0].ok then Done else Failed)
  }

  /** The steps of a plan from number `i` on. */
  function Steps(w: World, plan: nat, i: nat): (seq<Event>, StepEnd)
    decreases |w.plans(plan)| - i
  {
    if i >= |w.plans(plan)| then ([], Done)
    else if w.cancelledStep(plan, i) then ([], StopWith(Cancelled))
    else
      var (own, end) := Attempts(w, plan, i, w.plans(plan)[i], 1);
      if !end.Done? then (own, end)
      else var (rest, last) := Steps(w, plan, i + 1); (own + rest, last)
  }

  datatype Execution = Execution(trace: seq<Event>, result: Result, plan: nat)

  /** The plans from number `plan` on. */
  function Plannings(w: World, plan: nat): Execution
    decreases MAX_REPLAN_ATTEMPTS - plan
  {
    if w.plans(plan) == [] then Execution([Planned(plan)], NoPlan, plan)
    else
      var (own, end) := Steps(w, plan, 0);
      var trace := [Planned(plan)] + own;
      match end
      case StopWith(r) => Execution(trace, r, plan)
      case Done => Execution(trace, Success, plan)
      case Failed =>
        if plan >= MAX_REPLAN_ATTEMPTS then Execution(trace, GaveUp, plan)
        else var next := Plannings(w, plan + 1); next.(trace := trace + next.trace)
  }

  /** At most two calls of the step itself and one of a fix, although the loop allows three attempts. */
  lemma {:induction false} AttemptsBounds(w: World, plan: nat, index: nat, step: Step, attempt: nat)
    requires 1 <= attempt <= 2
    ensures var (own, end) := Attempts(w, plan, index, step, attempt);
      && Of(own, plan, index)
      && CallsOf(own, plan, index, false) <= 3 - attempt && CallsOf(own, plan, index, true) <= 1
      && (end.Done? ==> Achieved(own, plan, index) || (!step.critical && Skipped(plan, index) in own))
      && end != StopWith(Success)
    decreases 3 - attempt
  {
    hide Of, CallsOf, Achieved;
    NoneOf(plan, index);
    if !w.cancelledAttempt(plan, index, attempt) {
      var ok := w.calls(plan, index, attempt);
      var called := [Called(plan, index, false, ok)];
      OneCall(plan, index, ok);
      var recovery := AnalyzeError(step, attempt, w.analyses(plan, index, attempt));
      if !ok && !w.handlerRaises(plan, index, attempt) {
        match recovery.decision {
          case Retry =>
            AttemptsBounds(w, plan, index, step, attempt + 1);
            AppendOwn(called, Attempts(w, plan, index, step, attempt + 1).0, plan, index);
          case Skip => AppendOwn(called, [Skipped(plan, index)], plan, index);
          case Abort =>
          case Replan =>
            var fix := FixCalls(w, plan, index, step, attempt, recovery);
            FixIsOneCall(w, plan, index, step, attempt, recovery);
            AppendOwn(called, fix, plan, index);
        }
      }
    }
  }

  lemma NoneOf(plan: nat, index: nat)
    ensures Of([], plan, index) && CallsOf([], plan, index, false) == CallsOf([], plan, index, true) == 0
  {
  }

  lemma OneCall(plan: nat, index: nat, ok: bool)
    ensures var called := [Called(plan, index, false, ok)];
      && Of(called, plan, index) && CallsOf(called, plan, index, false) == 1 && CallsOf(called, plan, index, true) == 0
      && (ok ==> Achieved(called, plan, index))
  {
    var called := [Called(plan, index, false, ok)];
    assert called[..0] == [];
    if ok { assert Called(plan, index, false, true) in called; }
  }

  lemma FixIsOneCall(w: World, plan: nat, index: nat, step: Step, attempt: nat, recovery: Recovery)
    ensures var fix := FixCalls(w, plan, index, step, attempt, recovery);
      && Of(fix, plan, index) && CallsOf(fix, plan, index, false) == 0 && CallsOf(fix, plan, index, true) <= 1
      && (fix != [] && fix[0].ok ==> Achieved(fix, plan, index))
  {
    var fix := FixCalls(w, plan, index, step, attempt, recovery);
    AtMostOneFix(fix, plan, index);
    if fix != [] && fix[0].ok { assert Called(plan, index, true, true) in fix; }
  }

  lemma AppendOwn(called: seq<Event>, rest: seq<Event>, plan: nat, index: nat)
    requires |called| == 1 && called[0].Called? && called[0].plan == plan && called[0].step == index && !called[0].fix
    ensures CallsOf(called + rest, plan, index, false) == 1 + CallsOf(rest, plan, index, false)
    ensures CallsOf(called + rest, plan, index, true) == CallsOf(rest, plan, index, true)
    ensures Of(rest, plan, index) ==> Of(called + rest, plan, index)
    ensures Achieved(rest, plan, index) ==> Achieved(called + rest, plan, index)
    ensures Of([Skipped(plan, index)], plan, index)
    ensures rest == [Skipped(plan, index)] ==> CallsOf(rest, plan, index, false) == CallsOf(rest, plan, index, true) == 0
  {
    CallsConcat(called, rest, plan, index, false);
    CallsConcat(called, rest, plan, index, true);
    assert called[..0] == [];
    if rest == [Skipped(plan, index)] { assert rest[..0] == []; }
    LastStepDone(called, rest, plan, index);
  }

  lemma {:induction false} StepsBounds(w: World, plan: nat, i: nat, trace: seq<Event>)
    requires i <= |w.plans(plan)|
    requires CallsBounded(trace) && Earlier(trace, plan, i) && StepsDone(trace, plan, w.plans(plan), i)
    ensures var (own, end) := Steps(w, plan, i);
      && CallsBounded(trace + own) && (forall e :: e in trace + own ==> e.plan <= plan)
      && Plans(trace + own) == Plans(trace)
      && (end.Done? ==> StepsDone(trace + own, plan, w.plans(plan), |w.plans(plan)|))
      && end != StopWith(Success)
    decreases |w.plans(plan)| - i
  {
    hide Attempts, CallsBounded, Achieved, StepsDone, Plans, Earlier, Of;
    if i < |w.plans(plan)| && !w.cancelledStep(plan, i) {
      var own := Attempts(w, plan, i, w.plans(plan)[i], 1).0;
      StepBounds(w, plan, i, trace);
      EarlierPlans(trace + own, plan, i + 1);
      if Attempts(w, plan, i, w.plans(plan)[i], 1).1.Done? {
        StepsBounds(w, plan, i + 1, trace + own);
        assert trace + own + Steps(w, plan, i + 1).0 == trace + (own + Steps(w, plan, i + 1).0);
      }
    } else {
      assert trace + [] == trace;
      EarlierPlans(trace, plan, i);
    }
  }

  lemma StepBounds(w: World, plan: nat, i: nat, trace: seq<Event>)
    requires i < |w.plans(plan)|
    requires CallsBounded(trace) && Earlier(trace, plan, i) && StepsDone(trace, plan, w.plans(plan), i)
    ensures var (own, end) := Attempts(w, plan, i, w.plans(plan)[i], 1);
      && CallsBounded(trace + own) && Earlier(trace + own, plan, i + 1) && Plans(trace + own) == Plans(trace)
      && (end.Done? ==> StepsDone(trace + own, plan, w.plans(plan), i + 1))
      && end != StopWith(Success)
  {
    hide Attempts, CallsBounded, Achieved, StepsDone, Plans, Earlier, Of;
    var (own, end) := Attempts(w, plan, i, w.plans(plan)[i], 1);
    AttemptsBounds(w, plan, i, w.plans(plan)[i], 1);
    AppendStep(trace, own, plan, i);
    if end.Done? { OneMoreDone(trace, own, plan, w.plans(plan), i); }
  }

  lemma EarlierPlans(trace: seq<Event>, plan: nat, i: nat)
    requires Earlier(trace, plan, i)
    ensures forall e :: e in trace ==> e.plan <= plan
  {
  }

  lemma OneMoreDone(trace: seq<Event>, own: seq<Event>, plan: nat, steps: seq<Step>, i: nat)
    requires i < |steps| && StepsDone(trace, plan, steps, i)
    requires Achieved(own, plan, i) || (!steps[i].critical && Skipped(plan, i) in own)
    ensures StepsDone(trace + own, plan, steps, i + 1)
  {
    StepsStayDone(trace, own, plan, steps, i);
    LastStepDone(trace, own, plan, i);
  }

  /** The trace of a run is bounded, and a success has every critical step of its last plan done. */
  ghost predicate Sound(w: World, x: Execution, trace: seq<Event>) {
    && Plans(trace) == x.plan + 1 <= MAX_REPLAN_ATTEMPTS + 1
    && CallsBounded(trace)
    && (x.result == Success ==>
          && w.plans(x.plan) != [] && StepsDone(trace, x.plan, w.plans(x.plan), |w.plans(x.plan)|)
          && forall i :: 0 <= i < |w.plans(x.plan)| && w.plans(x.plan)[i].critical ==> Achieved(trace, x.plan, i))
  }

  lemma {:induction false} PlanningsBounds(w: World, plan: nat, trace: seq<Event>)
    requires plan <= MAX_REPLAN_ATTEMPTS
    requires Plans(trace) == plan && CallsBounded(trace) && forall e :: e in trace ==> e.plan < plan
    ensures Sound(w, Plannings(w, plan), trace + Plannings(w, plan).trace)
    decreases MAX_REPLAN_ATTEMPTS - plan
  {
    hide Steps, CallsBounded, Achieved, StepsDone, Earlier, Plans;
    AppendPlan(trace, plan);
    var started := trace + [Planned(plan)];
    if w.plans(plan) != [] {
      var (own, end) := Steps(w, plan, 0);
      NothingToDo(started, plan, w.plans(plan));
      StepsBounds(w, plan, 0, started);
      assert started + own == trace + ([Planned(plan)] + own);
      match end {
        case Done => CriticalDone(started + own, plan, w.plans(plan));
        case StopWith(_) =>
        case Failed =>
          if plan < MAX_REPLAN_ATTEMPTS {
            PlanningsBounds(w, plan + 1, started + own);
            assert started + own + Plannings(w, plan + 1).trace
                == trace + ([Planned(plan)] + own + Plannings(w, plan + 1).trace);
          }
      }
    }
  }

  lemma NothingToDo(trace: seq<Event>, plan: nat, steps: seq<Step>)
    ensures StepsDone(trace, plan, steps, 0)
  {
  }

  lemma CriticalDone(trace: seq<Event>, plan: nat, steps: seq<Step>)
    requires StepsDone(trace, plan, steps, |steps|)
    ensures forall i :: 0 <= i < |steps| && steps[i].critical ==> Achieved(trace, plan, i)
  {
  }

  lemma NoCallsYet()
    ensures Plans([]) == 0 && CallsBounded([])
  {
  }

  /** Every execution is sound. */
  lemma PlanningsAreSound(w: World)
    ensures Sound(w, Plannings(w, 0), Plannings(w, 0).trace)
  {
    hide Sound, Plannings;
    NoCallsYet();
    PlanningsBounds(w, 0, []);
    assert [] + Plannings(w, 0).trace == Plannings(w, 0).trace;
  }

  // ---- how steps and executions end ----------------------------------------

  /** A replan: the fix is called if one is offered and the tool is not generated code already. */
  function Replanned(w: World, plan: nat, index: nat, step: Step, attempt: nat, offered: bool, before: seq<Event>): (seq<Event>, StepEnd) {
    var fix := w.fixes(plan, index, attempt);
    if !offered || step.tool == "generated_code" || fix == NoFix then (before, Failed)
    else (before + [Called(plan, index, true, fix.ok)], if fix.ok then Done else Failed)
  }

  /**
   The whole course of a step, case by case: at most two attempts, the second only on the model's word, and
   every way each of them can end.
   */
  lemma StepOutcome(w: World, plan: nat, index: nat, step: Step)
    ensures var failed, good := Called(plan, index, false, false), Called(plan, index, false, true);
      Attempts(w, plan, index, step, 1) ==
      if w.cancelledAttempt(plan, index, 1) then ([], Failed)
      else if w.calls(plan, index, 1) then ([good], Done)
      else if w.handlerRaises(plan, index, 1) then ([failed], StopWith(HandlerError))
      else match w.analyses(plan, index, 1)
        case AnalysisFailed => Replanned(w, plan, index, step, 1, true, [failed])
        case Says(Replan, offered) => Replanned(w, plan, index, step, 1, offered, [failed])
        case Says(Abort, _) => ([failed], StopWith(Aborted))
        case Says(Skip, offered) =>
          if step.critical then Replanned(w, plan, index, step, 1, offered, [failed])
          else ([failed, Skipped(plan, index)], Done)
        case Says(Retry, _) =>
          if w.cancelledAttempt(plan, index, 2) then ([failed], Failed)
          else if w.calls(plan, index, 2) then ([failed, good], Done)
          else if w.handlerRaises(plan, index, 2) then ([failed, failed], StopWith(HandlerError))
          else Replanned(w, plan, index, step, 2, true, [failed, failed])
  {
    var failed := Called(plan, index, false, false);
    if !w.cancelledAttempt(plan, index, 1) && !w.calls(plan, index, 1) && !w.handlerRaises(plan, index, 1) {
      hide Attempts;
      FirstAttempt(w, plan, index, step);
      SecondAttempt(w, plan, index, step);
      assert [failed] + [] == [failed] && [failed] + [failed] == [failed, failed];
      var good, fix := Called(plan, index, false, true), w.fixes(plan, index, 2);
      assert [failed] + [good] == [failed, good];
      if fix.Fixed? {
        assert [failed] + ([failed] + [Called(plan, index, true, fix.ok)]) == [failed, failed] + [Called(plan, index, true, fix.ok)];
      }
    }
  }

  lemma FirstAttempt(w: World, plan: nat, index: nat, step: Step)
    requires !w.cancelledAttempt(plan, index, 1) && !w.calls(plan, index, 1) && !w.handlerRaises(plan, index, 1)
    ensures var failed, retried := Called(plan, index, false, false), Attempts(w, plan, index, step, 2);
      Attempts(w, plan, index, step, 1) == match w.analyses(plan, index, 1)
        case AnalysisFailed => Replanned(w, plan, index, step, 1, true, [failed])
        case Says(Replan, offered) => Replanned(w, plan, index, step, 1, offered, [failed])
        case Says(Abort, _) => ([failed], StopWith(Aborted))
        case Says(Skip, offered) =>
          if step.critical then Replanned(w, plan, index, step, 1, offered, [failed])
          else ([failed, Skipped(plan, index)], Done)
        case Says(Retry, _) => ([failed] + retried.0, retried.1)
  {
    var failed := Called(plan, index, false, false);
    assert [failed] + [] == [failed] && [failed] + [Skipped(plan, index)] == [failed, Skipped(plan, index)];
  }

  lemma SecondAttempt(w: World, plan: nat, index: nat, step: Step)
    ensures var failed := Called(plan, index, false, false);
      Attempts(w, plan, index, step, 2) ==
      if w.cancelledAttempt(plan, index, 2) then ([], Failed)
      else if w.calls(plan, index, 2) then ([Called(plan, index, false, true)], Done)
      else if w.handlerRaises(plan, index, 2) then ([failed], StopWith(HandlerError))
      else Replanned(w, plan, index, step, 2, true, [failed])
  {
    var failed := Called(plan, index, false, false);
    assert [failed] + [] == [failed];
  }

  /** The trace ends in a call of a step, not a fix, that failed. */
  predicate EndsInFailure(trace: seq<Event>) {
    trace != [] && var e := trace[|trace| - 1]; e.Called? && !e.fix && !e.ok
  }

  /** ... and that was the step's first, and its analysis says to abort. */
  predicate EndsInAbort(w: World, trace: seq<Event>) {
    EndsInFailure(trace)
    && var e := trace[|trace| - 1];
    CallsOf(trace, e.plan, e.step, false) == 1 && !w.handlerRaises(e.plan, e.step, 1)
    && w.analyses(e.plan, e.step, 1).Says? && w.analyses(e.plan, e.step, 1).decision.Abort?
  }

  /** ... and the handler raised on that attempt. */
  predicate EndsInRaise(w: World, trace: seq<Event>) {
    EndsInFailure(trace)
    && var e := trace[|trace| - 1];
    w.handlerRaises(e.plan, e.step, CallsOf(trace, e.plan, e.step, false))
  }

  lemma StepEnds(w: World, plan: nat, index: nat, step: Step)
    ensures var (own, end) := Attempts(w, plan, index, step, 1);
      && (end == StopWith(Aborted) <==> EndsInAbort(w, own))
      && (end == StopWith(HandlerError) <==> EndsInRaise(w, own))
      && (end.Done? <==> Achieved(own, plan, index) || Skipped(plan, index) in own)
      && (end.Done? ==> own != [] && !EndsInFailure(own))
      && (end.Done? || end.Failed? || end == StopWith(Aborted) || end == StopWith(HandlerError))
  {
    StepOutcome(w, plan, index, step);
    var (own, end) := Attempts(w, plan, index, step, 1);
    hide Attempts;
    assert own != [] ==> own[..|own| - 1] == own[..|own| - 1];
    CallsOfShort(own, plan, index);
    if end.Done? && Skipped(plan, index) !in own {
      assert own[|own| - 1] in own;
      assert Called(plan, index, own[|own| - 1].fix, true) in own;
    }
  }

  /** Counting in the traces a step can have. */
  lemma CallsOfShort(own: seq<Event>, plan: nat, index: nat)
    ensures var failed := Called(plan, index, false, false);
      && CallsOf([failed], plan, index, false) == 1 && CallsOf([failed, failed], plan, index, false) == 2
  {
    var failed := Called(plan, index, false, false);
    assert [failed][..0] == [] && [failed, failed][..1] == [failed];
  }

  /** All steps before some cancelled step are done, and nothing came after them. */
  ghost predicate EndsInCancel(w: World, trace: seq<Event>, plan: nat) {
    exists k :: 0 <= k < |w.plans(plan)| && w.cancelledStep(plan, k)
      && StepsDone(trace, plan, w.plans(plan), k) && Earlier(trace, plan, k)
  }

  lemma AppendEnds(w: World, trace: seq<Event>, own: seq<Event>, plan: nat, index: nat)
    requires Earlier(trace, plan, index) && Of(own, plan, index) && own != []
    ensures EndsInFailure(trace + own) == EndsInFailure(own)
    ensures EndsInAbort(w, trace + own) == EndsInAbort(w, own) && EndsInRaise(w, trace + own) == EndsInRaise(w, own)
  {
    assert own[|own| - 1] in own;
    CallsConcat(trace, own, plan, index, false);
    NoCalls(trace, plan, index, false);
  }

  lemma NotDone(trace: seq<Event>, own: seq<Event>, plan: nat, steps: seq<Step>, i: nat, n: nat)
    requires Earlier(trace, plan, i) && Of(own, plan, i) && i < n <= |steps|
    requires !Achieved(own, plan, i) && Skipped(plan, i) !in own
    ensures !StepsDone(trace + own, plan, steps, n)
  {
    forall fix
      ensures Called(plan, i, fix, true) !in trace + own
    {
    }
  }

  /** How the steps of a plan end can be told from the trace. */
  ghost predicate StepsEndRight(w: World, plan: nat, trace: seq<Event>, end: StepEnd) {
    && (end == StopWith(Aborted) <==> EndsInAbort(w, trace))
    && (end == StopWith(HandlerError) <==> EndsInRaise(w, trace))
    && (end == StopWith(Cancelled) <==> EndsInCancel(w, trace, plan))
    && (end.Done? <==> StepsDone(trace, plan, w.plans(plan), |w.plans(plan)|))
    && (end.StopWith? ==> end.result == Aborted || end.result == HandlerError || end.result == Cancelled)
  }

  lemma {:induction false} StepsEnd(w: World, plan: nat, i: nat, trace: seq<Event>)
    requires i <= |w.plans(plan)|
    requires CallsBounded(trace) && Earlier(trace, plan, i) && StepsDone(trace, plan, w.plans(plan), i)
    requires !EndsInFailure(trace) && forall k :: 0 <= k < i ==> !w.cancelledStep(plan, k)
    ensures var (own, end) := Steps(w, plan, i); StepsEndRight(w, plan, trace + own, end)
    decreases |w.plans(plan)| - i
  {
    hide Attempts, CallsBounded, Achieved, Plans, Of, EndsInAbort, EndsInRaise, EndsInFailure;
    assert trace + [] == trace;
    NotFailedNotStopped(w, trace);
    if i < |w.plans(plan)| {
      if w.cancelledStep(plan, i) {
        NothingOf(plan, i);
        NotDone(trace, [], plan, w.plans(plan), i, |w.plans(plan)|);
      } else {
        var (own, end) := Attempts(w, plan, i, w.plans(plan)[i], 1);
        StepEnds(w, plan, i, w.plans(plan)[i]);
        AttemptsBounds(w, plan, i, w.plans(plan)[i], 1);
        if own != [] { AppendEnds(w, trace, own, plan, i); } else { NothingEnds(w); }
        if end.Done? {
          StepBounds(w, plan, i, trace);
          StepsEnd(w, plan, i + 1, trace + own);
          assert trace + own + Steps(w, plan, i + 1).0 == trace + (own + Steps(w, plan, i + 1).0);
        } else {
          forall n | i < n <= |w.plans(plan)|
            ensures !StepsDone(trace + own, plan, w.plans(plan), n)
          {
            NotDone(trace, own, plan, w.plans(plan), i, n);
          }
        }
      }
    }
  }

  lemma NothingOf(plan: nat, i: nat)
    ensures Of([], plan, i) && !Achieved([], plan, i)
  {
  }

  lemma NotFailedNotStopped(w: World, trace: seq<Event>)
    requires !EndsInFailure(trace)
    ensures !EndsInAbort(w, trace) && !EndsInRaise(w, trace)
  {
  }

  lemma NothingEnds(w: World)
    ensures !EndsInFailure([]) && !EndsInAbort(w, []) && !EndsInRaise(w, [])
  {
  }

  /** How an execution ends can be told from its trace; what none of this describes gave up after the last plan. */
  ghost predicate EndsRight(w: World, x: Execution, trace: seq<Event>) {
    var steps := w.plans(x.plan);
    && (x.result == NoPlan <==> steps == [])
    && (x.result == Success <==> steps != [] && StepsDone(trace, x.plan, steps, |steps|))
    && (x.result == Aborted <==> EndsInAbort(w, trace))
    && (x.result == HandlerError <==> EndsInRaise(w, trace))
    && (x.result == Cancelled <==> EndsInCancel(w, trace, x.plan))
    && (x.result == GaveUp ==> x.plan == MAX_REPLAN_ATTEMPTS)
  }

  lemma PlannedEnds(w: World, trace: seq<Event>, plan: nat)
    ensures !EndsInFailure(trace + [Planned(plan)])
  {
  }

  lemma NoSteps(w: World, trace: seq<Event>, plan: nat)
    requires w.plans(plan) == []
    ensures !EndsInCancel(w, trace, plan)
  {
  }

  lemma {:induction false} PlanningsEnd(w: World, plan: nat, trace: seq<Event>)
    requires plan <= MAX_REPLAN_ATTEMPTS
    requires CallsBounded(trace) && forall e :: e in trace ==> e.plan < plan
    ensures EndsRight(w, Plannings(w, plan), trace + Plannings(w, plan).trace)
    decreases MAX_REPLAN_ATTEMPTS - plan
  {
    hide Steps, CallsBounded, StepsDone, Earlier, Plans, EndsInFailure, EndsInAbort, EndsInRaise, EndsInCancel;
    AppendPlan(trace, plan);
    PlannedEnds(w, trace, plan);
    var started := trace + [Planned(plan)];
    NotFailedNotStopped(w, started);
    if w.plans(plan) == [] {
      NoSteps(w, started, plan);
    } else {
      var (own, end) := Steps(w, plan, 0);
      NothingToDo(started, plan, w.plans(plan));
      StepsBounds(w, plan, 0, started);
      StepsEnd(w, plan, 0, started);
      assert started + own == trace + ([Planned(plan)] + own);
      if end.Failed? && plan < MAX_REPLAN_ATTEMPTS {
        PlanningsEnd(w, plan + 1, started + own);
        assert started + own + Plannings(w, plan + 1).trace
            == trace + ([Planned(plan)] + own + Plannings(w, plan + 1).trace);
      }
    }
  }

  /**
   Every execution, from its trace alone: it was aborted, or stopped by the handler, exactly if it ends in a
   failed call on which that was decided; cancelled exactly if it stands before a cancelled step; successful
   exactly if every step of its last plan is done; and it gave up otherwise, after the last replan.
   */
  lemma ExecutionEndsIff(w: World)
    ensures var x := Plannings(w, 0); EndsRight(w, x, x.trace)
  {
    hide EndsRight, Plannings;
    NoCallsYet();
    PlanningsEnd(w, 0, []);
    assert [] + Plannings(w, 0).trace == Plannings(w, 0).trace;
  }

  class AgentExecutor {
    /** The alternative offered after a replan decision: one more tool call, unless the tool is generated code. */
    method TryFix(w: World, plan: nat, index: nat, step: Step, attempt: nat, recovery: Recovery)
      returns (own: seq<Event>, fixed: bool)
      ensures own == FixCalls(w, plan, index, step, attempt, recovery)
      ensures fixed <==> own == [Called(plan, index, true, true)]
    {
      own, fixed := [], false;
      if recovery.fixSuggested && step.tool != "generated_code" {
        match w.fixes(plan, index, attempt) {
          case NoFix =>
          case Fixed(ok) =>
            own := [Called(plan, index, true, ok)];
            fixed := ok;
        }
      }
    }

    /** The attempts of one step. */
    method RunStep(w: World, plan: nat, index: nat, step: Step) returns (own: seq<Event>, end: StepEnd)
      ensures (own, end) == Attempts(w, plan, index, step, 1)
    {
      own := [];
      ghost var all := Attempts(w, plan, index, step, 1);
      var attempt: nat := 1;
      while attempt <= 3
        invariant 1 <= attempt <= 4
        invariant all.0 == own + Attempts(w, plan, index, step, attempt).0
        invariant all.1 == Attempts(w, plan, index, step, attempt).1
        decreases 3 - attempt
      {
        assert own + [] == own;
        if w.cancelledAttempt(plan, index, attempt) {
          return own, Failed;
        }
        var ok := w.calls(plan, index, attempt);
        ghost var before, called := own, [Called(plan, index, false, ok)];
        own := own + [Called(plan, index, false, ok)];
        if ok {
          return own, Done;
        }
        if w.handlerRaises(plan, index, attempt) {
          return own, StopWith(HandlerError);
        }
        var recovery := AnalyzeError(step, attempt, w.analyses(plan, index, attempt));
        match recovery.decision {
          case Retry => attempt := attempt + 1;
          case Skip =>
            own := own + [Skipped(plan, index)];
            assert own == before + (called + [Skipped(plan, index)]);
            return own, Done;
          case Abort => return own, StopWith(Aborted);
          case Replan =>
            var extra, fixed := TryFix(w, plan, index, step, attempt, recovery);
            own := own + extra;
            assert own == before + (called + extra);
            if fixed {
              return own, Done;
            }
            return own, Failed;
        }
      }
      assert own + [] == own;
      end := Failed;
    }

    /** The steps of one plan, stopping at the first that failed. */
    method RunPlan(w: World, plan: nat) returns (own: seq<Event>, end: StepEnd)
      ensures (own, end) == Steps(w, plan, 0)
    {
      hide Attempts;
      own := [];
      ghost var all := Steps(w, plan, 0);
      for i := 0 to |w.plans(plan)|
        invariant all.0 == own + Steps(w, plan, i).0 && all.1 == Steps(w, plan, i).1
      {
        assert own + [] == own;
        if w.cancelledStep(plan, i) {
          return own, StopWith(Cancelled);
        }
        var more;
        more, end := RunStep(w, plan, i, w.plans(plan)[i]);
        own := own + more;
        if !end.Done? {
          return own, end;
        }
      }
      assert own + [] == own;
      end := Done;
    }

    /**
     The whole execution: at most three plans; no step of any plan called more than three times; a
     success only when every critical step of the last plan had its own or its fix's call return normally.
     */
    method Execute(w: World) returns (result: Result, trace: seq<Event>, plan: nat)
      ensures Execution(trace, result, plan) == Plannings(w, 0)
      ensures Sound(w, Execution(trace, result, plan), trace)
      ensures EndsRight(w, Execution(trace, result, plan), trace)
    {
      hide *;
      result, trace, plan := RunPlans(w);
      PlanningsAreSound(w);
      ExecutionEndsIff(w);
    }

    method RunPlans(w: World) returns (result: Result, trace: seq<Event>, plan: nat)
      ensures Execution(trace, result, plan) == Plannings(w, 0)
    {
      hide Steps, Plannings;
      trace := [];
      plan := 0;
      ghost var all := Plannings(w, 0);
      while true
        invariant plan <= MAX_REPLAN_ATTEMPTS
        invariant all.trace == trace + Plannings(w, plan).trace
        invariant all.result == Plannings(w, plan).result && all.plan == Plannings(w, plan).plan
        decreases MAX_REPLAN_ATTEMPTS - plan
      {
        PlanningsUnfold(w, plan, trace);
        trace := trace + [Planned(plan)];
        if w.plans(plan) == [] {
          return NoPlan, trace, plan;
        }
        var own, end := RunPlan(w, plan);
        trace := trace + own;
        if end.StopWith? {
          return end.result, trace, plan;
        }
        if end.Done? {
          return Success, trace, plan;
        }
        if plan >= MAX_REPLAN_ATTEMPTS {
          return GaveUp, trace, plan;
        }
        plan := plan + 1;
      }
    }
  }

  lemma PlanningsUnfold(w: World, plan: nat, trace: seq<Event>)
    ensures var (own, end), x := Steps(w, plan, 0), Plannings(w, plan);
      var all, here := trace + x.trace, trace + [Planned(plan)];
      if w.plans(plan) == [] then all == here && x.result == NoPlan && x.plan == plan
      else if end.StopWith? then all == here + own && x.result == end.result && x.plan == plan
      else if end.Done? then all == here + own && x.result == Success && x.plan == plan
      else if plan >= MAX_REPLAN_ATTEMPTS then all == here + own && x.result == GaveUp && x.plan == plan
      else var next := Plannings(w, plan + 1); all == here + own + next.trace && x.result == next.result && x.plan == next.plan
  {
    hide Steps;
    var (own, end) := Steps(w, plan, 0);
    var here := [Planned(plan)] + own;
    assert trace + here == trace + [Planned(plan)] + own;
    if w.plans(plan) != [] && end.Failed? {
      if plan >= MAX_REPLAN_ATTEMPTS {
        assert Plannings(w, plan) == Execution(here, GaveUp, plan);
      } else {
        var next := Plannings(w, plan + 1);
        assert Plannings(w, plan) == next.(trace := here + next.trace);
        assert trace + (here + next.trace) == trace + here + next.trace;
      }
    }
  }

  lemma AtMostOneFix(extra: seq<Event>, plan: nat, step: nat)
    requires |extra| <= 1 && forall e :: e in extra ==> e.Called? && e.fix
    ensures CallsOf(extra, plan, step, false) == 0 && CallsOf(extra, plan, step, true) <= 1
  {
    if extra != [] {
      assert extra[0] in extra;
      assert extra[..0] == [];
    }
  }

  lemma LastStepDone(trace: seq<Event>, own: seq<Event>, plan: nat, i: nat)
    ensures Achieved(own, plan, i) ==> Achieved(trace + own, plan, i)
    ensures Skipped(plan, i) in own ==> Skipped(plan, i) in trace + own
  {
    if Achieved(own, plan, i) {
      var fix :| Called(plan, i, fix, true) in own;
      assert Called(plan, i, fix, true) in trace + own;
    }
  }
}
