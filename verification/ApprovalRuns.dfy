/**
 Whole courses of the approval protocol, from any state: what a request comes to that is decided, confirmed,
 left alone or cancelled, and what a restart and its recovery do to the waits and the rows.
 */
module ApprovalRuns {
  import opened Wrappers
  import opened Text
  import opened Approvals

  // --- an approval in time is granted -----------------------------------------------------------------

  /** A request, a decision on it and its wait, one after the other; the wait wakes or times out at `later`. */
  function Undisturbed(t: nat, u: nat, r: Request, expires: real, allow: bool, device: string, now: real, later: real): seq<Action> {
    [Ask(t, r, expires), Register(t),
     Resolve(u, r.id, r.workspace, allow, device, now), Lookup(u), Append(u), Signal(u),
     Wait(t, r), Wake(t), Timeout(t, later), Unregister(t), ReadRow(t), Return(t)]
  }

  lemma RunStep(s: System, actions: seq<Action>, k: nat)
    requires k < |actions|
    ensures Run(s, actions[..k + 1]) == Step(Run(s, actions[..k]), actions[k])
  {
    hide Step;
    assert actions[..k + 1][..k] == actions[..k];
  }

  /** The request is registered, its thread is at `th`, and the decider has not begun. */
  predicate Stands(s: System, t: nat, th: Thread, r: Request, row: Row, waiter: Waiter) {
    && t in s.threads && s.threads[t] == th && r.id in s.registry
    && r.id in s.rows && s.rows[r.id] == row && r.id in s.waiters && s.waiters[r.id] == waiter
  }

  lemma AskAndRegister(s: System, t: nat, u: nat, r: Request, expires: real)
    requires t != u && t !in s.threads && u !in s.threads && r.id !in s.rows && !IsBlank(r.toolCall)
    ensures var s' := Step(Step(s, Ask(t, r, expires)), Register(t));
      Stands(s', t, Requested(r), r, NewRow(r, expires), Waiter(false, [])) && u !in s'.threads
  {
  }

  lemma Resolved(s: System, t: nat, u: nat, r: Request, row: Row, allow: bool, device: string, now: real)
    requires t != u && Stands(s, t, Requested(r), r, row, Waiter(false, [])) && u !in s.threads
    ensures var s' := Step(s, Resolve(u, r.id, r.workspace, allow, device, now));
      var (rows, accepted) := Decide(s.rows, r.id, r.workspace, if allow then Allow else Deny, Some(device), now);
      && Stands(s', t, Requested(r), r, rows[r.id], Waiter(false, []))
      && u in s'.threads && s'.threads[u] == if accepted then Committed(r.id, allow) else Finished
  {
  }

  lemma Notifies(s: System, u: nat, id: string, allow: bool)
    requires u in s.threads && s.threads[u] == Committed(id, allow) && id in s.registry
    ensures Step(s, Lookup(u)) == Put(s, u, Notifying(id, allow))
  {
  }

  lemma Appends(s: System, u: nat, id: string, allow: bool)
    requires u in s.threads && s.threads[u] == Notifying(id, allow) && id in s.waiters && s.waiters[id] == Waiter(false, [])
    ensures Step(s, Append(u))
      == Put(s, u, Appended(id)).(waiters := s.waiters[id := Waiter(false, [allow])], spent := s.spent + {id})
  {
    assert [] + [allow] == [allow];
  }

  lemma Signals(s: System, u: nat, id: string)
    requires u in s.threads && s.threads[u] == Appended(id) && id in s.waiters
    ensures Step(s, Signal(u)) == Put(s, u, Finished).(waiters := s.waiters[id := s.waiters[id].(isSet := true)])
  {
  }

  lemma Delivered(s: System, t: nat, u: nat, r: Request, row: Row, allow: bool)
    requires t != u && Stands(s, t, Requested(r), r, row, Waiter(false, []))
    requires u in s.threads && s.threads[u] == Committed(r.id, allow)
    ensures Stands(Step(Step(Step(s, Lookup(u)), Append(u)), Signal(u)), t, Requested(r), r, row, Waiter(true, [allow]))
  {
    hide Step;
    Notifies(s, u, r.id, allow);
    var s1 := Step(s, Lookup(u));
    Appends(s1, u, r.id, allow);
    Signals(Step(s1, Append(u)), u, r.id);
  }

  lemma Undelivers(s: System, u: nat)
    requires u in s.threads && s.threads[u] == Finished
    ensures Step(s, Lookup(u)) == s && Step(s, Append(u)) == s && Step(s, Signal(u)) == s
  {
  }

  /** A waiter that was signalled wakes; one that was not times out, and its row is then not an allowed one. */
  lemma Wakes(s: System, t: nat, r: Request, row: Row, waiter: Waiter, later: real)
    requires Stands(s, t, Requested(r), r, row, waiter) && (!waiter.isSet ==> row.status.Pending?)
    ensures var s' := Step(Step(Step(s, Wait(t, r)), Wake(t)), Timeout(t, later));
      exists row' :: Stands(s', t, Woken(r), r, row', waiter) && (if waiter.isSet then row' == row else row'.status != Decided(Allow))
  {
    var s' := Step(Step(Step(s, Wait(t, r)), Wake(t)), Timeout(t, later));
    assert Stands(s', t, Woken(r), r, s'.rows[r.id], waiter);
  }

  lemma ReadsTheRow(s: System, t: nat, r: Request)
    requires t in s.threads && s.threads[t] == Woken(r) && r.id in s.rows
    ensures Step(Step(s, Unregister(t)), ReadRow(t)) == Put(s, t, RowRead(r, Some(s.rows[r.id]))).(registry := s.registry - {r.id})
  {
    hide Verdict, Cas;
    assert Step(s, Unregister(t)) == Put(s, t, Unregistered(r)).(registry := s.registry - {r.id});
  }

  lemma Returns(s: System, t: nat, r: Request, row: Option<Row>)
    requires t in s.threads && s.threads[t] == RowRead(r, row) && r.id in s.waiters
    ensures Step(s, Return(t)) == Put(s, t, Waited(r, Verdict(s.waiters[r.id].result, row, r)))
  {
    hide Verdict, Cas;
  }

  lemma Reads(s: System, t: nat, r: Request, row: Row, waiter: Waiter)
    requires Stands(s, t, Woken(r), r, row, waiter)
    ensures var s' := Step(Step(Step(s, Unregister(t)), ReadRow(t)), Return(t));
      t in s'.threads && s'.threads[t] == Waited(r, Verdict(waiter.result, Some(row), r))
  {
    hide Step, Verdict;
    ReadsTheRow(s, t, r);
    Returns(Step(Step(s, Unregister(t)), ReadRow(t)), t, r, Some(row));
  }

  /**
   From any state, whatever else is going on in it: a new request that is decided and then waited for is
   granted exactly if the decision was to allow and came before the deadline.
   */
  lemma UndisturbedIsGrantedIff(s: System, t: nat, u: nat, r: Request, expires: real, allow: bool, device: string,
                                now: real, later: real)
    requires t != u && t !in s.threads && u !in s.threads && r.id !in s.rows && !IsBlank(r.toolCall)
    ensures var s' := Run(s, Undisturbed(t, u, r, expires, allow, device, now, later));
      t in s'.threads && s'.threads[t] == Waited(r, allow && now < expires)
  {
    hide Step, Run, Stands, Decide;
    var a := Undisturbed(t, u, r, expires, allow, device, now, later);
    RunsOneByOne(s, a);
    var s2 := Run(s, a[..2]);
    AskAndRegister(s, t, u, r, expires);
    Resolved(s2, t, u, r, NewRow(r, expires), allow, device, now);
    DecidesIff(s2, t, r, expires, allow, device, now);
    var s3 := Run(s, a[..3]);
    var (rows, accepted) := Decide(s2.rows, r.id, r.workspace, if allow then Allow else Deny, Some(device), now);
    if accepted { Delivered(s3, t, u, r, rows[r.id], allow); } else { Undelivers(s3, u); }
    var waiter := if accepted then Waiter(true, [allow]) else Waiter(false, []);
    var s6 := Run(s, a[..6]);
    Wakes(s6, t, r, rows[r.id], waiter, later);
    var row :| Stands(Run(s, a[..9]), t, Woken(r), r, row, waiter)
               && (if waiter.isSet then row == rows[r.id] else row.status != Decided(Allow));
    Reads(Run(s, a[..9]), t, r, row, waiter);
  }

  lemma DecidesIff(s: System, t: nat, r: Request, expires: real, allow: bool, device: string, now: real)
    requires Stands(s, t, Requested(r), r, NewRow(r, expires), Waiter(false, []))
    ensures var (rows, accepted) := Decide(s.rows, r.id, r.workspace, if allow then Allow else Deny, Some(device), now);
      && (accepted <==> now < expires) && r.id in rows
      && rows[r.id] == if accepted then NewRow(r, expires).(status := Decided(if allow then Allow else Deny),
                                                             decidedAt := Some(now), device := Some(device))
                       else NewRow(r, expires)
  {
  }

  lemma RunNone(s: System, a: seq<Action>)
    ensures Run(s, a[..0]) == s
  {
  }

  lemma RunsOneByOne(s: System, a: seq<Action>)
    requires |a| == 12
    ensures Run(s, a[..2]) == Step(Step(s, a[0]), a[1]) && Run(s, a[..3]) == Step(Run(s, a[..2]), a[2])
    ensures Run(s, a[..6]) == Step(Step(Step(Run(s, a[..3]), a[3]), a[4]), a[5])
    ensures Run(s, a[..9]) == Step(Step(Step(Run(s, a[..6]), a[6]), a[7]), a[8])
    ensures Run(s, a) == Step(Step(Step(Run(s, a[..9]), a[9]), a[10]), a[11])
  {
    hide Step, Run;
    RunNone(s, a);
    RunStep(s, a, 0); RunStep(s, a, 1); RunStep(s, a, 2); RunStep(s, a, 3);
    RunStep(s, a, 4); RunStep(s, a, 5); RunStep(s, a, 6); RunStep(s, a, 7);
    RunStep(s, a, 8); RunStep(s, a, 9); RunStep(s, a, 10); RunStep(s, a, 11);
    assert a[..12] == a;
  }

  // --- from the request to the confirmation --------------------------------------------------------

  lemma {:induction false} RunConcat(s: System, a: seq<Action>, b: seq<Action>)
    ensures Run(s, a + b) == Run(Run(s, a), b)
  {
    hide Step;
    if b == [] {
      assert a + b == a;
    } else {
      assert (a + b)[..|a + b| - 1] == a + b[..|b| - 1];
      RunConcat(s, a, b[..|b| - 1]);
    }
  }

  lemma RunOne(s: System, a: Action)
    ensures Run(s, [a]) == Step(s, a)
  {
    hide Step;
    RunStep(s, [a], 0);
    RunNone(s, [a]);
    assert [a][..1] == [a];
  }

  lemma ContinueOps(s: System, t: nat, a: Action)
    requires t in s.threads
    ensures Continue(s, t, a).ops == s.ops
  {
    hide Verdict, Decide, Accepts, OpRuns;
  }

  lemma OpsStep(s: System, a: Action)
    requires !a.PutOp? && !a.FinishOp?
    ensures Step(s, a).ops == s.ops
  {
    hide Continue, Decide, Accepts;
    match a
    case Ask(_, _, _) =>
    case Wait(_, _) =>
    case Resolve(_, _, _, _, _, _) =>
    case CancelRow(_, _, _, _) =>
    case InterruptRow(_, _, _) =>
    case Restart =>
    case PutOp(_, _) =>
    case FinishOp(_) =>
    case _ => if a.t in s.threads { ContinueOps(s, a.t, a); }
  }

  lemma {:induction false} OpsStay(s: System, actions: seq<Action>)
    requires forall i :: 0 <= i < |actions| ==> !actions[i].PutOp? && !actions[i].FinishOp?
    ensures Run(s, actions).ops == s.ops
  {
    hide Step;
    if actions != [] {
      OpsStay(s, actions[..|actions| - 1]);
      OpsStep(Run(s, actions[..|actions| - 1]), actions[|actions| - 1]);
    }
  }

  lemma Starts(s: System, op: string, w: string)
    requires op !in s.ops
    ensures var s' := Step(s, PutOp(op, w));
      s' == s.(ops := s.ops[op := Op(w, true)], trace := s.trace + [OpPut(op)])
  {
  }

  lemma Ends(s: System, op: string)
    requires op in s.ops && s.ops[op].running
    ensures var s' := Step(s, FinishOp(op));
      s' == s.(ops := s.ops[op := Op(s.ops[op].workspace, false)], trace := s.trace + [OpFinished(op)])
  {
  }

  lemma Confirms(s: System, t: nat, r: Request, granted: bool)
    requires t in s.threads && s.threads[t] == Waited(r, granted)
    ensures var s', yes := Step(s, Confirm(t)), granted && r.run.Some? && r.run.value in s.ops
                                                && s.ops[r.run.value] == Op(r.workspace, true);
      && t in s'.threads && s'.threads[t] == Confirmed(r, yes)
      && s'.trace == s.trace + if yes then [Grant(r)] else []
  {
    hide Verdict, Decide, Accepts;
    assert s.trace + [] == s.trace;
  }

  /**
   From any state, whatever else is going on in it: an operation is started, a new request is decided and
   waited for, the operation may be over by then, and the wait is confirmed.  The confirmation grants
   exactly if the decision was an allow in time and the request names an operation of its own workspace
   that is running; then, and only then, a grant is logged.
   */
  lemma ConfirmedIsGrantedIff(s: System, t: nat, u: nat, op: string, w: string, r: Request, expires: real, allow: bool,
                              device: string, now: real, later: real, over: bool)
    requires op !in s.ops
    requires t != u && t !in s.threads && u !in s.threads && r.id !in s.rows && !IsBlank(r.toolCall)
    ensures var before := Run(s, [PutOp(op, w)] + Undisturbed(t, u, r, expires, allow, device, now, later)
                                 + if over then [FinishOp(op)] else []);
      var s' := Step(before, Confirm(t));
      var granted :=
        && allow && now < expires && r.run.Some?
        && if r.run.value == op then w == r.workspace && !over
           else r.run.value in s.ops && s.ops[r.run.value] == Op(r.workspace, true);
      && t in s'.threads && s'.threads[t] == Confirmed(r, granted)
      && s'.trace == before.trace + if granted then [Grant(r)] else []
  {
    hide Step, Run;
    var calls := Undisturbed(t, u, r, expires, allow, device, now, later);
    var end := if over then [FinishOp(op)] else [];
    Starts(s, op, w);
    RunOne(s, PutOp(op, w));
    var s1 := Step(s, PutOp(op, w));
    UndisturbedIsGrantedIff(s1, t, u, r, expires, allow, device, now, later);
    OpsStay(s1, calls);
    var s2 := Run(s1, calls);
    RunConcat(s, [PutOp(op, w)], calls);
    RunConcat(s, [PutOp(op, w)] + calls, end);
    if over { Ends(s2, op); RunOne(s2, FinishOp(op)); } else { RunNone(s2, end); assert end[..0] == end; }
    Confirms(Run(s2, end), t, r, allow && now < expires);
  }

  // --- waits that nobody allows ----------------------------------------------------------------------

  /** A row that is not pending is not decided again; a pending one is expired or cancelled at any time. */
  lemma SettlesAnyTime(s: System, id: string, workspace: string, decision: Decision, now: real)
    requires id in s.rows && s.rows[id].workspace == workspace && (decision.Expire? || decision.Cancel? || decision.Interrupt?)
    ensures Cas(s, id, workspace, decision, None, now).rows
      == s.rows[id := if s.rows[id].status.Pending?
                      then s.rows[id].(status := Decided(decision), decidedAt := Some(now), device := None) else s.rows[id]]
  {
  }

  lemma BlocksAndExpires(s: System, t: nat, r: Request, row: Row, later: real)
    requires Stands(s, t, Requested(r), r, row, Waiter(false, [])) && row.workspace == r.workspace && row.status.Pending?
    ensures var s' := Step(Step(Step(s, Wait(t, r)), Wake(t)), Timeout(t, later));
      Holds(s', t, Woken(r), r, row.(status := Decided(Expire), decidedAt := Some(later), device := None), Waiter(false, []))
  {
    hide Cas, Verdict;
    var s1 := Step(s, Wait(t, r));
    assert s1 == Put(s, t, Blocked(r));
    assert Step(s1, Wake(t)) == s1;
    SettlesAnyTime(s1, r.id, r.workspace, Expire, later);
    CasFrame(s1, r.id, r.workspace, Expire, None, later);
  }

  lemma CasFrame(s: System, id: string, workspace: string, decision: Decision, device: Option<string>, now: real)
    ensures var s' := Cas(s, id, workspace, decision, device, now);
      s' == s.(rows := s'.rows, trace := s'.trace)
  {
  }

  /** A request that nobody decides: its wait blocks, times out as false and leaves the row expired. */
  lemma UnansweredIsExpired(s: System, t: nat, u: nat, r: Request, expires: real, later: real)
    requires t != u && t !in s.threads && u !in s.threads && r.id !in s.rows && !IsBlank(r.toolCall)
    ensures var s' := Run(s, [Ask(t, r, expires), Register(t), Wait(t, r), Wake(t), Timeout(t, later), Unregister(t),
                              ReadRow(t), Return(t)]);
      && t in s'.threads && s'.threads[t] == Waited(r, false) && r.id !in s'.registry
      && r.id in s'.rows && s'.rows[r.id] == NewRow(r, expires).(status := Decided(Expire), decidedAt := Some(later))
  {
    var a := [Ask(t, r, expires), Register(t), Wait(t, r), Wake(t), Timeout(t, later), Unregister(t), ReadRow(t), Return(t)];
    hide Step, Run, Stands, Holds;
    RunEight(s, a);
    AskAndRegister(s, t, u, r, expires);
    BlocksAndExpires(Run(s, a[..2]), t, r, NewRow(r, expires), later);
    WakesUngranted(Run(s, a[..5]), t, r, NewRow(r, expires).(status := Decided(Expire), decidedAt := Some(later), device := None),
                   Waiter(false, []));
  }

  /** As `Stands`, for an approval that may have left the registry. */
  predicate Holds(s: System, t: nat, th: Thread, r: Request, row: Row, waiter: Waiter) {
    && t in s.threads && s.threads[t] == th
    && r.id in s.rows && s.rows[r.id] == row && r.id in s.waiters && s.waiters[r.id] == waiter
  }

  /** A woken wait whose waiter has no result is refused. */
  lemma WakesUngranted(s: System, t: nat, r: Request, row: Row, waiter: Waiter)
    requires Holds(s, t, Woken(r), r, row, waiter) && waiter.result == []
    ensures var s' := Step(Step(Step(s, Unregister(t)), ReadRow(t)), Return(t));
      && t in s'.threads && s'.threads[t] == Waited(r, false) && r.id !in s'.registry
      && r.id in s'.rows && s'.rows[r.id] == row
  {
    hide Step;
    ReadsTheRow(s, t, r);
    Returns(Step(Step(s, Unregister(t)), ReadRow(t)), t, r, Some(row));
  }

  lemma RunEight(s: System, a: seq<Action>)
    requires |a| == 8
    ensures Run(s, a[..2]) == Step(Step(s, a[0]), a[1])
    ensures Run(s, a[..5]) == Step(Step(Step(Run(s, a[..2]), a[2]), a[3]), a[4])
    ensures Run(s, a) == Step(Step(Step(Run(s, a[..5]), a[5]), a[6]), a[7])
  {
    hide Step, Run;
    RunNone(s, a);
    RunStep(s, a, 0); RunStep(s, a, 1); RunStep(s, a, 2); RunStep(s, a, 3);
    RunStep(s, a, 4); RunStep(s, a, 5); RunStep(s, a, 6); RunStep(s, a, 7);
    assert a[..8] == a;
  }

  /** A cancelled approval leaves the registry and its waiter is signalled without a result. */
  lemma Cancels(s: System, t: nat, u: nat, r: Request, row: Row, now: real)
    requires t != u && u !in s.threads && Stands(s, t, Blocked(r), r, row, Waiter(false, []))
    requires row.workspace == r.workspace && row.status.Pending?
    ensures var s' := Step(Step(Step(s, CancelRow(u, r.id, r.workspace, now)), Pop(u)), Signal(u));
      && r.id !in s'.registry
      && Holds(s', t, Blocked(r), r, row.(status := Decided(Cancel), decidedAt := Some(now), device := None), Waiter(true, []))
  {
    SettlesAnyTime(s, r.id, r.workspace, Cancel, now);
    CasFrame(s, r.id, r.workspace, Cancel, None, now);
    hide Cas;
    var s1 := Put(Cas(s, r.id, r.workspace, Cancel, None, now), u, Cancelling(r.id));
    assert Step(s, CancelRow(u, r.id, r.workspace, now)) == s1 by { hide Continue; }
    Pops(s1, u, r.id);
    SignalsCancelled(Put(s1, u, Signalling(r.id)).(registry := s1.registry - {r.id}), u, r.id);
    hide Step;
  }

  lemma Pops(s: System, u: nat, id: string)
    requires u in s.threads && s.threads[u] == Cancelling(id) && id in s.registry
    ensures Step(s, Pop(u)) == Put(s, u, Signalling(id)).(registry := s.registry - {id})
  {
    hide Verdict, Cas;
  }

  lemma SignalsCancelled(s: System, u: nat, id: string)
    requires u in s.threads && s.threads[u] == Signalling(id) && id in s.waiters
    ensures Step(s, Signal(u)) == Put(s, u, Finished).(waiters := s.waiters[id := s.waiters[id].(isSet := true)])
  {
    hide Verdict, Cas;
  }

  lemma Blocks(s: System, t: nat, r: Request, row: Row, waiter: Waiter)
    requires Stands(s, t, Requested(r), r, row, waiter)
    ensures Stands(Step(s, Wait(t, r)), t, Blocked(r), r, row, waiter) && Step(s, Wait(t, r)).threads.Keys == s.threads.Keys
  {
  }

  lemma WakesSignalled(s: System, t: nat, r: Request, row: Row, waiter: Waiter)
    requires Holds(s, t, Blocked(r), r, row, waiter) && waiter.isSet
    ensures Holds(Step(s, Wake(t)), t, Woken(r), r, row, waiter)
  {
  }

  /** An approval that is cancelled while its wait blocks: the wait wakes up refused. */
  lemma CancelledIsRefused(s: System, t: nat, u: nat, r: Request, expires: real, now: real)
    requires t != u && t !in s.threads && u !in s.threads && r.id !in s.rows && !IsBlank(r.toolCall)
    ensures var blocked := Run(s, [Ask(t, r, expires), Register(t), Wait(t, r)]);
      var s' := Run(blocked, [CancelRow(u, r.id, r.workspace, now), Pop(u), Signal(u), Wake(t), Unregister(t), ReadRow(t), Return(t)]);
      && t in s'.threads && s'.threads[t] == Waited(r, false)
      && r.id in s'.rows && s'.rows[r.id] == NewRow(r, expires).(status := Decided(Cancel), decidedAt := Some(now))
  {
    hide Step, Run, Stands, Holds;
    var a := [Ask(t, r, expires), Register(t), Wait(t, r)];
    var b := [CancelRow(u, r.id, r.workspace, now), Pop(u), Signal(u), Wake(t), Unregister(t), ReadRow(t), Return(t)];
    RunThreeThenSeven(s, a, b);
    AskAndRegister(s, t, u, r, expires);
    var s2 := Step(Step(s, a[0]), a[1]);
    Blocks(s2, t, r, NewRow(r, expires), Waiter(false, []));
    var blocked := Run(s, a);
    Cancels(blocked, t, u, r, NewRow(r, expires), now);
    var row := NewRow(r, expires).(status := Decided(Cancel), decidedAt := Some(now), device := None);
    var s3 := Step(Step(Step(blocked, b[0]), b[1]), b[2]);
    WakesSignalled(s3, t, r, row, Waiter(true, []));
    WakesUngranted(Step(s3, b[3]), t, r, row, Waiter(true, []));
  }

  lemma RunThreeThenSeven(s: System, a: seq<Action>, b: seq<Action>)
    requires |a| == 3 && |b| == 7
    ensures Run(s, a) == Step(Step(Step(s, a[0]), a[1]), a[2])
    ensures var t := Run(s, a);
      Run(t, b) == Step(Step(Step(Step(Step(Step(Step(t, b[0]), b[1]), b[2]), b[3]), b[4]), b[5]), b[6])
  {
    hide Step, Run;
    RunNone(s, a);
    RunStep(s, a, 0); RunStep(s, a, 1); RunStep(s, a, 2);
    assert a[..3] == a;
    var t := Run(s, a);
    RunNone(t, b);
    RunStep(t, b, 0); RunStep(t, b, 1); RunStep(t, b, 2); RunStep(t, b, 3);
    RunStep(t, b, 4); RunStep(t, b, 5); RunStep(t, b, 6);
    assert b[..7] == b;
  }

  // --- restart -----------------------------------------------------------------------------------------

  /** The thread is not on its way to a granted wait for the approval. */
  predicate Refused(th: Thread, id: string) {
    match th
    case Registering(r) => r.id != id
    case Blocked(r) => r.id != id
    case Woken(r) => r.id != id
    case Unregistered(r) => r.id != id
    case RowRead(r, _) => r.id != id
    case Waited(r, granted) => r.id == id ==> !granted
    case Confirmed(r, granted) => r.id == id ==> !granted
    case _ => true
  }

  /** The row exists, and no waiter of the approval is left to be waited on. */
  predicate Forgotten(s: System, id: string) {
    id in s.rows && id !in s.registry && forall t :: t in s.threads ==> Refused(s.threads[t], id)
  }

  lemma ForgottenPut(s: System, s': System, t: nat, th: Thread, id: string)
    requires Forgotten(s, id) && id in s'.rows && id !in s'.registry
    requires s'.threads == s.threads[t := th] && Refused(th, id)
    ensures Forgotten(s', id)
  {
    hide Refused;
  }

  lemma ForgottenContinue(s: System, t: nat, a: Action, id: string)
    requires Forgotten(s, id) && t in s.threads
    ensures Forgotten(Continue(s, t, a), id)
  {
    var s' := Continue(s, t, a);
    ContinueQuietly(s, t, a, id);
    hide Continue, Refused;
    if s'.threads != s.threads { ForgottenPut(s, s', t, s'.threads[t], id); }
  }

  /** Thread `t` moves, and neither the thread nor the registry comes to wait for the approval. */
  predicate MovesQuietly(s: System, s': System, t: nat, id: string) {
    && id in s'.rows && id !in s'.registry
    && (s'.threads == s.threads || (t in s'.threads && s'.threads == s.threads[t := s'.threads[t]] && Refused(s'.threads[t], id)))
  }

  lemma ContinueQuietly(s: System, t: nat, a: Action, id: string)
    requires id in s.rows && id !in s.registry && t in s.threads && Refused(s.threads[t], id)
    ensures MovesQuietly(s, Continue(s, t, a), t, id)
  {
    var th := s.threads[t];
    if th.Registering? || th.Blocked? || th.Woken? {
      WaiterQuietly(s, t, a, id);
    } else if th.Unregistered? || th.RowRead? || th.Waited? {
      ReaderQuietly(s, t, a, id);
    } else {
      DeciderQuietly(s, t, a, id);
    }
  }

  lemma WaiterQuietly(s: System, t: nat, a: Action, id: string)
    requires id in s.rows && id !in s.registry && t in s.threads && Refused(s.threads[t], id)
    requires var th := s.threads[t]; th.Registering? || th.Blocked? || th.Woken?
    ensures MovesQuietly(s, Continue(s, t, a), t, id)
  {
    hide Verdict, OpRuns, Accepts;
  }

  lemma ReaderQuietly(s: System, t: nat, a: Action, id: string)
    requires id in s.rows && id !in s.registry && t in s.threads && Refused(s.threads[t], id)
    requires var th := s.threads[t]; th.Unregistered? || th.RowRead? || th.Waited?
    ensures MovesQuietly(s, Continue(s, t, a), t, id)
  {
    hide Verdict, OpRuns, Cas;
  }

  lemma DeciderQuietly(s: System, t: nat, a: Action, id: string)
    requires id in s.rows && id !in s.registry && t in s.threads && Refused(s.threads[t], id)
    requires var th := s.threads[t];
      !(th.Registering? || th.Blocked? || th.Woken? || th.Unregistered? || th.RowRead? || th.Waited?)
    ensures MovesQuietly(s, Continue(s, t, a), t, id)
  {
    hide Verdict, OpRuns, Cas;
  }

  lemma ForgottenWait(s: System, t: nat, r: Request, id: string)
    requires Forgotten(s, id)
    ensures Forgotten(WaitStart(s, t, r), id)
  {
    var th := if r.id in s.registry then Blocked(r) else Waited(r, false);
    assert Refused(th, id);
    hide Refused;
    if WaitStart(s, t, r) != s { ForgottenPut(s, WaitStart(s, t, r), t, th, id); }
  }

  lemma ForgottenAsk(s: System, t: nat, r: Request, expires: real, id: string)
    requires Forgotten(s, id)
    ensures Forgotten(Step(s, Ask(t, r, expires)), id)
  {
    assert r.id != id ==> Refused(Registering(r), id);
    hide Refused;
    if Step(s, Ask(t, r, expires)) != s { ForgottenPut(s, Step(s, Ask(t, r, expires)), t, Registering(r), id); }
  }

  /** A step that leaves the registry alone and at most starts a deciding thread. */
  lemma ForgottenDecides(s: System, s': System, t: nat, id: string)
    requires Forgotten(s, id) && s'.registry == s.registry && s.rows.Keys <= s'.rows.Keys
    requires s'.threads == s.threads
      || (t in s'.threads && s'.threads == s.threads[t := s'.threads[t]]
          && (s'.threads[t].Committed? || s'.threads[t].Cancelling? || s'.threads[t].Finished?))
    ensures Forgotten(s', id)
  {
    if s'.threads != s.threads {
      assert Refused(s'.threads[t], id);
      hide Refused;
      ForgottenPut(s, s', t, s'.threads[t], id);
    }
  }

  lemma ForgottenResolve(s: System, t: nat, id: string, workspace: string, allow: bool, device: string, now: real, other: string)
    requires Forgotten(s, other)
    ensures Forgotten(DecideStart(s, t, id, workspace, allow, device, now), other)
  {
    hide Refused, Accepts, Forgotten;
    ForgottenDecides(s, DecideStart(s, t, id, workspace, allow, device, now), t, other);
  }

  lemma ForgottenCancel(s: System, t: nat, id: string, workspace: string, now: real, other: string)
    requires Forgotten(s, other) && t !in s.threads
    ensures Forgotten(Put(Cas(s, id, workspace, Cancel, None, now), t, Cancelling(id)), other)
  {
    hide Refused, Forgotten;
    ForgottenDecides(s, Put(Cas(s, id, workspace, Cancel, None, now), t, Cancelling(id)), t, other);
  }

  lemma ForgottenRest(s: System, s': System, other: string)
    requires Forgotten(s, other) && s'.registry == s.registry && s'.threads == s.threads && s.rows.Keys <= s'.rows.Keys
    ensures Forgotten(s', other)
  {
    hide Refused;
  }

  lemma CasKeepsKeys(s: System, id: string, workspace: string, decision: Decision, now: real)
    ensures var s' := Cas(s, id, workspace, decision, None, now);
      s'.rows.Keys == s.rows.Keys && s'.registry == s.registry && s'.threads == s.threads
  {
  }

  lemma ForgottenStep(s: System, a: Action, other: string)
    requires Forgotten(s, other)
    ensures Forgotten(Step(s, a), other)
  {
    hide Continue, Refused, Forgotten, WaitStart, DecideStart, Cas;
    match a
    case Ask(t, r, expires) => ForgottenAsk(s, t, r, expires, other);
    case Wait(t, r) => ForgottenWait(s, t, r, other);
    case Resolve(t, id, workspace, allow, device, now) => ForgottenResolve(s, t, id, workspace, allow, device, now, other);
    case CancelRow(t, id, workspace, now) => if t !in s.threads { ForgottenCancel(s, t, id, workspace, now, other); }
    case PutOp(_, _) => ForgottenRest(s, Step(s, a), other);
    case FinishOp(op) => ForgottenRest(s, Finish(s, op), other);
    case InterruptRow(id, workspace, now) =>
      CasKeepsKeys(s, id, workspace, Interrupt, now);
      ForgottenRest(s, Step(s, a), other);
    case Restart =>
      KnownRow(s, other);
      ForgottenRestart(s, other);
    case _ => if a.t in s.threads { ForgottenContinue(s, a.t, a, other); }
  }

  lemma ForgottenRestart(s: System, other: string)
    requires other in s.rows
    ensures Forgotten(Step(s, Restart), other)
  {
  }

  lemma KnownRow(s: System, id: string)
    requires Forgotten(s, id)
    ensures id in s.rows
  {
  }

  lemma {:induction false} ForgottenRun(s: System, actions: seq<Action>, id: string)
    requires Forgotten(s, id)
    ensures Forgotten(Run(s, actions), id)
  {
    hide Step, Forgotten;
    if actions != [] {
      ForgottenRun(s, actions[..|actions| - 1], id);
      ForgottenStep(Run(s, actions[..|actions| - 1]), actions[|actions| - 1], id);
    }
  }

  /**
   A restart keeps the rows and forgets every waiter: an approval requested before it is never granted
   after it, whatever is decided, and a wait for it is refused at once.
   */
  lemma RestartEndsWaits(s: System, actions: seq<Action>, id: string, t: nat, r: Request)
    requires id in s.rows
    ensures Step(s, Restart).rows == s.rows && Step(s, Restart).ops == s.ops && Step(s, Restart).threads == map[]
    ensures var s' := Run(Step(s, Restart), actions);
      && (forall t :: t in s'.threads && s'.threads[t].Waited? && s'.threads[t].request.id == id ==> !s'.threads[t].granted)
      && (forall t :: t in s'.threads && s'.threads[t].Confirmed? && s'.threads[t].request.id == id ==> !s'.threads[t].granted)
      && (t !in s'.threads && r.id == id ==> Step(s', Wait(t, r)) == s'.(threads := s'.threads[t := Waited(r, false)]))
  {
    ForgottenRun(Step(s, Restart), actions, id);
  }

  /** The interrupt steps of the recovery that follows a restart, for the rows of `t`. */
  function Interrupts(t: Table, ids: seq<string>, now: real): seq<Action> {
    if ids == [] then []
    else
      var id := ids[|ids| - 1];
      Interrupts(t, ids[..|ids| - 1], now) + if id in t then [InterruptRow(id, t[id].workspace, now)] else []
  }

  lemma InterruptStep(s: System, id: string, workspace: string, now: real)
    ensures Step(s, InterruptRow(id, workspace, now)).rows == Decide(s.rows, id, workspace, Interrupt, None, now).0
  {
  }

  lemma {:induction false} InterruptsRows(s: System, ids: seq<string>, now: real)
    ensures Run(s, Interrupts(s.rows, ids, now)).rows == InterruptEach(s.rows, ids, now)
  {
    if ids != [] {
      var front, id := ids[..|ids| - 1], ids[|ids| - 1];
      InterruptsRows(s, front, now);
      InterruptEachRow(s.rows, front, now);
      var before := Interrupts(s.rows, front, now);
      if id in s.rows {
        var last := InterruptRow(id, s.rows[id].workspace, now);
        RunConcat(s, before, [last]);
        RunOne(Run(s, before), last);
        hide Run, Step, InterruptEach, Decide;
        InterruptStep(Run(s, before), id, s.rows[id].workspace, now);
      } else {
        assert before + [] == before;
      }
    }
  }

  /** Recovery interrupts exactly the pending rows, as steps of the protocol and as the one update of the table. */
  lemma RecoveryInterruptsPending(s: System, ids: seq<string>, now: real)
    requires forall id :: id in s.rows && s.rows[id].status.Pending? ==> id in ids && s.rows[id].device.None?
    ensures var rows := Run(s, Interrupts(s.rows, ids, now)).rows;
      && rows == RecoverUncertain(s.rows, now) && rows.Keys == s.rows.Keys
      && forall id :: id in s.rows ==>
           rows[id] == if s.rows[id].status != Pending then s.rows[id]
                       else s.rows[id].(status := Decided(Interrupt), decidedAt := Some(now))
  {
    InterruptsRows(s, ids, now);
    RecoveryIsInterruption(s.rows, ids, now);
  }
}
