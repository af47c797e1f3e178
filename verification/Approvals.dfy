/**
 The approval protocol.  The durable compare-and-set on the gateway_approvals row is one transaction;
 the in-memory waiter (a registry entry, an event and a result list) is touched in separate steps.
 Threads run request, wait, decide, cancel and confirm; any two may interleave between those steps,
 and the process may restart at any point.  Restart drops the memory; the recovery transaction of the
 next start is a series of InterruptRow and FinishOp steps, which are allowed at any time.
 */
module Approvals {
  import opened Wrappers
  import opened Text

  datatype Decision = Allow | Deny | Expire | Cancel | Interrupt

  datatype Status = Pending | Decided(decision: Decision)

  datatype Row = Row(workspace: string, session: Option<string>, run: Option<string>, toolCall: string,
                     status: Status, expires: real, decidedAt: Option<real>, device: Option<string>)

  type Table = map<string, Row>

  datatype Request = Request(id: string, workspace: string, session: Option<string>, run: Option<string>, toolCall: string)

  /** The compare-and-set: pending row of that workspace, and before the deadline for a person's decision. */
  predicate Accepts(t: Table, id: string, workspace: string, decision: Decision, now: real) {
    && id in t && t[id].workspace == workspace && t[id].status.Pending?
    && (decision.Allow? || decision.Deny? ==> t[id].expires > now)
  }

  function Decide(t: Table, id: string, workspace: string, decision: Decision, device: Option<string>, now: real): (Table, bool) {
    if Accepts(t, id, workspace, decision, now)
    then (t[id := t[id].(status := Decided(decision), decidedAt := Some(now), device := device)], true)
    else (t, false)
  }

  function NewRow(r: Request, expires: real): Row {
    Row(r.workspace, r.session, r.run, r.toolCall, Pending, expires, None, None)
  }

  function RecoverUncertain(t: Table, now: real): Table {
    map id | id in t :: if t[id].status.Pending? then t[id].(status := Decided(Interrupt), decidedAt := Some(now)) else t[id]
  }

  /** What wait makes of the waiter's result list and the row it then reads. */
  predicate Verdict(result: seq<bool>, row: Option<Row>, r: Request) {
    && result != [] && result[0]
    && row.Some? && row.value.status == Decided(Allow)
    && row.value.workspace == r.workspace && row.value.session == r.session
    && row.value.run == r.run && row.value.toolCall == r.toolCall
  }

  datatype Waiter = Waiter(isSet: bool, result: seq<bool>)

  datatype Op = Op(workspace: string, running: bool)

  datatype Thread =
    | Registering(request: Request)
    | Requested(request: Request)
    | Blocked(request: Request)
    | Woken(request: Request)
    | Unregistered(request: Request)
    | RowRead(request: Request, row: Option<Row>)
    | Waited(request: Request, granted: bool)
    | Confirmed(request: Request, granted: bool)
    | Committed(id: string, allow: bool)
    | Notifying(id: string, allow: bool)
    | Appended(id: string)
    | Cancelling(id: string)
    | Signalling(id: string)
    | Finished

  datatype Event =
    | Commit(id: string, workspace: string, decision: Decision, now: real, expires: real)
    | OpPut(op: string)
    | OpFinished(op: string)
    | Grant(request: Request)

  /** `trace`, `decider`, `requester` and `spent` record the past; no step branches on them. */
  datatype System = System(
    rows: Table, registry: set<string>, waiters: map<string, Waiter>, ops: map<string, Op>,
    threads: map<nat, Thread>,
    trace: seq<Event>, decider: map<string, nat>, requester: map<string, nat>, spent: set<string>)

  datatype Action =
    | Ask(t: nat, request: Request, expires: real)
    | Register(t: nat)
    | Wait(t: nat, request: Request)
    | Wake(t: nat)
    | Timeout(t: nat, now: real)
    | Unregister(t: nat)
    | ReadRow(t: nat)
    | Return(t: nat)
    | Confirm(t: nat)
    | Resolve(t: nat, id: string, workspace: string, allow: bool, device: string, now: real)
    | Lookup(t: nat)
    | Append(t: nat)
    | Signal(t: nat)
    | CancelRow(t: nat, id: string, workspace: string, now: real)
    | Pop(t: nat)
    | PutOp(op: string, workspace: string)
    | FinishOp(op: string)
    | InterruptRow(id: string, workspace: string, now: real)
    | Restart

  function Init(): System { System(map[], {}, map[], map[], map[], [], map[], map[], {}) }

  function Put(s: System, t: nat, th: Thread): System { s.(threads := s.threads[t := th]) }

  /** A compare-and-set with its trace entry. */
  function Cas(s: System, id: string, workspace: string, decision: Decision, device: Option<string>, now: real): System {
    if Accepts(s.rows, id, workspace, decision, now)
    then s.(rows := Decide(s.rows, id, workspace, decision, device, now).0,
            trace := s.trace + [Commit(id, workspace, decision, now, s.rows[id].expires)])
    else s
  }

  predicate OpRuns(s: System, r: Request) {
    r.run.Some? && r.run.value in s.ops && s.ops[r.run.value].workspace == r.workspace && s.ops[r.run.value].running
  }

  function WaitStart(s: System, t: nat, r: Request): System {
    if t in s.threads && !(s.threads[t].Requested? && s.threads[t].request == r) then s
    else if r.id in s.registry then Put(s, t, Blocked(r))
    else Put(s, t, Waited(r, false))
  }

  function DecideStart(s: System, t: nat, id: string, workspace: string, allow: bool, device: string, now: real): System {
    var decision := if allow then Allow else Deny;
    if t in s.threads then s
    else if Accepts(s.rows, id, workspace, decision, now)
    then Put(Cas(s, id, workspace, decision, Some(device), now), t, Committed(id, allow)).(decider := s.decider[id := t])
    else Put(s, t, Finished)
  }

  /** Steps that continue a thread from the phase it is in. */
  function Continue(s: System, t: nat, a: Action): System
    requires t in s.threads
  {
    match (a, s.threads[t])
    case (Register(_), Registering(r)) =>
      Put(s, t, Requested(r)).(registry := s.registry + {r.id}, waiters := s.waiters[r.id := Waiter(false, [])])
    case (Wake(_), Blocked(r)) =>
      if r.id in s.waiters && s.waiters[r.id].isSet then Put(s, t, Woken(r)) else s
    case (Timeout(_, now), Blocked(r)) =>
      if r.id in s.waiters && !s.waiters[r.id].isSet then Put(Cas(s, r.id, r.workspace, Expire, None, now), t, Woken(r)) else s
    case (Unregister(_), Woken(r)) => Put(s, t, Unregistered(r)).(registry := s.registry - {r.id})
    case (ReadRow(_), Unregistered(r)) =>
      Put(s, t, RowRead(r, if r.id in s.rows then Some(s.rows[r.id]) else None))
    case (Return(_), RowRead(r, row)) =>
      if r.id in s.waiters then Put(s, t, Waited(r, Verdict(s.waiters[r.id].result, row, r))) else s
    case (Confirm(_), Waited(r, granted)) =>
      var yes := granted && OpRuns(s, r);
      Put(s, t, Confirmed(r, yes)).(trace := if yes then s.trace + [Grant(r)] else s.trace)
    case (Lookup(_), Committed(id, allow)) =>
      if id in s.registry then Put(s, t, Notifying(id, allow)) else Put(s, t, Finished)
    case (Append(_), Notifying(id, allow)) =>
      if id !in s.waiters then s
      else Put(s, t, Appended(id)).(
             waiters := s.waiters[id := s.waiters[id].(result := s.waiters[id].result + [allow])], spent := s.spent + {id})
    case (Signal(_), Appended(id)) => SetEvent(s, t, id)
    case (Pop(_), Cancelling(id)) =>
      if id in s.registry then Put(s, t, Signalling(id)).(registry := s.registry - {id}) else Put(s, t, Finished)
    case (Signal(_), Signalling(id)) => SetEvent(s, t, id)
    case _ => s
  }

  function SetEvent(s: System, t: nat, id: string): System {
    if id in s.waiters then Put(s, t, Finished).(waiters := s.waiters[id := s.waiters[id].(isSet := true)]) else s
  }

  function Step(s: System, a: Action): System {
    match a
    case Ask(t, r, expires) =>
      if t in s.threads || r.id in s.rows || IsBlank(r.toolCall) then s
      else Put(s, t, Registering(r)).(rows := s.rows[r.id := NewRow(r, expires)], requester := s.requester[r.id := t])
    case Wait(t, r) => WaitStart(s, t, r)
    case Resolve(t, id, workspace, allow, device, now) => DecideStart(s, t, id, workspace, allow, device, now)
    case CancelRow(t, id, workspace, now) =>
      if t in s.threads then s else Put(Cas(s, id, workspace, Cancel, None, now), t, Cancelling(id))
    case PutOp(op, workspace) =>
      if op in s.ops then s else s.(ops := s.ops[op := Op(workspace, true)], trace := s.trace + [OpPut(op)])
    case FinishOp(op) => Finish(s, op)
    case InterruptRow(id, workspace, now) => Cas(s, id, workspace, Interrupt, None, now)
    case Restart => s.(threads := map[], registry := {}, waiters := map[])
    case _ => if a.t in s.threads then Continue(s, a.t, a) else s
  }

  function Finish(s: System, op: string): System {
    if op in s.ops && s.ops[op].running
    then s.(ops := s.ops[op := s.ops[op].(running := false)], trace := s.trace + [OpFinished(op)])
    else s
  }

  function Run(s: System, actions: seq<Action>): System {
    if actions == [] then s
    else Step(Run(s, actions[..|actions| - 1]), actions[|actions| - 1])
  }

  /** A series of interrupt decisions, one for each of `ids` that has a row. */
  function InterruptEach(t: Table, ids: seq<string>, now: real): Table {
    if ids == [] then t
    else
      var u, id := InterruptEach(t, ids[..|ids| - 1], now), ids[|ids| - 1];
      if id in u then Decide(u, id, u[id].workspace, Interrupt, None, now).0 else u
  }

  function Interrupted(row: Row, named: bool, now: real): Row {
    if named && row.status.Pending? then row.(status := Decided(Interrupt), decidedAt := Some(now), device := None) else row
  }

  lemma {:induction false} InterruptEachRow(t: Table, ids: seq<string>, now: real)
    ensures var u := InterruptEach(t, ids, now);
      && u.Keys == t.Keys
      && forall id :: id in t ==> u[id] == Interrupted(t[id], id in ids, now)
  {
    if ids != [] { InterruptEachRow(t, ids[..|ids| - 1], now); }
  }

  /**
   The recovery update is the series of interrupt decisions over any list that has every pending row, in
   any order and with any repeats; a pending row names no deciding device.
   */
  lemma RecoveryIsInterruption(t: Table, ids: seq<string>, now: real)
    requires forall id :: id in t && t[id].status.Pending? ==> id in ids && t[id].device.None?
    ensures InterruptEach(t, ids, now) == RecoverUncertain(t, now)
  {
    InterruptEachRow(t, ids, now);
  }

  // --- the invariant ------------------------------------------------------------------------------

  ghost predicate CommitOf(e: Event, id: string, row: Row) {
    && e.Commit? && e.id == id && e.workspace == row.workspace && e.expires == row.expires
    && row.status == Decided(e.decision)
    && (e.decision.Allow? || e.decision.Deny? ==> e.now < e.expires)
  }

  ghost predicate OneCommitPerId(trace: seq<Event>) {
    forall i, j :: 0 <= i < j < |trace| && trace[i].Commit? && trace[j].Commit? ==> trace[i].id != trace[j].id
  }

  ghost predicate RowsOk(rows: Table, trace: seq<Event>) {
    && OneCommitPerId(trace)
    && (forall e :: e in trace && e.Commit? ==> e.id in rows && CommitOf(e, e.id, rows[e.id]))
    && (forall id :: id in rows && rows[id].status.Decided? ==> exists e :: e in trace && CommitOf(e, id, rows[id]))
  }

  ghost predicate OpsOk(ops: map<string, Op>, trace: seq<Event>) {
    && (forall o :: OpPut(o) in trace <==> o in ops)
    && (forall o :: OpFinished(o) in trace <==> o in ops && !ops[o].running)
  }

  /** An allow for this approval committed in its workspace before the deadline. */
  ghost predicate AllowedIn(trace: seq<Event>, r: Request) {
    exists e :: e in trace && e.Commit? && e.id == r.id && e.workspace == r.workspace && e.decision.Allow? && e.now < e.expires
  }

  ghost predicate GrantOk(before: seq<Event>, r: Request) {
    AllowedIn(before, r) && r.run.Some? && OpPut(r.run.value) in before && OpFinished(r.run.value) !in before
  }

  ghost predicate GrantsOk(trace: seq<Event>) {
    forall j :: 0 <= j < |trace| && trace[j].Grant? ==> GrantOk(trace[..j], trace[j].request)
  }

  ghost predicate WaitersOk(s: System) {
    && s.registry <= s.waiters.Keys <= s.rows.Keys
    && (forall id :: id in s.spent ==> id in s.rows && s.rows[id].status.Decided?)
    && (forall id :: id in s.waiters ==>
          && |s.waiters[id].result| <= 1
          && (s.waiters[id].result != [] <==> id in s.spent)
          && (s.waiters[id].result != [] ==> s.rows[id].status == Decided(if s.waiters[id].result[0] then Allow else Deny)))
  }

  ghost predicate ThreadOk(s: System, t: nat, th: Thread) {
    match th
    case Registering(r) =>
      r.id in s.rows && r.id !in s.waiters && r.id !in s.spent && r.id in s.requester && s.requester[r.id] == t
    case Blocked(r) => r.id in s.waiters
    case Woken(r) => r.id in s.waiters
    case Unregistered(r) => r.id in s.waiters
    case RowRead(r, row) =>
      r.id in s.waiters && (row.Some? && row.value.status.Decided? ==> r.id in s.rows && s.rows[r.id] == row.value)
    case Waited(r, granted) =>
      granted ==> r.id in s.rows && s.rows[r.id].status == Decided(Allow) && s.rows[r.id].workspace == r.workspace
    case Confirmed(r, granted) => granted ==> Grant(r) in s.trace
    case Committed(id, allow) => Undelivered(s, t, id, allow)
    case Notifying(id, allow) => Undelivered(s, t, id, allow) && id in s.waiters
    case Appended(id) => id in s.waiters
    case Signalling(id) => id in s.waiters
    case _ => true
  }

  /** The one thread whose decision committed has not put it in the result list yet. */
  ghost predicate Undelivered(s: System, t: nat, id: string, allow: bool) {
    && id in s.rows && s.rows[id].status == Decided(if allow then Allow else Deny)
    && id in s.decider && s.decider[id] == t && id !in s.spent
  }

  ghost predicate ThreadsOk(s: System) {
    forall t :: t in s.threads ==> ThreadOk(s, t, s.threads[t])
  }

  ghost predicate Inv(s: System) {
    RowsOk(s.rows, s.trace) && OpsOk(s.ops, s.trace) && GrantsOk(s.trace) && WaitersOk(s) && ThreadsOk(s)
  }

  // --- the trace ----------------------------------------------------------------------------------

  lemma GrantsGrow(trace: seq<Event>, e: Event)
    requires GrantsOk(trace)
    requires e.Grant? ==> GrantOk(trace, e.request)
    ensures GrantsOk(trace + [e])
  {
    var trace' := trace + [e];
    forall j | 0 <= j < |trace'| && trace'[j].Grant?
      ensures GrantOk(trace'[..j], trace'[j].request)
    {
      assert trace'[..j] == trace[..j];
      if j == |trace| {
        assert trace[..j] == trace;
      }
    }
  }

  lemma CasKeepsRows(s: System, id: string, workspace: string, decision: Decision, device: Option<string>, now: real)
    requires RowsOk(s.rows, s.trace)
    ensures RowsOk(Cas(s, id, workspace, decision, device, now).rows, Cas(s, id, workspace, decision, device, now).trace)
  {
    var s' := Cas(s, id, workspace, decision, device, now);
    if Accepts(s.rows, id, workspace, decision, now) {
      var e := Commit(id, workspace, decision, now, s.rows[id].expires);
      forall x | x in s.trace && x.Commit?
        ensures x.id != id
      {
        assert CommitOf(x, x.id, s.rows[x.id]);
      }
      assert e in s'.trace && CommitOf(e, id, s'.rows[id]);
      forall k | k in s'.rows && s'.rows[k].status.Decided?
        ensures exists x :: x in s'.trace && CommitOf(x, k, s'.rows[k])
      {
        if k != id {
          var x :| x in s.trace && CommitOf(x, k, s.rows[k]);
          assert x in s'.trace;
        }
      }
    }
  }

  /** A trace entry that is not a commit leaves the rows' bookkeeping alone, and dually for operations. */
  lemma OtherEntry(s: System, e: Event)
    ensures RowsOk(s.rows, s.trace) && !e.Commit? ==> RowsOk(s.rows, s.trace + [e])
    ensures OpsOk(s.ops, s.trace) && !e.OpPut? && !e.OpFinished? ==> OpsOk(s.ops, s.trace + [e])
  {
    if RowsOk(s.rows, s.trace) && !e.Commit? {
      forall k | k in s.rows && s.rows[k].status.Decided?
        ensures exists x :: x in s.trace + [e] && CommitOf(x, k, s.rows[k])
      {
        var x :| x in s.trace && CommitOf(x, k, s.rows[k]);
        assert x in s.trace + [e];
      }
    }
  }

  lemma CasKeepsTrace(s: System, id: string, workspace: string, decision: Decision, device: Option<string>, now: real)
    requires RowsOk(s.rows, s.trace) && OpsOk(s.ops, s.trace) && GrantsOk(s.trace)
    ensures var s' := Cas(s, id, workspace, decision, device, now);
            RowsOk(s'.rows, s'.trace) && OpsOk(s'.ops, s'.trace) && GrantsOk(s'.trace)
  {
    CasKeepsRows(s, id, workspace, decision, device, now);
    if Accepts(s.rows, id, workspace, decision, now) {
      var e := Commit(id, workspace, decision, now, s.rows[id].expires);
      OtherEntry(s, e);
      GrantsGrow(s.trace, e);
    }
  }

  // --- threads --------------------------------------------------------------------------------------

  /** Rows and records only grow, and decided rows are absorbing; what a thread relies on survives. */
  ghost predicate Grows(s: System, s': System) {
    && s.rows.Keys <= s'.rows.Keys
    && (forall id :: id in s.rows && s.rows[id].status.Decided? ==> s'.rows[id] == s.rows[id])
    && s.waiters.Keys <= s'.waiters.Keys
    && (forall e :: e in s.trace ==> e in s'.trace)
  }

  lemma ThreadSurvives(s: System, s': System, t: nat, th: Thread)
    requires ThreadOk(s, t, th) && WaitersOk(s) && Grows(s, s')
    requires th.Registering? ==> th.request.id !in s'.waiters && th.request.id !in s'.spent
                                 && th.request.id in s'.requester && s'.requester[th.request.id] == t
    requires (th.Committed? || th.Notifying?) ==> th.id !in s'.spent && th.id in s'.decider && s'.decider[th.id] == t
    ensures ThreadOk(s', t, th)
  {
  }

  lemma CasGrows(s: System, id: string, workspace: string, decision: Decision, device: Option<string>, now: real)
    ensures Grows(s, Cas(s, id, workspace, decision, device, now))
  {
  }

  /** What every other thread relies on survives a step that moves no ownership record. */
  lemma OthersSurvive(s: System, s': System, t: nat)
    requires ThreadsOk(s) && WaitersOk(s) && Grows(s, s')
    requires s'.decider == s.decider && s'.requester == s.requester && s'.spent == s.spent
    requires s'.waiters.Keys == s.waiters.Keys
    requires forall u :: u in s'.threads && u != t ==> u in s.threads && s.threads[u] == s'.threads[u]
    ensures forall u :: u in s'.threads && u != t ==> ThreadOk(s', u, s'.threads[u])
  {
    forall u | u in s'.threads && u != t
      ensures ThreadOk(s', u, s'.threads[u])
    {
      assert ThreadOk(s, u, s.threads[u]);
      ThreadSurvives(s, s', u, s.threads[u]);
    }
  }

  lemma AllSurvive(s: System, s': System)
    requires ThreadsOk(s) && WaitersOk(s) && Grows(s, s')
    requires s'.decider == s.decider && s'.requester == s.requester && s'.spent == s.spent
    requires s'.waiters.Keys == s.waiters.Keys && s'.threads == s.threads
    ensures ThreadsOk(s')
  {
    forall u | u in s'.threads
      ensures ThreadOk(s', u, s'.threads[u])
    {
      OthersSurvive(s, s', u + 1);
    }
  }

  lemma CasKeepsWaiters(s: System, id: string, workspace: string, decision: Decision, device: Option<string>, now: real)
    requires WaitersOk(s)
    ensures WaitersOk(Cas(s, id, workspace, decision, device, now))
  {
  }

  /** A compare-and-set keeps everything, whoever does it. */
  lemma CasKeeps(s: System, id: string, workspace: string, decision: Decision, device: Option<string>, now: real)
    requires Inv(s)
    ensures Inv(Cas(s, id, workspace, decision, device, now))
  {
    hide RowsOk, OpsOk, GrantsOk, WaitersOk, ThreadsOk;
    var s' := Cas(s, id, workspace, decision, device, now);
    CasKeepsTrace(s, id, workspace, decision, device, now);
    CasKeepsWaiters(s, id, workspace, decision, device, now);
    CasGrows(s, id, workspace, decision, device, now);
    AllSurvive(s, s');
  }

  lemma PutKeeps(s: System, t: nat, th: Thread)
    requires Inv(s) && ThreadOk(s, t, th)
    ensures Inv(Put(s, t, th))
  {
    var s' := Put(s, t, th);
    forall u | u in s'.threads
      ensures ThreadOk(s', u, s'.threads[u])
    {
      assert u != t ==> ThreadOk(s, u, s.threads[u]);
      SameStore(s, s', u, s'.threads[u]);
    }
  }

  lemma SameStore(s: System, s': System, t: nat, th: Thread)
    requires ThreadOk(s, t, th)
    requires s' == s.(threads := s'.threads)
    ensures ThreadOk(s', t, th)
  {
  }

  lemma AskRows(rows: Table, trace: seq<Event>, id: string, row: Row)
    requires RowsOk(rows, trace) && id !in rows && row.status.Pending?
    ensures RowsOk(rows[id := row], trace)
  {
    hide OneCommitPerId, CommitOf;
    forall k | k in rows && rows[k].status.Decided?
      ensures exists e :: e in trace && CommitOf(e, k, rows[id := row][k])
    {
      var e :| e in trace && CommitOf(e, k, rows[k]);
    }
  }

  lemma AskWaiters(s: System, id: string, row: Row, t: nat)
    requires WaitersOk(s) && id !in s.rows
    ensures WaitersOk(s.(rows := s.rows[id := row], requester := s.requester[id := t]))
  {
  }

  lemma AskThreads(s: System, s': System, t: nat, id: string, row: Row)
    requires ThreadsOk(s) && WaitersOk(s) && id !in s.rows && t !in s.threads
    requires s' == s.(rows := s.rows[id := row], requester := s.requester[id := t])
    ensures ThreadsOk(s')
  {
    forall u | u in s'.threads
      ensures ThreadOk(s', u, s'.threads[u])
    {
      assert ThreadOk(s, u, s.threads[u]);
      hide WaitersOk;
      ThreadSurvives(s, s', u, s.threads[u]);
    }
  }

  lemma AskKeeps(s: System, t: nat, r: Request, expires: real)
    requires Inv(s) && t !in s.threads && r.id !in s.rows
    ensures Inv(s.(rows := s.rows[r.id := NewRow(r, expires)], requester := s.requester[r.id := t]))
    ensures ThreadOk(s.(rows := s.rows[r.id := NewRow(r, expires)], requester := s.requester[r.id := t]), t, Registering(r))
  {
    var s' := s.(rows := s.rows[r.id := NewRow(r, expires)], requester := s.requester[r.id := t]);
    AskIsRegistering(s, s', t, r);
    hide RowsOk, OpsOk, GrantsOk, WaitersOk, ThreadsOk, ThreadOk;
    AskRows(s.rows, s.trace, r.id, NewRow(r, expires));
    AskWaiters(s, r.id, NewRow(r, expires), t);
    AskThreads(s, s', t, r.id, NewRow(r, expires));
  }

  lemma AskIsRegistering(s: System, s': System, t: nat, r: Request)
    requires WaitersOk(s) && r.id !in s.rows
    requires s'.waiters == s.waiters && s'.spent == s.spent && r.id in s'.rows && r.id in s'.requester && s'.requester[r.id] == t
    ensures ThreadOk(s', t, Registering(r))
  {
  }

  lemma RegisterKeeps(s: System, t: nat)
    requires Inv(s) && t in s.threads && s.threads[t].Registering?
    ensures Inv(Continue(s, t, Register(t)))
  {
    hide RowsOk, OpsOk, GrantsOk;
    var s', r := Continue(s, t, Register(t)), s.threads[t].request;
    assert ThreadOk(s, t, s.threads[t]);
    forall u | u in s'.threads
      ensures ThreadOk(s', u, s'.threads[u])
    {
      if u != t {
        assert ThreadOk(s, u, s.threads[u]);
        ThreadSurvives(s, s', u, s.threads[u]);
      }
    }
  }

  lemma AppendKeeps(s: System, t: nat)
    requires Inv(s) && t in s.threads && s.threads[t].Notifying?
    ensures Inv(Continue(s, t, Append(t)))
  {
    hide RowsOk, OpsOk, GrantsOk;
    assert ThreadOk(s, t, s.threads[t]);
    AppendWaiters(s, s.threads[t].id, s.threads[t].allow);
    AppendThreads(s, t);
  }

  lemma AppendThreads(s: System, t: nat)
    requires ThreadsOk(s) && WaitersOk(s) && t in s.threads && s.threads[t].Notifying?
    ensures ThreadsOk(Continue(s, t, Append(t)))
  {
    hide WaitersOk;
    var s' := Continue(s, t, Append(t));
    assert ThreadOk(s, t, s.threads[t]);
    forall u | u in s'.threads && u != t
      ensures ThreadOk(s', u, s'.threads[u])
    {
      assert ThreadOk(s, u, s.threads[u]);
      ThreadSurvives(s, s', u, s.threads[u]);
    }
  }

  lemma AppendWaiters(s: System, id: string, allow: bool)
    requires WaitersOk(s) && id in s.waiters && id !in s.spent
    requires s.rows[id].status == Decided(if allow then Allow else Deny)
    ensures WaitersOk(s.(waiters := s.waiters[id := s.waiters[id].(result := s.waiters[id].result + [allow])], spent := s.spent + {id}))
  {
    assert s.waiters[id].result == [];
    assert [] + [allow] == [allow];
  }

  lemma SignalKeeps(s: System, t: nat, id: string)
    requires Inv(s) && t in s.threads
    ensures Inv(SetEvent(s, t, id))
  {
    hide RowsOk, OpsOk, GrantsOk, ThreadOk;
    var s' := SetEvent(s, t, id);
    if id in s.waiters {
      OthersSurvive(s, s', t);
      FinishedOk(s', t);
    }
  }

  /** Removing a registry entry, with the thread moving on, keeps everything. */
  lemma UnregisterKeeps(s: System, t: nat, id: string, th: Thread)
    requires Inv(s) && ThreadOk(s, t, th)
    ensures Inv(Put(s, t, th).(registry := s.registry - {id}))
  {
    var s' := Put(s, t, th).(registry := s.registry - {id});
    OthersSurvive(s, s', t);
    SameRecords(s, s', t, th);
  }

  lemma SameRecords(s: System, s': System, t: nat, th: Thread)
    requires ThreadOk(s, t, th)
    requires s' == s.(threads := s'.threads, registry := s'.registry)
    ensures ThreadOk(s', t, th)
  {
  }

  lemma ConfirmKeeps(s: System, t: nat)
    requires Inv(s) && t in s.threads && s.threads[t].Waited?
    ensures Inv(Continue(s, t, Confirm(t)))
  {
    hide RowsOk, OpsOk, GrantsOk, WaitersOk, ThreadsOk, AllowedIn, ThreadOk;
    var r := s.threads[t].request;
    if s.threads[t].granted && OpRuns(s, r) {
      WaitedAllowed(s, t);
      GrantKeeps(s, r);
      ConfirmedOk(s.(trace := s.trace + [Grant(r)]), t, r);
      PutKeeps(s.(trace := s.trace + [Grant(r)]), t, Confirmed(r, true));
    } else {
      ConfirmedOk(s, t, r);
      PutKeeps(s, t, Confirmed(r, false));
    }
  }

  lemma ConfirmedOk(s: System, t: nat, r: Request)
    ensures ThreadOk(s, t, Confirmed(r, false))
    ensures Grant(r) in s.trace ==> ThreadOk(s, t, Confirmed(r, true))
  {
  }

  lemma WaitedAllowed(s: System, t: nat)
    requires ThreadsOk(s) && RowsOk(s.rows, s.trace)
    requires t in s.threads && s.threads[t].Waited? && s.threads[t].granted
    ensures AllowedIn(s.trace, s.threads[t].request)
  {
    assert ThreadOk(s, t, s.threads[t]);
    AllowedByRow(s, s.threads[t].request);
  }

  lemma GrantKeeps(s: System, r: Request)
    requires Inv(s) && AllowedIn(s.trace, r) && OpRuns(s, r)
    ensures Inv(s.(trace := s.trace + [Grant(r)]))
  {
    GrantsGrow(s.trace, Grant(r));
    OtherEntry(s, Grant(r));
    AllSurvive(s, s.(trace := s.trace + [Grant(r)]));
  }

  lemma AllowedByRow(s: System, r: Request)
    requires RowsOk(s.rows, s.trace)
    requires r.id in s.rows && s.rows[r.id].status == Decided(Allow) && s.rows[r.id].workspace == r.workspace
    ensures AllowedIn(s.trace, r)
  {
    var e :| e in s.trace && CommitOf(e, r.id, s.rows[r.id]);
  }

  lemma ResolveKeeps(s: System, t: nat, id: string, workspace: string, allow: bool, device: string, now: real)
    requires Inv(s)
    ensures Inv(DecideStart(s, t, id, workspace, allow, device, now))
  {
    hide RowsOk, OpsOk, GrantsOk, WaitersOk, ThreadsOk, ThreadOk;
    var decision := if allow then Allow else Deny;
    if t !in s.threads && !Accepts(s.rows, id, workspace, decision, now) {
      FinishedOk(s, t);
      PutKeeps(s, t, Finished);
    } else if t !in s.threads {
      var s1 := Cas(s, id, workspace, decision, Some(device), now);
      CasKeeps(s, id, workspace, decision, Some(device), now);
      DeciderEntry(s, s1, t, id, workspace, allow, device, now);
      WaitersIgnoreDecider(s1, s.decider[id := t]);
      PutKeeps(s1.(decider := s.decider[id := t]), t, Committed(id, allow));
    }
  }

  lemma FinishedOk(s: System, t: nat)
    ensures ThreadOk(s, t, Finished)
  {
  }

  lemma WaitersIgnoreDecider(s: System, decider: map<string, nat>)
    requires WaitersOk(s)
    ensures WaitersOk(s.(decider := decider))
  {
  }

  /** A fresh decision has no earlier decider whose record it could overwrite. */
  lemma DeciderEntry(s: System, s1: System, t: nat, id: string, workspace: string, allow: bool, device: string, now: real)
    requires ThreadsOk(s) && WaitersOk(s) && ThreadsOk(s1) && WaitersOk(s1)
    requires Accepts(s.rows, id, workspace, if allow then Allow else Deny, now)
    requires s1 == Cas(s, id, workspace, if allow then Allow else Deny, Some(device), now)
    ensures ThreadsOk(s1.(decider := s.decider[id := t]))
    ensures ThreadOk(s1.(decider := s.decider[id := t]), t, Committed(id, allow))
  {
    var s2 := s1.(decider := s.decider[id := t]);
    forall u | u in s2.threads
      ensures ThreadOk(s2, u, s2.threads[u])
    {
      assert ThreadOk(s, u, s.threads[u]) && ThreadOk(s1, u, s1.threads[u]);
      ThreadSurvives(s1, s2, u, s2.threads[u]);
    }
  }

  lemma WaitKeeps(s: System, t: nat, r: Request)
    requires Inv(s)
    ensures Inv(WaitStart(s, t, r))
  {
    if !(t in s.threads && !(s.threads[t].Requested? && s.threads[t].request == r)) {
      PutKeeps(s, t, if r.id in s.registry then Blocked(r) else Waited(r, false));
    }
  }

  lemma ReturnKeeps(s: System, t: nat)
    requires Inv(s) && t in s.threads && s.threads[t].RowRead?
    ensures Inv(Continue(s, t, Return(t)))
  {
    var RowRead(r, row) := s.threads[t];
    assert ThreadOk(s, t, s.threads[t]);
    PutKeeps(s, t, Waited(r, Verdict(s.waiters[r.id].result, row, r)));
  }

  lemma TimeoutKeeps(s: System, t: nat, now: real)
    requires Inv(s) && t in s.threads && s.threads[t].Blocked?
    ensures Inv(Continue(s, t, Timeout(t, now)))
  {
    hide RowsOk, OpsOk, GrantsOk;
    var r := s.threads[t].request;
    BlockedHasWaiter(s, t);
    CasKeeps(s, r.id, r.workspace, Expire, None, now);
    PutKeeps(Cas(s, r.id, r.workspace, Expire, None, now), t, Woken(r));
  }

  lemma BlockedHasWaiter(s: System, t: nat)
    requires ThreadsOk(s) && t in s.threads && s.threads[t].Blocked?
    ensures s.threads[t].request.id in s.waiters
  {
    assert ThreadOk(s, t, s.threads[t]);
  }

  lemma WakeKeeps(s: System, t: nat)
    requires Inv(s) && t in s.threads && s.threads[t].Blocked?
    ensures Inv(Continue(s, t, Wake(t)))
  {
    assert ThreadOk(s, t, s.threads[t]);
    PutKeeps(s, t, Woken(s.threads[t].request));
  }

  lemma ReadRowKeeps(s: System, t: nat)
    requires Inv(s) && t in s.threads && s.threads[t].Unregistered?
    ensures Inv(Continue(s, t, ReadRow(t)))
  {
    UnregisteredHasWaiter(s, t);
    hide Inv;
    var r := s.threads[t].request;
    PutKeeps(s, t, RowRead(r, if r.id in s.rows then Some(s.rows[r.id]) else None));
  }

  lemma UnregisteredHasWaiter(s: System, t: nat)
    requires Inv(s) && t in s.threads && s.threads[t].Unregistered?
    ensures s.threads[t].request.id in s.waiters
  {
    assert ThreadOk(s, t, s.threads[t]);
  }

  lemma WaiterContinues(s: System, t: nat, a: Action)
    requires Inv(s) && t in s.threads
    requires var th := s.threads[t]; th.Registering? || th.Blocked? || th.Woken?
    ensures Inv(Continue(s, t, a))
  {
    hide Inv;
    match s.threads[t]
    case Registering(_) => if a.Register? { RegisterKeeps(s, t); }
    case Woken(_) => if a.Unregister? { WokenKeeps(s, t); }
    case Blocked(_) =>
      if a.Wake? { WakeKeeps(s, t); }
      if a.Timeout? { TimeoutKeeps(s, t, a.now); }
    case _ =>
  }

  lemma WokenKeeps(s: System, t: nat)
    requires Inv(s) && t in s.threads && s.threads[t].Woken?
    ensures Inv(Continue(s, t, Unregister(t)))
  {
    assert ThreadOk(s, t, s.threads[t]);
    UnregisterKeeps(s, t, s.threads[t].request.id, Unregistered(s.threads[t].request));
  }

  lemma ReaderContinues(s: System, t: nat, a: Action)
    requires Inv(s) && t in s.threads
    requires var th := s.threads[t]; th.Unregistered? || th.RowRead? || th.Waited?
    ensures Inv(Continue(s, t, a))
  {
    hide Inv;
    match s.threads[t]
    case Unregistered(_) => if a.ReadRow? { ReadRowKeeps(s, t); }
    case RowRead(_, _) => if a.Return? { ReturnKeeps(s, t); }
    case Waited(_, _) => if a.Confirm? { ConfirmKeeps(s, t); }
    case _ =>
  }

  lemma LookupKeeps(s: System, t: nat)
    requires Inv(s) && t in s.threads && s.threads[t].Committed?
    ensures Inv(Continue(s, t, Lookup(t)))
  {
    hide RowsOk, OpsOk, GrantsOk;
    var Committed(id, allow) := s.threads[t];
    assert ThreadOk(s, t, s.threads[t]);
    PutKeeps(s, t, if id in s.registry then Notifying(id, allow) else Finished);
  }

  lemma PopKeeps(s: System, t: nat)
    requires Inv(s) && t in s.threads && s.threads[t].Cancelling?
    ensures Inv(Continue(s, t, Pop(t)))
  {
    hide RowsOk, OpsOk, GrantsOk, ThreadsOk;
    var id := s.threads[t].id;
    if id in s.registry { UnregisterKeeps(s, t, id, Signalling(id)); } else { PutKeeps(s, t, Finished); }
  }

  lemma DeciderContinues(s: System, t: nat, a: Action)
    requires Inv(s) && t in s.threads
    requires var th := s.threads[t]; th.Committed? || th.Notifying? || th.Appended? || th.Cancelling? || th.Signalling?
    ensures Inv(Continue(s, t, a))
  {
    hide Inv;
    match s.threads[t]
    case Committed(_, _) => if a.Lookup? { LookupKeeps(s, t); }
    case Notifying(_, _) => if a.Append? { AppendKeeps(s, t); }
    case Appended(id) => if a.Signal? { SignalKeeps(s, t, id); }
    case Cancelling(_) => if a.Pop? { PopKeeps(s, t); }
    case Signalling(id) => if a.Signal? { SignalKeeps(s, t, id); }
    case _ =>
  }

  lemma ContinueKeeps(s: System, t: nat, a: Action)
    requires Inv(s) && t in s.threads
    ensures Inv(Continue(s, t, a))
  {
    hide Inv;
    match s.threads[t]
    case Requested(_) =>
    case Confirmed(_, _) =>
    case Finished =>
    case Committed(_, _) => DeciderContinues(s, t, a);
    case Notifying(_, _) => DeciderContinues(s, t, a);
    case Appended(_) => DeciderContinues(s, t, a);
    case Cancelling(_) => DeciderContinues(s, t, a);
    case Signalling(_) => DeciderContinues(s, t, a);
    case Unregistered(_) => ReaderContinues(s, t, a);
    case RowRead(_, _) => ReaderContinues(s, t, a);
    case Waited(_, _) => ReaderContinues(s, t, a);
    case _ => WaiterContinues(s, t, a);
  }

  lemma OpEntry(s: System, s': System, e: Event)
    requires Inv(s) && (e.OpPut? || e.OpFinished?)
    requires s' == s.(ops := s'.ops, trace := s.trace + [e]) && OpsOk(s'.ops, s'.trace)
    ensures Inv(s')
  {
    OtherEntry(s, e);
    GrantsGrow(s.trace, e);
    AllSurvive(s, s');
  }

  lemma PutOpKeeps(s: System, op: string, workspace: string)
    requires Inv(s)
    ensures Inv(Step(s, PutOp(op, workspace)))
  {
    if op !in s.ops { OpEntry(s, Step(s, PutOp(op, workspace)), OpPut(op)); }
  }

  lemma FinishKeeps(s: System, op: string)
    requires Inv(s)
    ensures Inv(Finish(s, op))
  {
    if op in s.ops && s.ops[op].running { OpEntry(s, Finish(s, op), OpFinished(op)); }
  }

  lemma CancelKeeps(s: System, t: nat, id: string, workspace: string, now: real)
    requires Inv(s)
    ensures Inv(Step(s, CancelRow(t, id, workspace, now)))
  {
    hide Inv;
    CasKeeps(s, id, workspace, Cancel, None, now);
    if t !in s.threads { PutKeeps(Cas(s, id, workspace, Cancel, None, now), t, Cancelling(id)); }
  }

  lemma RestartKeeps(s: System)
    requires Inv(s)
    ensures Inv(Step(s, Restart))
  {
  }

  lemma AskStepKeeps(s: System, t: nat, r: Request, expires: real)
    requires Inv(s)
    ensures Inv(Step(s, Ask(t, r, expires)))
  {
    hide Inv;
    if !(t in s.threads || r.id in s.rows || IsBlank(r.toolCall)) {
      AskKeeps(s, t, r, expires);
      PutKeeps(s.(rows := s.rows[r.id := NewRow(r, expires)], requester := s.requester[r.id := t]), t, Registering(r));
    }
  }

  lemma StepKeeps(s: System, a: Action)
    requires Inv(s)
    ensures Inv(Step(s, a))
  {
    hide Inv;
    match a
    case Ask(t, r, expires) => AskStepKeeps(s, t, r, expires);
    case Wait(t, r) => WaitKeeps(s, t, r);
    case Resolve(t, id, workspace, allow, device, now) => ResolveKeeps(s, t, id, workspace, allow, device, now);
    case CancelRow(t, id, workspace, now) => CancelKeeps(s, t, id, workspace, now);
    case PutOp(op, workspace) => PutOpKeeps(s, op, workspace);
    case FinishOp(op) => FinishKeeps(s, op);
    case InterruptRow(id, workspace, now) => CasKeeps(s, id, workspace, Interrupt, None, now);
    case Restart => RestartKeeps(s);
    case _ => if a.t in s.threads { ContinueKeeps(s, a.t, a); }
  }

  lemma {:induction false} RunKeeps(s: System, actions: seq<Action>)
    requires Inv(s)
    ensures Inv(Run(s, actions))
  {
    hide Inv, Step;
    if actions != [] {
      RunKeeps(s, actions[..|actions| - 1]);
      StepKeeps(Run(s, actions[..|actions| - 1]), actions[|actions| - 1]);
    }
  }

  // --- the theorems -----------------------------------------------------------------------------------

  /**
   Under every interleaving and any number of restarts: a wait that returned true has an allow of its
   approval, committed in its workspace before the deadline, and no other decision of that approval
   ever commits; no waiter's result list ever has two elements.
   */
  lemma WaitIsSound(actions: seq<Action>)
    ensures var s := Run(Init(), actions);
            && (forall t :: t in s.threads && s.threads[t].Waited? && s.threads[t].granted ==> AllowedIn(s.trace, s.threads[t].request))
            && OneCommitPerId(s.trace)
            && (forall id :: id in s.waiters ==> |s.waiters[id].result| <= 1)
  {
    RunKeeps(Init(), actions);
    var s := Run(Init(), actions);
    forall t | t in s.threads && s.threads[t].Waited? && s.threads[t].granted
      ensures AllowedIn(s.trace, s.threads[t].request)
    {
      assert ThreadOk(s, t, s.threads[t]);
      AllowedByRow(s, s.threads[t].request);
    }
  }

  /**
   A confirmation that granted did so after the allow had committed in time and while its operation
   was running: the operation had been put and nothing before the grant finished it.
   */
  lemma ConfirmIsSound(actions: seq<Action>, j: nat)
    requires j < |Run(Init(), actions).trace| && Run(Init(), actions).trace[j].Grant?
    ensures var trace := Run(Init(), actions).trace;
            var r := trace[j].request;
            AllowedIn(trace[..j], r) && r.run.Some? && OpPut(r.run.value) in trace[..j] && OpFinished(r.run.value) !in trace[..j]
  {
    RunKeeps(Init(), actions);
    assert GrantsOk(Run(Init(), actions).trace);
  }

  /** Every granted confirmation is in the trace, so ConfirmIsSound speaks about all of them. */
  lemma GrantsAreTraced(actions: seq<Action>, t: nat)
    requires t in Run(Init(), actions).threads
    requires Run(Init(), actions).threads[t].Confirmed? && Run(Init(), actions).threads[t].granted
    ensures Grant(Run(Init(), actions).threads[t].request) in Run(Init(), actions).trace
  {
    RunKeeps(Init(), actions);
    assert ThreadOk(Run(Init(), actions), t, Run(Init(), actions).threads[t]);
  }

  /**
   Exactly when a wait that has read its row returns true: the row it read was allowed for the very
   request, and the decider has already delivered its answer to the waiter.  An allow that committed
   but is delivered after this read is answered false.
   */
  lemma ReturnIff(s: System, t: nat)
    requires Inv(s) && t in s.threads && s.threads[t].RowRead?
    ensures var RowRead(r, row) := s.threads[t];
            && Step(s, Return(t)).threads[t].Waited?
            && (Step(s, Return(t)).threads[t].granted <==>
                  && r.id in s.spent && row.Some? && row.value.status == Decided(Allow)
                  && r == Request(r.id, row.value.workspace, row.value.session, row.value.run, row.value.toolCall))
  {
    var RowRead(r, row) := s.threads[t];
    assert ThreadOk(s, t, s.threads[t]);
    if r.id in s.spent && row.Some? && row.value.status == Decided(Allow) {
      DeliveredAllow(s, r.id);
    }
  }

  lemma DeliveredAllow(s: System, id: string)
    requires WaitersOk(s) && id in s.waiters && id in s.spent && s.rows[id].status == Decided(Allow)
    ensures s.waiters[id].result != [] && s.waiters[id].result[0]
  {
  }
}
