/**
 At-most-once dispatch of mutating requests.  `Table` is the request_results table and its four
 transactions; `System` interleaves any number of dispatches at the grain of one transaction, with
 handlers that answer or fail, dispatches that are killed at any point, and recovery at any time.
 */
module Requests {
  datatype Key = Key(device: string, workspace: string, request: string)

  datatype Row = Pending | Completed(response: string) | Interrupted

  type Table = map<Key, Row>

  datatype Cached = Absent | Found(response: string) | Uncertain

  function CachedResponse(t: Table, k: Key): Cached {
    if k !in t then Absent
    else if t[k].Completed? then Found(t[k].response)
    else Uncertain
  }

  /** INSERT OR IGNORE of a pending row; the flag says whether a row was inserted. */
  function Reserve(t: Table, k: Key): (Table, bool) {
    if k in t then (t, false) else (t[k := Pending], true)
  }

  /** The update applies to a pending row only. */
  function CacheResponse(t: Table, k: Key, response: string): (Table, bool) {
    if k in t && t[k].Pending? then (t[k := Completed(response)], true) else (t, false)
  }

  function RecoverUncertain(t: Table): Table {
    map k | k in t :: if t[k].Pending? then Interrupted else t[k]
  }

  datatype Error = ReplayUncertain | ReplayDenied | HandlerFailed | Killed

  /** Where one dispatch of a mutating request stands; Running means its handler has been started. */
  datatype Phase =
    | Missed
    | Lost
    | Running
    | Answered(response: string)
    | Returned(response: string)
    | Raised(error: Error)

  datatype Dispatch = Dispatch(key: Key, phase: Phase)

  /** `owner` and `answers` record which dispatch started the handler of a key and what it answered. */
  datatype System = System(
    rows: Table, dispatches: map<nat, Dispatch>,
    started: multiset<Key>, owner: map<Key, nat>, answers: map<Key, string>)

  datatype Action =
    | Begin(id: nat, key: Key)
    | TryReserve(id: nat)
    | Recheck(id: nat)
    | Answer(id: nat, response: string)
    | Fail(id: nat)
    | Cache(id: nat)
    | Kill(id: nat)
    | Recover

  function Init(): System { System(map[], map[], multiset{}, map[], map[]) }

  function Goto(s: System, id: nat, phase: Phase): System
    requires id in s.dispatches
  {
    s.(dispatches := s.dispatches[id := s.dispatches[id].(phase := phase)])
  }

  function Lookup(rows: Table, k: Key, absent: Phase): Phase {
    match CachedResponse(rows, k)
    case Absent => absent
    case Found(response) => Returned(response)
    case Uncertain => Raised(ReplayUncertain)
  }

  predicate At(s: System, id: nat, phase: Phase) { id in s.dispatches && s.dispatches[id].phase == phase }

  predicate Ended(p: Phase) { p.Returned? || p.Raised? }

  /** An action that is not enabled leaves the system as it is. */
  function Step(s: System, a: Action): System {
    match a
    case Begin(id, k) =>
      if id in s.dispatches then s
      else s.(dispatches := s.dispatches[id := Dispatch(k, Lookup(s.rows, k, Missed))])
    case TryReserve(id) =>
      if !At(s, id, Missed) then s
      else
        var k := s.dispatches[id].key;
        var (rows, inserted) := Reserve(s.rows, k);
        if inserted then Goto(s, id, Running).(rows := rows, started := s.started + multiset{k}, owner := s.owner[k := id])
        else Goto(s, id, Lost)
    case Recheck(id) =>
      if !At(s, id, Lost) then s
      else Goto(s, id, Lookup(s.rows, s.dispatches[id].key, Raised(ReplayDenied)))
    case Answer(id, response) =>
      if !At(s, id, Running) then s
      else Goto(s, id, Answered(response)).(answers := s.answers[s.dispatches[id].key := response])
    case Fail(id) => if At(s, id, Running) then Goto(s, id, Raised(HandlerFailed)) else s
    case Cache(id) =>
      if id !in s.dispatches || !s.dispatches[id].phase.Answered? then s
      else
        var response := s.dispatches[id].phase.response;
        Goto(s, id, Returned(response)).(rows := CacheResponse(s.rows, s.dispatches[id].key, response).0)
    case Kill(id) =>
      if id in s.dispatches && !Ended(s.dispatches[id].phase) then Goto(s, id, Raised(Killed)) else s
    case Recover => s.(rows := RecoverUncertain(s.rows))
  }

  function Run(s: System, actions: seq<Action>): System {
    if actions == [] then s
    else Step(Run(s, actions[..|actions| - 1]), actions[|actions| - 1])
  }

  ghost predicate DispatchOk(s: System, id: nat, d: Dispatch) {
    match d.phase
    case Missed => true
    case Lost => d.key in s.rows
    case Running => d.key in s.owner && s.owner[d.key] == id && d.key !in s.answers
    case Answered(r) => d.key in s.owner && s.owner[d.key] == id && d.key in s.answers && s.answers[d.key] == r
    case Returned(r) => d.key in s.answers && s.answers[d.key] == r
    case Raised(e) => e != ReplayDenied
  }

  ghost predicate RowsOk(s: System) {
    && s.owner.Keys == s.rows.Keys
    && s.answers.Keys <= s.owner.Keys
    && (forall k :: s.started[k] == if k in s.rows then 1 else 0)
    && (forall k :: k in s.rows && s.rows[k].Completed? ==> k in s.answers && s.answers[k] == s.rows[k].response)
  }

  ghost predicate Inv(s: System) {
    && RowsOk(s)
    && (forall id :: id in s.dispatches ==> DispatchOk(s, id, s.dispatches[id]))
  }

  lemma ReserveRows(s: System, id: nat)
    requires Inv(s)
    ensures RowsOk(Step(s, TryReserve(id)))
  {
    var s' := Step(s, TryReserve(id));
    assert s'.owner.Keys == s'.rows.Keys;
  }

  lemma AnswerRows(s: System, id: nat, r: string)
    requires Inv(s)
    ensures RowsOk(Step(s, Answer(id, r)))
  {
    if At(s, id, Running) {
      assert DispatchOk(s, id, s.dispatches[id]);
    }
  }

  lemma CacheRows(s: System, id: nat)
    requires Inv(s)
    ensures RowsOk(Step(s, Cache(id)))
  {
    if id in s.dispatches {
      assert DispatchOk(s, id, s.dispatches[id]);
      assert Step(s, Cache(id)).rows.Keys == s.rows.Keys;
    }
  }

  lemma RecoverRows(s: System)
    requires RowsOk(s)
    ensures RowsOk(Step(s, Recover))
  {
    assert Step(s, Recover).rows.Keys == s.rows.Keys;
  }

  lemma RowsStep(s: System, a: Action)
    requires Inv(s)
    ensures RowsOk(Step(s, a))
  {
    match a
    case TryReserve(id) => ReserveRows(s, id);
    case Answer(id, r) => AnswerRows(s, id, r);
    case Cache(id) => CacheRows(s, id);
    case Recover => RecoverRows(s);
    case Begin(id, k) =>
    case Recheck(id) =>
    case Fail(id) =>
    case Kill(id) =>
  }

  lemma DispatchStep(s: System, a: Action, id: nat)
    requires Inv(s) && id in Step(s, a).dispatches
    requires a.Begin? || a.Recheck? || a.Fail? || a.Kill? || a.Recover? || a.Cache?
    ensures DispatchOk(Step(s, a), id, Step(s, a).dispatches[id])
  {
    if id in s.dispatches {
      assert DispatchOk(s, id, s.dispatches[id]);
    }
  }

  lemma ReserveStep(s: System, i: nat, id: nat)
    requires Inv(s) && id in s.dispatches
    ensures DispatchOk(Step(s, TryReserve(i)), id, Step(s, TryReserve(i)).dispatches[id])
  {
    assert DispatchOk(s, id, s.dispatches[id]);
  }

  lemma AnswerStep(s: System, i: nat, r: string, id: nat)
    requires Inv(s) && id in s.dispatches
    ensures DispatchOk(Step(s, Answer(i, r)), id, Step(s, Answer(i, r)).dispatches[id])
  {
    assert DispatchOk(s, id, s.dispatches[id]);
    if i in s.dispatches {
      assert DispatchOk(s, i, s.dispatches[i]);
    }
  }

  lemma StepKeeps(s: System, a: Action)
    requires Inv(s)
    ensures Inv(Step(s, a))
  {
    RowsStep(s, a);
    forall id | id in Step(s, a).dispatches
      ensures DispatchOk(Step(s, a), id, Step(s, a).dispatches[id])
    {
      match a
      case TryReserve(i) => ReserveStep(s, i, id);
      case Answer(i, r) => AnswerStep(s, i, r, id);
      case _ => DispatchStep(s, a, id);
    }
  }

  lemma {:induction false} RunKeeps(s: System, actions: seq<Action>)
    requires Inv(s)
    ensures Inv(Run(s, actions))
  {
    hide Step, Inv;
    if actions != [] {
      RunKeeps(s, actions[..|actions| - 1]);
      StepKeeps(Run(s, actions[..|actions| - 1]), actions[|actions| - 1]);
    }
  }

  /**
   Under every interleaving of dispatches, failures, kills and recoveries: a handler starts at most
   once per key, all normal returns for a key carry the same response, and the final replay-denied
   error is never raised.
   */
  lemma AtMostOnce(actions: seq<Action>)
    ensures var s := Run(Init(), actions);
            && (forall k :: s.started[k] <= 1)
            && (forall i, j :: i in s.dispatches && j in s.dispatches
                  && s.dispatches[i].key == s.dispatches[j].key
                  && s.dispatches[i].phase.Returned? && s.dispatches[j].phase.Returned?
                  ==> s.dispatches[i].phase == s.dispatches[j].phase)
            && (forall i :: i in s.dispatches ==> s.dispatches[i].phase != Raised(ReplayDenied))
  {
    RunKeeps(Init(), actions);
    var s := Run(Init(), actions);
    forall i | i in s.dispatches
      ensures s.dispatches[i].phase != Raised(ReplayDenied)
      ensures s.dispatches[i].phase.Returned? ==>
                s.dispatches[i].key in s.answers && s.answers[s.dispatches[i].key] == s.dispatches[i].phase.response
    {
      assert DispatchOk(s, i, s.dispatches[i]);
    }
  }

  lemma OutcomeStep(s: System, a: Action, k: Key)
    requires k in s.rows
    ensures k in Step(s, a).rows
    ensures !s.rows[k].Pending? ==> Step(s, a).rows[k] == s.rows[k]
  {
  }

  /** Completed and interrupted rows never change again, and no row is ever deleted. */
  lemma {:induction false} OutcomesAreAbsorbing(s: System, actions: seq<Action>, k: Key)
    requires k in s.rows
    ensures k in Run(s, actions).rows
    ensures !s.rows[k].Pending? ==> Run(s, actions).rows[k] == s.rows[k]
  {
    hide Step;
    if actions != [] {
      var front := actions[..|actions| - 1];
      OutcomesAreAbsorbing(s, front, k);
      OutcomeStep(Run(s, front), actions[|actions| - 1], k);
    }
  }

  /**
   Recovery settles every row: one that was pending is interrupted for good, over any run that follows,
   and every row that had an outcome keeps it.  Dispatches under way are not touched.
   */
  lemma RecoveryIsFinal(s: System, actions: seq<Action>)
    ensures var r := Step(s, Recover);
      r.rows.Keys == s.rows.Keys && r.dispatches == s.dispatches && r.started == s.started
    ensures var s' := Run(Step(s, Recover), actions);
      forall k :: k in s.rows ==> k in s'.rows && s'.rows[k] == if s.rows[k].Pending? then Interrupted else s.rows[k]
  {
    forall k | k in s.rows
      ensures var s' := Run(Step(s, Recover), actions);
        k in s'.rows && s'.rows[k] == if s.rows[k].Pending? then Interrupted else s.rows[k]
    {
      OutcomesAreAbsorbing(Step(s, Recover), actions, k);
    }
  }

  /**
   An answer goes to the caller whatever became of its row meanwhile; the row takes it only while it is
   pending, so an answer after a recovery is returned once and never stored.
   */
  lemma AnswerIsReturned(s: System, id: nat, response: string)
    requires Inv(s) && At(s, id, Running)
    ensures var s', k := Step(Step(s, Answer(id, response)), Cache(id)), s.dispatches[id].key;
      && At(s', id, Returned(response)) && s'.started == s.started
      && s'.rows.Keys == s.rows.Keys && k in s.rows
      && s'.rows[k] == (if s.rows[k].Pending? then Completed(response) else s.rows[k])
      && forall j :: j in s.rows && j != k ==> s'.rows[j] == s.rows[j]
  {
    assert DispatchOk(s, id, s.dispatches[id]);
  }

  /**
   A dispatch that missed the row at its first lookup: if the key is free it reserves it and starts the
   handler; if another one was faster it looks again, and then returns exactly if that one has completed.
   */
  lemma SecondLookup(s: System, id: nat)
    requires Inv(s) && At(s, id, Missed)
    ensures var s', s'', k := Step(s, TryReserve(id)), Step(Step(s, TryReserve(id)), Recheck(id)), s.dispatches[id].key;
      if k !in s.rows then
        && At(s', id, Running) && k in s'.rows && s'.rows[k] == Pending && s'.started[k] == s.started[k] + 1
        && s'.rows.Keys == s.rows.Keys + {k} && (forall j :: j in s.rows ==> s'.rows[j] == s.rows[j])
        && s'' == s'
      else
        && s''.rows == s.rows && s''.started == s.started
        && if s.rows[k].Completed? then At(s'', id, Returned(s.rows[k].response)) else At(s'', id, Raised(ReplayUncertain))
  {
  }

  /** A dispatch that begins on a reserved key ends at once, and returns exactly if the row is completed. */
  lemma LateBegin(s: System, id: nat, k: Key)
    requires Inv(s) && k in s.rows && id !in s.dispatches
    ensures var s' := Step(s, Begin(id, k));
            && Ended(s'.dispatches[id].phase)
            && (s'.dispatches[id].phase.Returned? <==> s.rows[k].Completed?)
            && (s'.dispatches[id].phase.Returned? ==> k in s.answers && s'.dispatches[id].phase.response == s.answers[k])
  {
  }

  /** A dispatch that has not started the handler of its key, which is reserved. */
  predicate Late(s: System, id: nat, k: Key) {
    && k in s.rows && id in s.dispatches && s.dispatches[id].key == k
    && match s.dispatches[id].phase
       case Missed => true
       case Lost => true
       case Running => false
       case Answered(_) => false
       case Returned(response) => s.rows[k] == Completed(response)
       case Raised(_) => true
  }

  lemma LateStep(s: System, a: Action, id: nat, k: Key)
    requires Late(s, id, k)
    ensures Late(Step(s, a), id, k) && Step(s, a).started[k] == s.started[k]
  {
  }

  /**
   A dispatch whose key was reserved by another one, before its first lookup or between its two, never
   starts the handler over any run, and when it returns it is with the completed response.
   */
  lemma {:induction false} LateDispatch(s: System, actions: seq<Action>, id: nat, k: Key)
    requires Late(s, id, k)
    ensures var s' := Run(s, actions);
            && Late(s', id, k) && s'.started[k] == s.started[k]
            && (s'.dispatches[id].phase.Returned? ==> s'.rows[k] == Completed(s'.dispatches[id].phase.response))
  {
    hide Step;
    if actions != [] {
      var front := actions[..|actions| - 1];
      LateDispatch(s, front, id, k);
      LateStep(Run(s, front), actions[|actions| - 1], id, k);
    }
  }

  /** Nobody is left who could still answer for the key. */
  ghost predicate Dead(s: System, k: Key) {
    && k in s.rows && k !in s.answers
    && forall id :: id in s.dispatches && s.dispatches[id].key == k ==> s.dispatches[id].phase != Running
  }

  /** A handler that failed or was killed leaves its key unanswerable for good: nobody starts it again or returns for it. */
  lemma {:induction false} FailedIsNeverReplayed(s: System, actions: seq<Action>, k: Key)
    requires Inv(s) && Dead(s, k)
    ensures var s' := Run(s, actions);
            && Dead(s', k) && s'.started[k] == 1
            && forall id :: id in s'.dispatches && s'.dispatches[id].key == k ==> !s'.dispatches[id].phase.Returned?
  {
    hide Step;
    RunKeeps(s, actions);
    if actions != [] {
      var front := actions[..|actions| - 1];
      FailedIsNeverReplayed(s, front, k);
      DeadStep(Run(s, front), actions[|actions| - 1], k);
    }
    forall id | id in Run(s, actions).dispatches && Run(s, actions).dispatches[id].key == k
      ensures !Run(s, actions).dispatches[id].phase.Returned?
    {
      assert DispatchOk(Run(s, actions), id, Run(s, actions).dispatches[id]);
    }
  }

  /**
   A handler that fails or is killed: its dispatch raises at once, nothing is stored, and over every run that
   follows nobody starts the handler again or returns for its key.
   */
  lemma DeathIsFinal(s: System, id: nat, killed: bool, actions: seq<Action>)
    requires Inv(s) && At(s, id, Running)
    ensures var dead, k := Step(s, if killed then Kill(id) else Fail(id)), s.dispatches[id].key;
      && At(dead, id, Raised(if killed then Killed else HandlerFailed)) && dead.rows == s.rows
      && var s' := Run(dead, actions);
         && s'.started[k] == 1 && k in s'.rows && !s'.rows[k].Completed?
         && forall j :: j in s'.dispatches && s'.dispatches[j].key == k ==> !s'.dispatches[j].phase.Returned?
  {
    var a, k := if killed then Kill(id) else Fail(id), s.dispatches[id].key;
    assert DispatchOk(s, id, s.dispatches[id]);
    forall j | j in s.dispatches && s.dispatches[j].key == k && s.dispatches[j].phase == Running
      ensures j == id
    {
      assert DispatchOk(s, j, s.dispatches[j]);
    }
    StepKeeps(s, a);
    RunKeeps(Step(s, a), actions);
    FailedIsNeverReplayed(Step(s, a), actions, k);
  }

  lemma DeadStep(s: System, a: Action, k: Key)
    requires Dead(s, k)
    ensures Dead(Step(s, a), k)
  {
  }
}
