/**
 The request router, one dispatch at a time.  `Requests` interleaves the same transactions of many
 dispatches; here a dispatch runs alone, and is shown to be the run of that protocol in which it does.
 */
module Router {
  import opened Wrappers
  import Requests
  import Store

  const NAMESPACES := {"session", "agent", "node", "automation", "approval", "media", "system"}
  const READ_ONLY := {"session.list", "session.get", "node.list", "automation.list", "approval.list", "media.get",
                      "system.health"}

  /** What a handler makes of a request: an envelope, or an exception (a wrong result type is one too). */
  datatype Outcome = Answers(response: string) | Fails

  datatype Refusal = UnknownRoute | MissingRequestId | ReplayUncertain | HandlerFailed

  /** The first dot separates an official namespace from a name that is not empty. */
  predicate ValidType(t: string) {
    exists i :: 0 <= i < |t| - 1 && t[i] == '.' && '.' !in t[..i] && t[..i] in NAMESPACES
  }

  lemma NoDots()
    ensures forall ns :: ns in NAMESPACES ==> '.' !in ns
  {
  }

  /** The valid types are a namespace, a dot and a name, and that in one way only. */
  lemma ValidTypeIff(t: string)
    ensures ValidType(t) <==> exists ns, name :: ns in NAMESPACES && name != "" && t == ns + "." + name
    ensures forall ns, ns', name, name' ::
      ns in NAMESPACES && ns' in NAMESPACES && t == ns + "." + name && t == ns' + "." + name' ==> ns == ns' && name == name'
  {
    NoDots();
    hide ValidType;
    if ValidType(t) {
      var i := FirstDot(t);
      assert t == t[..i] + "." + t[i + 1..] && t[i + 1..] != "";
    }
    forall ns, name | ns in NAMESPACES && name != "" && t == ns + "." + name
      ensures ValidType(t)
    {
      assert t[..|ns|] == ns && t[|ns|] == '.';
      DotAt(t, |ns|);
    }
    forall ns, ns', name, name' | ns in NAMESPACES && ns' in NAMESPACES && t == ns + "." + name && t == ns' + "." + name'
      ensures ns == ns' && name == name'
    {
      assert t[..|ns|] == ns && t[|ns|] == '.' && t[|ns| + 1..] == name;
      assert t[..|ns'|] == ns' && t[|ns'|] == '.' && t[|ns'| + 1..] == name';
      if |ns| < |ns'| { LongerHasDot(ns, ns', name, name'); }
      if |ns'| < |ns| { LongerHasDot(ns', ns, name', name); }
    }
  }

  lemma LongerHasDot(ns: string, ns': string, name: string, name': string)
    requires ns + "." + name == ns' + "." + name' && |ns| < |ns'|
    ensures '.' in ns'
  {
    assert (ns + "." + name)[|ns|] == '.' && (ns' + "." + name')[|ns|] == ns'[|ns|];
  }

  lemma FirstDot(t: string) returns (i: nat)
    requires ValidType(t)
    ensures i < |t| - 1 && t[i] == '.' && t[..i] in NAMESPACES
  {
    i :| 0 <= i < |t| - 1 && t[i] == '.' && '.' !in t[..i] && t[..i] in NAMESPACES;
  }

  lemma DotAt(t: string, i: nat)
    requires i < |t| - 1 && t[i] == '.' && '.' !in t[..i] && t[..i] in NAMESPACES
    ensures ValidType(t)
  {
  }

  predicate Mutating(t: string) { t !in READ_ONLY }

  function ResultOf(outcome: Outcome): Result<string, Refusal> {
    if outcome.Answers? then Ok(outcome.response) else Err(HandlerFailed)
  }

  /** Row, result and handler call of a mutating dispatch that nothing interleaves with. */
  function Settled(rows: Requests.Table, k: Requests.Key, outcome: Outcome): (Requests.Table, Result<string, Refusal>, bool) {
    match Requests.CachedResponse(rows, k)
    case Found(response) => (rows, Ok(response), false)
    case Uncertain => (rows, Err(ReplayUncertain), false)
    case Absent =>
      (rows[k := if outcome.Answers? then Requests.Completed(outcome.response) else Requests.Pending], ResultOf(outcome), true)
  }

  class GatewayRouter {
    const store: Store.GatewayStore?
    var handlers: set<string>

    constructor (store: Store.GatewayStore?)
      ensures this.store == store && handlers == {}
    {
      this.store, handlers := store, {};
    }

    /** A route is registered once, under an official namespace. */
    method Register(messageType: string) returns (ok: bool)
      modifies this
      ensures ok <==> messageType !in old(handlers) && ValidType(messageType)
      ensures handlers == if ok then old(handlers) + {messageType} else old(handlers)
    {
      if messageType in handlers || !ValidType(messageType) { return false; }
      handlers := handlers + {messageType};
      ok := true;
    }

    /** `outcome` is what the handler does if it is started, and `called` whether it was. */
    method Dispatch(messageType: string, device: string, workspace: string, request: Option<string>, outcome: Outcome)
      returns (r: Result<string, Refusal>, called: bool)
      modifies if store == null then {} else {store}
      ensures messageType !in handlers ==> r == Err(UnknownRoute)
      ensures messageType in handlers && Mutating(messageType) && (request == None || request == Some("")) ==>
        r == Err(MissingRequestId)
      ensures r == Err(UnknownRoute) || r == Err(MissingRequestId) ==> !called && (store != null ==> unchanged(store))
      ensures messageType in handlers && !Mutating(messageType) ==>
        called && r == ResultOf(outcome) && (store != null ==> unchanged(store))
      ensures messageType in handlers && Mutating(messageType) && request.Some? && request != Some("") && store == null ==>
        called && r == ResultOf(outcome)
      ensures messageType in handlers && Mutating(messageType) && request.Some? && request != Some("") && store != null ==>
        (store.requests, r, called)
        == Settled(old(store.requests), Requests.Key(device, workspace, request.value), outcome)
      ensures store != null ==> store.devices == old(store.devices) && store.approvals == old(store.approvals)
    {
      called := false;
      if messageType !in handlers { return Err(UnknownRoute), false; }
      var mutating := Mutating(messageType);
      if mutating && (request.None? || request.value == "") { return Err(MissingRequestId), false; }
      if mutating && store != null {
        var key := Requests.Key(device, workspace, request.value);
        var cached := store.CachedResponse(key);
        if cached.Found? { return Ok(cached.response), false; }
        if cached.Uncertain? { return Err(ReplayUncertain), false; }
        var reserved := store.ReserveRequest(key);
      }
      called := true;
      r := ResultOf(outcome);
      if mutating && store != null && outcome.Answers? {
        var key, answer := Requests.Key(device, workspace, request.value), Requests.Completed(outcome.response);
        assert old(store.requests)[key := Requests.Pending][key := answer] == old(store.requests)[key := answer];
        var changed := store.CacheResponse(key, outcome.response);
      }
    }
  }

  /** The actions of one dispatch, in order. */
  function Actions(id: nat, k: Requests.Key, outcome: Outcome): seq<Requests.Action> {
    [Requests.Begin(id, k), Requests.TryReserve(id),
     if outcome.Answers? then Requests.Answer(id, outcome.response) else Requests.Fail(id),
     Requests.Cache(id)]
  }

  function PhaseOf(r: Result<string, Refusal>): Requests.Phase {
    match r
    case Ok(response) => Requests.Returned(response)
    case Err(ReplayUncertain) => Requests.Raised(Requests.ReplayUncertain)
    case Err(_) => Requests.Raised(Requests.HandlerFailed)
  }

  lemma RunPush(s: Requests.System, before: seq<Requests.Action>, a: Requests.Action)
    ensures Requests.Run(s, before + [a]) == Requests.Step(Requests.Run(s, before), a)
  {
    hide Requests.Step;
    assert (before + [a])[..|before + [a]| - 1] == before;
  }

  lemma RunOne(s: Requests.System, a: Requests.Action)
    ensures Requests.Run(s, [a]) == Requests.Step(s, a)
  {
    RunPush(s, [], a);
    assert [] + [a] == [a];
  }

  lemma RunFour(s: Requests.System, a: Requests.Action, b: Requests.Action, c: Requests.Action, d: Requests.Action)
    ensures Requests.Run(s, [a, b, c, d]) == Requests.Step(Requests.Step(Requests.Step(Requests.Step(s, a), b), c), d)
  {
    RunOne(s, a);
    hide Requests.Step, Requests.Run;
    RunPush(s, [a], b);
    RunPush(s, [a, b], c);
    RunPush(s, [a, b, c], d);
    assert [a] + [b] == [a, b] && [a, b] + [c] == [a, b, c] && [a, b, c] + [d] == [a, b, c, d];
  }

  /** The router's dispatch is the protocol's dispatch, run without interruption. */
  lemma DispatchFollowsProtocol(s: Requests.System, id: nat, k: Requests.Key, outcome: Outcome)
    requires id !in s.dispatches
    ensures var s', (rows, r, called) := Requests.Run(s, Actions(id, k, outcome)), Settled(s.rows, k, outcome);
      && s'.rows == rows
      && Requests.At(s', id, PhaseOf(r))
      && s'.started == s.started + if called then multiset{k} else multiset{}
  {
    var a := Actions(id, k, outcome);
    RunFour(s, a[0], a[1], a[2], a[3]);
    hide Requests.Run, Requests.Step;
    if k in s.rows { KnownKey(s, id, k, a); } else { NewKey(s, id, k, outcome, a); }
  }

  lemma KnownKey(s: Requests.System, id: nat, k: Requests.Key, a: seq<Requests.Action>)
    requires id !in s.dispatches && k in s.rows && |a| == 4 && a[0] == Requests.Begin(id, k)
    requires a[1] == Requests.TryReserve(id) && (a[2].Answer? || a[2].Fail?) && a[2].id == id && a[3] == Requests.Cache(id)
    ensures Requests.Step(Requests.Step(Requests.Step(Requests.Step(s, a[0]), a[1]), a[2]), a[3])
      == s.(dispatches := s.dispatches[id := Requests.Dispatch(k, Requests.Lookup(s.rows, k, Requests.Missed))])
  {
    var s1 := Requests.Step(s, a[0]);
    assert Requests.Step(s1, a[1]) == s1 && Requests.Step(s1, a[2]) == s1 && Requests.Step(s1, a[3]) == s1;
  }

  lemma NewKey(s: Requests.System, id: nat, k: Requests.Key, outcome: Outcome, a: seq<Requests.Action>)
    requires id !in s.dispatches && k !in s.rows && a == Actions(id, k, outcome)
    ensures var s' := Requests.Step(Requests.Step(Requests.Step(Requests.Step(s, a[0]), a[1]), a[2]), a[3]);
      && s'.rows == s.rows[k := if outcome.Answers? then Requests.Completed(outcome.response) else Requests.Pending]
      && Requests.At(s', id, PhaseOf(ResultOf(outcome))) && s'.started == s.started + multiset{k}
  {
    var s2 := Requests.Step(Requests.Step(s, a[0]), a[1]);
    assert s2.rows == s.rows[k := Requests.Pending] && Requests.At(s2, id, Requests.Running);
    var s3 := Requests.Step(s2, a[2]);
    assert s3.rows == s2.rows;
    if outcome.Answers? {
      assert s3.dispatches[id] == Requests.Dispatch(k, Requests.Answered(outcome.response));
      assert s.rows[k := Requests.Pending][k := Requests.Completed(outcome.response)]
          == s.rows[k := Requests.Completed(outcome.response)];
    }
  }
}
