/**
 The approval coordinator, one call at a time: the registry of in-memory waiters beside the durable rows.
 `Approvals` interleaves the steps of these calls; here each call is tied to the row functions it uses.
 */
module Coordinator {
  import opened Wrappers
  import opened Approvals
  import Store
  import Text

  class Event {
    var isSet: bool
    var result: seq<bool>

    constructor ()
      ensures !isSet && result == []
    {
      isSet, result := false, [];
    }
  }

  /** Every pending row among `ids` cancelled. */
  function CancelAll(t: Table, ids: set<string>, now: real): Table {
    map id | id in t ::
      if id in ids && t[id].status.Pending? then t[id].(status := Decided(Cancel), decidedAt := Some(now), device := None)
      else t[id]
  }

  function RowOf(t: Table, id: string): Option<Row> { if id in t then Some(t[id]) else None }

  function Deadline(timeout: real, now: real): real { now + if timeout > 0.01 then timeout else 0.01 }

  class DurableApprovalCoordinator {
    const store: Store.GatewayStore
    var waiters: map<string, Event>

    /** No two approvals share a waiter. */
    ghost predicate Valid()
      reads this
    {
      forall a, b :: a in waiters && b in waiters && a != b ==> waiters[a] != waiters[b]
    }

    constructor (store: Store.GatewayStore)
      ensures Valid() && this.store == store && waiters == map[]
    {
      this.store, waiters := store, map[];
    }

    /** `id` is the random identifier of the new approval. */
    method Request(id: string, workspace: string, session: Option<string>, run: Option<string>, toolCall: Option<string>,
                   timeout: real, now: real) returns (r: Option<Request>)
      requires Valid()
      modifies `waiters, store`approvals
      ensures Valid()
      ensures r.Some? <==> toolCall.Some? && !Text.IsBlank(toolCall.value) && id !in old(store.approvals)
      ensures if r.None? then waiters == old(waiters) && store.approvals == old(store.approvals)
              else r.value == Approvals.Request(id, workspace, session, run, toolCall.value)
                   && store.approvals == old(store.approvals)[id := NewRow(r.value, Deadline(timeout, now))]
                   && id in waiters && fresh(waiters[id]) && waiters == old(waiters)[id := waiters[id]]
                   && !waiters[id].isSet && waiters[id].result == []
      ensures r.Some? ==> var deadline := store.approvals[id].expires;
        && deadline >= now + timeout && deadline >= now + 0.01 && (deadline == now + timeout || deadline == now + 0.01)
    {
      if toolCall.None? || Text.IsBlank(toolCall.value) { return None; }
      var request := Approvals.Request(id, workspace, session, run, toolCall.value);
      var created := store.CreateApproval(id, NewRow(request, Deadline(timeout, now)));
      if !created { return None; }
      var event := new Event();
      waiters := waiters[id := event];
      r := Some(request);
    }

    /**
     True only for the row the request made, allowed through this waiter.  A wait that is not signalled
     expires the row, and no second wait for the same approval can be granted.
     */
    method Wait(request: Approvals.Request, now: real) returns (granted: bool)
      modifies `waiters, store`approvals
      ensures waiters == old(waiters) - {request.id}
      ensures store.approvals ==
        if request.id in old(waiters) && !old(waiters[request.id].isSet)
        then Decide(old(store.approvals), request.id, request.workspace, Expire, None, now).0
        else old(store.approvals)
      ensures granted <==> (
        && request.id in old(waiters)
        && Verdict(old(waiters[request.id].result), RowOf(store.approvals, request.id), request))
    {
      if request.id !in waiters {
        assert waiters == waiters - {request.id};
        return false;
      }
      var event := waiters[request.id];
      if !event.isSet {
        var expired := store.DecideApproval(request.id, request.workspace, Expire, None, now);
      }
      waiters := waiters - {request.id};
      var row := store.Approval(request.id);
      granted := Verdict(event.result, row, request);
    }

    /** The compare-and-set decides; only the caller whose decision was accepted signals the waiter. */
    method DecideOn(id: string, workspace: string, allow: bool, device: string, now: real) returns (accepted: bool)
      requires Valid()
      modifies store`approvals, waiters.Values
      ensures (store.approvals, accepted) ==
        Decide(old(store.approvals), id, workspace, if allow then Allow else Deny, Some(device), now)
      ensures forall a :: a in waiters ==>
        if accepted && a == id then waiters[a].isSet && waiters[a].result == old(waiters[a].result) + [allow]
        else unchanged(waiters[a])
    {
      accepted := store.DecideApproval(id, workspace, if allow then Allow else Deny, Some(device), now);
      if accepted && id in waiters {
        var event := waiters[id];
        event.result := event.result + [allow];
        event.isSet := true;
      }
    }

    /** A cancelled waiter is signalled with no result, so its wait is refused. */
    method CancelOn(id: string, workspace: string, now: real)
      requires Valid()
      modifies `waiters, store`approvals, waiters.Values
      ensures Valid() && waiters == old(waiters) - {id}
      ensures store.approvals == Decide(old(store.approvals), id, workspace, Cancel, None, now).0
      ensures forall a :: a in old(waiters) ==> old(waiters)[a].result == old(waiters[a].result)
      ensures forall a :: a in old(waiters) ==> old(waiters)[a].isSet == (a == id || old(waiters[a].isSet))
    {
      var cancelled := store.DecideApproval(id, workspace, Cancel, None, now);
      if id in waiters {
        var event := waiters[id];
        waiters := waiters - {id};
        event.isSet := true;
      }
    }

    /** One step of `Close`; `all` are the waiters it began with. */
    method CancelIfStored(id: string, now: real, ghost all: map<string, Event>)
      requires Valid() && id in waiters
      requires forall a, b :: a in all && b in all && a != b ==> all[a] != all[b]
      requires forall a :: a in waiters ==> a in all && all[a] == waiters[a]
      modifies `waiters, store`approvals, waiters.Values
      ensures Valid() && waiters == if id in old(store.approvals) then old(waiters) - {id} else old(waiters)
      ensures store.approvals ==
        if id in old(store.approvals)
        then Decide(old(store.approvals), id, old(store.approvals)[id].workspace, Cancel, None, now).0 else old(store.approvals)
      ensures forall a :: a in all ==> all[a].result == old(all[a].result)
      ensures forall a :: a in all ==> all[a].isSet == ((a == id && id in old(store.approvals)) || old(all[a].isSet))
    {
      hide Decide;
      var row := store.Approval(id);
      if row.Some? {
        ghost var before := waiters;
        CancelOn(id, row.value.workspace, now);
        forall a | a in all && a !in before
          ensures all[a] !in before.Values
        {
        }
      }
    }

    /** Cancels every approval that still has a waiter and a row. */
    method Close(now: real)
      requires Valid()
      modifies `waiters, store`approvals, waiters.Values
      ensures waiters == old(waiters) - old(store.approvals).Keys
      ensures store.approvals == CancelAll(old(store.approvals), old(waiters).Keys, now)
      ensures forall a :: a in old(waiters) ==> old(waiters)[a].result == old(waiters[a].result)
      ensures forall a :: a in old(waiters) ==>
        old(waiters)[a].isSet == (a in old(store.approvals) || old(waiters[a].isSet))
    {
      hide CancelAll, Decide;
      ghost var rows := store.approvals;
      NoneCancelled(rows, now);
      var todo := waiters.Keys;
      ghost var done: set<string> := {};
      while todo != {}
        invariant Valid() && todo + done == old(waiters).Keys && todo !! done
        invariant waiters == old(waiters) - done * rows.Keys
        invariant store.approvals == CancelAll(rows, done, now)
        invariant forall a :: a in waiters ==> waiters[a] in old(waiters.Values)
        invariant forall a :: a in old(waiters) ==> old(waiters)[a].result == old(waiters[a].result)
        invariant forall a :: a in old(waiters) ==>
          old(waiters)[a].isSet == ((a in done && a in rows) || old(waiters[a].isSet))
      {
        var id :| id in todo;
        CancelOneMore(rows, done, id, now);
        CancelKeepsKeys(rows, done, now);
        CancelIfStored(id, now, old(waiters));
        todo, done := todo - {id}, done + {id};
      }
    }
  }

  lemma NoneCancelled(t: Table, now: real)
    ensures CancelAll(t, {}, now) == t
  {
  }

  lemma CancelKeepsKeys(t: Table, done: set<string>, now: real)
    ensures CancelAll(t, done, now).Keys == t.Keys
  {
  }

  lemma CancelOneMore(t: Table, done: set<string>, id: string, now: real)
    requires id !in done
    ensures var u, v := CancelAll(t, done, now), CancelAll(t, done + {id}, now);
      if id in t then id in u && v == Decide(u, id, u[id].workspace, Cancel, None, now).0 else v == u && id !in u
  {
  }

  /**
   A fresh request is granted exactly when it was allowed before its deadline: the row it made, the one
   decision and the waiter's result are enough.
   */
  lemma GrantedIff(t: Table, r: Request, expires: real, allow: bool, device: string, now: real)
    requires r.id in t && t[r.id] == NewRow(r, expires)
    ensures var (t', accepted) := Decide(t, r.id, r.workspace, if allow then Allow else Deny, Some(device), now);
      Verdict(if accepted then [allow] else [], Some(t'[r.id]), r) <==> allow && now < expires
  {
  }
}
