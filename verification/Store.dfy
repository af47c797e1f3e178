/**
 The durable store: its tables are fields, each method is one transaction.  `history` is every event
 ever appended; it is never read.
 */
module Store {
  import opened Wrappers
  import AccessTokens
  import Approvals
  import Artifacts
  import Basics
  import Delivery
  import EventLog
  import Requests

  datatype OperationStatus = Pending | Running | Completed | Failed | Cancelled | Denied | Interrupted

  datatype Operation = Operation(workspace: string, status: OperationStatus)

  predicate Unfinished(o: Operation) { o.status.Pending? || o.status.Running? }

  datatype StoreError = Untrusted | DuplicateKey | UnknownDevice | CursorBackwards | InvalidStatus

  class GatewayStore {
    const retention: nat
    var devices: map<string, Delivery.Device>
    var fingerprints: map<string, string>   // device id to key fingerprint, which is unique
    var refreshTokens: map<string, string>  // token hash to device id
    var sessions: map<string, Delivery.Session>
    var events: seq<EventLog.Event>
    var next: nat
    var cursors: map<string, int>
    var operations: map<string, Operation>
    var requests: Requests.Table
    var approvals: Approvals.Table
    var jtis: AccessTokens.Table
    var grants: map<string, Artifacts.Grant>
    var artifacts: map<string, Artifacts.Artifact>
    ghost var history: seq<EventLog.Event>

    /** The retained events are the newest of each workspace's history. */
    ghost predicate Valid()
      reads this
    {
      EventLog.TableOk(events, history, next, retention)
    }

    constructor (retention: nat)
      requires retention > 0
      ensures Valid() && this.retention == retention
      ensures devices == map[] && sessions == map[] && events == [] && next == 1 && cursors == map[] && history == []
      ensures operations == map[] && requests == map[] && approvals == map[] && jtis == map[]
      ensures grants == map[] && artifacts == map[] && fingerprints == map[] && refreshTokens == map[]
    {
      this.retention := retention;
      devices, sessions, events, next, cursors, history := map[], map[], [], 1, map[], [];
      fingerprints, refreshTokens := map[], map[];
      operations, requests, approvals, jtis, grants, artifacts := map[], map[], map[], map[], map[], map[];
      new;
      EventLog.EmptyTable();
    }

    /** A known id and a known key fingerprint are both refused. */
    method TrustDevice(id: string, fingerprint: string, workspace: string) returns (ok: bool)
      modifies `devices, `fingerprints
      ensures ok == (id !in old(devices) && fingerprint !in old(fingerprints).Values)
      ensures devices == if ok then old(devices)[id := Delivery.Device(workspace, true)] else old(devices)
      ensures fingerprints == if ok then old(fingerprints)[id := fingerprint] else old(fingerprints)
    {
      ok := id !in devices && fingerprint !in fingerprints.Values;
      if ok {
        devices := devices[id := Delivery.Device(workspace, true)];
        fingerprints := fingerprints[id := fingerprint];
      }
    }

    /** Deactivation, the closing of every session and the deletion of every refresh token are one transaction. */
    method RevokeDevice(id: string) returns (changed: bool)
      modifies `devices, `sessions, `refreshTokens
      ensures changed == (id in old(devices) && old(devices)[id].active)
      ensures devices == if id in old(devices) then old(devices)[id := old(devices)[id].(active := false)] else old(devices)
      ensures sessions == Delivery.Shut(old(sessions), set c | c in old(sessions) && old(sessions)[c].device == id)
      ensures sessions.Keys == old(sessions).Keys
      ensures forall c :: c in sessions ==>
        sessions[c] == if old(sessions)[c].device == id then Delivery.Session(id, false) else old(sessions)[c]
      ensures forall t :: t in refreshTokens <==> t in old(refreshTokens) && old(refreshTokens)[t] != id
      ensures forall t :: t in refreshTokens ==> refreshTokens[t] == old(refreshTokens)[t]
    {
      changed := id in devices && devices[id].active;
      if changed { devices := devices[id := devices[id].(active := false)]; }
      sessions := Delivery.Shut(sessions, set c | c in sessions && sessions[c].device == id);
      refreshTokens := map t | t in refreshTokens && refreshTokens[t] != id :: refreshTokens[t];
    }

    /** A token is stored for a known device, over an older one of the same hash. */
    method PutRefreshToken(token: string, device: string) returns (error: Option<StoreError>)
      modifies `refreshTokens
      ensures error == if device in devices then None else Some(UnknownDevice)
      ensures refreshTokens == if error.None? then old(refreshTokens)[token := device] else old(refreshTokens)
    {
      if device !in devices { return Some(UnknownDevice); }
      refreshTokens := refreshTokens[token := device];
      error := None;
    }

    /** A refresh token is returned once. */
    method PopRefreshToken(token: string) returns (device: Option<string>)
      modifies `refreshTokens
      ensures device == if token in old(refreshTokens) then Some(old(refreshTokens)[token]) else None
      ensures refreshTokens == old(refreshTokens) - {token}
    {
      if token !in refreshTokens {
        assert refreshTokens == refreshTokens - {token};
        return None;
      }
      device := Some(refreshTokens[token]);
      refreshTokens := refreshTokens - {token};
    }

    method OpenConnection(id: string, device: string) returns (error: Option<StoreError>)
      modifies `sessions
      ensures error == if device !in devices || !devices[device].active then Some(Untrusted)
                       else if id in old(sessions) then Some(DuplicateKey) else None
      ensures sessions == if error.None? then old(sessions)[id := Delivery.Session(device, true)] else old(sessions)
    {
      if device !in devices || !devices[device].active { return Some(Untrusted); }
      if id in sessions { return Some(DuplicateKey); }
      sessions := sessions[id := Delivery.Session(device, true)];
      error := None;
    }

    method CloseConnection(id: string)
      modifies `sessions
      ensures sessions == Delivery.Shut(old(sessions), {id})
      ensures sessions == if id in old(sessions) then old(sessions)[id := Delivery.Session(old(sessions)[id].device, false)] else old(sessions)
    {
      if id in sessions && sessions[id].open { sessions := sessions[id := sessions[id].(open := false)]; }
    }

    /**
     Allocates the next sequence number and sweeps the workspace to its newest `retention` events; the
     other workspaces keep theirs.
     */
    method AppendEvent(workspace: string, envelope: string) returns (sequence: nat)
      requires Valid()
      modifies `events, `next, `history
      ensures Valid() && sequence == old(next) && next == old(next) + 1
      ensures history == old(history) + [EventLog.Event(sequence, workspace, envelope)]
      ensures events == EventLog.Appended(old(events), EventLog.Event(sequence, workspace, envelope), retention)
      ensures forall w :: EventLog.InWorkspace(events, w) == Basics.Newest(retention, EventLog.InWorkspace(history, w))
    {
      sequence := next;
      var row := EventLog.Event(sequence, workspace, envelope);
      EventLog.AppendRefines(events, history, next, retention, workspace, envelope);
      events, next := events + [row], next + 1;
      var mine := EventLog.InWorkspace(events, workspace);
      if |mine| > retention {
        events := EventLog.Without(events, workspace, mine[|mine| - 1 - retention].sequence);
      }
      history := history + [row];
    }

    /** For a positive cursor the rows are the full history above it, cut to `limit`, or the call is refused. */
    method EventsAfter(workspace: string, sequence: int, limit: int)
      returns (r: Result<seq<EventLog.Event>, EventLog.ReplayError>)
      requires Valid()
      ensures r == EventLog.EventsAfter(events, workspace, sequence, limit)
      ensures r.Ok? && sequence > 0 ==>
        r.value == EventLog.Take(limit, EventLog.Above(EventLog.InWorkspace(history, workspace), sequence))
    {
      if limit <= 0 || limit > 1000 { return Err(EventLog.BadLimit); }
      if sequence > EventLog.NewestSequence(events, workspace) { return Err(EventLog.AheadOfHistory); }
      var mine := EventLog.InWorkspace(events, workspace);
      if sequence > 0 && mine != [] && sequence < mine[0].sequence - 1 { return Err(EventLog.OutsideRetained); }
      r := Ok(EventLog.Take(limit, EventLog.Above(mine, sequence)));
      if sequence > 0 {
        EventLog.ReplayIsFullHistory(events, history, next, retention, workspace, sequence, limit);
      }
    }

    /** The cursor of a device never moves back; a device without a row starts anywhere. */
    method SetCursor(device: string, sequence: int) returns (error: Option<StoreError>)
      modifies `cursors
      ensures error == if device in old(cursors) && old(cursors)[device] > sequence then Some(CursorBackwards)
                       else if device !in devices then Some(UnknownDevice) else None
      ensures cursors == if error.None? then old(cursors)[device := sequence] else old(cursors)
      ensures forall d :: d in old(cursors) ==> d in cursors && cursors[d] >= old(cursors)[d]
    {
      if device in cursors && cursors[device] > sequence { return Some(CursorBackwards); }
      if device !in devices { return Some(UnknownDevice); }
      cursors := cursors[device := sequence];
      error := None;
    }

    method Cursor(device: string) returns (sequence: int)
      ensures sequence == if device in cursors then cursors[device] else 0
    {
      sequence := if device in cursors then cursors[device] else 0;
    }

    method PutOperation(id: string, workspace: string, status: OperationStatus) returns (ok: bool)
      modifies `operations
      ensures ok == (id !in old(operations))
      ensures operations == if ok then old(operations)[id := Operation(workspace, status)] else old(operations)
    {
      ok := id !in operations;
      if ok { operations := operations[id := Operation(workspace, status)]; }
    }

    /** A terminal status is set once and never changed. */
    method UpdateOperation(id: string, status: OperationStatus) returns (r: Result<bool, StoreError>)
      modifies `operations
      ensures r.Err? <==> Unfinished(Operation("", status))
      ensures r == Ok(true) <==> !r.Err? && id in old(operations) && Unfinished(old(operations)[id])
      ensures operations == if r == Ok(true) then old(operations)[id := old(operations)[id].(status := status)] else old(operations)
    {
      if status.Pending? || status.Running? { return Err(InvalidStatus); }
      if id !in operations || !Unfinished(operations[id]) { return Ok(false); }
      operations := operations[id := operations[id].(status := status)];
      r := Ok(true);
    }

    /** Start-up: nothing is left in flight, and nothing that had an outcome is touched. */
    method RecoverUncertain(now: real) returns (changed: nat)
      modifies `operations, `requests, `sessions, `approvals
      ensures changed == |set o | o in old(operations) && Unfinished(old(operations)[o])|
      ensures operations == map o | o in old(operations) ::
        if Unfinished(old(operations)[o]) then old(operations)[o].(status := Interrupted) else old(operations)[o]
      ensures requests == Requests.RecoverUncertain(old(requests))
      ensures sessions == Delivery.Shut(old(sessions), old(sessions).Keys)
      ensures approvals == Approvals.RecoverUncertain(old(approvals), now)
      ensures requests.Keys == old(requests).Keys && sessions.Keys == old(sessions).Keys && approvals.Keys == old(approvals).Keys
      ensures forall k :: k in requests ==>
        requests[k] == if old(requests)[k].Pending? then Requests.Interrupted else old(requests)[k]
      ensures forall c :: c in sessions ==> !sessions[c].open && sessions[c].device == old(sessions)[c].device
      ensures forall a :: a in approvals ==>
        approvals[a] == if old(approvals)[a].status != Approvals.Pending then old(approvals)[a]
                        else old(approvals)[a].(status := Approvals.Decided(Approvals.Interrupt), decidedAt := Some(now))
    {
      changed := |set o | o in operations && Unfinished(operations[o])|;
      operations := map o | o in operations ::
        if Unfinished(operations[o]) then operations[o].(status := Interrupted) else operations[o];
      requests := Requests.RecoverUncertain(requests);
      sessions := Delivery.Shut(sessions, sessions.Keys);
      approvals := Approvals.RecoverUncertain(approvals, now);
    }

    method ConsumeAccessJti(jti: string, now: real) returns (ok: bool)
      modifies `jtis
      ensures (jtis, ok) == AccessTokens.Consume(old(jtis), jti, now)
      ensures ok <==> !(jti in old(jtis) && old(jtis)[jti] >= now - AccessTokens.DAY)
      ensures !ok ==> jtis == old(jtis)
      ensures ok ==> jti in jtis && jtis[jti] == now
      ensures ok ==> forall j :: j != jti ==> (j in jtis <==> j in old(jtis) && now - old(jtis)[j] <= 86400.0)
      ensures ok ==> forall j :: j != jti && j in jtis ==> jtis[j] == old(jtis)[j]
    {
      var swept := AccessTokens.Swept(jtis, now);
      if jti in swept { return false; }
      jtis := swept[jti := now];
      ok := true;
    }

    method CreateApproval(id: string, row: Approvals.Row) returns (ok: bool)
      requires row.status.Pending?
      modifies `approvals
      ensures ok == (id !in old(approvals))
      ensures approvals == if ok then old(approvals)[id := row] else old(approvals)
    {
      ok := id !in approvals;
      if ok { approvals := approvals[id := row]; }
    }

    /** The compare-and-set: at most one terminal decision per approval. */
    method DecideApproval(id: string, workspace: string, decision: Approvals.Decision, device: Option<string>, now: real)
      returns (accepted: bool)
      modifies `approvals
      ensures (approvals, accepted) == Approvals.Decide(old(approvals), id, workspace, decision, device, now)
      ensures accepted <==>
        && id in old(approvals) && old(approvals)[id].workspace == workspace && old(approvals)[id].status == Approvals.Pending
        && (decision in {Approvals.Allow, Approvals.Deny} ==> now < old(approvals)[id].expires)
      ensures approvals ==
        if accepted
        then old(approvals)[id := old(approvals)[id].(status := Approvals.Decided(decision), decidedAt := Some(now), device := device)]
        else old(approvals)
      ensures forall a :: a in old(approvals) && old(approvals)[a].status.Decided? ==>
        a in approvals && approvals[a] == old(approvals)[a]
    {
      if id !in approvals || approvals[id].workspace != workspace || !approvals[id].status.Pending? { return false; }
      if decision.Allow? || decision.Deny? {
        if approvals[id].expires <= now { return false; }
      }
      approvals := approvals[id :=
        approvals[id].(status := Approvals.Decided(decision), decidedAt := Some(now), device := device)];
      accepted := true;
    }

    method Approval(id: string) returns (row: Option<Approvals.Row>)
      ensures row == if id in approvals then Some(approvals[id]) else None
    {
      row := if id in approvals then Some(approvals[id]) else None;
    }

    method CachedResponse(k: Requests.Key) returns (r: Requests.Cached)
      ensures r == Requests.CachedResponse(requests, k)
    {
      if k !in requests { return Requests.Absent; }
      if !requests[k].Completed? { return Requests.Uncertain; }
      r := Requests.Found(requests[k].response);
    }

    method ReserveRequest(k: Requests.Key) returns (inserted: bool)
      modifies `requests
      ensures (requests, inserted) == Requests.Reserve(old(requests), k)
    {
      inserted := k !in requests;
      if inserted { requests := requests[k := Requests.Pending]; }
    }

    method CacheResponse(k: Requests.Key, response: string) returns (changed: bool)
      modifies `requests
      ensures (requests, changed) == Requests.CacheResponse(old(requests), k, response)
    {
      changed := k in requests && requests[k].Pending?;
      if changed { requests := requests[k := Requests.Completed(response)]; }
    }

    method PutArtifactGrant(id: string, grant: Artifacts.Grant) returns (error: Option<StoreError>)
      modifies `grants
      ensures error == if grant.device !in devices then Some(UnknownDevice)
                       else if id in old(grants) then Some(DuplicateKey) else None
      ensures grants == if error.None? then old(grants)[id := grant] else old(grants)
    {
      if grant.device !in devices { return Some(UnknownDevice); }
      if id in grants { return Some(DuplicateKey); }
      grants := grants[id := grant];
      error := None;
    }

    method ArtifactGrant(id: string) returns (row: Option<Artifacts.Grant>)
      ensures row == if id in grants then Some(grants[id]) else None
    {
      row := if id in grants then Some(grants[id]) else None;
    }

    /** The update applies to an unused row only, so it succeeds once. */
    method ConsumeArtifactGrant(id: string) returns (ok: bool)
      modifies `grants
      ensures ok == (id in old(grants) && !old(grants)[id].used)
      ensures grants == if ok then old(grants)[id := old(grants)[id].(used := true)] else old(grants)
      ensures id in grants ==> grants[id].used
    {
      ok := id in grants && !grants[id].used;
      if ok { grants := grants[id := grants[id].(used := true)]; }
    }

    method PutArtifact(id: string, row: Artifacts.Artifact) returns (error: Option<StoreError>)
      modifies `artifacts
      ensures error == if row.device !in devices then Some(UnknownDevice)
                       else if id in old(artifacts) then Some(DuplicateKey) else None
      ensures artifacts == if error.None? then old(artifacts)[id := row] else old(artifacts)
    {
      if row.device !in devices { return Some(UnknownDevice); }
      if id in artifacts { return Some(DuplicateKey); }
      artifacts := artifacts[id := row];
      error := None;
    }

    method FindArtifact(id: string) returns (row: Option<Artifacts.Artifact>)
      ensures row == if id in artifacts then Some(artifacts[id]) else None
    {
      row := if id in artifacts then Some(artifacts[id]) else None;
    }
  }
}
