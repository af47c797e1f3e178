/**
 The delivery protocol of the Gateway as a state machine: durable event table, device sessions,
 acknowledgement cursors, and the bounded queue of every registered connection.  Each action is one
 call of the runtime and runs atomically.  `history`, `drained`, `replayed`, `since` and `delivered`
 record the past; no action branches on them.
 */
module Delivery {
  import opened Basics
  import opened Wrappers
  import opened EventLog

  datatype Config = Config(retention: nat, maxPending: int, replayLimit: int)

  datatype Device = Device(workspace: string, active: bool)

  datatype Session = Session(device: string, open: bool)

  datatype Conn = Conn(
    device: string, workspace: string, start: int,
    replayed: seq<Event>, since: nat,
    drained: seq<Event>, pending: seq<Event>, highest: nat)

  datatype Hub = Hub(
    devices: map<string, Device>, sessions: map<string, Session>,
    log: seq<Event>, history: seq<Event>, next: nat,
    cursors: map<string, int>, conns: map<string, Conn>,
    delivered: set<(string, nat)>)

  datatype Action =
    | Trust(device: string, workspace: string)
    | Revoke(device: string)
    | Connect(id: string, device: string, after: Option<int>)
    | Publish(workspace: string, envelope: string)
    | Drain(id: string, limit: int, authOk: bool)
    | Ack(id: string, sequence: int, authOk: bool)
    | Request(id: string, authOk: bool)
    | Close(id: string)
    | Restart

  datatype ConnectResult = Connected | Unauthorized | SessionExists | BadConfig | ReplayGap

  function Init(): Hub {
    Hub(map[], map[], [], [], 1, map[], map[], {})
  }

  predicate IsActive(h: Hub, d: string) { d in h.devices && h.devices[d].active }

  function Cursor(h: Hub, d: string): int { if d in h.cursors then h.cursors[d] else 0 }

  function StartOf(h: Hub, d: string, after: Option<int>): int {
    if after.None? then Cursor(h, d) else after.value
  }

  function Limit(cfg: Config): int { Min(cfg.replayLimit, cfg.maxPending) }

  function Shut(sessions: map<string, Session>, ids: set<string>): map<string, Session> {
    map c | c in sessions :: if c in ids then sessions[c].(open := false) else sessions[c]
  }

  function CloseConn(h: Hub, id: string): Hub {
    h.(conns := h.conns - {id}, sessions := Shut(h.sessions, {id}))
  }

  function TrustDevice(h: Hub, d: string, w: string): Hub {
    if d in h.devices then h else h.(devices := h.devices[d := Device(w, true)])
  }

  function RevokeDevice(h: Hub, d: string): Hub {
    if d !in h.devices then h
    else h.(devices := h.devices[d := h.devices[d].(active := false)],
            sessions := Shut(h.sessions, set c | c in h.sessions && h.sessions[c].device == d))
  }

  function TryConnect(cfg: Config, h: Hub, id: string, d: string, after: Option<int>): (r: (Hub, ConnectResult))
    ensures r.1.Connected? ==> id in r.0.conns && id in r.0.sessions && r.0.sessions[id].open
  {
    if !IsActive(h, d) then (h, Unauthorized)
    else if id in h.sessions then (h, SessionExists)
    else
      var w := h.devices[d].workspace;
      var joined := h.(sessions := h.sessions[id := Session(d, true)]);
      if cfg.maxPending <= 0 then (joined, BadConfig)
      else match EventsAfter(h.log, w, StartOf(h, d, after), Limit(cfg))
        case Err(BadLimit) => (joined, BadConfig)
        case Err(_) => (h.(sessions := h.sessions[id := Session(d, false)]), ReplayGap)
        case Ok(replay) =>
          var conn := Conn(d, w, StartOf(h, d, after), replay, |h.history|, [], replay, 0);
          (joined.(conns := h.conns[id := conn]), Connected)
  }

  predicate Overflows(cfg: Config, conn: Conn, w: string) {
    conn.workspace == w && |conn.pending| >= cfg.maxPending
  }

  function Offer(conn: Conn, e: Event): Conn {
    if conn.workspace == e.workspace then conn.(pending := conn.pending + [e]) else conn
  }

  function PublishEvent(cfg: Config, h: Hub, w: string, envelope: string): Hub {
    var e := Event(h.next, w, envelope);
    h.(log := Appended(h.log, e, cfg.retention), history := h.history + [e], next := h.next + 1,
       conns := map c | c in h.conns && !Overflows(cfg, h.conns[c], w) :: Offer(h.conns[c], e),
       sessions := Shut(h.sessions, set c | c in h.conns && Overflows(cfg, h.conns[c], w)))
  }

  /** The check in front of every drain and every receive. */
  predicate Passes(h: Hub, id: string, authOk: bool) {
    id in h.conns && IsActive(h, h.conns[id].device) && authOk
  }

  function Rejected(h: Hub, id: string): Hub {
    if id in h.conns then CloseConn(h, id) else h
  }

  function Handed(conn: Conn, limit: int): seq<Event> {
    if limit <= 0 then [] else Take(limit, conn.pending)
  }

  function Last(highest: nat, items: seq<Event>): nat {
    if items == [] then highest
    else
      var front := Last(highest, items[..|items| - 1]);
      var last := items[|items| - 1].sequence;
      if last > front then last else front
  }

  function DrainConn(h: Hub, id: string, limit: int, authOk: bool): (Hub, seq<Event>) {
    if !Passes(h, id, authOk) then (Rejected(h, id), [])
    else
      var conn := h.conns[id];
      var out := Handed(conn, limit);
      var conn' := conn.(drained := conn.drained + out, pending := conn.pending[|out|..],
                         highest := Last(conn.highest, out));
      (h.(conns := h.conns[id := conn'],
          delivered := h.delivered + (set e | e in out :: (conn.device, e.sequence))), out)
  }

  function AckCursor(h: Hub, id: string, sequence: int, authOk: bool): Hub {
    if !Passes(h, id, authOk) then Rejected(h, id)
    else
      var conn := h.conns[id];
      if sequence < 0 || sequence > conn.highest || Cursor(h, conn.device) > sequence then h
      else h.(cursors := h.cursors[conn.device := sequence])
  }

  function Step(cfg: Config, h: Hub, a: Action): Hub {
    match a
    case Trust(d, w) => TrustDevice(h, d, w)
    case Revoke(d) => RevokeDevice(h, d)
    case Connect(id, d, after) => TryConnect(cfg, h, id, d, after).0
    case Publish(w, envelope) => PublishEvent(cfg, h, w, envelope)
    case Drain(id, limit, authOk) => DrainConn(h, id, limit, authOk).0
    case Ack(id, sequence, authOk) => AckCursor(h, id, sequence, authOk)
    case Request(id, authOk) => if Passes(h, id, authOk) then h else Rejected(h, id)
    case Close(id) => CloseConn(h, id)
    case Restart => h.(conns := map[], sessions := Shut(h.sessions, h.sessions.Keys))
  }

  function Run(cfg: Config, h: Hub, actions: seq<Action>): Hub {
    if actions == [] then h
    else Step(cfg, Run(cfg, h, actions[..|actions| - 1]), actions[|actions| - 1])
  }

  // --- the invariant ------------------------------------------------------------------------

  /**
   What a connection has drained followed by what it holds is what connect replayed followed by
   everything published to its workspace since, in order and without a repeat.
   */
  ghost predicate WindowOk(history: seq<Event>, k: Conn) {
    && k.since <= |history|
    && k.drained + k.pending == k.replayed + InWorkspace(history[k.since..], k.workspace)
    && Ordered(k.drained + k.pending)
    && (forall e :: e in k.drained + k.pending ==> e in history && e.workspace == k.workspace)
    && k.highest == (if k.drained == [] then 0 else k.drained[|k.drained| - 1].sequence)
    && k.start <= NewestSequence(history[..k.since], k.workspace)
  }

  ghost predicate WasDelivered(delivered: set<(string, nat)>, k: Conn) {
    forall e :: e in k.drained ==> (k.device, e.sequence) in delivered
  }

  ghost predicate ConnOk(cfg: Config, h: Hub, k: Conn) {
    && k.device in h.devices && h.devices[k.device].workspace == k.workspace
    && |k.pending| <= cfg.maxPending
    && WindowOk(h.history, k)
    && WasDelivered(h.delivered, k)
  }

  ghost predicate SessionsOk(h: Hub) {
    && (forall c :: c in h.sessions && h.sessions[c].open ==> IsActive(h, h.sessions[c].device))
    && (forall c :: c in h.conns ==> c in h.sessions && h.sessions[c].device == h.conns[c].device)
  }

  ghost predicate CursorsOk(h: Hub) {
    forall d :: d in h.cursors ==> d in h.devices && 0 <= h.cursors[d] <= NewestSequence(h.history, h.devices[d].workspace)
  }

  ghost predicate Inv(cfg: Config, h: Hub) {
    && TableOk(h.log, h.history, h.next, cfg.retention)
    && SessionsOk(h)
    && (forall c :: c in h.conns ==> ConnOk(cfg, h, h.conns[c]))
    && CursorsOk(h)
  }

  // --- one connection's window --------------------------------------------------------------

  lemma {:induction false} LastIsTheLast(highest: nat, items: seq<Event>)
    requires Ordered(items)
    requires forall i :: 0 <= i < |items| ==> highest < items[i].sequence
    ensures Last(highest, items) == if items == [] then highest else items[|items| - 1].sequence
  {
    if items != [] {
      LastIsTheLast(highest, items[..|items| - 1]);
    }
  }

  /** A replay is ordered, no longer than its limit, and made of events of the workspace. */
  lemma ReplayShape(log: seq<Event>, history: seq<Event>, next: nat, retention: nat, w: string, cursor: int, limit: int)
    requires TableOk(log, history, next, retention)
    requires EventsAfter(log, w, cursor, limit).Ok?
    ensures var r := EventsAfter(log, w, cursor, limit).value;
            && Ordered(r) && |r| <= limit
            && forall e :: e in r ==> e in history && e.workspace == w && e.sequence > cursor
  {
    var r := EventsAfter(log, w, cursor, limit).value;
    var mine := InWorkspace(log, w);
    InWorkspaceOrdered(log, w);
    AboveOrdered(mine, cursor);
    var pruned := RetainedSplit(log, history, retention, w);
    forall e | e in r
      ensures e in history && e.workspace == w && e.sequence > cursor
    {
      assert e in Above(mine, cursor);
      AboveMembers(mine, cursor, e);
      assert e in pruned + mine;
      InWorkspaceMembers(history, w, e);
    }
  }

  lemma WindowOpens(history: seq<Event>, k: Conn)
    requires k.since == |history| && k.drained == [] && k.pending == k.replayed && k.highest == 0
    requires Ordered(k.replayed) && k.start <= NewestSequence(history, k.workspace)
    requires forall e :: e in k.replayed ==> e in history && e.workspace == k.workspace
    ensures WindowOk(history, k)
  {
    assert history[k.since..] == [] && history[..k.since] == history;
    assert k.drained + k.pending == k.replayed == k.replayed + [];
  }

  lemma WindowGrows(history: seq<Event>, k: Conn, e: Event)
    requires WindowOk(history, k) && AllBelow(history, e.sequence)
    ensures WindowOk(history + [e], Offer(k, e))
  {
    hide InWorkspace, NewestSequence, Ordered;
    var history', all := history + [e], k.drained + k.pending;
    assert history'[k.since..] == history[k.since..] + [e];
    assert history'[..k.since] == history[..k.since];
    InWorkspaceOne(history[k.since..], e, k.workspace);
    if k.workspace == e.workspace {
      var k' := Offer(k, e);
      assert k'.drained + k'.pending == all + [e] by {
        assert k.drained + (k.pending + [e]) == (k.drained + k.pending) + [e];
      }
      assert all + [e] == k.replayed + InWorkspace(history'[k.since..], k.workspace) by {
        var since := InWorkspace(history[k.since..], k.workspace);
        assert (k.replayed + since) + [e] == k.replayed + (since + [e]);
      }
      OrderedGrows(history, all, e);
    }
  }

  lemma OrderedGrows(history: seq<Event>, all: seq<Event>, e: Event)
    requires Ordered(all) && AllBelow(history, e.sequence)
    requires forall x :: x in all ==> x in history
    ensures Ordered(all + [e])
  {
    forall i | 0 <= i < |all|
      ensures all[i].sequence < e.sequence
    {
      assert all[i] in history;
    }
  }

  function DrainedBy(k: Conn, n: nat): Conn
    requires n <= |k.pending|
  {
    k.(drained := k.drained + k.pending[..n], pending := k.pending[n..], highest := Last(k.highest, k.pending[..n]))
  }

  lemma WindowDrains(history: seq<Event>, k: Conn, n: nat)
    requires WindowOk(history, k) && n <= |k.pending|
    requires forall i :: 0 <= i < |history| ==> history[i].sequence > 0
    ensures WindowOk(history, DrainedBy(k, n))
  {
    hide InWorkspace, NewestSequence, Last, Ordered;
    var k', out := DrainedBy(k, n), k.pending[..n];
    assert k'.drained + k'.pending == k.drained + k.pending by {
      assert k.pending == out + k.pending[n..];
    }
    WindowAhead(history, k);
    OrderedPart(k.drained + k.pending, |k.drained|, out);
    LastIsTheLast(k.highest, out);
  }

  lemma OrderedPart(all: seq<Event>, from: nat, part: seq<Event>)
    requires Ordered(all) && from + |part| <= |all|
    requires all[from..from + |part|] == part
    ensures Ordered(part)
  {
    forall i | 0 <= i < |part|
      ensures part[i] == all[from + i]
    {
    }
  }

  lemma WindowAhead(history: seq<Event>, k: Conn)
    requires WindowOk(history, k)
    requires forall i :: 0 <= i < |history| ==> history[i].sequence > 0
    ensures forall i :: 0 <= i < |k.pending| ==> k.highest < k.pending[i].sequence
  {
    var all := k.drained + k.pending;
    forall i | 0 <= i < |k.pending|
      ensures k.highest < k.pending[i].sequence
    {
      assert all[|k.drained| + i] == k.pending[i] && k.pending[i] in history;
      if k.drained != [] {
        assert all[|k.drained| - 1] == k.drained[|k.drained| - 1];
      }
    }
  }

  // --- every action keeps the invariant -------------------------------------------------------

  /** Connections are untouched when only devices' activity, sessions, cursors or deliveries move. */
  lemma ConnsFrame(cfg: Config, h: Hub, h': Hub)
    requires forall c :: c in h.conns ==> ConnOk(cfg, h, h.conns[c])
    requires h'.history == h.history && h.delivered <= h'.delivered
    requires forall d :: d in h.devices ==> d in h'.devices && h'.devices[d].workspace == h.devices[d].workspace
    ensures forall c :: c in h.conns ==> ConnOk(cfg, h', h.conns[c])
  {
    forall c | c in h.conns
      ensures ConnOk(cfg, h', h.conns[c])
    {
      assert ConnOk(cfg, h, h.conns[c]);
    }
  }

  lemma FreshConnOk(cfg: Config, h: Hub, id: string, d: string, after: Option<int>)
    requires Inv(cfg, h)
    requires TryConnect(cfg, h, id, d, after).1.Connected?
    ensures var h' := TryConnect(cfg, h, id, d, after).0;
            ConnOk(cfg, h', h'.conns[id])
  {
    hide Shut, InWorkspace, Above;
    var h' := TryConnect(cfg, h, id, d, after).0;
    var k := h'.conns[id];
    ReplayShape(h.log, h.history, h.next, cfg.retention, k.workspace, k.start, Limit(cfg));
    NewestIsTrue(h.log, h.history, h.next, cfg.retention, k.workspace);
    WindowOpens(h.history, k);
  }

  lemma ConnectKeeps(cfg: Config, h: Hub, id: string, d: string, after: Option<int>)
    requires Inv(cfg, h)
    ensures Inv(cfg, TryConnect(cfg, h, id, d, after).0)
  {
    hide TableOk, WindowOk, EventsAfter, SessionsOk, ConnOk, Shut, NewestSequence;
    var (h', r) := TryConnect(cfg, h, id, d, after);
    ConnsFrame(cfg, h, h');
    if r.Connected? {
      FreshConnOk(cfg, h, id, d, after);
    }
    ConnectSessions(cfg, h, id, d, after);
    assert CursorsOk(h');
  }

  lemma ConnectSessions(cfg: Config, h: Hub, id: string, d: string, after: Option<int>)
    requires SessionsOk(h)
    ensures SessionsOk(TryConnect(cfg, h, id, d, after).0)
  {
    hide EventsAfter;
  }

  lemma PublishKeepsConn(cfg: Config, h: Hub, w: string, envelope: string, c: string)
    requires TableOk(h.log, h.history, h.next, cfg.retention)
    requires c in h.conns && ConnOk(cfg, h, h.conns[c]) && !Overflows(cfg, h.conns[c], w)
    ensures ConnOk(cfg, PublishEvent(cfg, h, w, envelope), Offer(h.conns[c], Event(h.next, w, envelope)))
  {
    WindowGrows(h.history, h.conns[c], Event(h.next, w, envelope));
  }

  lemma PublishKeepsCursors(cfg: Config, h: Hub, w: string, envelope: string)
    requires TableOk(h.log, h.history, h.next, cfg.retention) && CursorsOk(h)
    ensures CursorsOk(PublishEvent(cfg, h, w, envelope))
  {
    forall d | d in h.cursors
      ensures h.cursors[d] <= NewestSequence(h.history + [Event(h.next, w, envelope)], h.devices[d].workspace)
    {
      NewestIsTrue(h.log, h.history, h.next, cfg.retention, h.devices[d].workspace);
      InWorkspaceOne(h.history, Event(h.next, w, envelope), h.devices[d].workspace);
    }
  }

  lemma PublishKeeps(cfg: Config, h: Hub, w: string, envelope: string)
    requires Inv(cfg, h)
    ensures Inv(cfg, PublishEvent(cfg, h, w, envelope))
  {
    hide TableOk, ConnOk, CursorsOk;
    var h' := PublishEvent(cfg, h, w, envelope);
    AppendRefines(h.log, h.history, h.next, cfg.retention, w, envelope);
    PublishKeepsCursors(cfg, h, w, envelope);
    forall c | c in h'.conns
      ensures ConnOk(cfg, h', h'.conns[c])
    {
      PublishKeepsConn(cfg, h, w, envelope, c);
    }
    assert SessionsOk(h') by {
      assert SessionsOk(h);
    }
  }

  lemma DrainKeeps(cfg: Config, h: Hub, id: string, limit: int)
    requires Inv(cfg, h) && Passes(h, id, true)
    ensures Inv(cfg, DrainConn(h, id, limit, true).0)
  {
    hide WindowOk;
    var (h', out) := DrainConn(h, id, limit, true);
    ConnsFrame(cfg, h, h');
    var k := h.conns[id];
    assert ConnOk(cfg, h, k);
    WindowDrains(h.history, k, |out|);
    assert out == k.pending[..|out|];
    assert h'.conns[id] == DrainedBy(k, |out|);
    assert SessionsOk(h') by {
      assert SessionsOk(h);
    }
  }

  lemma AckKeeps(cfg: Config, h: Hub, id: string, sequence: int)
    requires Inv(cfg, h) && Passes(h, id, true)
    ensures Inv(cfg, AckCursor(h, id, sequence, true))
  {
    var h' := AckCursor(h, id, sequence, true);
    ConnsFrame(cfg, h, h');
    HighestWithinNewest(cfg, h, id);
    assert SessionsOk(h') by {
      assert SessionsOk(h);
    }
  }

  /** What a connection may acknowledge never exceeds the newest sequence of its workspace. */
  lemma HighestWithinNewest(cfg: Config, h: Hub, id: string)
    requires Inv(cfg, h) && id in h.conns
    ensures h.conns[id].highest <= NewestSequence(h.history, h.conns[id].workspace)
  {
    var k := h.conns[id];
    assert ConnOk(cfg, h, k);
    NewestIsTrue(h.log, h.history, h.next, cfg.retention, k.workspace);
    if k.drained != [] {
      assert k.drained[|k.drained| - 1] in k.drained + k.pending;
    }
  }

  lemma CloseKeeps(cfg: Config, h: Hub, id: string)
    requires Inv(cfg, h)
    ensures Inv(cfg, CloseConn(h, id))
  {
    ConnsFrame(cfg, h, CloseConn(h, id));
    assert SessionsOk(CloseConn(h, id)) by {
      assert SessionsOk(h);
    }
  }

  lemma TrustKeeps(cfg: Config, h: Hub, d: string, w: string)
    requires Inv(cfg, h)
    ensures Inv(cfg, TrustDevice(h, d, w))
  {
    ConnsFrame(cfg, h, TrustDevice(h, d, w));
    assert CursorsOk(TrustDevice(h, d, w)) by {
      assert CursorsOk(h);
    }
    assert SessionsOk(TrustDevice(h, d, w)) by {
      assert SessionsOk(h);
    }
  }

  lemma RevokeKeeps(cfg: Config, h: Hub, d: string)
    requires Inv(cfg, h)
    ensures Inv(cfg, RevokeDevice(h, d))
  {
    var h' := RevokeDevice(h, d);
    ConnsFrame(cfg, h, h');
    assert CursorsOk(h') by {
      assert CursorsOk(h);
    }
    RevokeClosesSessions(h, d);
  }

  lemma RevokeClosesSessions(h: Hub, d: string)
    requires SessionsOk(h)
    ensures SessionsOk(RevokeDevice(h, d))
  {
    var h' := RevokeDevice(h, d);
    forall c | c in h'.sessions && h'.sessions[c].open
      ensures IsActive(h', h'.sessions[c].device)
    {
      assert h.sessions[c].open;
    }
  }

  lemma StepKeeps(cfg: Config, h: Hub, a: Action)
    requires Inv(cfg, h)
    ensures Inv(cfg, Step(cfg, h, a))
  {
    hide Inv;
    match a
    case Trust(d, w) => TrustKeeps(cfg, h, d, w);
    case Revoke(d) => RevokeKeeps(cfg, h, d);
    case Connect(id, d, after) => ConnectKeeps(cfg, h, id, d, after);
    case Publish(w, envelope) => PublishKeeps(cfg, h, w, envelope);
    case Drain(id, limit, authOk) =>
      if Passes(h, id, authOk) { DrainKeeps(cfg, h, id, limit); } else { CloseKeeps(cfg, h, id); }
    case Ack(id, sequence, authOk) =>
      if Passes(h, id, authOk) { AckKeeps(cfg, h, id, sequence); } else { CloseKeeps(cfg, h, id); }
    case Request(id, authOk) => CloseKeeps(cfg, h, id);
    case Close(id) => CloseKeeps(cfg, h, id);
    case Restart => RestartKeeps(cfg, h);
  }

  lemma RestartKeeps(cfg: Config, h: Hub)
    requires Inv(cfg, h)
    ensures Inv(cfg, Step(cfg, h, Restart))
  {
  }

  /** Every reachable state: the pruned table, the sessions, the queues and the cursors are all consistent. */
  lemma {:induction false} RunKeeps(cfg: Config, h: Hub, actions: seq<Action>)
    requires Inv(cfg, h)
    ensures Inv(cfg, Run(cfg, h, actions))
  {
    if actions != [] {
      RunKeeps(cfg, h, actions[..|actions| - 1]);
      StepKeeps(cfg, Run(cfg, h, actions[..|actions| - 1]), actions[|actions| - 1]);
    }
  }
}
