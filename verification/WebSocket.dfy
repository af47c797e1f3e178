/**
 The connection objects and their runtime.  `View` maps them to the delivery protocol's state, and every
 call is shown to perform exactly one of its actions, so what holds over all runs of the protocol
 holds of these objects.
 */
module WebSocket {
  import opened Wrappers
  import Basics
  import opened Delivery
  import EventLog
  import Store

  datatype Refusal = ConnectionClosed | Revoked | Expired | InvalidCursor | CursorBackwards

  /** An inbound envelope: an acknowledgement carries an integer or something else. */
  datatype Message = Ping | Acknowledge(sequence: Option<int>) | Other

  datatype Reply = Pong | Acknowledged(sequence: int) | Dispatch

  lemma ShutCloses(sessions: map<string, Session>, id: string)
    ensures id in Shut(sessions, {id}) ==> !Shut(sessions, {id})[id].open
    ensures Shut(sessions, {id}).Keys == sessions.Keys
  {
  }

  lemma NoneShut(sessions: map<string, Session>)
    ensures Shut(sessions, {}) == sessions
  {
  }

  lemma ShutMore(sessions: map<string, Session>, ids: set<string>, id: string)
    ensures Shut(Shut(sessions, ids), {id}) == Shut(sessions, ids + {id})
  {
  }

  lemma ConnectSucceeds(cfg: Config, h: Hub, id: string, d: string, after: Option<int>, replay: seq<EventLog.Event>)
    requires IsActive(h, d) && id !in h.sessions && cfg.maxPending > 0
    requires EventLog.EventsAfter(h.log, h.devices[d].workspace, StartOf(h, d, after), Limit(cfg)) == Ok(replay)
    ensures var start := StartOf(h, d, after);
      TryConnect(cfg, h, id, d, after)
      == (h.(sessions := h.sessions[id := Session(d, true)],
             conns := h.conns[id := Conn(d, h.devices[d].workspace, start, replay, |h.history|, [], replay, 0)]), Connected)
  {
    hide EventLog.EventsAfter, Shut;
  }

  class GatewayConnection {
    const id: string
    const device: string
    const workspace: string
    const maxPending: int
    const store: Store.GatewayStore
    const runtime: GatewayWebSocketRuntime
    var pending: seq<EventLog.Event>
    var closed: bool
    var highestDelivered: nat
    ghost const start: int
    ghost const replayed: seq<EventLog.Event>
    ghost const since: nat
    ghost var drained: seq<EventLog.Event>

    ghost function View(): Conn
      reads this
    {
      Conn(device, workspace, start, replayed, since, drained, pending, highestDelivered)
    }

    constructor (id: string, device: string, workspace: string, runtime: GatewayWebSocketRuntime,
                 ghost start: int, ghost replayed: seq<EventLog.Event>, ghost since: nat)
      requires runtime.maxPending > 0
      ensures this.id == id && this.runtime == runtime && this.store == runtime.store
      ensures maxPending == runtime.maxPending && !closed
      ensures View() == Conn(device, workspace, start, replayed, since, [], [], 0)
    {
      this.id, this.device, this.workspace, this.runtime, this.store := id, device, workspace, runtime, runtime.store;
      maxPending := runtime.maxPending;
      this.start, this.replayed, this.since := start, replayed, since;
      pending, closed, highestDelivered, drained := [], false, 0, [];
    }

    /** An open connection is registered; a closed one is not, and its session row is closed. */
    ghost predicate Attached()
      reads this, runtime, store
    {
      && runtime.store == store
      && if closed then id !in runtime.connections && (id in store.sessions ==> !store.sessions[id].open)
         else id in runtime.connections && runtime.connections[id] == this
    }

    /** Clears the queue, closes the session row and leaves the registry; a second close does nothing. */
    method Shutdown()
      modifies this`pending, this`closed, store`sessions, runtime`connections
      ensures closed
      ensures if old(closed) then unchanged(this, store, runtime)
              else pending == [] && store.sessions == Shut(old(store.sessions), {id})
                   && runtime.connections == old(runtime.connections) - {id}
    {
      hide *;
      if closed { return; }
      closed, pending := true, [];
      store.CloseConnection(id);
      runtime.RemoveConnection(id);
    }

    /** Shutdown of a connection of a runtime is the protocol's close action. */
    method Close()
      requires runtime.Valid() && Attached()
      modifies this`pending, this`closed, store`sessions, runtime`connections
      ensures runtime.Valid() && Attached() && closed
      ensures runtime.View() == CloseConn(old(runtime.View()), id)
    {
      hide *;
      Shutdown();
      if old(closed) { CloseAgain(); }
      else {
        ShutCloses(old(store.sessions), id);
        Detached();
      }
    }

    lemma CloseAgain()
      requires runtime.Valid() && Attached() && closed
      ensures runtime.View() == CloseConn(runtime.View(), id)
    {
      hide EventLog.TableOk;
      assert store.sessions == Shut(store.sessions, {id});
    }

    /** What closing does to the runtime, given what it does to each field. */
    twostate lemma Detached()
      requires old(runtime.Valid() && Attached()) && !old(closed) && closed
      requires runtime.connections == old(runtime.connections) - {id}
      requires store.sessions == Shut(old(store.sessions), {id}) && (id in store.sessions ==> !store.sessions[id].open)
      requires store.devices == old(store.devices) && store.events == old(store.events) && store.next == old(store.next)
      requires store.history == old(store.history) && store.cursors == old(store.cursors)
      requires runtime.delivered == old(runtime.delivered)
      requires forall c :: c in runtime.connections && runtime.connections[c] != this ==> unchanged(runtime.connections[c])
      ensures runtime.Valid() && Attached()
      ensures runtime.View() == CloseConn(old(runtime.View()), id)
    {
      hide EventLog.TableOk, Shut;
      ShutCloses(old(store.sessions), id);
      assert forall c :: c in runtime.connections ==> runtime.connections[c] != this;
    }

    /** What a change of this connection alone does to the runtime. */
    twostate lemma Moved()
      requires old(runtime.Valid() && Attached()) && !closed && !old(closed)
      requires runtime.connections == old(runtime.connections) && store.Valid() && store.sessions == old(store.sessions)
      requires forall c :: c in runtime.connections && runtime.connections[c] != this ==> unchanged(runtime.connections[c])
      ensures runtime.Valid() && Attached()
      ensures runtime.View().conns == old(runtime.View()).conns[id := View()]
    {
      hide EventLog.TableOk;
    }

    /** The replay of a connection that is not registered yet. */
    method Preload(items: seq<EventLog.Event>)
      requires !closed && pending == [] && |items| <= maxPending
      modifies this`pending, this`closed, store`sessions, runtime`connections
      ensures pending == items && !closed && unchanged(store) && unchanged(runtime)
    {
      for i := 0 to |items|
        invariant pending == items[..i] && !closed && unchanged(store) && unchanged(runtime)
      {
        var ok := Enqueue(items[i]);
      }
    }

    method Enqueue(item: EventLog.Event) returns (ok: bool)
      modifies this`pending, this`closed, store`sessions, runtime`connections
      ensures ok <==> old(closed) || |old(pending)| < maxPending
      ensures if old(closed) then unchanged(this, store, runtime)
              else if ok then pending == old(pending) + [item] && !closed && unchanged(store, runtime)
              else closed && pending == [] && store.sessions == Shut(old(store.sessions), {id})
                   && runtime.connections == old(runtime.connections) - {id}
    {
      if closed { return true; }
      if |pending| >= maxPending {
        hide *;
        Shutdown();
        return false;
      }
      pending := pending + [item];
      ok := true;
    }

    /** Why the connection may not be used now, if it may not. */
    ghost function Refusing(authOk: bool): Option<Refusal>
      reads this, store
    {
      if closed then Some(ConnectionClosed)
      else if device !in store.devices || !store.devices[device].active then Some(Refusal.Revoked)
      else if !authOk then Some(Expired)
      else None
    }

    /** The check in front of every drain and receive; a connection that fails it is closed. */
    method AssertActive(authOk: bool) returns (refusal: Option<Refusal>)
      requires runtime.Valid() && Attached()
      modifies this`pending, this`closed, store`sessions, runtime`connections
      ensures runtime.Valid() && Attached()
      ensures refusal.None? <==> Passes(old(runtime.View()), id, authOk)
      ensures refusal == old(Refusing(authOk))
      ensures if refusal.None? then !closed && unchanged(this, store, runtime)
              else closed && runtime.View() == Rejected(old(runtime.View()), id)
    {
      hide EventLog.TableOk, CloseConn;
      if closed { return Some(ConnectionClosed); }
      if device !in store.devices || !store.devices[device].active {
        Close();
        return Some(Refusal.Revoked);
      }
      if !authOk {
        Close();
        return Some(Expired);
      }
      refusal := None;
    }

    /** Hands out the front of the queue, or refuses and closes. */
    method Drain(limit: int, authOk: bool) returns (r: Result<seq<EventLog.Event>, Refusal>)
      requires runtime.Valid() && Attached()
      modifies this, store`sessions, runtime`connections, runtime`delivered
      ensures runtime.Valid() && Attached()
      ensures r.Ok? <==> Passes(old(runtime.View()), id, authOk)
      ensures old(Refusing(authOk)).Some? ==> r == Err(old(Refusing(authOk)).value)
      ensures r.Ok? ==> r.value + pending == old(pending) && |r.value| == Basics.Min(|old(pending)|, Basics.Max(0, limit))
      ensures r.Ok? ==> drained == old(drained) + r.value && !closed
      ensures runtime.View() == DrainConn(old(runtime.View()), id, limit, authOk).0
      ensures r.Ok? ==> r.value == DrainConn(old(runtime.View()), id, limit, authOk).1
    {
      var refusal := AssertActive(authOk);
      if refusal.Some? { return Err(refusal.value); }
      var values := TakePending(limit);
      drained := drained + values;
      runtime.delivered := runtime.delivered + (set e | e in values :: (device, e.sequence));
      DrainedView(limit, values);
      r := Ok(values);
    }

    method TakePending(limit: int) returns (values: seq<EventLog.Event>)
      modifies this`pending, this`highestDelivered
      ensures values + pending == old(pending) && |values| == Basics.Min(|old(pending)|, Basics.Max(0, limit))
      ensures values == Handed(old(View()), limit) && |values| <= |old(pending)| && pending == old(pending)[|values|..]
      ensures highestDelivered == Last(old(highestDelivered), values)
      ensures highestDelivered >= old(highestDelivered) && forall e :: e in values ==> e.sequence <= highestDelivered
      ensures highestDelivered == old(highestDelivered) || exists e :: e in values && e.sequence == highestDelivered
    {
      values := [];
      while pending != [] && |values| < limit
        invariant values + pending == old(pending) && (|values| <= limit || values == [])
        invariant highestDelivered == Last(old(highestDelivered), values)
        invariant highestDelivered >= old(highestDelivered) && forall e :: e in values ==> e.sequence <= highestDelivered
        invariant highestDelivered == old(highestDelivered) || exists e :: e in values && e.sequence == highestDelivered
        decreases |pending|
      {
        var item := pending[0];
        pending := pending[1..];
        assert (values + [item])[..|values + [item]| - 1] == values;
        highestDelivered := if highestDelivered >= item.sequence then highestDelivered else item.sequence;
        values := values + [item];
      }
    }

    twostate lemma DrainedView(limit: int, new values: seq<EventLog.Event>)
      requires old(runtime.Valid() && Attached()) && !closed && !old(closed)
      requires Passes(old(runtime.View()), id, true)
      requires unchanged(runtime`connections) && unchanged(store)
      requires forall c :: c in runtime.connections && runtime.connections[c] != this ==> unchanged(runtime.connections[c])
      requires values == Handed(old(View()), limit)
      requires |values| <= |old(pending)| && pending == old(pending)[|values|..] && drained == old(drained) + values
      requires highestDelivered == Last(old(highestDelivered), values)
      requires runtime.delivered == old(runtime.delivered) + (set e | e in values :: (device, e.sequence))
      ensures runtime.Valid() && Attached()
      ensures runtime.View() == DrainConn(old(runtime.View()), id, limit, true).0
      ensures values == DrainConn(old(runtime.View()), id, limit, true).1
    {
      hide EventLog.TableOk, Handed, Last;
      Moved();
    }

    /**
     One inbound envelope.  An acknowledgement moves the device's durable cursor when it names something
     this connection was handed; any other request goes on to the router.
     */
    method Receive(m: Message, authOk: bool) returns (r: Result<Reply, Refusal>)
      requires runtime.Valid() && Attached()
      modifies this`pending, this`closed, store`sessions, store`cursors, runtime`connections
      ensures runtime.Valid() && Attached()
      ensures m.Acknowledge? && m.sequence.Some? ==>
        runtime.View() == AckCursor(old(runtime.View()), id, m.sequence.value, authOk)
      ensures !(m.Acknowledge? && m.sequence.Some?) ==>
        runtime.View() == if Passes(old(runtime.View()), id, authOk) then old(runtime.View()) else Rejected(old(runtime.View()), id)
      ensures r == Ok(Dispatch) <==> m.Other? && Passes(old(runtime.View()), id, authOk)
      ensures r ==
        if old(Refusing(authOk)).Some? then Err(old(Refusing(authOk)).value)
        else match m
          case Ping => Ok(Pong)
          case Other => Ok(Dispatch)
          case Acknowledge(None) => Err(InvalidCursor)
          case Acknowledge(Some(n)) => old(Acknowledging(n))
      ensures m.Acknowledge? && r.Ok? ==>
        m.sequence.Some? && r.value == Acknowledged(m.sequence.value) && store.cursors == old(store.cursors)[device := m.sequence.value]
    {
      hide EventLog.TableOk, CloseConn, Rejected, Shut;
      var refusal := AssertActive(authOk);
      if refusal.Some? { return Err(refusal.value); }
      if m.Ping? { return Ok(Pong); }
      if m.Other? { return Ok(Dispatch); }
      if m.sequence.None? { return Err(InvalidCursor); }
      r := MoveCursor(m.sequence.value);
    }

    /** What an acknowledgement of `sequence` is answered. */
    ghost function Acknowledging(sequence: int): Result<Reply, Refusal>
      reads this, store
    {
      if sequence < 0 || sequence > highestDelivered then Err(InvalidCursor)
      else if device in store.cursors && sequence < store.cursors[device] then Err(CursorBackwards)
      else Ok(Acknowledged(sequence))
    }

    /** The acknowledgement of a connection that passed its check. */
    method MoveCursor(sequence: int) returns (r: Result<Reply, Refusal>)
      requires runtime.Valid() && Attached() && !closed && Passes(runtime.View(), id, true)
      modifies store`cursors
      ensures runtime.Valid() && Attached()
      ensures runtime.View() == AckCursor(old(runtime.View()), id, sequence, true)
      ensures r == old(Acknowledging(sequence))
      ensures store.cursors == if r.Ok? then old(store.cursors)[device := sequence] else old(store.cursors)
    {
      hide EventLog.TableOk;
      if sequence < 0 || sequence > highestDelivered { return Err(InvalidCursor); }
      var error := store.SetCursor(device, sequence);
      if error.Some? { return Err(CursorBackwards); }
      r := Ok(Acknowledged(sequence));
    }
  }

  class GatewayWebSocketRuntime {
    const store: Store.GatewayStore
    const maxPending: int
    const replayLimit: int
    var connections: map<string, GatewayConnection>
    ghost var delivered: set<(string, nat)>

    ghost predicate Valid()
      reads this, store, connections.Values
    {
      && store.Valid()
      && forall c :: c in connections ==>
           c in store.sessions && connections[c].id == c && connections[c].runtime == this && connections[c].store == store
           && connections[c].maxPending == maxPending && !connections[c].closed
    }

    ghost function View(): Hub
      reads this, store, connections.Values
    {
      Hub(store.devices, store.sessions, store.events, store.history, store.next, store.cursors,
          map c | c in connections :: connections[c].View(), delivered)
    }

    constructor (store: Store.GatewayStore, maxPending: int, replayLimit: int)
      requires store.Valid()
      ensures Valid() && this.store == store && this.maxPending == maxPending && this.replayLimit == replayLimit
      ensures connections == map[] && delivered == {}
    {
      this.store, this.maxPending, this.replayLimit := store, maxPending, replayLimit;
      connections, delivered := map[], {};
    }

    method RemoveConnection(id: string)
      modifies `connections
      ensures connections == old(connections) - {id}
    {
      connections := connections - {id};
    }

    ghost function Cfg(): Config { Config(store.retention, maxPending, replayLimit) }

    /**
     Opens the session row, replays from the start cursor and registers the connection.  `id` is the
     random connection identifier.
     */
    method Connect(id: string, device: string, after: Option<int>) returns (r: ConnectResult, conn: GatewayConnection?)
      requires Valid()
      modifies this`connections, store`sessions
      ensures Valid()
      ensures View() == TryConnect(Cfg(), old(View()), id, device, after).0
      ensures r == TryConnect(Cfg(), old(View()), id, device, after).1
      ensures r.Connected? ==> id in connections && conn == connections[id]
    {
      hide EventLog.TableOk, EventLog.EventsAfter, TryConnect, Shut;
      conn := null;
      if device !in store.devices || !store.devices[device].active {
        Refused(id, device, after);
        return Unauthorized, null;
      }
      if id in store.sessions {
        Refused(id, device, after);
        return SessionExists, null;
      }
      r, conn := Admit(id, device, after);
    }

    /** The part of `connect` after the trust check, for an identifier that is new. */
    method Admit(id: string, device: string, after: Option<int>) returns (r: ConnectResult, conn: GatewayConnection?)
      requires Valid() && device in store.devices && store.devices[device].active && id !in store.sessions
      modifies this`connections, store`sessions
      ensures Valid()
      ensures View() == TryConnect(Cfg(), old(View()), id, device, after).0
      ensures r == TryConnect(Cfg(), old(View()), id, device, after).1
      ensures r.Connected? ==> id in connections && conn == connections[id]
    {
      hide EventLog.TableOk, EventLog.EventsAfter, TryConnect, Shut, View, IsActive, StartOf, Limit, Valid;
      conn := null;
      Begins(device, after);
      var workspace := store.devices[device].workspace;
      var error := store.OpenConnection(id, device);
      var cursor := store.Cursor(device);
      if after.Some? { cursor := after.value; }
      var limit := if replayLimit <= maxPending then replayLimit else maxPending;
      var replay := store.EventsAfter(workspace, cursor, limit);
      if maxPending <= 0 || replay == Err(EventLog.BadLimit) {
        Joined(id, device, after, cursor);
        return BadConfig, null;
      }
      if replay.Err? {
        ghost var none: seq<EventLog.Event> := [];
        var c := new GatewayConnection(id, device, workspace, this, cursor, none, |store.history|);
        c.Shutdown();
        GapFound(id, device, after, cursor);
        return ReplayGap, null;
      }
      ReplayFits(store.events, workspace, cursor, limit);
      var c := Enroll(id, device, workspace, cursor, replay.value);
      r, conn := Connected, c;
      Registered(id, after, cursor, c);
    }

    /** A new connection object with the replay in its queue, registered. */
    method Enroll(id: string, device: string, workspace: string, cursor: int, replay: seq<EventLog.Event>)
      returns (c: GatewayConnection)
      requires maxPending > 0 && |replay| <= maxPending
      modifies this`connections, store`sessions
      ensures fresh(c) && connections == old(connections)[id := c] && unchanged(store) && delivered == old(delivered)
      ensures c.id == id && c.runtime == this && c.store == store && c.maxPending == maxPending && !c.closed
      ensures c.View() == Conn(device, workspace, cursor, replay, |store.history|, [], replay, 0)
    {
      c := new GatewayConnection(id, device, workspace, this, cursor, replay, |store.history|);
      c.Preload(replay);
      connections := connections[id := c];
    }

    /** What a connect reads of the state, in the protocol's terms. */
    lemma Begins(device: string, after: Option<int>)
      requires Valid() && device in store.devices && store.devices[device].active
      ensures store.Valid() && IsActive(View(), device)
      ensures StartOf(View(), device, after) ==
        if after.Some? then after.value else if device in store.cursors then store.cursors[device] else 0
      ensures Limit(Cfg()) == if replayLimit <= maxPending then replayLimit else maxPending
    {
    }

    lemma ReplayFits(log: seq<EventLog.Event>, w: string, cursor: int, limit: int)
      ensures var r := EventLog.EventsAfter(log, w, cursor, limit); r.Ok? ==> |r.value| <= limit
    {
    }

    lemma Refused(id: string, device: string, after: Option<int>)
      requires Valid()
      requires device !in store.devices || !store.devices[device].active || id in store.sessions
      ensures TryConnect(Cfg(), View(), id, device, after).0 == View()
      ensures TryConnect(Cfg(), View(), id, device, after).1 ==
        if device !in store.devices || !store.devices[device].active then Unauthorized else SessionExists
    {
      hide EventLog.TableOk, EventLog.EventsAfter;
    }

    /** Sessions and connections aside, the state is as it was, and the old connections are untouched. */
    twostate predicate OnlyJoins()
      reads this, store, connections.Values
    {
      && store.devices == old(store.devices) && store.events == old(store.events) && store.next == old(store.next)
      && store.history == old(store.history) && store.cursors == old(store.cursors) && delivered == old(delivered)
      && forall c :: c in old(connections) && c in connections && connections[c] == old(connections[c]) ==> unchanged(connections[c])
    }

    /** What both outcomes after the session row was opened have in common. */
    twostate predicate Opened(new id: string, new device: string, new after: Option<int>, new cursor: int)
      reads this, store, connections.Values
    {
      && old(Valid()) && OnlyJoins() && IsActive(old(View()), device) && id !in old(store.sessions)
      && cursor == StartOf(old(View()), device, after)
    }

    twostate lemma Joined(new id: string, new device: string, new after: Option<int>, new cursor: int)
      requires Opened(id, device, after, cursor) && connections == old(connections)
      requires store.sessions == old(store.sessions)[id := Session(device, true)]
      requires maxPending <= 0
        || EventLog.EventsAfter(store.events, store.devices[device].workspace, cursor, Limit(Cfg())) == Err(EventLog.BadLimit)
      ensures Valid() && View() == TryConnect(Cfg(), old(View()), id, device, after).0
      ensures TryConnect(Cfg(), old(View()), id, device, after).1 == BadConfig
    {
      hide EventLog.TableOk, EventLog.EventsAfter;
    }

    twostate lemma GapFound(new id: string, new device: string, new after: Option<int>, new cursor: int)
      requires Opened(id, device, after, cursor) && connections == old(connections) - {id} && maxPending > 0
      requires store.sessions == Shut(old(store.sessions)[id := Session(device, true)], {id})
      requires var r := EventLog.EventsAfter(store.events, store.devices[device].workspace, cursor, Limit(Cfg()));
        r.Err? && r != Err(EventLog.BadLimit)
      ensures Valid() && View() == TryConnect(Cfg(), old(View()), id, device, after).0
      ensures TryConnect(Cfg(), old(View()), id, device, after).1 == ReplayGap
    {
      hide EventLog.TableOk, EventLog.EventsAfter;
    }

    /** A new connection beside the untouched old ones. */
    twostate lemma NewConn(new id: string, new c: GatewayConnection)
      requires old(Valid()) && OnlyJoins() && id !in old(store.sessions) && connections == old(connections)[id := c]
      ensures View().conns == old(View()).conns[id := c.View()]
    {
      hide EventLog.TableOk;
      assert id !in old(connections);
    }

    twostate lemma NewConnValid(new id: string, new c: GatewayConnection)
      requires old(Valid()) && OnlyJoins() && id !in old(store.sessions) && connections == old(connections)[id := c]
      requires id in store.sessions && old(store.sessions).Keys <= store.sessions.Keys
      requires c.id == id && c.runtime == this && c.store == store && c.maxPending == maxPending && !c.closed
      ensures Valid()
    {
      hide EventLog.TableOk;
      assert id !in old(connections);
    }

    twostate lemma Registered(new id: string, new after: Option<int>, new cursor: int, new c: GatewayConnection)
      requires Opened(id, c.device, after, cursor) && connections == old(connections)[id := c] && maxPending > 0
      requires store.sessions == old(store.sessions)[id := Session(c.device, true)]
      requires EventLog.EventsAfter(store.events, store.devices[c.device].workspace, cursor, Limit(Cfg())) == Ok(c.replayed)
      requires c.id == id && c.runtime == this && c.store == store && c.maxPending == maxPending && !c.closed
      requires c.View() ==
        Conn(c.device, store.devices[c.device].workspace, cursor, c.replayed, |store.history|, [], c.replayed, 0)
      ensures Valid() && View() == TryConnect(Cfg(), old(View()), id, c.device, after).0
      ensures TryConnect(Cfg(), old(View()), id, c.device, after).1 == Connected
    {
      hide EventLog.TableOk, EventLog.EventsAfter, Shut, StartOf, Limit, TryConnect, IsActive, Valid;
      NewConn(id, c);
      NewConnValid(id, c);
      ConnectSucceeds(Cfg(), old(View()), id, c.device, after, c.replayed);
    }

    /** One target of a publication: enqueue, or disconnect a consumer whose queue is full. */
    method OfferTo(c: GatewayConnection, item: EventLog.Event) returns (ok: bool)
      requires Valid() && c.id in connections && connections[c.id] == c
      modifies this`connections, store`sessions, c`pending, c`closed
      ensures Valid() && View() == Offered(Cfg(), old(View()), c.id, item)
      ensures connections == if ok then old(connections) else old(connections) - {c.id}
    {
      hide EventLog.TableOk, Shut, CloseConn;
      ok := true;
      if c.workspace != item.workspace {
        assert View().conns == View().conns[c.id := c.View()];
        return;
      }
      ok := c.Enqueue(item);
      if ok {
        c.Moved();
      } else {
        ShutCloses(old(store.sessions), c.id);
        c.Detached();
      }
    }

    /** Appends the event, then serves every connection that was registered at that moment. */
    method PublishNow(workspace: string, envelope: string) returns (sequence: nat)
      requires Valid()
      modifies this`connections, store`events, store`next, store`history, store`sessions, connections.Values
      ensures Valid() && sequence == old(store.next)
      ensures View() == PublishEvent(Cfg(), old(View()), workspace, envelope)
    {
      hide EventLog.TableOk, EventLog.Appended, EventLog.InWorkspace, Basics.Newest, PublishEvent, PartWay, Offered, Shut;
      ghost var h := View();
      PartWayStarts(Cfg(), h, workspace, envelope);
      sequence := store.AppendEvent(workspace, envelope);
      var item := EventLog.Event(sequence, workspace, envelope);
      assert h.conns.Keys == connections.Keys && View() == h.(log := store.events, history := store.history, next := store.next);
      ServeAll(item, h, workspace, envelope);
      PartWayEnds(Cfg(), h, workspace, envelope);
    }

    method ServeAll(item: EventLog.Event, ghost h: Hub, workspace: string, envelope: string)
      requires Valid() && item == EventLog.Event(h.next, workspace, envelope) && h.conns.Keys == connections.Keys
      requires View() == PartWay(Cfg(), h, workspace, envelope, connections.Keys)
      modifies this`connections, store`sessions, connections.Values
      ensures Valid() && View() == PartWay(Cfg(), h, workspace, envelope, {})
    {
      hide *;
      var targets, stale: set<string> := connections, {};
      var todo := targets.Keys;
      while todo != {}
        invariant todo <= targets.Keys && Valid() && View() == PartWay(Cfg(), h, workspace, envelope, todo)
        invariant forall c :: c in connections ==> c in targets && connections[c] == targets[c]
        invariant todo <= connections.Keys && stale !! connections.Keys
      {
        var id :| id in todo;
        PartWayStep(Cfg(), h, workspace, envelope, todo, id);
        OwnName(id);
        var ok := OfferTo(targets[id], item);
        if !ok { stale := stale + {id}; }
        todo := todo - {id};
      }
      ghost var served := connections;
      connections := connections - stale;
      assert connections == served;
    }

    /** Shuts every registered connection down. */
    method Close()
      requires Valid()
      modifies this`connections, store`sessions, connections.Values
      ensures Valid() && connections == map[]
      ensures View() == old(View()).(conns := map[], sessions := Shut(old(store.sessions), old(connections).Keys))
    {
      hide EventLog.TableOk, Shut;
      var targets := connections;
      var todo := targets.Keys;
      ghost var done: set<string> := {};
      NoneShut(store.sessions);
      while todo != {}
        invariant todo + done == targets.Keys && connections.Keys == todo
        invariant forall c :: c in todo ==> !targets[c].closed
        invariant store.sessions == Shut(old(store.sessions), done) && store.Valid()
      {
        var id :| id in todo;
        targets[id].Shutdown();
        ShutMore(old(store.sessions), done, id);
        todo, done := todo - {id}, done + {id};
      }
      assert done == targets.Keys && View().conns == map[];
    }

    /** What a revocation in the store does to the runtime: the protocol's revoke action. */
    twostate lemma RevokedView(new d: string)
      requires old(Valid()) && connections == old(connections) && delivered == old(delivered)
      requires forall c :: c in connections ==> unchanged(connections[c])
      requires forall c :: c in old(store.sessions) ==> old(store.sessions)[c].device in old(store.devices)
      requires store.devices == if d in old(store.devices) then old(store.devices)[d := old(store.devices)[d].(active := false)]
                                else old(store.devices)
      requires store.sessions == Shut(old(store.sessions), set c | c in old(store.sessions) && old(store.sessions)[c].device == d)
      requires store.events == old(store.events) && store.next == old(store.next)
      requires store.history == old(store.history) && store.cursors == old(store.cursors)
      ensures Valid() && View() == RevokeDevice(old(View()), d)
    {
      hide EventLog.TableOk;
      NoneShut(old(store.sessions));
      assert d !in old(store.devices) ==> (set c | c in old(store.sessions) && old(store.sessions)[c].device == d) == {};
    }

    lemma OwnName(id: string)
      requires Valid() && id in connections
      ensures connections[id].id == id && connections[id].runtime == this && connections[id].store == store
    {
    }
  }

  /** A publication with the targets in `todo` still to be served. */
  ghost function PartWay(cfg: Config, h: Hub, w: string, envelope: string, todo: set<string>): Hub {
    var e := EventLog.Event(h.next, w, envelope);
    h.(log := EventLog.Appended(h.log, e, cfg.retention), history := h.history + [e], next := h.next + 1,
       conns := map c | c in h.conns && (c in todo || !Overflows(cfg, h.conns[c], w)) ::
         if c in todo then h.conns[c] else Offer(h.conns[c], e),
       sessions := Shut(h.sessions, set c | c in h.conns && c !in todo && Overflows(cfg, h.conns[c], w)))
  }

  lemma PartWayStarts(cfg: Config, h: Hub, w: string, envelope: string)
    ensures var e := EventLog.Event(h.next, w, envelope);
      PartWay(cfg, h, w, envelope, h.conns.Keys)
      == h.(log := EventLog.Appended(h.log, e, cfg.retention), history := h.history + [e], next := h.next + 1)
  {
  }

  lemma PartWayEnds(cfg: Config, h: Hub, w: string, envelope: string)
    ensures PartWay(cfg, h, w, envelope, {}) == PublishEvent(cfg, h, w, envelope)
  {
  }

  lemma PartWayStep(cfg: Config, h: Hub, w: string, envelope: string, todo: set<string>, id: string)
    requires id in todo && todo <= h.conns.Keys
    ensures id in PartWay(cfg, h, w, envelope, todo).conns
    ensures PartWay(cfg, h, w, envelope, todo - {id})
      == Offered(cfg, PartWay(cfg, h, w, envelope, todo), id, EventLog.Event(h.next, w, envelope))
  {
    var p, q := PartWay(cfg, h, w, envelope, todo), PartWay(cfg, h, w, envelope, todo - {id});
    var r := Offered(cfg, p, id, EventLog.Event(h.next, w, envelope));
    assert q.conns == r.conns;
    assert q.sessions == r.sessions;
  }

  /** The state after one target of a publication was served. */
  ghost function Offered(cfg: Config, h: Hub, id: string, e: EventLog.Event): Hub
    requires id in h.conns
  {
    if Overflows(cfg, h.conns[id], e.workspace) then CloseConn(h, id)
    else h.(conns := h.conns[id := Offer(h.conns[id], e)])
  }
}
