/**
 What each call of the delivery protocol does to the state it is made in: for connect, publish, drain,
 acknowledge, close and restart, every outcome with its condition, and that nothing else changes.
 */
module DeliveryCalls {
  import opened Basics
  import opened Wrappers
  import opened EventLog
  import opened Delivery
  import DeliveryTheorems

  // --- connect -------------------------------------------------------------------------------------

  /** The queue bound or the replay limit cannot be used. */
  predicate Unusable(cfg: Config) {
    cfg.maxPending <= 0 || cfg.replayLimit <= 0 || (cfg.replayLimit > 1000 && cfg.maxPending > 1000)
  }

  /** Where a connect starts: at the cursor the client names, or else at the stored one, or else at zero. */
  function Begin(h: Hub, d: string, after: Option<int>): int {
    match after
    case Some(cursor) => cursor
    case None => if d in h.cursors then h.cursors[d] else 0
  }

  /**
   Every connect: who is refused and why, what the failure leaves behind, and what a new connection holds:
   the first `min(replay_limit, max_pending)` retained events above its start cursor.
   */
  lemma ConnectOutcome(cfg: Config, h: Hub, id: string, d: string, after: Option<int>)
    requires TableOk(h.log, h.history, h.next, cfg.retention)
    ensures var (h', r) := TryConnect(cfg, h, id, d, after);
      if d !in h.devices || !h.devices[d].active then r == Unauthorized && h' == h
      else if id in h.sessions then r == SessionExists && h' == h
      else
        var w, start := h.devices[d].workspace, Begin(h, d, after);
        var lost := Ahead(h.history, w, start) || Outside(h.log, w, start);
        && r == (if Unusable(cfg) then BadConfig else if lost then ReplayGap else Connected)
        && h' == h.(sessions := h.sessions[id := Session(d, r != ReplayGap)], conns := h'.conns)
        && (r != Connected ==> h'.conns == h.conns)
        && (r == Connected ==>
              && id in h'.conns && h'.conns == h.conns[id := h'.conns[id]]
              && var k := h'.conns[id];
              && k == Conn(d, w, start, k.pending, |h.history|, [], k.pending, 0)
              && IsReplay(k.pending, h.log, w, start, if cfg.replayLimit < cfg.maxPending then cfg.replayLimit else cfg.maxPending))
  {
    hide TableOk, IsReplay, EventsAfter, Ahead, Outside;
    if IsActive(h, d) && id !in h.sessions {
      ReplayOutcome(h.log, h.history, h.next, cfg.retention, h.devices[d].workspace, Begin(h, d, after), Limit(cfg));
      assert StartOf(h, d, after) == Begin(h, d, after);
    }
  }

  // --- publish -------------------------------------------------------------------------------------

  /**
   Every publication: a connection of the workspace gets the event behind its queue if the queue has room,
   and is closed together with its session if it has none; all others stay as they are.
   */
  lemma PublishOutcome(cfg: Config, h: Hub, w: string, envelope: string)
    ensures var h', e := PublishEvent(cfg, h, w, envelope), Event(h.next, w, envelope);
      && h' == h.(log := h'.log, history := h.history + [e], next := h.next + 1, conns := h'.conns, sessions := h'.sessions)
      && (forall c :: c in h'.conns <==> c in h.conns && (h.conns[c].workspace != w || |h.conns[c].pending| < cfg.maxPending))
      && (forall c :: c in h'.conns ==>
            h'.conns[c] == if h.conns[c].workspace == w then h.conns[c].(pending := h.conns[c].pending + [e]) else h.conns[c])
      && h'.sessions.Keys == h.sessions.Keys
      && (forall c :: c in h'.sessions ==>
            && h'.sessions[c].device == h.sessions[c].device
            && (h'.sessions[c].open <==> h.sessions[c].open && (c in h.conns ==> c in h'.conns)))
  {
    hide Appended;
  }

  // --- drain ---------------------------------------------------------------------------------------

  /** The connection is registered, its device active and its authorization current. */
  predicate Cleared(h: Hub, id: string, authOk: bool) {
    id in h.conns && h.conns[id].device in h.devices && h.devices[h.conns[id].device].active && authOk
  }

  /** `h'` is `h` without the connection, its session closed. */
  predicate Closed(h: Hub, h': Hub, id: string) {
    && id !in h'.conns && h' == h.(conns := h.conns - {id}, sessions := h'.sessions)
    && h'.sessions.Keys == h.sessions.Keys
    && forall c :: c in h.sessions ==> h'.sessions[c] == if c == id then Session(h.sessions[c].device, false) else h.sessions[c]
  }

  lemma CloseCloses(h: Hub, id: string)
    ensures Closed(h, CloseConn(h, id), id)
  {
    assert forall c :: c in h.sessions ==> Session(h.sessions[c].device, h.sessions[c].open) == h.sessions[c];
  }

  /**
   Every drain: a connection that passes hands out the front of its queue, as much as the limit and the queue
   allow and nothing else, keeps the rest, and what it hands out is delivered; any other one is closed.
   */
  lemma DrainOutcome(h: Hub, id: string, limit: int, authOk: bool)
    ensures var (h', out) := DrainConn(h, id, limit, authOk);
      if Cleared(h, id, authOk) then
        var k := h.conns[id];
        && id in h'.conns && out + h'.conns[id].pending == k.pending && |out| == Min(|k.pending|, Max(0, limit))
        && h'.conns[id] == k.(drained := k.drained + out, pending := h'.conns[id].pending, highest := h'.conns[id].highest)
        && h' == h.(conns := h.conns[id := h'.conns[id]], delivered := h'.delivered)
        && (forall x :: x in h'.delivered <==> x in h.delivered || exists e :: e in out && x == (k.device, e.sequence))
      else out == [] && if id in h.conns then Closed(h, h', id) else h' == h
  {
    CloseCloses(h, id);
    hide Shut, Closed;
    if Cleared(h, id, authOk) {
      var k, out := h.conns[id], DrainConn(h, id, limit, authOk).1;
      assert out == k.pending[..|out|];
      hide Last;
    }
  }

  /** Action number `k` of the run handed event number `n` to the device. */
  ghost predicate HandedAt(cfg: Config, actions: seq<Action>, k: int, d: string, n: nat) {
    && 0 <= k < |actions| && actions[k].Drain?
    && var h, id := Run(cfg, Init(), actions[..k]), actions[k].id;
    && id in h.conns && h.conns[id].device == d
    && exists e :: e in DrainConn(h, id, actions[k].limit, actions[k].authOk).1 && e.sequence == n
  }

  lemma DeliveredStep(cfg: Config, h: Hub, a: Action, d: string, n: nat)
    ensures (d, n) in Step(cfg, h, a).delivered <==>
      || (d, n) in h.delivered
      || (&& a.Drain? && a.id in h.conns && h.conns[a.id].device == d
          && exists e :: e in DrainConn(h, a.id, a.limit, a.authOk).1 && e.sequence == n)
  {
    hide Appended, EventsAfter, Shut, Last, Handed;
    if a.Drain? {
      var out := DrainConn(h, a.id, a.limit, a.authOk).1;
      if e :| e in out && e.sequence == n && h.conns[a.id].device == d {
        assert (h.conns[a.id].device, e.sequence) in (set e | e in out :: (h.conns[a.id].device, e.sequence));
      }
    }
  }

  /** Delivered to a device is what some drain of one of its connections returned, no more and no less. */
  lemma {:induction false} DeliveredIff(cfg: Config, actions: seq<Action>, d: string, n: nat)
    ensures (d, n) in Run(cfg, Init(), actions).delivered <==> exists k :: HandedAt(cfg, actions, k, d, n)
  {
    hide Step, DrainConn;
    if actions != [] {
      var front, last := actions[..|actions| - 1], |actions| - 1;
      DeliveredIff(cfg, front, d, n);
      DeliveredStep(cfg, Run(cfg, Init(), front), actions[last], d, n);
      forall k | 0 <= k < last
        ensures HandedAt(cfg, front, k, d, n) <==> HandedAt(cfg, actions, k, d, n)
      {
        assert front[..k] == actions[..k];
      }
      if (d, n) in Run(cfg, Init(), front).delivered {
        var k :| HandedAt(cfg, front, k, d, n);
        assert HandedAt(cfg, actions, k, d, n);
      }
      assert actions[..last] == front;
      assert HandedAt(cfg, actions, last, d, n) <==>
        && actions[last].Drain?
        && var h, a := Run(cfg, Init(), front), actions[last];
        && a.id in h.conns && h.conns[a.id].device == d
        && exists e :: e in DrainConn(h, a.id, a.limit, a.authOk).1 && e.sequence == n;
      if k :| HandedAt(cfg, actions, k, d, n) {
        if k < last { assert HandedAt(cfg, front, k, d, n); }
      }
    }
  }

  /**
   Catching up: at any point of any run, a drain that passes and whose limit covers the queue empties it, and
   then everything the connection was ever to send is delivered to its device; that is the whole history
   above its start cursor exactly if its replay was not truncated.
   */
  lemma DrainCatchesUp(cfg: Config, h: Hub, id: string, d: string, after: Option<int>, actions: seq<Action>, limit: int)
    requires Inv(cfg, h) && TryConnect(cfg, h, id, d, after).1.Connected?
    requires var h' := Run(cfg, TryConnect(cfg, h, id, d, after).0, actions);
      Cleared(h', id, true) && limit >= |h'.conns[id].pending|
    ensures var h' := Run(cfg, TryConnect(cfg, h, id, d, after).0, actions);
      var h'', w := DrainConn(h', id, limit, true).0, h.devices[d].workspace;
      && id in h''.conns && h''.conns[id].pending == []
      && h''.conns[id].drained == h'.conns[id].drained + h'.conns[id].pending
      && (forall e :: e in h''.conns[id].drained ==> (d, e.sequence) in h''.delivered)
      && (h''.conns[id].drained == Above(InWorkspace(h'.history, w), Begin(h, d, after))
          <==> DeliveryTheorems.Untruncated(cfg, h, w, Begin(h, d, after)))
  {
    hide Run, Inv, TryConnect, DrainConn, InWorkspace, Above, DeliveryTheorems.Untruncated;
    var h1 := TryConnect(cfg, h, id, d, after).0;
    var h' := Run(cfg, h1, actions);
    assert Begin(h, d, after) == StartOf(h, d, after);
    Joins(cfg, h, id, d, after);
    ConnectKeeps(cfg, h, id, d, after);
    RunKeeps(cfg, h1, actions);
    DeliveryTheorems.RunOrigin(cfg, h1, actions, id);
    DeliveryTheorems.OpenConnectionSeesHistoryIff(cfg, h, id, d, after, actions);
    DrainOutcome(h', id, limit, true);
    DrainKeeps(cfg, h', id, limit);
    Drained(cfg, DrainConn(h', id, limit, true).0, id);
    assert h'.conns[id].pending + [] == h'.conns[id].pending;
  }

  lemma Joins(cfg: Config, h: Hub, id: string, d: string, after: Option<int>)
    requires TryConnect(cfg, h, id, d, after).1.Connected?
    ensures var h' := TryConnect(cfg, h, id, d, after).0;
      && d in h.devices && id in h'.sessions && id in h'.conns
      && h'.conns[id].device == d && h'.conns[id].workspace == h.devices[d].workspace
  {
    hide EventsAfter, Shut;
  }

  lemma Drained(cfg: Config, h: Hub, id: string)
    requires Inv(cfg, h) && id in h.conns
    ensures forall e :: e in h.conns[id].drained ==> (h.conns[id].device, e.sequence) in h.delivered
  {
    assert ConnOk(cfg, h, h.conns[id]);
  }

  // --- acknowledge, close, restart ---------------------------------------------------------------------

  /**
   Every acknowledgement on a connection that passes: it moves the device's cursor exactly if it is neither
   below the cursor nor above the last event this connection handed out; the others change nothing.
   */
  lemma AckOutcome(cfg: Config, h: Hub, id: string, sequence: int, authOk: bool)
    requires Inv(cfg, h)
    ensures var h' := AckCursor(h, id, sequence, authOk);
      if Cleared(h, id, authOk) then
        var k := h.conns[id];
        var last := if k.drained == [] then 0 else k.drained[|k.drained| - 1].sequence;
        var stored := if k.device in h.cursors then h.cursors[k.device] else 0;
        h' == if 0 <= sequence <= last && stored <= sequence then h.(cursors := h.cursors[k.device := sequence]) else h
      else if id in h.conns then Closed(h, h', id) else h' == h
  {
    CloseCloses(h, id);
    hide Closed, Shut;
    if id in h.conns { assert ConnOk(cfg, h, h.conns[id]); }
  }

  /** Every other request passes without a change or closes its connection; closing and restarting say what is left. */
  lemma EndOutcome(cfg: Config, h: Hub, id: string, authOk: bool)
    ensures var h' := Step(cfg, h, Request(id, authOk));
      if Cleared(h, id, authOk) || id !in h.conns then h' == h else Closed(h, h', id)
    ensures Closed(h, Step(cfg, h, Close(id)), id)
    ensures var h' := Step(cfg, h, Restart);
      && h' == h.(conns := map[], sessions := h'.sessions) && h'.sessions.Keys == h.sessions.Keys
      && forall c :: c in h.sessions ==> h'.sessions[c] == Session(h.sessions[c].device, false)
  {
    CloseCloses(h, id);
  }

  /** Every revocation: the device and its open sessions, and nothing else. */
  lemma RevokeOutcome(h: Hub, d: string)
    ensures var h' := RevokeDevice(h, d);
      if d !in h.devices then h' == h
      else
        && h' == h.(devices := h.devices[d := Device(h.devices[d].workspace, false)], sessions := h'.sessions)
        && h'.sessions.Keys == h.sessions.Keys
        && forall c :: c in h.sessions ==>
             h'.sessions[c] == if h.sessions[c].device == d then Session(d, false) else h.sessions[c]
  {
  }
}
