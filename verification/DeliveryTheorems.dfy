/** What the delivery protocol guarantees over whole runs. */
module DeliveryTheorems {
  import opened Basics
  import opened Wrappers
  import opened EventLog
  import opened Delivery

  lemma ReachableOk(cfg: Config, actions: seq<Action>)
    requires cfg.retention > 0
    ensures Inv(cfg, Run(cfg, Init(), actions))
  {
    RunKeeps(cfg, Init(), actions);
  }

  // --- one connection sees the whole history -------------------------------------------------

  lemma WindowIsHistoryIff(history: seq<Event>, k: Conn)
    requires WindowOk(history, k) && Ordered(history)
    requires forall i :: 0 <= i < |history| ==> history[i].sequence > 0
    ensures (k.drained + k.pending == Above(InWorkspace(history, k.workspace), k.start))
       <==> (k.replayed == Above(InWorkspace(history[..k.since], k.workspace), k.start))
  {
    var before, since := history[..k.since], history[k.since..];
    var a, b := InWorkspace(before, k.workspace), InWorkspace(since, k.workspace);
    assert InWorkspace(history, k.workspace) == a + b by {
      assert history == before + since;
      InWorkspaceConcat(before, since, k.workspace);
    }
    forall i | 0 <= i < |b|
      ensures b[i].sequence > k.start
    {
      SinceIsNewer(history, k, b[i]);
    }
    assert Above(a + b, k.start) == Above(a, k.start) + b by {
      AboveConcat(a, b, k.start);
      EverythingAbove(b, k.start);
    }
    SameFront(k.replayed, Above(a, k.start), b);
  }

  lemma SameFront(x: seq<Event>, y: seq<Event>, tail: seq<Event>)
    ensures x + tail == y + tail <==> x == y
  {
    if x + tail == y + tail {
      assert |x| == |y|;
      assert x == (x + tail)[..|x|] == (y + tail)[..|y|] == y;
    }
  }

  lemma SinceIsNewer(history: seq<Event>, k: Conn, e: Event)
    requires WindowOk(history, k) && Ordered(history)
    requires forall i :: 0 <= i < |history| ==> history[i].sequence > 0
    requires e in InWorkspace(history[k.since..], k.workspace)
    ensures e.sequence > k.start
  {
    var a := InWorkspace(history[..k.since], k.workspace);
    InWorkspaceMembers(history[k.since..], k.workspace, e);
    var j :| k.since <= j < |history| && history[j] == e;
    if a != [] {
      InWorkspaceMembers(history[..k.since], k.workspace, a[|a| - 1]);
      var i :| 0 <= i < k.since && history[i] == a[|a| - 1];
    }
  }

  ghost predicate SameOrigin(k: Conn, k': Conn) {
    k.device == k'.device && k.workspace == k'.workspace && k.start == k'.start
    && k.replayed == k'.replayed && k.since == k'.since
  }

  lemma StepOrigin(cfg: Config, h: Hub, a: Action, id: string)
    requires id in h.sessions
    ensures var h' := Step(cfg, h, a);
            && id in h'.sessions && h.history <= h'.history
            && (id in h'.conns ==> id in h.conns && SameOrigin(h.conns[id], h'.conns[id]))
  {
    hide Appended, EventsAfter;
  }

  lemma {:induction false} RunOrigin(cfg: Config, h: Hub, actions: seq<Action>, id: string)
    requires id in h.sessions
    ensures var h' := Run(cfg, h, actions);
            && id in h'.sessions && h.history <= h'.history
            && (id in h'.conns ==> id in h.conns && SameOrigin(h.conns[id], h'.conns[id]))
  {
    hide Step;
    if actions != [] {
      var front := actions[..|actions| - 1];
      RunOrigin(cfg, h, front, id);
      StepOrigin(cfg, Run(cfg, h, front), actions[|actions| - 1], id);
    }
  }

  /** Everything above the start cursor that the workspace ever published fits in this replay. */
  ghost predicate Untruncated(cfg: Config, h: Hub, w: string, start: int) {
    |Above(InWorkspace(h.log, w), start)| <= Limit(cfg) && (start > 0 || !PrunedAbove(h.log, h.history, w, start))
  }

  /**
   As long as a connection is open, what it drained followed by what it holds is the full workspace
   history above its start cursor, in order, without gap or repeat, exactly if the replay it got at
   connect was untruncated.  Its queue is always within bounds.
   */
  lemma OpenConnectionSeesHistoryIff(cfg: Config, h: Hub, id: string, d: string, after: Option<int>, actions: seq<Action>)
    requires Inv(cfg, h)
    requires TryConnect(cfg, h, id, d, after).1.Connected?
    ensures var h' := Run(cfg, TryConnect(cfg, h, id, d, after).0, actions);
            id in h'.conns ==>
              (var k := h'.conns[id];
               && |k.pending| <= cfg.maxPending
               && ((k.drained + k.pending == Above(InWorkspace(h'.history, k.workspace), StartOf(h, d, after)))
                   <==> Untruncated(cfg, h, h.devices[d].workspace, StartOf(h, d, after))))
  {
    hide Run, TableOk, EventsAfter, InWorkspace, Above, Shut, WindowOk, SessionsOk, CursorsOk;
    var h1 := TryConnect(cfg, h, id, d, after).0;
    assert Inv(cfg, h1) by { ConnectKeeps(cfg, h, id, d, after); }
    RunOrigin(cfg, h1, actions, id);
    var h' := Run(cfg, h1, actions);
    assert Inv(cfg, h') by { RunKeeps(cfg, h1, actions); }
    if id in h'.conns {
      ReplayCompleteIff(h.log, h.history, h.next, cfg.retention, h.devices[d].workspace, StartOf(h, d, after), Limit(cfg));
      OriginDecides(cfg, h, h', h1.conns[id], h'.conns[id]);
    }
  }

  lemma OriginDecides(cfg: Config, h: Hub, h': Hub, k: Conn, k': Conn)
    requires TableOk(h'.log, h'.history, h'.next, cfg.retention)
    requires ConnOk(cfg, h', k') && SameOrigin(k, k')
    requires h.history <= h'.history && k.since == |h.history|
    ensures |k'.pending| <= cfg.maxPending
    ensures (k'.drained + k'.pending == Above(InWorkspace(h'.history, k.workspace), k.start))
       <==> (k.replayed == Above(InWorkspace(h.history, k.workspace), k.start))
  {
    WindowIsHistoryIff(h'.history, k');
    assert h'.history[..k.since] == h.history;
  }

  /** Filling the queue from a replay never overflows it. */
  lemma ReplayNeverOverflows(cfg: Config, h: Hub, id: string, d: string, after: Option<int>)
    requires Inv(cfg, h)
    requires TryConnect(cfg, h, id, d, after).1.Connected?
    ensures |TryConnect(cfg, h, id, d, after).0.conns[id].pending| <= cfg.maxPending
    ensures TryConnect(cfg, h, id, d, after).0.sessions[id].open
  {
    hide TryConnect, Inv;
    FreshConnOk(cfg, h, id, d, after);
  }

  // --- cursors ---------------------------------------------------------------------------------

  /**
   A connect that fails leaves its session row open exactly if it failed on the queue bound or the replay
   limit, which only store errors close it for.
   */
  lemma FailedConnectStaysOpenIff(cfg: Config, h: Hub, id: string, d: string, after: Option<int>)
    requires IsActive(h, d) && id !in h.sessions
    requires !TryConnect(cfg, h, id, d, after).1.Connected?
    ensures var (h', r) := TryConnect(cfg, h, id, d, after);
      && id in h'.sessions && (h'.sessions[id].open <==> r.BadConfig?)
      && (r.BadConfig? <==> !(0 < Limit(cfg) <= 1000))
  {
    hide InWorkspace, Above;
  }

  lemma {:induction false} CursorNeverDecreases(cfg: Config, h: Hub, actions: seq<Action>, d: string)
    requires Inv(cfg, h)
    ensures Cursor(h, d) <= Cursor(Run(cfg, h, actions), d)
  {
    hide Step, Cursor;
    if actions != [] {
      var front := actions[..|actions| - 1];
      CursorNeverDecreases(cfg, h, front, d);
      RunKeeps(cfg, h, front);
      CursorStep(cfg, Run(cfg, h, front), actions[|actions| - 1], d);
    }
  }

  lemma CursorStep(cfg: Config, h: Hub, a: Action, d: string)
    requires CursorsOk(h)
    ensures Cursor(h, d) <= Cursor(Step(cfg, h, a), d)
  {
    hide Appended, EventsAfter, NewestSequence, Shut;
  }

  /**
   In every reachable state the stored cursor of a device is within the history of its workspace,
   so a reconnect from it is never refused as ahead of history: with a usable limit it is refused
   only if the cursor is positive and below the oldest retained row by more than one.
   */
  lemma StoredCursorIsNeverAhead(cfg: Config, actions: seq<Action>, d: string)
    requires cfg.retention > 0
    requires d in Run(cfg, Init(), actions).devices
    ensures var h := Run(cfg, Init(), actions);
            var w := h.devices[d].workspace;
            && 0 <= Cursor(h, d) <= NewestSequence(h.history, w)
            && (0 < Limit(cfg) <= 1000 ==>
                && EventsAfter(h.log, w, Cursor(h, d), Limit(cfg)) != Err(AheadOfHistory)
                && (EventsAfter(h.log, w, Cursor(h, d), Limit(cfg)).Err? <==>
                    Cursor(h, d) > 0 && forall e :: e in h.log && e.workspace == w ==> Cursor(h, d) < e.sequence - 1))
  {
    var h := Run(cfg, Init(), actions);
    ReachableOk(cfg, actions);
    if 0 < Limit(cfg) <= 1000 {
      GapRefusalIff(h.log, h.history, h.next, cfg.retention, h.devices[d].workspace, Cursor(h, d), Limit(cfg));
    }
  }

  // --- revocation -------------------------------------------------------------------------------

  lemma RevokedStep(cfg: Config, h: Hub, a: Action, d: string)
    requires d in h.devices && !h.devices[d].active
    ensures d in Step(cfg, h, a).devices && !Step(cfg, h, a).devices[d].active
  {
    hide Appended, EventsAfter, Shut;
  }

  lemma {:induction false} RevokedStays(cfg: Config, h: Hub, actions: seq<Action>, d: string)
    requires d in h.devices && !h.devices[d].active
    ensures var h' := Run(cfg, h, actions); d in h'.devices && !h'.devices[d].active
  {
    hide Step;
    if actions != [] {
      var front := actions[..|actions| - 1];
      RevokedStays(cfg, h, front, d);
      RevokedStep(cfg, Run(cfg, h, front), actions[|actions| - 1], d);
    }
  }

  /** Revocation is absorbing; afterwards no drain yields an event, no request reaches a handler and no connect succeeds. */
  lemma RevokedForever(cfg: Config, h: Hub, actions: seq<Action>, d: string)
    requires d in h.devices && !h.devices[d].active
    ensures var h' := Run(cfg, h, actions);
            && (forall id, authOk :: id in h'.conns && h'.conns[id].device == d ==> !Passes(h', id, authOk))
            && (forall id, limit, authOk :: id in h'.conns && h'.conns[id].device == d ==> DrainConn(h', id, limit, authOk).1 == [])
            && (forall id, after :: TryConnect(cfg, h', id, d, after) == (h', Unauthorized))
  {
    RevokedStays(cfg, h, actions, d);
  }

  /** An open session always belongs to an active device, and revoking closes every session of the device. */
  lemma OpenSessionsAreTrusted(cfg: Config, actions: seq<Action>, d: string)
    requires cfg.retention > 0
    ensures var h := Run(cfg, Init(), actions);
            && (forall c :: c in h.sessions && h.sessions[c].open ==> IsActive(h, h.sessions[c].device))
            && (forall c :: c in RevokeDevice(h, d).sessions && h.sessions[c].device == d ==> !RevokeDevice(h, d).sessions[c].open)
  {
    var h := Run(cfg, Init(), actions);
    ReachableOk(cfg, actions);
    assert SessionsOk(h);
    RevokeKeeps(cfg, h, d);
    assert SessionsOk(RevokeDevice(h, d));
  }

  // --- at least once ---------------------------------------------------------------------------

  /** Every event of the device's workspace at or below its stored cursor has been drained to the device. */
  ghost predicate Acked(h: Hub, d: string) {
    d in h.devices ==>
      forall e :: e in h.history && e.workspace == h.devices[d].workspace && e.sequence <= Cursor(h, d) ==>
        (d, e.sequence) in h.delivered
  }

  /** Every event of the workspace was drained to the device already or waits in this connection's queue. */
  ghost predicate Covered(history: seq<Event>, delivered: set<(string, nat)>, k: Conn) {
    forall e :: e in history && e.workspace == k.workspace ==> (k.device, e.sequence) in delivered || e in k.pending
  }

  ghost predicate AllCovered(h: Hub, d: string) {
    forall c :: c in h.conns && h.conns[c].device == d ==> Covered(h.history, h.delivered, h.conns[c])
  }

  /**
   A connect of the device that succeeds is from its stored cursor or below, its replay is not cut, and
   zero is used only before any pruning.
   */
  ghost predicate Careful(cfg: Config, h: Hub, a: Action, d: string) {
    a.Connect? && a.device == d && TryConnect(cfg, h, a.id, d, a.after).1.Connected? ==>
      var start, w := StartOf(h, d, a.after), h.devices[d].workspace;
      start <= Cursor(h, d) && Untruncated(cfg, h, w, start)
  }

  ghost predicate CarefulRun(cfg: Config, h: Hub, actions: seq<Action>, d: string) {
    actions == [] ||
    (CarefulRun(cfg, h, actions[..|actions| - 1], d)
     && Careful(cfg, Run(cfg, h, actions[..|actions| - 1]), actions[|actions| - 1], d))
  }

  lemma CarefulConnectCovers(cfg: Config, h: Hub, id: string, d: string, after: Option<int>)
    requires Inv(cfg, h) && Acked(h, d)
    requires TryConnect(cfg, h, id, d, after).1.Connected?
    requires Careful(cfg, h, Connect(id, d, after), d)
    ensures Covered(h.history, h.delivered, TryConnect(cfg, h, id, d, after).0.conns[id])
  {
    hide TableOk, InWorkspace, Above;
    var k := TryConnect(cfg, h, id, d, after).0.conns[id];
    ReplayCompleteIff(h.log, h.history, h.next, cfg.retention, k.workspace, k.start, Limit(cfg));
    forall e | e in h.history && e.workspace == k.workspace
      ensures (d, e.sequence) in h.delivered || e in k.pending
    {
      InWorkspaceMembers(h.history, k.workspace, e);
      AboveMembers(InWorkspace(h.history, k.workspace), k.start, e);
    }
  }

  lemma CoveredAck(cfg: Config, h: Hub, id: string, sequence: int, d: string)
    requires Inv(cfg, h) && Acked(h, d) && AllCovered(h, d) && Passes(h, id, true)
    ensures Acked(AckCursor(h, id, sequence, true), d) && AllCovered(AckCursor(h, id, sequence, true), d)
  {
    CoveredOnly(h, AckCursor(h, id, sequence, true), d);
    if Passes(h, id, true) && h.conns[id].device == d {
      var k := h.conns[id];
      assert ConnOk(cfg, h, k);
      WindowAhead(h.history, k);
      assert Covered(h.history, h.delivered, k);
    }
  }

  lemma AckedPublish(cfg: Config, h: Hub, w: string, envelope: string, d: string)
    requires Inv(cfg, h) && Acked(h, d)
    ensures Acked(PublishEvent(cfg, h, w, envelope), d)
  {
    if d in h.devices {
      NewestIsTrue(h.log, h.history, h.next, cfg.retention, h.devices[d].workspace);
      assert Cursor(h, d) < h.next;
    }
  }

  lemma CoveredPublish(cfg: Config, h: Hub, w: string, envelope: string, d: string)
    requires AllCovered(h, d)
    ensures AllCovered(PublishEvent(cfg, h, w, envelope), d)
  {
    var h' := PublishEvent(cfg, h, w, envelope);
    forall c | c in h'.conns && h'.conns[c].device == d
      ensures Covered(h'.history, h'.delivered, h'.conns[c])
    {
      CoveredOffer(h.history, h.delivered, h.conns[c], Event(h.next, w, envelope));
    }
  }

  lemma CoveredOffer(history: seq<Event>, delivered: set<(string, nat)>, k: Conn, e: Event)
    requires Covered(history, delivered, k)
    ensures Covered(history + [e], delivered, Offer(k, e))
  {
  }

  lemma CoveredHanded(history: seq<Event>, delivered: set<(string, nat)>, k: Conn, n: nat)
    requires n <= |k.pending| && Covered(history, delivered, k)
    ensures Covered(history, delivered + (set e | e in k.pending[..n] :: (k.device, e.sequence)), DrainedBy(k, n))
  {
    assert k.pending == k.pending[..n] + k.pending[n..];
  }

  lemma CoveredDrain(h: Hub, id: string, limit: int, d: string)
    requires Acked(h, d) && AllCovered(h, d) && Passes(h, id, true)
    ensures Acked(DrainConn(h, id, limit, true).0, d) && AllCovered(DrainConn(h, id, limit, true).0, d)
  {
    var (h', out) := DrainConn(h, id, limit, true);
    var k := h.conns[id];
    assert out == k.pending[..|out|] && h'.conns[id] == DrainedBy(k, |out|);
    forall c | c in h'.conns && h'.conns[c].device == d
      ensures Covered(h'.history, h'.delivered, h'.conns[c])
    {
      assert Covered(h.history, h.delivered, h.conns[c]);
      if c == id {
        CoveredHanded(h.history, h.delivered, k, |out|);
      }
    }
  }

  lemma CoveredStep(cfg: Config, h: Hub, a: Action, d: string)
    requires Inv(cfg, h) && Acked(h, d) && AllCovered(h, d) && Careful(cfg, h, a, d)
    ensures Acked(Step(cfg, h, a), d) && AllCovered(Step(cfg, h, a), d)
  {
    hide Inv, Acked, AllCovered, Careful;
    match a
    case Connect(id, e, after) => CoveredConnect(cfg, h, id, e, after, d);
    case Publish(w, envelope) =>
      AckedPublish(cfg, h, w, envelope, d);
      CoveredPublish(cfg, h, w, envelope, d);
    case Drain(id, limit, authOk) =>
      if Passes(h, id, authOk) { CoveredDrain(h, id, limit, d); } else { CoveredRejected(h, id, d); }
    case Ack(id, sequence, authOk) =>
      if Passes(h, id, authOk) { CoveredAck(cfg, h, id, sequence, d); } else { CoveredRejected(h, id, d); }
    case Trust(e, w) => TrustCovers(cfg, h, e, w, d);
    case Revoke(e) => CoveredFrame(h, RevokeDevice(h, e), d);
    case Request(id, authOk) => CoveredRejected(h, id, d);
    case Close(id) => CoveredFrame(h, CloseConn(h, id), d);
    case Restart => CoveredFrame(h, Step(cfg, h, Restart), d);
  }

  lemma CoveredRejected(h: Hub, id: string, d: string)
    requires Acked(h, d) && AllCovered(h, d)
    ensures Acked(Rejected(h, id), d) && AllCovered(Rejected(h, id), d)
  {
    CoveredFrame(h, Rejected(h, id), d);
  }

  lemma CoveredConnect(cfg: Config, h: Hub, id: string, e: string, after: Option<int>, d: string)
    requires Inv(cfg, h) && Acked(h, d) && AllCovered(h, d) && Careful(cfg, h, Connect(id, e, after), d)
    ensures Acked(TryConnect(cfg, h, id, e, after).0, d) && AllCovered(TryConnect(cfg, h, id, e, after).0, d)
  {
    hide AllCovered, Acked, Covered, EventsAfter, Untruncated, Inv, Shut, StartOf, Limit;
    var (h', r) := TryConnect(cfg, h, id, e, after);
    CoveredFrame(h, h'.(conns := h.conns), d);
    AckedIgnoresConns(h', h.conns, d);
    if r.Connected? {
      if e == d { CarefulConnectCovers(cfg, h, id, d, after); }
      CoveredOneMore(h, h', id, h'.conns[id], d);
    }
  }

  lemma AckedIgnoresConns(h: Hub, conns: map<string, Conn>, d: string)
    ensures Acked(h.(conns := conns), d) == Acked(h, d)
  {
  }

  lemma CoveredOneMore(h: Hub, h': Hub, id: string, k: Conn, d: string)
    requires AllCovered(h, d) && h'.history == h.history && h'.delivered == h.delivered && h'.conns == h.conns[id := k]
    requires k.device == d ==> Covered(h.history, h.delivered, k)
    ensures AllCovered(h', d)
  {
  }

  lemma TrustCovers(cfg: Config, h: Hub, e: string, w: string, d: string)
    requires Inv(cfg, h) && Acked(h, d) && AllCovered(h, d)
    ensures Acked(TrustDevice(h, e, w), d) && AllCovered(TrustDevice(h, e, w), d)
  {
    CoveredOnly(h, TrustDevice(h, e, w), d);
  }

  lemma CoveredOnly(h: Hub, h': Hub, d: string)
    requires AllCovered(h, d) && h'.history == h.history && h'.delivered == h.delivered && h'.conns == h.conns
    ensures AllCovered(h', d)
  {
    forall c | c in h'.conns && h'.conns[c].device == d
      ensures Covered(h'.history, h'.delivered, h'.conns[c])
    {
      assert Covered(h.history, h.delivered, h.conns[c]);
    }
  }

  lemma CoveredFrame(h: Hub, h': Hub, d: string)
    requires Acked(h, d) && AllCovered(h, d)
    requires h'.history == h.history && h'.delivered == h.delivered && h'.cursors == h.cursors
    requires h'.devices.Keys == h.devices.Keys && forall x :: x in h.devices ==> h'.devices[x].workspace == h.devices[x].workspace
    requires forall c :: c in h'.conns ==> c in h.conns && h.conns[c] == h'.conns[c]
    ensures Acked(h', d) && AllCovered(h', d)
  {
    forall c | c in h'.conns && h'.conns[c].device == d
      ensures Covered(h'.history, h'.delivered, h'.conns[c])
    {
      assert Covered(h.history, h.delivered, h.conns[c]);
    }
  }

  lemma {:induction false} CoveredRun(cfg: Config, h: Hub, actions: seq<Action>, d: string)
    requires Inv(cfg, h) && Acked(h, d) && AllCovered(h, d) && CarefulRun(cfg, h, actions, d)
    ensures Acked(Run(cfg, h, actions), d) && AllCovered(Run(cfg, h, actions), d)
  {
    hide Step, Inv, Acked, AllCovered, Careful;
    if actions != [] {
      var front := actions[..|actions| - 1];
      CoveredRun(cfg, h, front, d);
      RunKeeps(cfg, h, front);
      CoveredStep(cfg, Run(cfg, h, front), actions[|actions| - 1], d);
    }
  }

  /**
   At least once, over every run with any number of connections, reconnects, revocations, restarts
   and other workspaces' events: a careful device has drained every event at or below its cursor.
   */
  lemma AtLeastOnce(cfg: Config, actions: seq<Action>, d: string)
    requires cfg.retention > 0
    requires CarefulRun(cfg, Init(), actions, d)
    ensures Acked(Run(cfg, Init(), actions), d)
  {
    CoveredRun(cfg, Init(), actions, d);
  }

  // --- and exactly when it holds ------------------------------------------------------------------

  /** Drain everything, publish one more event, drain it, acknowledge it. */
  function LossTail(h: Hub, id: string): seq<Action>
    requires id in h.conns
  {
    var k := h.conns[id];
    [Drain(id, |k.pending|, true), Publish(k.workspace, ""), Drain(id, 1, true), Ack(id, h.next, true)]
  }

  lemma RunFour(cfg: Config, h: Hub, a: Action, b: Action, c: Action, d: Action)
    ensures Run(cfg, h, [a, b, c, d]) == Step(cfg, Step(cfg, Step(cfg, Step(cfg, h, a), b), c), d)
  {
    assert [a, b, c, d][..3] == [a, b, c] && [a, b, c][..2] == [a, b] && [a, b][..1] == [a] && [a][..0] == [];
    assert Run(cfg, h, [a]) == Step(cfg, h, a);
    assert Run(cfg, h, [a, b]) == Step(cfg, Step(cfg, h, a), b);
    assert Run(cfg, h, [a, b, c]) == Step(cfg, Step(cfg, Step(cfg, h, a), b), c);
  }

  lemma {:induction false} NoConnectIsCareful(cfg: Config, h: Hub, actions: seq<Action>, d: string)
    requires forall a :: a in actions ==> !a.Connect?
    ensures CarefulRun(cfg, h, actions, d)
  {
    if actions != [] {
      NoConnectIsCareful(cfg, h, actions[..|actions| - 1], d);
    }
  }

  lemma DrainAll(cfg: Config, h: Hub, id: string)
    requires Passes(h, id, true)
    ensures var k, h' := h.conns[id], Step(cfg, h, Drain(id, |h.conns[id].pending|, true));
            && h' == h.(conns := h'.conns, delivered := h'.delivered)
            && h'.delivered == h.delivered + (set e | e in k.pending :: (k.device, e.sequence))
            && id in h'.conns && h'.conns[id].pending == [] && h'.conns[id].device == k.device
            && h'.conns[id].workspace == k.workspace
  {
  }

  lemma PublishToEmpty(cfg: Config, h: Hub, id: string)
    requires id in h.conns && h.conns[id].pending == [] && cfg.maxPending > 0
    ensures var k := h.conns[id];
            var h' := Step(cfg, h, Publish(k.workspace, ""));
            && h'.history == h.history + [Event(h.next, k.workspace, "")]
            && h'.delivered == h.delivered && h'.devices == h.devices && h'.cursors == h.cursors
            && id in h'.conns && h'.conns[id] == k.(pending := [Event(h.next, k.workspace, "")])
  {
  }

  lemma DrainOne(cfg: Config, h: Hub, id: string, e: Event)
    requires Passes(h, id, true) && h.conns[id].pending == [e]
    ensures var h' := Step(cfg, h, Drain(id, 1, true));
            && h'.history == h.history && h'.devices == h.devices && h'.cursors == h.cursors
            && h'.delivered == h.delivered + {(h.conns[id].device, e.sequence)}
            && id in h'.conns && h'.conns[id].highest >= e.sequence && h'.conns[id].device == h.conns[id].device
  {
    assert [e][..0] == [] && [e][..1] == [e];
    assert Handed(h.conns[id], 1) == [e];
    assert Last(h.conns[id].highest, [e]) >= e.sequence;
  }

  /** The state the loss tail ends in, as far as the acknowledgement promise can see it. */
  lemma LossSteps(cfg: Config, h: Hub, id: string)
    requires Passes(h, id, true) && cfg.maxPending > 0 && Cursor(h, h.conns[id].device) < h.next
    ensures var k, h' := h.conns[id], Run(cfg, h, LossTail(h, id));
            && h'.devices == h.devices && Cursor(h', k.device) == h.next
            && h'.history == h.history + [Event(h.next, k.workspace, "")]
            && h'.delivered == h.delivered + (set e | e in k.pending :: (k.device, e.sequence)) + {(k.device, h.next)}
  {
    hide Run, DrainConn, PublishEvent, AckCursor, TryConnect, Shut;
    var k, tail := h.conns[id], LossTail(h, id);
    RunFour(cfg, h, tail[0], tail[1], tail[2], tail[3]);
    var h1 := Step(cfg, h, tail[0]);
    DrainAll(cfg, h, id);
    var h2 := Step(cfg, h1, tail[1]);
    PublishToEmpty(cfg, h1, id);
    var h3 := Step(cfg, h2, tail[2]);
    DrainOne(cfg, h2, id, Event(h.next, k.workspace, ""));
    AckHighest(h3, id, h.next);
  }

  lemma AckHighest(h: Hub, id: string, sequence: nat)
    requires Passes(h, id, true) && sequence <= h.conns[id].highest && Cursor(h, h.conns[id].device) <= sequence
    ensures AckCursor(h, id, sequence, true) == h.(cursors := h.cursors[h.conns[id].device := sequence])
  {
  }

  lemma LostStaysLost(cfg: Config, h: Hub, id: string, lost: Event)
    requires Inv(cfg, h) && id in h.conns
    requires lost in h.history && (h.conns[id].device, lost.sequence) !in h.delivered && lost !in h.conns[id].pending
    ensures forall e :: e in h.conns[id].pending ==> e.sequence != lost.sequence
    ensures lost.sequence < h.next && h.conns[id].device in h.devices
    ensures h.devices[h.conns[id].device].workspace == h.conns[id].workspace
  {
    var k := h.conns[id];
    assert ConnOk(cfg, h, k);
    forall e | e in k.pending
      ensures e.sequence != lost.sequence
    {
      assert e in k.drained + k.pending;
      if e.sequence == lost.sequence {
        SameSequenceSameEvent(h.history, e, lost);
      }
    }
  }

  /** A connection that does not cover the history lets its device acknowledge past an event it never got. */
  lemma LossIsReachable(cfg: Config, h: Hub, id: string)
    requires Inv(cfg, h) && Passes(h, id, true) && cfg.maxPending > 0
    requires !Covered(h.history, h.delivered, h.conns[id])
    ensures !Acked(Run(cfg, h, LossTail(h, id)), h.conns[id].device)
    ensures CarefulRun(cfg, h, LossTail(h, id), h.conns[id].device)
  {
    hide Inv, Run, CarefulRun;
    var k, h' := h.conns[id], Run(cfg, h, LossTail(h, id));
    var lost :| lost in h.history && lost.workspace == k.workspace
                && (k.device, lost.sequence) !in h.delivered && lost !in k.pending;
    NoConnectIsCareful(cfg, h, LossTail(h, id), k.device);
    CursorBelowNext(cfg, h, k.device);
    LostStaysLost(cfg, h, id, lost);
    LossSteps(cfg, h, id);
    assert lost in h'.history && (k.device, lost.sequence) !in h'.delivered;
  }

  lemma SameSequenceSameEvent(history: seq<Event>, a: Event, b: Event)
    requires Ordered(history) && a in history && b in history && a.sequence == b.sequence
    ensures a == b
  {
    var i :| 0 <= i < |history| && history[i] == a;
    var j :| 0 <= j < |history| && history[j] == b;
  }

  lemma CursorBelowNext(cfg: Config, h: Hub, d: string)
    requires Inv(cfg, h)
    ensures Cursor(h, d) < h.next
  {
    if d in h.cursors {
      NewestIsTrue(h.log, h.history, h.next, cfg.retention, h.devices[d].workspace);
    }
  }

  /** From any reachable state: a device keeps at-least-once in all careful futures iff its open connections cover the history. */
  lemma CoverageIff(cfg: Config, h: Hub, d: string)
    requires Inv(cfg, h) && Acked(h, d) && IsActive(h, d) && cfg.maxPending > 0
    ensures AllCovered(h, d) <==> forall actions :: CarefulRun(cfg, h, actions, d) ==> Acked(Run(cfg, h, actions), d)
  {
    if AllCovered(h, d) {
      forall actions | CarefulRun(cfg, h, actions, d)
        ensures Acked(Run(cfg, h, actions), d)
      {
        CoveredRun(cfg, h, actions, d);
      }
    } else {
      var id :| id in h.conns && h.conns[id].device == d && !Covered(h.history, h.delivered, h.conns[id]);
      LossIsReachable(cfg, h, id);
    }
  }

  /** Every retained or pruned event above the cursor that the replay of a stored-cursor connect can miss, it misses when truncated. */
  lemma TruncatedMisses(cfg: Config, h: Hub, w: string, start: int) returns (lost: Event)
    requires TableOk(h.log, h.history, h.next, cfg.retention)
    requires EventsAfter(h.log, w, start, Limit(cfg)).Ok? && !Untruncated(cfg, h, w, start)
    ensures lost in h.history && lost.workspace == w && lost.sequence > start
    ensures lost !in EventsAfter(h.log, w, start, Limit(cfg)).value
  {
    var mine := InWorkspace(h.log, w);
    var above := Above(mine, start);
    InWorkspaceOrdered(h.log, w);
    AboveOrdered(mine, start);
    if |above| > Limit(cfg) {
      lost := above[Limit(cfg)];
      AboveMembers(mine, start, lost);
      var pruned := RetainedSplit(h.log, h.history, cfg.retention, w);
      assert lost in pruned + mine;
      InWorkspaceMembers(h.history, w, lost);
    } else {
      lost :| lost in h.history && lost !in h.log && lost.workspace == w && lost.sequence > start;
      AboveMembers(mine, start, lost);
      InWorkspaceMembers(h.log, w, lost);
    }
  }

  /** What a connect at `start` does not send of the history above it. */
  ghost predicate Missed(cfg: Config, h: Hub, w: string, start: int, e: Event)
    requires EventsAfter(h.log, w, start, Limit(cfg)).Ok?
  {
    e in h.history && e.workspace == w && e.sequence > start && e !in EventsAfter(h.log, w, start, Limit(cfg)).value
  }

  /**
   A device that reconnects from its stored cursor keeps at-least-once in all careful futures exactly if
   whatever this connect does not send was drained to the device before.
   */
  lemma StoredConnectSafeIff(cfg: Config, h: Hub, id: string, d: string)
    requires Inv(cfg, h) && Acked(h, d) && AllCovered(h, d)
    requires TryConnect(cfg, h, id, d, None).1.Connected?
    ensures var h', w := TryConnect(cfg, h, id, d, None).0, h.devices[d].workspace;
            (forall actions :: CarefulRun(cfg, h', actions, d) ==> Acked(Run(cfg, h', actions), d))
            <==> forall e :: Missed(cfg, h, w, Cursor(h, d), e) ==> (d, e.sequence) in h.delivered
  {
    hide Inv, Run, CarefulRun, EventsAfter, Shut;
    var h' := TryConnect(cfg, h, id, d, None).0;
    ConnectKeeps(cfg, h, id, d, None);
    CoveredFrame(h, h'.(conns := h.conns), d);
    var k := h'.conns[id];
    if Covered(h'.history, h'.delivered, k) {
      CoveredOneMore(h, h', id, k, d);
    } else {
      NotAllCovered(h', id, d);
    }
    hide AllCovered;
    CoverageIff(cfg, h', d);
  }

  /** So with nothing above the cursor drained before, exactly if the replay was not truncated. */
  lemma StoredConnectUntruncatedIff(cfg: Config, h: Hub, id: string, d: string)
    requires Inv(cfg, h) && Acked(h, d) && AllCovered(h, d)
    requires TryConnect(cfg, h, id, d, None).1.Connected?
    requires forall e :: e in h.history && e.sequence > Cursor(h, d) ==> (d, e.sequence) !in h.delivered
    ensures var h' := TryConnect(cfg, h, id, d, None).0;
            (forall actions :: CarefulRun(cfg, h', actions, d) ==> Acked(Run(cfg, h', actions), d))
            <==> Untruncated(cfg, h, h.devices[d].workspace, Cursor(h, d))
  {
    StoredConnectSafeIff(cfg, h, id, d);
    InvHasTable(cfg, h);
    hide Inv, Run, CarefulRun, EventsAfter, Shut, AllCovered, TableOk, InWorkspace, Above;
    var w, start := h.devices[d].workspace, Cursor(h, d);
    if Untruncated(cfg, h, w, start) {
      NothingMissed(cfg, h, w, start);
    } else {
      var lost := TruncatedMisses(cfg, h, w, start);
      assert Missed(cfg, h, w, start, lost);
    }
  }

  lemma NothingMissed(cfg: Config, h: Hub, w: string, start: int)
    requires Inv(cfg, h) && EventsAfter(h.log, w, start, Limit(cfg)).Ok? && Untruncated(cfg, h, w, start)
    ensures forall e :: !Missed(cfg, h, w, start, e)
  {
    ReplayCompleteIff(h.log, h.history, h.next, cfg.retention, w, start, Limit(cfg));
    hide TableOk, InWorkspace, Above, EventsAfter;
    forall e
      ensures !Missed(cfg, h, w, start, e)
    {
      InWorkspaceMembers(h.history, w, e);
      AboveMembers(InWorkspace(h.history, w), start, e);
    }
  }

  lemma InvHasTable(cfg: Config, h: Hub)
    requires Inv(cfg, h)
    ensures TableOk(h.log, h.history, h.next, cfg.retention)
  {
  }

  lemma NotAllCovered(h: Hub, id: string, d: string)
    requires id in h.conns && h.conns[id].device == d && !Covered(h.history, h.delivered, h.conns[id])
    ensures !AllCovered(h, d)
  {
  }

  /** With room for three, publishing into a log of at most two rows prunes nothing. */
  lemma PublishUnpruned(cfg: Config, h: Hub, w: string, envelope: string)
    requires cfg.retention == 3 && |InWorkspace(h.log, w)| <= 2 && h.conns == map[] && h.sessions == map[]
    ensures Step(cfg, h, Publish(w, envelope))
         == h.(log := h.log + [Event(h.next, w, envelope)], history := h.history + [Event(h.next, w, envelope)], next := h.next + 1)
  {
    InWorkspaceOne(h.log, Event(h.next, w, envelope), w);
  }

  lemma TwoPublished(cfg: Config)
    requires cfg == Config(3, 1, 1)
    ensures Step(cfg, Step(cfg, Step(cfg, Init(), Trust("d", "w")), Publish("w", "a")), Publish("w", "b"))
         == Hub(map["d" := Device("w", true)], map[], [Event(1, "w", "a"), Event(2, "w", "b")],
                [Event(1, "w", "a"), Event(2, "w", "b")], 3, map[], map[], {})
  {
    var e1, e2 := Event(1, "w", "a"), Event(2, "w", "b");
    assert [] + [e1] == [e1] && [e1] + [e2] == [e1, e2];
    var h1 := Hub(map["d" := Device("w", true)], map[], [], [], 1, map[], map[], {});
    assert Step(cfg, Init(), Trust("d", "w")) == h1;
    PublishesTwo(cfg, h1, e1, e2);
  }

  lemma PublishesTwo(cfg: Config, h: Hub, e1: Event, e2: Event)
    requires cfg.retention == 3 && h.conns == map[] && h.sessions == map[]
    requires h.log == [] && h.history == [] && h.next == 1 && e1 == Event(1, "w", "a") && e2 == Event(2, "w", "b")
    ensures Step(cfg, Step(cfg, h, Publish("w", "a")), Publish("w", "b")) == h.(log := [e1, e2], history := [e1, e2], next := 3)
  {
    hide Step;
    assert [] + [e1] == [e1] && [e1] + [e2] == [e1, e2];
    PublishUnpruned(cfg, h, "w", "a");
    InWorkspaceOne([], e1, "w");
    PublishUnpruned(cfg, h.(log := [e1], history := [e1], next := 2), "w", "b");
  }

  lemma ConnectedCut(cfg: Config, h: Hub)
    requires cfg == Config(3, 1, 1)
    requires h == Hub(map["d" := Device("w", true)], map[], [Event(1, "w", "a"), Event(2, "w", "b")],
                      [Event(1, "w", "a"), Event(2, "w", "b")], 3, map[], map[], {})
    ensures Step(cfg, h, Connect("c", "d", None))
         == h.(sessions := map["c" := Session("d", true)],
               conns := map["c" := Conn("d", "w", 0, [Event(1, "w", "a")], 2, [], [Event(1, "w", "a")], 0)])
  {
    hide EventsAfter, Shut, InWorkspace, Above;
    CutReplay(Event(1, "w", "a"), Event(2, "w", "b"));
    assert Limit(cfg) == 1 && StartOf(h, "d", None) == 0 && IsActive(h, "d") && "c" !in h.sessions;
  }

  lemma CutReplay(e1: Event, e2: Event)
    requires e1.workspace == "w" && e2.workspace == "w" && e1.sequence == 1 && e2.sequence == 2
    ensures EventsAfter([e1, e2], "w", 0, 1) == Ok([e1])
  {
    InWorkspaceOne([], e1, "w");
    InWorkspaceOne([e1], e2, "w");
    assert [] + [e1] == [e1] && [e1] + [e2] == [e1, e2];
    EverythingAbove([e1, e2], 0);
  }

  /** Two events and a queue of one: the second event is skipped for good once a third is acknowledged. */
  lemma TruncationLosesAnEvent()
    ensures var cfg := Config(3, 1, 1);
            var h := Run(cfg, Init(), [Trust("d", "w"), Publish("w", "a"), Publish("w", "b"), Connect("c", "d", None)]);
            && "c" in h.conns && Acked(h, "d")
            && LossTail(h, "c") == [Drain("c", 1, true), Publish("w", ""), Drain("c", 1, true), Ack("c", 3, true)]
            && !Acked(Run(cfg, h, LossTail(h, "c")), "d")
  {
    var cfg := Config(3, 1, 1);
    var actions := [Trust("d", "w"), Publish("w", "a"), Publish("w", "b"), Connect("c", "d", None)];
    RunFour(cfg, Init(), actions[0], actions[1], actions[2], actions[3]);
    TwoPublished(cfg);
    var h3 := Step(cfg, Step(cfg, Step(cfg, Init(), actions[0]), actions[1]), actions[2]);
    ConnectedCut(cfg, h3);
    var h := Run(cfg, Init(), actions);
    ReachableOk(cfg, actions);
    CutIsNotCovered(h.history, h.delivered, h.conns["c"]);
    LossIsReachable(cfg, h, "c");
  }

  lemma CutIsNotCovered(history: seq<Event>, delivered: set<(string, nat)>, k: Conn)
    requires history == [Event(1, "w", "a"), Event(2, "w", "b")] && delivered == {}
    requires k.workspace == "w" && k.pending == [Event(1, "w", "a")]
    ensures !Covered(history, delivered, k)
  {
    assert history[1] in history && history[1].sequence == 2;
  }
}
