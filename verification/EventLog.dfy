/**
 The durable event table of the Gateway store: a global, strictly increasing sequence number,
 pruning per workspace, and replay from a cursor.  Rows are kept in primary-key order.
 `history` is the log that was never pruned; it exists only to state what pruning and replay mean.
 */
module EventLog {
  import opened Basics
  import opened Wrappers

  datatype Event = Event(sequence: nat, workspace: string, envelope: string)

  datatype ReplayError = BadLimit | AheadOfHistory | OutsideRetained

  /** SELECT ... WHERE workspace_id = w ORDER BY sequence */
  function InWorkspace(log: seq<Event>, w: string): seq<Event>
  {
    if log == [] then []
    else
      var front := InWorkspace(log[..|log| - 1], w);
      var last := log[|log| - 1];
      if last.workspace == w then front + [last] else front
  }

  /** ... AND sequence > cursor */
  function Above(rows: seq<Event>, cursor: int): seq<Event>
  {
    if rows == [] then []
    else
      var front := Above(rows[..|rows| - 1], cursor);
      var last := rows[|rows| - 1];
      if last.sequence > cursor then front + [last] else front
  }

  /** DELETE ... WHERE workspace_id = w AND sequence <= cutoff */
  function Without(log: seq<Event>, w: string, cutoff: int): seq<Event>
  {
    if log == [] then []
    else
      var front := Without(log[..|log| - 1], w, cutoff);
      var last := log[|log| - 1];
      if last.workspace == w && last.sequence <= cutoff then front else front + [last]
  }

  function Take<T>(n: nat, s: seq<T>): seq<T> {
    if |s| <= n then s else s[..n]
  }

  /** The insert of one row followed by the retention sweep of its workspace. */
  function Appended(log: seq<Event>, e: Event, retention: nat): seq<Event> {
    var grown := log + [e];
    var mine := InWorkspace(grown, e.workspace);
    if |mine| > retention
    then Without(grown, e.workspace, mine[|mine| - 1 - retention].sequence)
    else grown
  }

  function NewestSequence(log: seq<Event>, w: string): nat {
    var mine := InWorkspace(log, w);
    if mine == [] then 0 else mine[|mine| - 1].sequence
  }

  function EventsAfter(log: seq<Event>, w: string, cursor: int, limit: int): Result<seq<Event>, ReplayError> {
    var mine := InWorkspace(log, w);
    if limit <= 0 || limit > 1000 then Err(BadLimit)
    else if cursor > NewestSequence(log, w) then Err(AheadOfHistory)
    else if cursor > 0 && mine != [] && cursor < mine[0].sequence - 1 then Err(OutsideRetained)
    else Ok(Take(limit, Above(mine, cursor)))
  }

  ghost predicate Ordered(log: seq<Event>) {
    forall i, j :: 0 <= i < j < |log| ==> log[i].sequence < log[j].sequence
  }

  ghost predicate AllBelow(log: seq<Event>, bound: int) {
    forall i :: 0 <= i < |log| ==> log[i].sequence < bound
  }

  /** What the pruned table promises: every workspace keeps exactly its newest `retention` events. */
  ghost predicate Refines(log: seq<Event>, history: seq<Event>, retention: nat) {
    forall w :: InWorkspace(log, w) == Newest(retention, InWorkspace(history, w))
  }

  /** The whole table invariant.  Sequence numbers start at 1 and are never reused. */
  ghost predicate TableOk(log: seq<Event>, history: seq<Event>, next: nat, retention: nat) {
    && retention > 0 && next > 0
    && Ordered(history) && AllBelow(history, next)
    && (forall i :: 0 <= i < |history| ==> history[i].sequence > 0)
    && Ordered(log) && AllBelow(log, next)
    && Refines(log, history, retention)
  }

  // --- selections ---------------------------------------------------------------------------

  lemma {:induction false} InWorkspaceConcat(a: seq<Event>, b: seq<Event>, w: string)
    ensures InWorkspace(a + b, w) == InWorkspace(a, w) + InWorkspace(b, w)
  {
    if b == [] {
      assert a + b == a;
    } else {
      assert (a + b)[..|a + b| - 1] == a + b[..|b| - 1];
      InWorkspaceConcat(a, b[..|b| - 1], w);
    }
  }

  lemma {:induction false} AboveConcat(a: seq<Event>, b: seq<Event>, cursor: int)
    ensures Above(a + b, cursor) == Above(a, cursor) + Above(b, cursor)
  {
    if b == [] {
      assert a + b == a;
    } else {
      assert (a + b)[..|a + b| - 1] == a + b[..|b| - 1];
      AboveConcat(a, b[..|b| - 1], cursor);
    }
  }

  lemma {:induction false} InWorkspaceMembers(log: seq<Event>, w: string, e: Event)
    ensures e in InWorkspace(log, w) <==> e in log && e.workspace == w
  {
    if log != [] {
      InWorkspaceMembers(log[..|log| - 1], w, e);
      assert log == log[..|log| - 1] + [log[|log| - 1]];
    }
  }

  lemma {:induction false} AboveMembers(rows: seq<Event>, cursor: int, e: Event)
    ensures e in Above(rows, cursor) <==> e in rows && e.sequence > cursor
  {
    if rows != [] {
      AboveMembers(rows[..|rows| - 1], cursor, e);
      assert rows == rows[..|rows| - 1] + [rows[|rows| - 1]];
    }
  }

  lemma {:induction false} InWorkspaceOrdered(log: seq<Event>, w: string)
    requires Ordered(log)
    ensures Ordered(InWorkspace(log, w))
  {
    if log != [] {
      var front := log[..|log| - 1];
      InWorkspaceOrdered(front, w);
      forall k | 0 <= k < |InWorkspace(front, w)|
        ensures InWorkspace(front, w)[k].sequence < log[|log| - 1].sequence
      {
        InWorkspaceMembers(front, w, InWorkspace(front, w)[k]);
      }
    }
  }

  /** In an ordered selection, the rows above the k-th one are exactly those after it. */
  lemma {:induction false} AboveIsSuffix(rows: seq<Event>, k: nat)
    requires Ordered(rows) && k < |rows|
    ensures Above(rows, rows[k].sequence) == rows[k + 1..]
  {
    var front := rows[..|rows| - 1];
    if k == |rows| - 1 {
      NothingAbove(front, rows[k].sequence);
    } else {
      AboveIsSuffix(front, k);
      assert front[k + 1..] + [rows[|rows| - 1]] == rows[k + 1..];
    }
  }

  lemma {:induction false} NothingAbove(rows: seq<Event>, cursor: int)
    requires AllBelow(rows, cursor + 1)
    ensures Above(rows, cursor) == []
  {
    if rows != [] {
      NothingAbove(rows[..|rows| - 1], cursor);
    }
  }

  lemma {:induction false} EverythingAbove(rows: seq<Event>, cursor: int)
    requires forall i :: 0 <= i < |rows| ==> rows[i].sequence > cursor
    ensures Above(rows, cursor) == rows
  {
    if rows != [] {
      EverythingAbove(rows[..|rows| - 1], cursor);
      assert rows == rows[..|rows| - 1] + [rows[|rows| - 1]];
    }
  }

  // --- pruning ------------------------------------------------------------------------------

  lemma {:induction false} WithoutSelects(log: seq<Event>, w: string, cutoff: int, v: string)
    ensures InWorkspace(Without(log, w, cutoff), v)
         == if v == w then Above(InWorkspace(log, w), cutoff) else InWorkspace(log, v)
  {
    if log != [] {
      var front, last := log[..|log| - 1], log[|log| - 1];
      WithoutSelects(front, w, cutoff, v);
      var kept := Without(front, w, cutoff);
      assert (kept + [last])[..|kept + [last]| - 1] == kept;
      var mine := InWorkspace(front, w);
      assert (mine + [last])[..|mine + [last]| - 1] == mine;
    }
  }

  lemma {:induction false} WithoutMembers(log: seq<Event>, w: string, cutoff: int, e: Event)
    ensures e in Without(log, w, cutoff) <==> e in log && !(e.workspace == w && e.sequence <= cutoff)
  {
    if log != [] {
      WithoutMembers(log[..|log| - 1], w, cutoff, e);
      assert log == log[..|log| - 1] + [log[|log| - 1]];
    }
  }

  lemma {:induction false} WithoutOrdered(log: seq<Event>, w: string, cutoff: int)
    requires Ordered(log)
    ensures Ordered(Without(log, w, cutoff))
  {
    if log != [] {
      var front := log[..|log| - 1];
      WithoutOrdered(front, w, cutoff);
      forall k | 0 <= k < |Without(front, w, cutoff)|
        ensures Without(front, w, cutoff)[k].sequence < log[|log| - 1].sequence
      {
        WithoutMembers(front, w, cutoff, Without(front, w, cutoff)[k]);
      }
    }
  }

  /** The sweep keeps exactly the newest `retention` rows of the written workspace and touches no other. */
  lemma AppendedSelects(log: seq<Event>, e: Event, retention: nat, v: string)
    requires Ordered(log) && AllBelow(log, e.sequence)
    ensures InWorkspace(Appended(log, e, retention), v)
         == if v == e.workspace then Newest(retention, InWorkspace(log, v) + [e]) else InWorkspace(log, v)
  {
    hide InWorkspace, Above, Without;
    var grown := log + [e];
    InWorkspaceOne(log, e, v);
    InWorkspaceOne(log, e, e.workspace);
    var mine := InWorkspace(grown, e.workspace);
    if |mine| > retention {
      var k := |mine| - 1 - retention;
      WithoutSelects(grown, e.workspace, mine[k].sequence, v);
      InWorkspaceOrdered(grown, e.workspace);
      AboveIsSuffix(mine, k);
    }
  }

  lemma InWorkspaceOne(log: seq<Event>, e: Event, v: string)
    ensures InWorkspace(log + [e], v) == if v == e.workspace then InWorkspace(log, v) + [e] else InWorkspace(log, v)
  {
    assert (log + [e])[..|log + [e]| - 1] == log;
  }

  lemma AppendedTable(log: seq<Event>, e: Event, retention: nat)
    requires Ordered(log) && AllBelow(log, e.sequence)
    ensures Ordered(Appended(log, e, retention)) && AllBelow(Appended(log, e, retention), e.sequence + 1)
  {
    var grown := log + [e];
    var mine := InWorkspace(grown, e.workspace);
    if |mine| > retention {
      var cutoff := mine[|mine| - 1 - retention].sequence;
      WithoutOrdered(grown, e.workspace, cutoff);
      forall k | 0 <= k < |Without(grown, e.workspace, cutoff)|
        ensures Without(grown, e.workspace, cutoff)[k].sequence < e.sequence + 1
      {
        WithoutMembers(grown, e.workspace, cutoff, Without(grown, e.workspace, cutoff)[k]);
      }
    }
  }

  /** Pruning refines the unbounded log: one append keeps the table invariant. */
  lemma AppendRefines(log: seq<Event>, history: seq<Event>, next: nat, retention: nat, w: string, envelope: string)
    requires TableOk(log, history, next, retention)
    ensures var e := Event(next, w, envelope);
            TableOk(Appended(log, e, retention), history + [e], next + 1, retention)
  {
    hide InWorkspace, Above, Without, Appended;
    var e := Event(next, w, envelope);
    AppendedTable(log, e, retention);
    forall v
      ensures InWorkspace(Appended(log, e, retention), v) == Newest(retention, InWorkspace(history + [e], v))
    {
      AppendedNewest(log, history, e, retention, v);
    }
  }

  lemma AppendedNewest(log: seq<Event>, history: seq<Event>, e: Event, retention: nat, v: string)
    requires Ordered(log) && AllBelow(log, e.sequence)
    requires InWorkspace(log, v) == Newest(retention, InWorkspace(history, v))
    ensures InWorkspace(Appended(log, e, retention), v) == Newest(retention, InWorkspace(history + [e], v))
  {
    hide InWorkspace, Above, Without, Appended;
    AppendedSelects(log, e, retention, v);
    InWorkspaceOne(history, e, v);
    NewestNewest(retention, InWorkspace(history, v), e);
  }

  lemma NewestNewest<T>(n: nat, s: seq<T>, x: T)
    ensures Newest(n, Newest(n, s) + [x]) == Newest(n, s + [x])
  {
  }

  // --- replay -------------------------------------------------------------------------------

  /** Some event of the workspace above the cursor has already been pruned. */
  ghost predicate PrunedAbove(log: seq<Event>, history: seq<Event>, w: string, cursor: int) {
    exists e :: e in history && e !in log && e.workspace == w && e.sequence > cursor
  }

  lemma RetainedSplit(log: seq<Event>, history: seq<Event>, retention: nat, w: string) returns (pruned: seq<Event>)
    requires Refines(log, history, retention)
    ensures InWorkspace(history, w) == pruned + InWorkspace(log, w)
    ensures InWorkspace(log, w) == [] ==> retention == 0 || pruned == []
  {
    var all := InWorkspace(history, w);
    assert InWorkspace(log, w) == Newest(retention, all);
    pruned := if |all| <= retention then [] else all[..|all| - retention];
  }

  /** The pruned rows are exactly the history rows that lie in front of the retained ones. */
  lemma PrunedMembers(log: seq<Event>, history: seq<Event>, next: nat, retention: nat, w: string,
                      pruned: seq<Event>, cursor: int)
    requires TableOk(log, history, next, retention)
    requires InWorkspace(history, w) == pruned + InWorkspace(log, w)
    ensures PrunedAbove(log, history, w, cursor) <==> Above(pruned, cursor) != []
  {
    var mine := InWorkspace(log, w);
    InWorkspaceOrdered(history, w);
    forall e
      ensures (e in history && e !in log && e.workspace == w) <==> e in pruned
    {
      InWorkspaceMembers(log, w, e);
      InWorkspaceMembers(history, w, e);
      forall i, j | 0 <= i < |pruned| && 0 <= j < |mine|
        ensures pruned[i] != mine[j]
      {
        assert (pruned + mine)[i].sequence < (pruned + mine)[|pruned| + j].sequence;
      }
    }
    if Above(pruned, cursor) != [] {
      AboveMembers(pruned, cursor, Above(pruned, cursor)[0]);
    }
    forall e | e in pruned && e.sequence > cursor
      ensures Above(pruned, cursor) != []
    {
      AboveMembers(pruned, cursor, e);
    }
  }

  /** A non-empty history of a workspace never loses its newest event, so the visible newest sequence is the true one. */
  lemma NewestIsTrue(log: seq<Event>, history: seq<Event>, next: nat, retention: nat, w: string)
    requires TableOk(log, history, next, retention)
    ensures NewestSequence(log, w) == NewestSequence(history, w)
    ensures NewestSequence(log, w) < next
    ensures forall e :: e in history && e.workspace == w ==> e.sequence <= NewestSequence(log, w)
  {
    var all := InWorkspace(history, w);
    assert InWorkspace(log, w) == Newest(retention, all);
    InWorkspaceOrdered(history, w);
    if all != [] {
      InWorkspaceMembers(history, w, all[|all| - 1]);
    }
    forall e | e in history && e.workspace == w
      ensures e.sequence <= NewestSequence(log, w)
    {
      InWorkspaceMembers(history, w, e);
    }
  }

  /**
   Replay against the unbounded log.  A non-refused replay from a positive cursor is exactly the
   first `limit` events above the cursor in the full history; a positive cursor below a pruned
   event is always refused.
   */
  lemma ReplayIsFullHistory(log: seq<Event>, history: seq<Event>, next: nat, retention: nat,
                            w: string, cursor: int, limit: int)
    requires TableOk(log, history, next, retention)
    requires cursor > 0
    ensures var r := EventsAfter(log, w, cursor, limit);
            r.Ok? ==> r.value == Take(limit, Above(InWorkspace(history, w), cursor))
    ensures PrunedAbove(log, history, w, cursor) ==> EventsAfter(log, w, cursor, limit).Err?
  {
    var mine := InWorkspace(log, w);
    var pruned := RetainedSplit(log, history, retention, w);
    PrunedMembers(log, history, next, retention, w, pruned, cursor);
    AboveConcat(pruned, mine, cursor);
    if EventsAfter(log, w, cursor, limit).Ok? {
      NewestIsTrue(log, history, next, retention, w);
      InWorkspaceOrdered(history, w);
      assert mine != [];
      forall i | 0 <= i < |pruned|
        ensures pruned[i].sequence < cursor + 1
      {
        assert (pruned + mine)[i].sequence < (pruned + mine)[|pruned|].sequence;
      }
      NothingAbove(pruned, cursor);
      assert Above(pruned, cursor) + Above(mine, cursor) == Above(mine, cursor);
    }
  }

  /**
   When a replay holds every event above the cursor.  The two ways to lose some are the row limit
   and, for a cursor that is not positive, events that were pruned before.
   */
  lemma ReplayCompleteIff(log: seq<Event>, history: seq<Event>, next: nat, retention: nat,
                          w: string, cursor: int, limit: int)
    requires TableOk(log, history, next, retention)
    requires EventsAfter(log, w, cursor, limit).Ok?
    ensures EventsAfter(log, w, cursor, limit).value == Above(InWorkspace(history, w), cursor)
       <==> |Above(InWorkspace(log, w), cursor)| <= limit && (cursor > 0 || !PrunedAbove(log, history, w, cursor))
  {
    var mine := InWorkspace(log, w);
    var pruned := RetainedSplit(log, history, retention, w);
    PrunedMembers(log, history, next, retention, w, pruned, cursor);
    AboveConcat(pruned, mine, cursor);
    if cursor > 0 {
      ReplayIsFullHistory(log, history, next, retention, w, cursor, limit);
    }
    if Above(pruned, cursor) == [] {
      assert Above(pruned, cursor) + Above(mine, cursor) == Above(mine, cursor);
    }
  }

  /** Which cursors are refused as outside the retained history, and that this never hides an ahead-of-history error. */
  lemma GapRefusalIff(log: seq<Event>, history: seq<Event>, next: nat, retention: nat,
                      w: string, cursor: int, limit: int)
    requires TableOk(log, history, next, retention)
    requires 0 < limit <= 1000
    requires 0 <= cursor <= NewestSequence(history, w)
    ensures EventsAfter(log, w, cursor, limit).Err? <==>
            cursor > 0 && forall e :: e in log && e.workspace == w ==> cursor < e.sequence - 1
    ensures EventsAfter(log, w, cursor, limit) != Err(AheadOfHistory)
  {
    NewestIsTrue(log, history, next, retention, w);
    var mine := InWorkspace(log, w);
    InWorkspaceOrdered(log, w);
    forall e
      ensures e in mine <==> e in log && e.workspace == w
    {
      InWorkspaceMembers(log, w, e);
    }
    if cursor > 0 {
      assert mine != [];
      assert mine[0] in mine;
    }
  }

  /** The first `limit` retained rows of the workspace above the cursor, in order. */
  ghost predicate IsReplay(items: seq<Event>, log: seq<Event>, w: string, cursor: int, limit: int) {
    && Ordered(items) && |items| <= limit
    && (forall e :: e in items ==> e in log && e.workspace == w && e.sequence > cursor)
    && (forall e :: e in log && e.workspace == w && e.sequence > cursor ==>
          e in items || (|items| == limit && forall x :: x in items ==> x.sequence < e.sequence))
  }

  lemma CutIsReplay(log: seq<Event>, w: string, cursor: int, limit: nat)
    requires Ordered(log)
    ensures IsReplay(Take(limit, Above(InWorkspace(log, w), cursor)), log, w, cursor, limit)
  {
    var mine := InWorkspace(log, w);
    var above := Above(mine, cursor);
    InWorkspaceOrdered(log, w);
    AboveOrdered(mine, cursor);
    hide InWorkspace, Above;
    forall e
      ensures e in above <==> e in log && e.workspace == w && e.sequence > cursor
    {
      InWorkspaceMembers(log, w, e);
      AboveMembers(mine, cursor, e);
    }
    if |above| > limit {
      forall e | e in above && e !in above[..limit]
        ensures forall x :: x in above[..limit] ==> x.sequence < e.sequence
      {
        var j :| limit <= j < |above| && above[j] == e;
      }
    }
  }

  lemma {:induction false} AboveOrdered(rows: seq<Event>, cursor: int)
    requires Ordered(rows)
    ensures Ordered(Above(rows, cursor))
  {
    if rows != [] {
      var front := rows[..|rows| - 1];
      AboveOrdered(front, cursor);
      forall k | 0 <= k < |Above(front, cursor)|
        ensures Above(front, cursor)[k].sequence < rows[|rows| - 1].sequence
      {
        AboveMembers(front, cursor, Above(front, cursor)[k]);
      }
    }
  }

  /** The cursor is above everything the workspace ever published. */
  ghost predicate Ahead(history: seq<Event>, w: string, cursor: int) {
    cursor > 0 && forall e :: e in history && e.workspace == w ==> e.sequence < cursor
  }

  /** The cursor lies more than one below every retained row of the workspace. */
  ghost predicate Outside(log: seq<Event>, w: string, cursor: int) {
    cursor > 0 && forall e :: e in log && e.workspace == w ==> cursor < e.sequence - 1
  }

  /** Every replay, for any cursor and any limit: which error is raised, and which rows are returned if none is. */
  lemma ReplayOutcome(log: seq<Event>, history: seq<Event>, next: nat, retention: nat, w: string, cursor: int, limit: int)
    requires TableOk(log, history, next, retention)
    ensures var r := EventsAfter(log, w, cursor, limit);
      if limit < 1 || limit > 1000 then r == Err(BadLimit)
      else if Ahead(history, w, cursor) then r == Err(AheadOfHistory)
      else if Outside(log, w, cursor) then r == Err(OutsideRetained)
      else r.Ok? && IsReplay(r.value, log, w, cursor, limit)
  {
    hide InWorkspace, Above, Take, IsReplay, Refines;
    if 1 <= limit <= 1000 {
      CutIsReplay(log, w, cursor, limit);
      NewestIsTrue(log, history, next, retention, w);
      NewestIsAnEvent(history, w);
      if 0 < cursor <= NewestSequence(history, w) {
        GapRefusalIff(log, history, next, retention, w, cursor, limit);
      }
    }
  }

  lemma NewestIsAnEvent(history: seq<Event>, w: string)
    ensures NewestSequence(history, w) == 0
      || exists e :: e in history && e.workspace == w && e.sequence == NewestSequence(history, w)
  {
    var mine := InWorkspace(history, w);
    if mine != [] { InWorkspaceMembers(history, w, mine[|mine| - 1]); }
  }

  /** A cursor that is not positive is never refused, whatever was pruned. */
  lemma ZeroIsNeverRefused(log: seq<Event>, w: string, cursor: int, limit: int)
    requires cursor <= 0
    ensures EventsAfter(log, w, cursor, limit).Ok? <==> 0 < limit <= 1000
  {
  }

  lemma AboveLast(rows: seq<Event>, cursor: int)
    requires Ordered(rows) && rows != []
    ensures Above(rows, cursor) != [] <==> cursor < rows[|rows| - 1].sequence
  {
    if cursor >= rows[|rows| - 1].sequence { NothingAbove(rows, cursor); }
  }

  /** The last sequence number that was pruned, or 1 if there is none. */
  function LastPruned(pruned: seq<Event>): nat {
    if pruned == [] then 1 else pruned[|pruned| - 1].sequence
  }

  lemma RefusedBelowOldest(log: seq<Event>, history: seq<Event>, next: nat, retention: nat, w: string, cursor: int, limit: int)
    requires TableOk(log, history, next, retention) && 0 < limit <= 1000
    requires 1 <= cursor <= NewestSequence(history, w) && InWorkspace(log, w) != []
    ensures EventsAfter(log, w, cursor, limit).Err? <==> cursor < InWorkspace(log, w)[0].sequence - 1
  {
    NewestIsTrue(log, history, next, retention, w);
  }

  lemma PrunedBelowLast(log: seq<Event>, history: seq<Event>, next: nat, retention: nat, w: string,
                        pruned: seq<Event>, cursor: int)
    requires TableOk(log, history, next, retention) && cursor >= 1
    requires InWorkspace(history, w) == pruned + InWorkspace(log, w)
    ensures PrunedAbove(log, history, w, cursor) <==> cursor < LastPruned(pruned)
  {
    PrunedMembers(log, history, next, retention, w, pruned, cursor);
    InWorkspaceOrdered(history, w);
    var all := pruned + InWorkspace(log, w);
    assert forall i :: 0 <= i < |pruned| ==> all[i] == pruned[i];
    if pruned != [] { AboveLast(pruned, cursor); }
  }

  /**
   For the positive cursors within the history of a workspace, a refusal means that something above the
   cursor was pruned, and conversely, exactly if the workspace has no rows or its oldest retained sequence
   number directly follows the last pruned one (or is at most 2 while nothing was pruned).
   */
  lemma GapRefusalIsExactIff(log: seq<Event>, history: seq<Event>, next: nat, retention: nat, w: string,
                             pruned: seq<Event>, limit: int)
    requires TableOk(log, history, next, retention) && 0 < limit <= 1000
    requires InWorkspace(history, w) == pruned + InWorkspace(log, w)
    ensures (forall cursor :: 1 <= cursor <= NewestSequence(history, w) ==>
               (EventsAfter(log, w, cursor, limit).Err? <==> PrunedAbove(log, history, w, cursor)))
       <==> InWorkspace(log, w) == [] || InWorkspace(log, w)[0].sequence <= 1 + LastPruned(pruned)
  {
    hide EventsAfter, PrunedAbove, InWorkspace, TableOk, NewestSequence;
    GapRange(log, history, next, retention, w, pruned);
    if InWorkspace(log, w) != [] {
      var oldest := InWorkspace(log, w)[0].sequence;
      forall cursor | 1 <= cursor <= NewestSequence(history, w)
        ensures EventsAfter(log, w, cursor, limit).Err? <==> cursor < oldest - 1
        ensures PrunedAbove(log, history, w, cursor) <==> cursor < LastPruned(pruned)
      {
        RefusedBelowOldest(log, history, next, retention, w, cursor, limit);
        PrunedBelowLast(log, history, next, retention, w, pruned, cursor);
      }
      if oldest > 1 + LastPruned(pruned) {
        var cursor := LastPruned(pruned);
        assert EventsAfter(log, w, cursor, limit).Err? && !PrunedAbove(log, history, w, cursor);
      }
    }
  }

  /** Where the pruned and the retained rows of a workspace lie. */
  lemma GapRange(log: seq<Event>, history: seq<Event>, next: nat, retention: nat, w: string, pruned: seq<Event>)
    requires TableOk(log, history, next, retention) && InWorkspace(history, w) == pruned + InWorkspace(log, w)
    ensures 1 <= LastPruned(pruned)
    ensures InWorkspace(log, w) == [] ==> NewestSequence(history, w) == 0
    ensures var mine := InWorkspace(log, w); mine != [] ==>
      mine[0].sequence <= NewestSequence(history, w) && (pruned != [] ==> LastPruned(pruned) < mine[0].sequence)
  {
    hide InWorkspace;
    InWorkspaceOrdered(history, w);
    PositiveSequences(history, w);
    OrderedSplit(pruned, InWorkspace(log, w));
    var same := RetainedSplit(log, history, retention, w);
    assert |pruned + InWorkspace(log, w)| == |same + InWorkspace(log, w)|;
  }

  lemma OrderedSplit(pruned: seq<Event>, mine: seq<Event>)
    requires Ordered(pruned + mine) && forall i :: 0 <= i < |pruned + mine| ==> (pruned + mine)[i].sequence > 0
    ensures 1 <= LastPruned(pruned)
    ensures mine != [] ==> mine[0].sequence <= (pruned + mine)[|pruned + mine| - 1].sequence
    ensures mine != [] && pruned != [] ==> LastPruned(pruned) < mine[0].sequence
  {
    var all := pruned + mine;
    if pruned != [] { assert all[|pruned| - 1] == pruned[|pruned| - 1]; }
    if mine != [] { assert all[|pruned|] == mine[0]; }
  }

  lemma PositiveSequences(history: seq<Event>, w: string)
    requires forall i :: 0 <= i < |history| ==> history[i].sequence > 0
    ensures forall i :: 0 <= i < |InWorkspace(history, w)| ==> InWorkspace(history, w)[i].sequence > 0
  {
    forall i | 0 <= i < |InWorkspace(history, w)|
      ensures InWorkspace(history, w)[i].sequence > 0
    {
      InWorkspaceMembers(history, w, InWorkspace(history, w)[i]);
    }
  }

  /**
   The converse of "a cursor below a pruned event is refused" fails: sequence numbers are global, so
   the gap test also fires when the numbers between cursor and oldest row belong to another workspace.
   Here nothing of workspace "a" above cursor 1 is missing, and the reconnect is refused.
   */
  lemma GapRefusalCanBeSpurious()
    ensures var history := [Event(1, "a", ""), Event(2, "b", ""), Event(3, "a", "")];
            var log := [Event(2, "b", ""), Event(3, "a", "")];
            && TableOk(log, history, 4, 1)
            && !PrunedAbove(log, history, "a", 1)
            && EventsAfter(log, "a", 1, 10) == Err(OutsideRetained)
  {
    hide TableOk, InWorkspace, Without, Appended;
    var e1, e2, e3 := Event(1, "a", ""), Event(2, "b", ""), Event(3, "a", "");
    SpuriousTable();
    assert InWorkspace([e2, e3], "a") == [e3] by {
      assert "a"[0] != "b"[0];
      InWorkspaceTwo(e2, e3, "a");
    }
  }

  lemma InWorkspaceTwo(x: Event, y: Event, w: string)
    ensures InWorkspace([x], w) == if x.workspace == w then [x] else []
    ensures InWorkspace([x, y], w) == InWorkspace([x], w) + if y.workspace == w then [y] else []
  {
    assert [x, y][..1] == [x] && [x][..0] == [];
  }

  lemma FirstAppend(e: Event)
    ensures Appended([], e, 1) == [e]
  {
    assert [] + [e] == [e];
    InWorkspaceOne([], e, e.workspace);
  }

  /** Appending 1 and 3 to workspace "a" and 2 to workspace "b", with one event retained each. */
  lemma SpuriousTable()
    ensures TableOk([Event(2, "b", ""), Event(3, "a", "")], [Event(1, "a", ""), Event(2, "b", ""), Event(3, "a", "")], 4, 1)
  {
    hide TableOk, InWorkspace, Without, Appended;
    var e1, e2, e3 := Event(1, "a", ""), Event(2, "b", ""), Event(3, "a", "");
    assert [] + [e1] == [e1] && [e1] + [e2] == [e1, e2] && [e1, e2] + [e3] == [e1, e2, e3];
    assert TableOk([], [], 1, 1) by { EmptyTable(); }
    AppendRefines([], [], 1, 1, "a", "");
    FirstAppend(e1);
    assert TableOk([e1], [e1], 2, 1);
    AppendRefines([e1], [e1], 2, 1, "b", "");
    SecondAppend(e1, e2);
    assert TableOk([e1, e2], [e1, e2], 3, 1);
    AppendRefines([e1, e2], [e1, e2], 3, 1, "a", "");
    ThirdAppend(e1, e2, e3);
    assert TableOk([e2, e3], [e1, e2, e3], 4, 1);
  }

  lemma EmptyTable()
    ensures TableOk([], [], 1, 1)
  {
  }

  lemma SecondAppend(e1: Event, e2: Event)
    requires e1.workspace == "a" && e2.workspace == "b"
    ensures Appended([e1], e2, 1) == [e1, e2]
  {
    hide InWorkspace, Without;
    assert "a"[0] != "b"[0];
    assert [e1] + [e2] == [e1, e2];
    InWorkspaceTwo(e1, e2, "b");
  }

  lemma ThirdAppend(e1: Event, e2: Event, e3: Event)
    requires e1.workspace == "a" && e2.workspace == "b" && e3.workspace == "a"
    requires e1.sequence == 1 && e3.sequence == 3
    ensures Appended([e1, e2], e3, 1) == [e2, e3]
  {
    hide InWorkspace, Without;
    assert "a"[0] != "b"[0];
    assert [e1, e2] + [e3] == [e1, e2, e3];
    InWorkspaceTwo(e1, e2, "a");
    InWorkspaceOne([e1, e2], e3, "a");
    WithoutExample(e1, e2, e3);
  }

  lemma WithoutExample(e1: Event, e2: Event, e3: Event)
    requires e1.workspace == "a" && e2.workspace == "b" && e3.workspace == "a"
    requires e1.sequence == 1 && e3.sequence == 3
    ensures Without([e1, e2, e3], "a", 1) == [e2, e3]
  {
    assert "a"[0] != "b"[0];
    assert [e1, e2, e3][..2] == [e1, e2] && [e1, e2][..1] == [e1] && [e1][..0] == [];
    assert Without([e1], "a", 1) == [];
    assert Without([e1, e2], "a", 1) == [e2];
  }
}
