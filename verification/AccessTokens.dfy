/**
 One-time use of access-token identifiers: the used_access_jtis table, swept of rows older than a day
 whenever a new identifier is recorded.
 */
module AccessTokens {
  const DAY := 86400.0

  type Table = map<string, real>

  function Swept(t: Table, now: real): Table {
    map j | j in t && t[j] >= now - DAY :: t[j]
  }

  /** A duplicate key rolls the whole transaction back, the sweep included. */
  function Consume(t: Table, jti: string, now: real): (Table, bool) {
    if jti in Swept(t, now) then (t, false) else (Swept(t, now)[jti := now], true)
  }

  datatype Call = Call(jti: string, now: real)

  function After(calls: seq<Call>): Table {
    if calls == [] then map[]
    else
      var last := calls[|calls| - 1];
      Consume(After(calls[..|calls| - 1]), last.jti, last.now).0
  }

  predicate Succeeds(calls: seq<Call>, i: nat)
    requires i < |calls|
  {
    Consume(After(calls[..i]), calls[i].jti, calls[i].now).1
  }

  predicate ClockAdvances(calls: seq<Call>) {
    forall i, j :: 0 <= i < j < |calls| ==> calls[i].now <= calls[j].now
  }

  /** Call `i` succeeded for this identifier at most a day before `now`. */
  predicate RecentSuccess(calls: seq<Call>, i: nat, jti: string, now: real)
    requires i < |calls|
  {
    Succeeds(calls, i) && calls[i].jti == jti && calls[i].now >= now - DAY
  }

  lemma After1(calls: seq<Call>, n: nat)
    requires n < |calls|
    ensures After(calls[..n + 1]) == Consume(After(calls[..n]), calls[n].jti, calls[n].now).0
  {
    assert calls[..n + 1][..n] == calls[..n];
  }

  predicate SuccessAt(calls: seq<Call>, i: int, jti: string, at: real) {
    0 <= i < |calls| && Succeeds(calls, i) && calls[i].jti == jti && calls[i].now == at
  }

  /** Every row of the table after `n` calls is a success among them. */
  lemma {:induction false} RowIsSuccess(calls: seq<Call>, n: nat, jti: string) returns (i: nat)
    requires n <= |calls| && jti in After(calls[..n])
    ensures i < n && SuccessAt(calls, i, jti, After(calls[..n])[jti])
  {
    After1(calls, n - 1);
    if Succeeds(calls, n - 1) && calls[n - 1].jti == jti {
      i := n - 1;
    } else {
      hide SuccessAt;
      i := RowIsSuccess(calls, n - 1, jti);
    }
  }

  /** Every success among the first `n` calls is a row, or more than a day old. */
  lemma {:induction false} SuccessIsRow(calls: seq<Call>, n: nat, i: nat)
    requires i < n <= |calls| && ClockAdvances(calls) && Succeeds(calls, i)
    ensures var j, t := calls[i].jti, After(calls[..n]);
      (j in t && t[j] >= calls[i].now) || calls[i].now < calls[n - 1].now - DAY
  {
    After1(calls, n - 1);
    if i < n - 1 { SuccessIsRow(calls, n - 1, i); }
  }

  /**
   With a clock that never goes back, a call succeeds exactly when its identifier had no success in the
   preceding 86400 seconds.
   */
  lemma SucceedsIff(calls: seq<Call>, k: nat)
    requires k < |calls| && ClockAdvances(calls)
    ensures Succeeds(calls, k) <==> !exists i :: 0 <= i < k && RecentSuccess(calls, i, calls[k].jti, calls[k].now)
  {
    var t, c := After(calls[..k]), calls[k];
    if !Succeeds(calls, k) {
      var i := RowIsSuccess(calls, k, c.jti);
      assert RecentSuccess(calls, i, c.jti, c.now);
    }
    forall i | 0 <= i < k && RecentSuccess(calls, i, c.jti, c.now)
      ensures !Succeeds(calls, k)
    {
      SuccessIsRow(calls, k, i);
    }
  }

  /** So two successes of one identifier are more than 86400 seconds apart. */
  lemma SuccessesAreADayApart(calls: seq<Call>, i: nat, k: nat)
    requires i < k < |calls| && ClockAdvances(calls)
    requires Succeeds(calls, i) && Succeeds(calls, k) && calls[i].jti == calls[k].jti
    ensures calls[k].now - calls[i].now > DAY
  {
    SucceedsIff(calls, k);
    assert !RecentSuccess(calls, i, calls[k].jti, calls[k].now);
  }

  /** A clock that is set back lets an identifier succeed twice within a minute. */
  lemma ClockSetBack()
    ensures var calls := [Call("a", 0.0), Call("b", 100000.0), Call("a", 50.0)];
      Succeeds(calls, 0) && Succeeds(calls, 2)
  {
    var calls := [Call("a", 0.0), Call("b", 100000.0), Call("a", 50.0)];
    assert calls[..0] == [] && calls[..1] == [Call("a", 0.0)] && calls[..2] == [Call("a", 0.0), Call("b", 100000.0)];
    After1(calls, 0);
    After1(calls, 1);
    assert After(calls[..1]) == map["a" := 0.0];
    assert After(calls[..2]) == map["b" := 100000.0];
  }
}
