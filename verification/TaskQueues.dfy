/**
 The agent task scheduler.  Two tasks compare equal when their priorities do, so removing a task
 from the queue takes out the first task of its priority, which may be another one.
 Every method body is one critical section of the queue's lock.
 */
module TaskQueues {
  import opened Wrappers

  datatype Status = Pending | Running | Completed | Failed | Cancelled

  class Task {
    const priority: int
    const createdAt: real
    const id: string
    const goal: string
    var status: Status
    var cancelFlag: bool
    var result: Option<string>
    var error: string
    ghost const number: nat  // how many tasks were submitted before this one

    constructor (priority: int, createdAt: real, id: string, goal: string, ghost number: nat)
      ensures this.priority == priority && this.createdAt == createdAt && this.id == id && this.goal == goal
      ensures this.number == number
      ensures status == Pending && !cancelFlag && result == None && error == ""
    {
      this.priority, this.createdAt, this.id, this.goal := priority, createdAt, id, goal;
      this.number := number;
      status, cancelFlag, result, error := Pending, false, None, "";
    }
  }

  /** The sort key of the queue. */
  predicate KeyLess(a: Task, b: Task) {
    a.priority < b.priority || (a.priority == b.priority && a.createdAt < b.createdAt)
  }

  /** The order in which tasks are due: priority, then creation time, then submission. */
  ghost predicate Before(a: Task, b: Task) {
    || a.priority < b.priority
    || (a.priority == b.priority && a.createdAt < b.createdAt)
    || (a.priority == b.priority && a.createdAt == b.createdAt && a.number < b.number)
  }

  ghost predicate InOrder(q: seq<Task>) {
    forall i, j :: 0 <= i < j < |q| ==> Before(q[i], q[j])
  }

  /** One step of a stable sort: t goes behind everything whose key is not greater. */
  function Insert(q: seq<Task>, t: Task): seq<Task> {
    if q == [] || !KeyLess(t, q[|q| - 1]) then q + [t]
    else Insert(q[..|q| - 1], t) + [q[|q| - 1]]
  }

  function StableSort(q: seq<Task>): seq<Task> {
    if q == [] then [] else Insert(StableSort(q[..|q| - 1]), q[|q| - 1])
  }

  /** list.remove: the first task that compares equal, which is decided by priority alone. */
  function RemoveEqual(q: seq<Task>, t: Task): seq<Task> {
    if q == [] then []
    else if q[0] == t || q[0].priority == t.priority then q[1..]
    else [q[0]] + RemoveEqual(q[1..], t)
  }

  // --- the queue as a sequence ----------------------------------------------------------------------

  lemma {:induction false} InsertMembers(q: seq<Task>, t: Task)
    ensures |Insert(q, t)| == |q| + 1
    ensures forall x :: x in q || x == t ==> x in Insert(q, t)
    ensures forall i :: 0 <= i < |q| + 1 ==> Insert(q, t)[i] in q || Insert(q, t)[i] == t
  {
    hide KeyLess;
    if q != [] && KeyLess(t, q[|q| - 1]) {
      InsertMembers(q[..|q| - 1], t);
      assert q == q[..|q| - 1] + [q[|q| - 1]];
    }
  }

  lemma AppendInOrder(q: seq<Task>, t: Task)
    requires InOrder(q) && forall i :: 0 <= i < |q| ==> Before(q[i], t)
    ensures InOrder(q + [t])
  {
    hide Before;
  }

  /** What is due before a task that t does not precede is due before t. */
  lemma BeforeAndNotAfter(a: Task, b: Task, t: Task)
    requires (a == b || Before(a, b)) && !KeyLess(t, b) && a.number < t.number
    ensures Before(a, t)
  {
  }

  lemma {:induction false} InsertInOrder(q: seq<Task>, t: Task)
    requires InOrder(q) && forall i :: 0 <= i < |q| ==> q[i].number < t.number
    ensures InOrder(Insert(q, t))
  {
    hide KeyLess, Before, InOrder;
    if q == [] {
      OneInOrder(t);
    } else {
      var front, last := q[..|q| - 1], q[|q| - 1];
      LastIsLast(q);
      if KeyLess(t, last) {
        InsertInOrder(front, t);
        InsertMembers(front, t);
        var placed := Insert(front, t);
        KeyLessIsBefore(t, last);
        forall j | 0 <= j < |placed|
          ensures Before(placed[j], last)
        {
          if placed[j] != t { var i :| 0 <= i < |front| && front[i] == placed[j]; }
        }
        AppendInOrder(placed, last);
      } else {
        forall i | 0 <= i < |q|
          ensures Before(q[i], t)
        {
          BeforeAndNotAfter(q[i], last, t);
        }
        AppendInOrder(q, t);
      }
    }
  }

  lemma OneInOrder(t: Task)
    ensures InOrder([t]) && [] + [t] == [t]
  {
  }

  lemma LastIsLast(q: seq<Task>)
    requires InOrder(q) && q != []
    ensures InOrder(q[..|q| - 1]) && forall i :: 0 <= i < |q| - 1 ==> Before(q[i], q[|q| - 1])
  {
  }

  lemma KeyLessIsBefore(a: Task, b: Task)
    requires KeyLess(a, b)
    ensures Before(a, b)
  {
  }

  lemma {:induction false} SortedIsFixed(q: seq<Task>)
    requires InOrder(q)
    ensures StableSort(q) == q
  {
    if q != [] {
      SortedIsFixed(q[..|q| - 1]);
      if |q| > 1 {
        assert Before(q[|q| - 2], q[|q| - 1]);
      }
      assert q == q[..|q| - 1] + [q[|q| - 1]];
    }
  }

  /** Appending a new task and sorting stably puts it in its due place and moves nothing else. */
  lemma AppendAndSort(q: seq<Task>, t: Task)
    requires InOrder(q) && forall x :: x in q ==> x.number < t.number
    ensures InOrder(StableSort(q + [t])) && |StableSort(q + [t])| == |q| + 1
    ensures forall x :: x in q || x == t ==> x in StableSort(q + [t])
    ensures forall i :: 0 <= i < |q| + 1 ==> StableSort(q + [t])[i] in q || StableSort(q + [t])[i] == t
  {
    assert (q + [t])[..|q + [t]| - 1] == q;
    SortedIsFixed(q);
    InsertInOrder(q, t);
    InsertMembers(q, t);
    hide Insert, InOrder;
  }

  /**
   What list.remove takes out of an ordered queue that holds t: one task of t's priority which is t
   itself or is due before t; everything else stays, in order.
   */
  lemma {:induction false} RemoveEqualTakes(q: seq<Task>, t: Task) returns (gone: Task)
    requires InOrder(q) && t in q
    ensures gone in q && gone.priority == t.priority && (gone == t || Before(gone, t))
    ensures InOrder(RemoveEqual(q, t)) && |RemoveEqual(q, t)| == |q| - 1
    ensures forall x :: x in q && x != gone ==> x in RemoveEqual(q, t)
    ensures forall x :: x in q && x != gone && x.priority == t.priority ==> Before(gone, x)
    ensures forall i :: 0 <= i < |q| - 1 ==> RemoveEqual(q, t)[i] in q && RemoveEqual(q, t)[i] != gone
  {
    hide Before, InOrder;
    var rest := q[1..];
    assert q == [q[0]] + rest;
    FirstIsFirst(q);
    if q[0] == t || q[0].priority == t.priority {
      gone := q[0];
    } else {
      gone := RemoveEqualTakes(rest, t);
      var kept := RemoveEqual(rest, t);
      forall j | 0 <= j < |kept|
        ensures Before(q[0], kept[j])
      {
        var i :| 0 <= i < |rest| && rest[i] == kept[j];
      }
      PrependInOrder(q[0], kept);
      assert q[0] != gone;
    }
  }

  lemma FirstIsFirst(q: seq<Task>)
    requires InOrder(q) && q != []
    ensures InOrder(q[1..]) && forall i :: 0 <= i < |q| - 1 ==> Before(q[0], q[1..][i]) && q[1..][i] != q[0]
  {
    forall i | 0 <= i < |q| - 1
      ensures Before(q[0], q[1..][i]) && q[1..][i] != q[0]
    {
      assert Before(q[0], q[i + 1]);
    }
  }

  lemma PrependInOrder(t: Task, q: seq<Task>)
    requires InOrder(q) && forall i :: 0 <= i < |q| ==> Before(t, q[i])
    ensures InOrder([t] + q)
  {
    hide Before;
  }

  /** Removing the second of two tasks of one priority takes out the first and leaves the second queued. */
  lemma RemoveEqualMayTakeAnother(a: Task, b: Task)
    requires a.priority == b.priority
    ensures RemoveEqual([a, b], b) == [b]
  {
  }

  /** Duplicate-free tasks are at least as many as any set of them. */
  lemma {:induction false} CountAtLeast(q: seq<Task>, s: set<Task>)
    requires forall t :: t in s ==> t in q
    ensures |s| <= |q|
  {
    if q != [] {
      var front, last := q[..|q| - 1], q[|q| - 1];
      assert q == front + [last];
      CountAtLeast(front, s - {last});
      assert s <= (s - {last}) + {last};
    } else {
      assert s == {};
    }
  }

  ghost predicate NoDup(q: seq<Task>) {
    forall i, j :: 0 <= i < j < |q| ==> q[i] != q[j]
  }

  class TaskQueue {
    const maxConcurrent: int
    var queue: seq<Task>
    var tasks: map<string, Task>
    var activeCount: int
    ghost var submitted: seq<Task>
    ghost var dispatched: seq<Task>
    ghost var finished: set<Task>

    ghost predicate Runnable(t: Task)
      reads t
    {
      t.status == Pending && !t.cancelFlag
    }

    /**
     No runnable task is ever missing from the queue; the queue is as long as the tasks not yet
     dispatched; no task is dispatched twice; the active count is that of dispatched, unfinished tasks.
     */
    ghost predicate Valid()
      reads this, submitted
    {
      QueueOk() && StatusOk() && DispatchOk()
    }

    ghost predicate QueueOk()
      reads this
    {
      && (forall i :: 0 <= i < |submitted| ==> submitted[i].number == i)
      && InOrder(queue) && (forall t :: t in queue ==> t in submitted)
      && (forall id :: id in tasks ==> tasks[id] in submitted)
      && |queue| == |submitted| - |dispatched|
    }

    ghost predicate StatusOk()
      reads this, submitted
    {
      && (forall t :: t in submitted && t.status == Pending ==> !t.cancelFlag && t in queue && t !in dispatched)
      && (forall t :: t in submitted && t !in dispatched ==> t.status == Pending || t.status == Cancelled)
    }

    ghost predicate DispatchOk()
      reads this
    {
      && NoDup(dispatched) && (forall t :: t in dispatched ==> t in submitted)
      && (forall t :: t in finished ==> t in dispatched)
      && activeCount == |dispatched| - |finished|
      && (activeCount == 0 || activeCount <= maxConcurrent)
    }

    constructor (maxConcurrent: int)
      ensures Valid() && this.maxConcurrent == maxConcurrent
      ensures queue == [] && submitted == [] && dispatched == [] && finished == {} && activeCount == 0
    {
      this.maxConcurrent := maxConcurrent;
      queue, tasks, activeCount := [], map[], 0;
      submitted, dispatched, finished := [], [], {};
    }

    method Submit(goal: string, priority: int, now: real, id: string) returns (taskId: string)
      requires Valid()
      modifies this`queue, this`tasks, this`submitted
      ensures Valid()
      ensures taskId == id && id in tasks && fresh(tasks[id])
      ensures submitted == old(submitted) + [tasks[id]]
      ensures tasks == old(tasks)[id := tasks[id]]
      ensures queue == StableSort(old(queue) + [tasks[id]])
      ensures forall t :: t in queue <==> t in old(queue) || t == tasks[id]
      ensures var t := tasks[id]; Runnable(t) && t.priority == priority && t.createdAt == now && t.goal == goal && t.id == id
    {
      hide Insert, StableSort, Before;
      var task := new Task(priority, now, id, goal, |submitted|);
      AppendAndSort(queue, task);
      queue := queue + [task];
      queue := StableSort(queue);
      tasks := tasks[id := task];
      submitted := submitted + [task];
      taskId := id;
    }

    method Cancel(id: string) returns (done: bool)
      requires Valid()
      modifies set t | t in submitted
      ensures Valid()
      ensures done <==> id in tasks && old(tasks[id].status) in {Pending, Running}
      ensures done ==> tasks[id].cancelFlag && tasks[id].status == Cancelled
      ensures forall t :: t in submitted && !(done && t == tasks[id]) ==> t.status == old(t.status) && t.cancelFlag == old(t.cancelFlag)
    {
      if id !in tasks {
        return false;
      }
      var task := tasks[id];
      if task.status == Completed || task.status == Failed || task.status == Cancelled {
        return false;
      }
      task.cancelFlag := true;
      task.status := Cancelled;
      return true;
    }

    /** How many submitted tasks are pending, counted on the queue alone. */
    method PendingCount() returns (count: nat)
      requires Valid()
      ensures count == |set t | t in submitted && t.status == Pending|
    {
      count := 0;
      ghost var seen := {};
      for i := 0 to |queue|
        invariant count == |seen|
        invariant forall t :: t in seen <==> t in queue[..i] && t.status == Pending
      {
        assert queue[..i + 1] == queue[..i] + [queue[i]];
        if queue[i].status == Pending {
          assert queue[i] !in queue[..i];
          seen := seen + {queue[i]};
          count := count + 1;
        }
      }
      assert queue[..|queue|] == queue;
      assert seen == set t | t in submitted && t.status == Pending;
    }

    /** The first task of the queue that may start now. */
    method NextTask() returns (task: Option<Task>)
      requires Valid()
      ensures task.Some? ==> task.value in queue && Runnable(task.value) && activeCount < maxConcurrent
      ensures task.Some? ==> forall t :: t in submitted && Runnable(t) && t != task.value ==> Before(task.value, t)
      ensures task.None? <==> activeCount >= maxConcurrent || forall t :: t in submitted ==> !Runnable(t)
    {
      if activeCount >= maxConcurrent {
        return None;
      }
      for i := 0 to |queue|
        invariant forall j :: 0 <= j < i ==> !Runnable(queue[j])
      {
        if queue[i].status == Pending && !queue[i].cancelFlag {
          return Some(queue[i]);
        }
      }
      return None;
    }

    /**
     The worker's critical section.  The task it starts is the due-most of all runnable ones; nothing
     that could still run leaves the queue.  It starts none exactly if all slots are taken or nothing can run.
     */
    method Dispatch() returns (task: Option<Task>)
      requires Valid()
      modifies this`queue, this`activeCount, this`dispatched, set t | t in submitted
      ensures Valid()
      ensures task.None? <==> old(activeCount) >= maxConcurrent || forall t :: t in submitted ==> !old(Runnable(t))
      ensures task.None? ==> queue == old(queue) && activeCount == old(activeCount) && dispatched == old(dispatched)
      ensures task.Some? ==>
                && task.value in submitted && old(Runnable(task.value)) && task.value !in old(dispatched)
                && (forall t :: t in submitted && old(Runnable(t)) && t != task.value ==> Before(task.value, t))
                && task.value.status == Running
                && dispatched == old(dispatched) + [task.value]
                && activeCount == old(activeCount) + 1
                && queue == RemoveEqual(old(queue), task.value) && |queue| == |old(queue)| - 1
      ensures forall t :: t in submitted && task != Some(t) ==> t.status == old(t.status)
      ensures forall t :: t in submitted ==> t.cancelFlag == old(t.cancelFlag)
    {
      task := NextTask();
      if task.Some? {
        var t := task.value;
        ghost var gone := RemoveEqualTakes(queue, t);
        assert !Runnable(gone) || gone == t;
        t.status := Running;
        activeCount := activeCount + 1;
        queue := RemoveEqual(queue, t);
        dispatched := dispatched + [t];
      }
    }

    /** The bookkeeping of a dispatched task that is over keeps everything. */
    twostate lemma Finishes(task: Task)
      requires old(Valid()) && task in dispatched && task !in old(finished) && task.status != Pending
      requires queue == old(queue) && tasks == old(tasks) && submitted == old(submitted) && dispatched == old(dispatched)
      requires finished == old(finished) + {task} && activeCount == old(activeCount) - 1
      requires forall t :: t in submitted && t != task ==> t.status == old(t.status) && t.cancelFlag == old(t.cancelFlag)
      ensures Valid()
    {
      hide InOrder;
      CountAtLeast(dispatched, finished);
    }

    /** What the task's own thread does when the executor returned or raised. */
    method FinishTask(task: Task, outcome: Result<string, string>)
      requires Valid() && task in dispatched && task !in finished
      modifies this`activeCount, this`finished, task
      ensures Valid()
      ensures finished == old(finished) + {task} && activeCount == old(activeCount) - 1
      ensures task.cancelFlag == old(task.cancelFlag)
      ensures task.status == (if outcome.Err? then Failed else if task.cancelFlag then Cancelled else Completed)
      ensures outcome.Ok? && !task.cancelFlag ==> task.result == Some(outcome.value)
      ensures task.error == if outcome.Err? then outcome.error else old(task.error)
      ensures outcome.Err? || task.cancelFlag ==> task.result == old(task.result)
    {
      hide Valid, QueueOk, StatusOk, DispatchOk;
      match outcome {
        case Ok(result) =>
          if task.cancelFlag {
            task.status := Cancelled;
          } else {
            task.status := Completed;
            task.result := Some(result);
          }
        case Err(error) =>
          task.status := Failed;
          task.error := error;
      }
      activeCount := activeCount - 1;
      finished := finished + {task};
      Finishes(task);
    }
  }
}
