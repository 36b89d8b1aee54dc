/**
 * TaskSystem.cpp: a FIFO queue of heap-allocated tasks that the main thread
 * drains. A task's `Run` is foreign code; here it is the list of tasks it
 * adds to the same system while it runs, and the system records that it ran
 * and that it was deleted.
 */
module TaskSystems {
  import opened Types

  /** A task: its identity and the tasks its `Run` adds, in the order it adds them. */
  datatype Task = Task(id: nat, spawns: seq<Task>)

  /** What `ExecuteWaitingTasks` does to a task, in order. */
  datatype Event = Ran(id: nat) | Deleted(id: nat)

  /** The task and every task it adds, directly or through the tasks it adds. */
  function Size(t: Task): (r: nat)
    ensures r >= 1
    decreases t
  {
    1 + TotalSize(t.spawns)
  }

  function TotalSize(q: seq<Task>): (r: nat)
    ensures r >= |q|
    decreases q
  {
    if q == [] then 0 else Size(q[0]) + TotalSize(q[1..])
  }

  lemma {:induction false} TotalSizeAppend(a: seq<Task>, b: seq<Task>)
    ensures TotalSize(a + b) == TotalSize(a) + TotalSize(b)
    decreases |a|
  {
    if a != [] {
      assert (a + b)[1..] == a[1..] + b;
      TotalSizeAppend(a[1..], b);
    } else {
      assert a + b == b;
    }
  }

  /** Running the front task and queueing what it adds leaves one task less to run. */
  lemma TotalSizeStep(q: seq<Task>)
    requires q != []
    ensures TotalSize(q[1..] + q[0].spawns) + 1 == TotalSize(q)
  {
    TotalSizeAppend(q[1..], q[0].spawns);
  }

  /** The identities of the queued tasks, front first. */
  function Ids(q: seq<Task>): (r: seq<nat>)
    ensures |r| == |q|
    ensures forall i :: 0 <= i < |q| ==> r[i] == q[i].id
  {
    if q == [] then [] else [q[0].id] + Ids(q[1..])
  }

  /** Every task of the queue and, after each, all the tasks it adds: each task once. */
  function Flatten(q: seq<Task>): (r: seq<nat>)
    decreases q
  {
    if q == [] then [] else [q[0].id] + Flatten(q[0].spawns) + Flatten(q[1..])
  }

  lemma {:induction false} FlattenAppend(a: seq<Task>, b: seq<Task>)
    ensures Flatten(a + b) == Flatten(a) + Flatten(b)
    decreases |a|
  {
    if a != [] {
      assert (a + b)[0] == a[0];
      assert (a + b)[1..] == a[1..] + b;
      FlattenAppend(a[1..], b);
    } else {
      assert a + b == b;
    }
  }

  /**
   * The order in which draining runs tasks: the front task runs, the tasks
   * it adds go to the back, and draining goes on until the queue is empty.
   */
  function Drain(q: seq<Task>): (r: seq<nat>)
    ensures |r| == TotalSize(q)
    decreases TotalSize(q)
  {
    if q == [] then []
    else
      TotalSizeStep(q);
      [q[0].id] + Drain(q[1..] + q[0].spawns)
  }

  /** The tasks queued when draining starts run first, in queue order. */
  lemma {:induction false} DrainRunsQueueFirst(q: seq<Task>)
    ensures Drain(q)[..|q|] == Ids(q)
    decreases TotalSize(q)
  {
    if q != [] {
      var rest := q[1..] + q[0].spawns;
      TotalSizeStep(q);
      DrainRunsQueueFirst(rest);
      assert Drain(rest)[..|q[1..]|] == Ids(rest)[..|q[1..]|];
      assert Ids(rest)[..|q[1..]|] == Ids(q[1..]);
      assert Drain(q)[..|q|] == [q[0].id] + Drain(rest)[..|q[1..]|];
    }
  }

  /** Draining runs every task of the queue and every task they add, each exactly once. */
  lemma {:induction false} DrainRunsEachOnce(q: seq<Task>)
    ensures multiset(Drain(q)) == multiset(Flatten(q))
    decreases TotalSize(q)
  {
    if q != [] {
      var rest := q[1..] + q[0].spawns;
      TotalSizeStep(q);
      DrainRunsEachOnce(rest);
      FlattenAppend(q[1..], q[0].spawns);
    }
  }

  /** When no task adds another, draining runs exactly the queue, in order. */
  lemma {:induction false} DrainWithoutSpawns(q: seq<Task>)
    requires forall i :: 0 <= i < |q| ==> q[i].spawns == []
    ensures Drain(q) == Ids(q)
    decreases |q|
  {
    if q != [] {
      assert q[1..] + q[0].spawns == q[1..];
      DrainWithoutSpawns(q[1..]);
    }
  }

  /** What the system records for tasks run in the order `ids`: each runs, then is deleted. */
  function Trace(ids: seq<nat>): (r: seq<Event>)
    ensures |r| == 2 * |ids|
  {
    if ids == [] then [] else [Ran(ids[0]), Deleted(ids[0])] + Trace(ids[1..])
  }

  lemma {:induction false} TraceAppend(a: seq<nat>, b: seq<nat>)
    ensures Trace(a + b) == Trace(a) + Trace(b)
    decreases |a|
  {
    if a != [] {
      assert (a + b)[0] == a[0];
      assert (a + b)[1..] == a[1..] + b;
      TraceAppend(a[1..], b);
    } else {
      assert a + b == b;
    }
  }

  /**
   * One round of draining: the front task runs and is deleted, then the rest
   * drains with its tasks at the back; `e` is what was recorded before.
   */
  lemma DrainStep(t: Task, q: seq<Task>, e: seq<Event>, target: seq<Event>)
    requires target == e + Trace(Drain([t] + q))
    ensures target == e + [Ran(t.id)] + [Deleted(t.id)] + Trace(Drain(q + t.spawns))
    ensures TotalSize(q + t.spawns) < TotalSize([t] + q)
  {
    var p := [t] + q;
    assert p[0] == t && p[1..] == q;
    TotalSizeStep(p);
    assert Trace(Drain(p)) == [Ran(t.id), Deleted(t.id)] + Trace(Drain(q + t.spawns));
    assert e + [Ran(t.id), Deleted(t.id)] + Trace(Drain(q + t.spawns)) == e + ([Ran(t.id), Deleted(t.id)] + Trace(Drain(q + t.spawns)));
    assert e + [Ran(t.id)] + [Deleted(t.id)] == e + [Ran(t.id), Deleted(t.id)];
  }

  /** Each task is deleted right after it runs and before the next task runs. */
  lemma {:induction false} TraceRunThenDelete(ids: seq<nat>, k: nat)
    requires k < |ids|
    ensures Trace(ids)[2 * k] == Ran(ids[k])
    ensures Trace(ids)[2 * k + 1] == Deleted(ids[k])
  {
    if k > 0 {
      TraceRunThenDelete(ids[1..], k - 1);
    }
  }

  /** `TaskSystem::Impl`: the queue of task pointers; a NULL pointer is never queued. */
  class Impl {
    var queue: seq<Task>

    constructor()
      ensures queue == []
    {
      queue := [];
    }

    /** `Impl::PushTask`: the task goes to the back. */
    method PushTask(task: Task)
      modifies this
      ensures queue == old(queue) + [task]
    {
      queue := queue + [task];
    }

    /** `Impl::PopTask`: None (NULL) on an empty queue; otherwise the front task, removed. */
    method PopTask() returns (task: Option<Task>)
      modifies this
      ensures old(queue) == [] ==> task == None && queue == []
      ensures old(queue) != [] ==> task == Some(old(queue)[0]) && queue == old(queue)[1..]
    {
      if queue == [] {
        return None;
      }
      task := Some(queue[0]);
      queue := queue[1..];
    }
  }

  function Pending(task: Option<Task>): seq<Task>
  {
    if task.Some? then [task.value] else []
  }

  /** What `PopTask` returns, put back at the front of what it leaves, is the queue it found. */
  lemma PopRestores(before: seq<Task>, task: Option<Task>, after: seq<Task>)
    requires before == [] ==> task == None && after == []
    requires before != [] ==> task == Some(before[0]) && after == before[1..]
    ensures Pending(task) + after == before
  {
    if before != [] {
      assert [before[0]] + before[1..] == before;
    }
  }

  /** `TaskSystem`: the queue and what has been done to the tasks so far. */
  class TaskSystem {
    const impl: Impl
    var events: seq<Event>

    constructor()
      ensures fresh(impl) && impl.queue == [] && events == []
    {
      impl := new Impl();
      events := [];
    }

    /** `TaskSystem::AddTask`: a NULL task is ignored; any other goes to the back of the queue. */
    method AddTask(task: Option<Task>)
      modifies impl
      ensures task.None? ==> impl.queue == old(impl.queue)
      ensures task.Some? ==> impl.queue == old(impl.queue) + [task.value]
    {
      if task.Some? {
        impl.PushTask(task.value);
      }
    }

    /** `ILauncherTask::Run`: the task adds its tasks with `AddTask`, in order. */
    method Run(task: Task)
      modifies this, impl
      ensures impl.queue == old(impl.queue) + task.spawns
      ensures events == old(events) + [Ran(task.id)]
    {
      var i := 0;
      while i < |task.spawns|
        invariant 0 <= i <= |task.spawns|
        invariant impl.queue == old(impl.queue) + task.spawns[..i]
        invariant events == old(events)
      {
        AddTask(Some(task.spawns[i]));
        assert task.spawns[..i + 1] == task.spawns[..i] + [task.spawns[i]];
        i := i + 1;
      }
      assert task.spawns[..i] == task.spawns;
      events := events + [Ran(task.id)];
    }

    /**
     * `TaskSystem::ExecuteWaitingTasks`: pops and runs tasks, deleting each
     * after it runs, until a pop finds the queue empty, so tasks added while
     * draining run too.
     */
    method ExecuteWaitingTasks()
      modifies this, impl
      ensures impl.queue == []
      ensures events == old(events) + Trace(Drain(old(impl.queue)))
    {
      ghost var target := events + Trace(Drain(impl.queue));
      ghost var before := impl.queue;
      var task := impl.PopTask();
      PopRestores(before, task, impl.queue);
      while task.Some?
        invariant task.None? ==> impl.queue == []
        invariant target == events + Trace(Drain(Pending(task) + impl.queue))
        decreases TotalSize(Pending(task) + impl.queue)
      {
        var t := task.value;
        ghost var q := impl.queue;
        ghost var e := events;
        assert Pending(task) + q == [t] + q;
        DrainStep(t, q, e, target);
        Run(t);
        // destroy the task
        events := events + [Deleted(t.id)];
        before := impl.queue;
        task := impl.PopTask();
        PopRestores(before, task, impl.queue);
      }
      assert Pending(task) + impl.queue == [];
    }
  }
}
