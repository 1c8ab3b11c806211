/** The background task registry: every task started through the manager
    is filed under its coroutine function's `__name__`, so that it can be
    cancelled by name, all at once, or replaced by an exclusive restart.
    asyncio itself is not modelled: a task is an entry of a table that
    records what it runs and whether it is pending, asked to cancel, or
    done, and its id is its position in that table. */
module Tasks {
  import opened Wrappers

  /** The coroutine function handed to `create_task` with its arguments;
      only its `__name__` matters to the registry. */
  datatype Job = Job(fnName: string, args: seq<string>)

  /** A task runs its function once, or forever with a pause in between. */
  datatype Body = Once | Every(interval: int)

  datatype State = Pending | CancelRequested | Done

  datatype Task = Task(name: string, job: Job, body: Body, state: State)

  /** `interval` is used only when it is truthy: present and non-zero. */
  function BodyOf(interval: Option<int>): (b: Body)
    ensures b.Every? <==> interval.Some? && interval.value != 0
    ensures b.Every? ==> b.interval == interval.value
  {
    if interval.Some? && interval.value != 0 then Every(interval.value) else Once
  }

  /** `task.cancel()`: a pending task is asked to stop; a finished one is
      left alone. */
  function RequestCancel(t: Task): Task
  {
    if t.state == Pending then t.(state := CancelRequested) else t
  }

  /** The table after `cancel()` on every task whose id is in `ids`. */
  function CancelEach(all: seq<Task>, ids: set<nat>): (r: seq<Task>)
    ensures |r| == |all|
    ensures forall i :: 0 <= i < |all| ==> r[i].name == all[i].name && r[i].job == all[i].job && r[i].body == all[i].body
    ensures forall i :: 0 <= i < |all| && i !in ids ==> r[i] == all[i]
    ensures forall i :: 0 <= i < |all| && i in ids ==> r[i].state != Pending
  {
    seq(|all|, i requires 0 <= i < |all| => if i in ids then RequestCancel(all[i]) else all[i])
  }

  /** Cancelling in two batches is cancelling their union. */
  lemma CancelEachUnion(all: seq<Task>, s: set<nat>, t: set<nat>)
    ensures CancelEach(CancelEach(all, s), t) == CancelEach(all, s + t)
  {
    var a := CancelEach(CancelEach(all, s), t);
    var b := CancelEach(all, s + t);
    forall i | 0 <= i < |all| ensures a[i] == b[i] {
      if i in s && i in t {
        assert RequestCancel(RequestCancel(all[i])) == RequestCancel(all[i]);
      }
    }
  }

  /** Cancelling the same tasks again changes nothing. */
  lemma CancelEachIdempotent(all: seq<Task>, s: set<nat>)
    ensures CancelEach(CancelEach(all, s), s) == CancelEach(all, s)
  {
    CancelEachUnion(all, s, s);
    assert s + s == s;
  }

  /** `self._tasks[name]` of a `defaultdict(set)`, read without inserting. */
  function Registered(tasks: map<string, set<nat>>, name: string): set<nat>
  {
    if name in tasks then tasks[name] else {}
  }

  /** The ids filed under the names in `names`. */
  function IdsUnder(tasks: map<string, set<nat>>, names: set<string>): set<nat>
  {
    set name, id | name in names && name in tasks && id in tasks[name] :: id
  }

  lemma IdsUnderStep(tasks: map<string, set<nat>>, names: set<string>, name: string)
    requires name in tasks
    ensures IdsUnder(tasks, names + {name}) == IdsUnder(tasks, names) + tasks[name]
  {
    forall id | id in tasks[name] ensures id in IdsUnder(tasks, names + {name}) {
      assert name in names + {name};
    }
  }

  /** One pass of `_set_interval`'s `while True` loop per round: call the
      function, then sleep. */
  datatype Action = Call(args: seq<string>) | Sleep(seconds: int)

  function IntervalTrace(args: seq<string>, interval: int, rounds: nat): seq<Action>
  {
    if rounds == 0 then [] else IntervalTrace(args, interval, rounds - 1) + [Call(args), Sleep(interval)]
  }

  /** The calls and the pauses alternate, starting with a call. */
  lemma {:induction false} IntervalTraceShape(args: seq<string>, interval: int, rounds: nat)
    ensures |IntervalTrace(args, interval, rounds)| == 2 * rounds
    ensures forall i :: 0 <= i < rounds ==>
      IntervalTrace(args, interval, rounds)[2 * i] == Call(args) && IntervalTrace(args, interval, rounds)[2 * i + 1] == Sleep(interval)
  {
    if rounds > 0 {
      IntervalTraceShape(args, interval, rounds - 1);
    }
  }

  /** The first `rounds` passes of `_set_interval(fn, interval, *args)`;
      the loop itself never ends. */
  method SetInterval(job: Job, interval: int, rounds: nat) returns (trace: seq<Action>)
    ensures trace == IntervalTrace(job.args, interval, rounds)
  {
    trace := [];
    var i := 0;
    while i < rounds
      invariant 0 <= i <= rounds
      invariant trace == IntervalTrace(job.args, interval, i)
    {
      trace := trace + [Call(job.args)];
      trace := trace + [Sleep(interval)];
      i := i + 1;
    }
  }

  /** Every registered id is a task of the table filed under its own
      name. */
  ghost predicate Filed(tasks: map<string, set<nat>>, all: seq<Task>)
  {
    forall name :: name in tasks ==> forall id :: id in tasks[name] ==> id < |all| && all[id].name == name
  }

  lemma FiledRegistered(tasks: map<string, set<nat>>, all: seq<Task>, name: string)
    requires Filed(tasks, all)
    ensures forall id :: id in Registered(tasks, name) ==> id < |all| && all[id].name == name
  {
    forall id | id in Registered(tasks, name) ensures id < |all| && all[id].name == name {
      assert name in tasks && id in tasks[name];
    }
  }

  lemma FiledAfterCancel(tasks: map<string, set<nat>>, all: seq<Task>, ids: set<nat>)
    requires Filed(tasks, all)
    ensures Filed(tasks, CancelEach(all, ids))
  {
    var r := CancelEach(all, ids);
    forall name, id | name in tasks && id in tasks[name] ensures id < |r| && r[id].name == name {
      assert id < |all| && all[id].name == name;
    }
  }

  /** `TaskManager`: `_tasks`, a `defaultdict(set)` from a function name to
      the ids of its tasks, and the table of every task started. */
  class TaskManager {
    var tasks: map<string, set<nat>>
    var all: seq<Task>

    ghost predicate Valid()
      reads this
    {
      Filed(tasks, all)
    }

    constructor()
      ensures tasks == map[] && all == []
      ensures Valid()
    {
      tasks := map[];
      all := [];
    }

    /** `for t in ids: t.cancel()` */
    method CancelTasks(ids: set<nat>)
      requires forall id :: id in ids ==> id < |all|
      modifies this
      ensures all == CancelEach(old(all), ids)
      ensures tasks == old(tasks)
    {
      var rest := ids;
      ghost var done: set<nat> := {};
      assert CancelEach(all, {}) == all;
      while rest != {}
        invariant rest <= ids && done == ids - rest
        invariant all == CancelEach(old(all), done)
        invariant tasks == old(tasks)
        decreases rest
      {
        var t :| t in rest;
        ghost var before := all;
        all := all[t := RequestCancel(all[t])];
        assert all == CancelEach(before, {t});
        CancelEachUnion(old(all), done, {t});
        rest := rest - {t};
        done := done + {t};
      }
    }

    /** `create_task(fn, interval, exclusive, *args)`: with `exclusive` and
        the name already a key, every task under the name is cancelled and
        the name's set emptied; then the new task is started and filed
        under the function's name, whatever its arguments. */
    method CreateTask(job: Job, interval: Option<int>, exclusive: bool) returns (id: nat)
      requires Valid()
      modifies this
      ensures Valid()
      ensures id == |old(all)|
      ensures var restart := exclusive && job.fnName in old(tasks);
        all == (if restart then CancelEach(old(all), old(tasks)[job.fnName]) else old(all))
               + [Task(job.fnName, job, BodyOf(interval), Pending)]
        && tasks == old(tasks)[job.fnName := (if restart then {} else Registered(old(tasks), job.fnName)) + {id}]
      ensures exclusive ==> tasks[job.fnName] == {id}
    {
      var name := job.fnName;
      if exclusive && name in tasks {
        FiledRegistered(tasks, all, name);
        FiledAfterCancel(tasks, all, tasks[name]);
        CancelTasks(tasks[name]);
        tasks := tasks[name := {}];
      }
      var body := BodyOf(interval);
      id := |all|;
      all := all + [Task(name, job, body, Pending)];
      tasks := tasks[name := Registered(tasks, name) + {id}];
    }

    /** `cancel_all()`: cancels every registered task and forgets every
        name; on an empty registry it does nothing. */
    method CancelAll()
      requires Valid()
      modifies this
      ensures Valid()
      ensures all == CancelEach(old(all), IdsUnder(old(tasks), old(tasks).Keys))
      ensures tasks == map[]
      ensures old(tasks) == map[] ==> all == old(all)
    {
      var names := tasks.Keys;
      ghost var done: set<string> := {};
      assert IdsUnder(tasks, {}) == {};
      assert CancelEach(all, {}) == all;
      while names != {}
        invariant names <= tasks.Keys && done == tasks.Keys - names
        invariant tasks == old(tasks)
        invariant all == CancelEach(old(all), IdsUnder(tasks, done))
        decreases names
      {
        var name :| name in names;
        FiledRegistered(tasks, old(all), name);
        CancelTasks(tasks[name]);
        CancelEachUnion(old(all), IdsUnder(tasks, done), tasks[name]);
        IdsUnderStep(tasks, done, name);
        names := names - {name};
        done := done + {name};
      }
      assert done == old(tasks).Keys;
      tasks := map[];
    }

    /** `cancel(fn_name)`: cancels that name's tasks and leaves the name
        filed with no tasks (the `defaultdict` creates it when missing);
        other names keep theirs. */
    method Cancel(fnName: string)
      requires Valid()
      modifies this
      ensures Valid()
      ensures all == CancelEach(old(all), Registered(old(tasks), fnName))
      ensures tasks == old(tasks)[fnName := {}]
    {
      var ids := Registered(tasks, fnName);
      FiledRegistered(tasks, all, fnName);
      FiledAfterCancel(tasks, all, ids);
      CancelTasks(ids);
      tasks := tasks[fnName := {}];
    }

    /** The done callback `_remove_task(name, task)`: when the name's set is
        non-empty it removes the task, and `set.remove` raises `KeyError`
        when the task is not there, as for a task an exclusive restart
        cancelled. Reading the name files it when missing. */
    method RemoveTask(name: string, id: nat) returns (keyError: bool)
      requires Valid()
      modifies this
      ensures Valid()
      ensures all == old(all)
      ensures tasks == old(tasks)[name := Registered(old(tasks), name) - {id}]
      ensures keyError <==> Registered(old(tasks), name) != {} && id !in Registered(old(tasks), name)
    {
      var taskSet := Registered(tasks, name);
      tasks := tasks[name := taskSet];
      keyError := false;
      if taskSet != {} {
        if id in taskSet {
          tasks := tasks[name := taskSet - {id}];
        } else {
          assert taskSet - {id} == taskSet;
          keyError := true;
        }
      } else {
        assert taskSet - {id} == taskSet;
      }
    }

    /** A task finishes, or stops after a cancel request, and its done
        callback runs with the name it was created under. A task finishes
        once, so its callback runs once. */
    method Finish(id: nat) returns (keyError: bool)
      requires Valid() && id < |all| && all[id].state != Done
      modifies this
      ensures Valid()
      ensures all == old(all)[id := old(all)[id].(state := Done)]
      ensures tasks == old(tasks)[old(all)[id].name := Registered(old(tasks), old(all)[id].name) - {id}]
      ensures keyError <==> Registered(old(tasks), old(all)[id].name) != {} && id !in Registered(old(tasks), old(all)[id].name)
    {
      all := all[id := all[id].(state := Done)];
      assert Filed(tasks, all);
      keyError := RemoveTask(all[id].name, id);
    }
  }

  /** An exclusive restart cancels the running task but leaves its done
      callback in place: when the cancelled task finishes, `_remove_task`
      finds only the new task under the name and raises `KeyError`. */
  method ExclusiveRestartStrandsCallback(job: Job) returns (keyError: bool)
    ensures keyError
  {
    var manager := new TaskManager();
    var first := manager.CreateTask(job, None, false);
    var second := manager.CreateTask(job, None, true);
    keyError := manager.Finish(first);
  }
}
