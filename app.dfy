/**
 * The task store of the `App` component (todo_frontend/src/App.js): the task
 * list, the filter, the loading flag, the set of ids with a request in flight
 * and the visible error, with the views derived from them.
 *
 * Each handler is split into a start step, run when the user acts (it clears
 * the error, raises `loading` or marks the task busy, and returns the API call
 * it issues), and a settle step that receives how the call settled.
 */
module App {
  import opened Wrappers
  import opened TaskTypes
  import Api

  // ---------------------------------------------------------------------------
  // Pure views and list updaters
  // ---------------------------------------------------------------------------

  /** `tasks.filter(t => t.completed === completed)`. */
  function WithStatus(ts: seq<Task>, completed: bool): (r: seq<Task>)
    ensures |r| <= |ts|
    ensures forall t :: t in r <==> t in ts && t.completed == completed
  {
    if ts == [] then []
    else (if ts[0].completed == completed then [ts[0]] else []) + WithStatus(ts[1..], completed)
  }

  /** Filtering keeps relative order: it distributes over concatenation. */
  lemma {:induction false} WithStatusAppend(a: seq<Task>, b: seq<Task>, completed: bool)
    ensures WithStatus(a + b, completed) == WithStatus(a, completed) + WithStatus(b, completed)
  {
    if a == [] {
      assert a + b == b;
    } else {
      assert (a + b)[1..] == a[1..] + b;
      WithStatusAppend(a[1..], b, completed);
    }
  }

  /** The active and the completed tasks together are the whole list, each task counted once. */
  lemma {:induction false} StatusPartition(ts: seq<Task>)
    ensures |WithStatus(ts, false)| + |WithStatus(ts, true)| == |ts|
    ensures multiset(WithStatus(ts, false)) + multiset(WithStatus(ts, true)) == multiset(ts)
  {
    if ts != [] {
      StatusPartition(ts[1..]);
      assert ts == [ts[0]] + ts[1..];
    }
  }

  /** The `filteredTasks` view: "active" and "completed" select by status, any other filter shows all. */
  function FilteredTasks(ts: seq<Task>, filter: string): (r: seq<Task>)
    ensures filter == "active" ==> r == WithStatus(ts, false)
    ensures filter == "completed" ==> r == WithStatus(ts, true)
    ensures filter == "active" ==> forall t :: t in r <==> t in ts && !t.completed
    ensures filter == "completed" ==> forall t :: t in r <==> t in ts && t.completed
    ensures filter != "active" && filter != "completed" ==> r == ts
  {
    if filter == "active" then WithStatus(ts, false)
    else if filter == "completed" then WithStatus(ts, true)
    else ts
  }

  /** `prev.map(t => t.id === id ? updated : t)`. */
  function ReplaceById(ts: seq<Task>, id: Id, updated: Task): (r: seq<Task>)
    ensures |r| == |ts|
    ensures forall i :: 0 <= i < |ts| ==> r[i] == if ts[i].id == id then updated else ts[i]
  {
    if ts == [] then []
    else [if ts[0].id == id then updated else ts[0]] + ReplaceById(ts[1..], id, updated)
  }

  /** Replacing an id that no task carries changes nothing. */
  lemma ReplaceAbsentId(ts: seq<Task>, id: Id, updated: Task)
    requires forall t :: t in ts ==> t.id != id
    ensures ReplaceById(ts, id, updated) == ts
  {
  }

  /** `prev.filter(t => t.id !== id)`. */
  function WithoutId(ts: seq<Task>, id: Id): (r: seq<Task>)
    ensures |r| <= |ts|
    ensures forall t :: t in r <==> t in ts && t.id != id
  {
    if ts == [] then []
    else (if ts[0].id != id then [ts[0]] else []) + WithoutId(ts[1..], id)
  }

  /** Removing by id keeps the remaining tasks in their order. */
  lemma {:induction false} WithoutIdAppend(a: seq<Task>, b: seq<Task>, id: Id)
    ensures WithoutId(a + b, id) == WithoutId(a, id) + WithoutId(b, id)
  {
    if a == [] {
      assert a + b == b;
    } else {
      assert (a + b)[1..] == a[1..] + b;
      WithoutIdAppend(a[1..], b, id);
    }
  }

  /** Removing an id that no task carries changes nothing. */
  lemma {:induction false} WithoutAbsentId(ts: seq<Task>, id: Id)
    requires forall t :: t in ts ==> t.id != id
    ensures WithoutId(ts, id) == ts
  {
    if ts != [] {
      assert ts[0] in ts;
      WithoutAbsentId(ts[1..], id);
    }
  }

  /** `e?.message || fallback`: the message shown for a failed action, never empty. */
  function ErrorText(message: string, fallback: string): (shown: string)
    requires fallback != ""
    ensures shown != ""
    ensures message != "" ==> shown == message
    ensures message == "" ==> shown == fallback
  {
    if message != "" then message else fallback
  }

  const LoadFailed: string := "Failed to load tasks."
  const AddFailed: string := "Failed to add task."
  const UpdateFailed: string := "Failed to update task."
  const RenameFailed: string := "Failed to rename task."
  const DeleteFailed: string := "Failed to delete task."

  /** What `tasksApi.list()` resolved with, as far as the store looks at it: an array or not. */
  datatype Listing = Items(tasks: seq<Task>) | NotAnArray

  /** The body of a toggle: `{completed}` and nothing else. */
  function CompletedPatch(completed: bool): Api.Json {
    Api.JObject(map["completed" := Api.JBool(completed)])
  }

  /** The body of a rename: `{title}` and nothing else. */
  function TitlePatch(title: string): Api.Json {
    Api.JObject(map["title" := Api.JString(title)])
  }

  // ---------------------------------------------------------------------------
  // The store
  // ---------------------------------------------------------------------------

  class TaskStore {
    var tasks: seq<Task>
    var filter: string
    var loading: bool
    var busyIds: set<Id>
    var error: Option<string>

    /** The state on mount, before the mount effect starts the first load. */
    constructor ()
      ensures tasks == [] && filter == "all" && !loading && busyIds == {} && error == None
    {
      tasks := [];
      filter := "all";
      loading := false;
      busyIds := {};
      error := None;
    }

    /** `totalCount`: every task is either active or completed. */
    function TotalCount(): (n: nat)
      reads this
      ensures n == |WithStatus(tasks, false)| + |WithStatus(tasks, true)|
    {
      StatusPartition(tasks);
      |tasks|
    }

    /** `activeCount`: the number of tasks the "active" filter shows. */
    function ActiveCount(): (n: nat)
      reads this
      ensures n <= TotalCount()
      ensures n == |FilteredTasks(tasks, "active")|
      ensures n == 0 <==> forall t :: t in tasks ==> t.completed
    {
      var active := WithStatus(tasks, false);
      assert active != [] ==> active[0] in active;
      |active|
    }

    /** `completedCount`: the number of tasks the "completed" filter shows; the rest are active. */
    function CompletedCount(): (n: nat)
      reads this
      ensures ActiveCount() + n == TotalCount()
      ensures n == |FilteredTasks(tasks, "completed")|
      ensures n == 0 <==> forall t :: t in tasks ==> !t.completed
    {
      StatusPartition(tasks);
      var completed := WithStatus(tasks, true);
      assert completed != [] ==> completed[0] in completed;
      |completed|
    }

    /** The list shown: a selection of the tasks, in their order, chosen by the filter. */
    function FilteredView(): (shown: seq<Task>)
      reads this
      ensures |shown| <= |tasks|
      ensures forall t :: t in shown ==> t in tasks
      ensures filter == "active" ==> shown == WithStatus(tasks, false)
      ensures filter == "completed" ==> shown == WithStatus(tasks, true)
      ensures filter != "active" && filter != "completed" ==> shown == tasks
    {
      FilteredTasks(tasks, filter)
    }

    /** `globalDisabled`: the input, the filters and the retry button are off while loading. */
    predicate GlobalDisabled()
      reads this
      ensures GlobalDisabled() <==> loading
    {
      loading
    }

    /** `anyTaskBusy`: some task has a request in flight. */
    predicate AnyTaskBusy()
      reads this
      ensures AnyTaskBusy() <==> busyIds != {}
    {
      |busyIds| > 0
    }

    /** The `disabled` prop of the task list. */
    predicate ListDisabled()
      reads this
      ensures ListDisabled() <==> loading || busyIds != {}
      ensures GlobalDisabled() ==> ListDisabled()
    {
      GlobalDisabled() || AnyTaskBusy()
    }

    method SetFilter(f: string)
      modifies this
      ensures filter == f
      ensures tasks == old(tasks) && loading == old(loading) && busyIds == old(busyIds) && error == old(error)
    {
      filter := f;
    }

    /** `markBusy(id, isBusy)`: only the membership of `id` changes. */
    method MarkBusy(id: Id, isBusy: bool)
      modifies this
      ensures (id in busyIds) == isBusy
      ensures forall x :: x != id ==> (x in busyIds <==> x in old(busyIds))
      ensures tasks == old(tasks) && filter == old(filter) && loading == old(loading) && error == old(error)
    {
      if isBusy {
        busyIds := busyIds + {id};
      } else {
        busyIds := busyIds - {id};
      }
    }

    /** `loadTasks`, up to the call: loading on, error cleared; also the retry action. */
    method StartLoad() returns (op: Api.Operation)
      modifies this
      ensures op == Api.ListTasks
      ensures loading && error == None && GlobalDisabled() && ListDisabled()
      ensures tasks == old(tasks) && filter == old(filter) && busyIds == old(busyIds)
    {
      loading := true;
      error := None;
      op := Api.ListTasks;
    }

    /** `loadTasks`, once the call settles: the list is replaced, or emptied with an error. */
    method SettleLoad(outcome: Result<Listing, string>)
      modifies this
      ensures !loading
      ensures outcome.Success? && outcome.value.Items? ==> tasks == outcome.value.tasks && error == old(error)
      ensures outcome.Success? && outcome.value.NotAnArray? ==> tasks == [] && error == old(error)
      ensures outcome.Failure? ==> tasks == [] && error == Some(ErrorText(outcome.error, LoadFailed))
      ensures filter == old(filter) && busyIds == old(busyIds)
    {
      match outcome {
        case Success(listing) =>
          tasks := if listing.Items? then listing.tasks else [];
        case Failure(message) =>
          error := Some(ErrorText(message, LoadFailed));
          tasks := [];
      }
      loading := false;
    }

    /** `handleAdd(title)`, up to the call. The title is sent as given: the input trims it. */
    method StartAdd(title: string) returns (op: Api.Operation)
      modifies this
      ensures op == Api.CreateTask(title)
      ensures loading && error == None
      ensures tasks == old(tasks) && filter == old(filter) && busyIds == old(busyIds)
    {
      error := None;
      loading := true;
      op := Api.CreateTask(title);
    }

    /** `handleAdd`, once the call settles: the created task goes first, or the list is kept. */
    method SettleAdd(outcome: Result<Task, string>)
      modifies this
      ensures !loading
      ensures outcome.Success? ==> tasks == [outcome.value] + old(tasks) && error == old(error)
      ensures outcome.Failure? ==> tasks == old(tasks) && error == Some(ErrorText(outcome.error, AddFailed))
      ensures filter == old(filter) && busyIds == old(busyIds)
    {
      match outcome {
        case Success(created) =>
          tasks := [created] + tasks;
        case Failure(message) =>
          error := Some(ErrorText(message, AddFailed));
      }
      loading := false;
    }

    /** `handleToggle(task)`, up to the call: the task is busy and only `completed` is sent, flipped. */
    method StartToggle(task: Task) returns (op: Api.Operation)
      modifies this
      ensures op == Api.UpdateTask(task.id, CompletedPatch(!task.completed))
      ensures op.patch.fields.Keys == {"completed"}
      ensures error == None && busyIds == old(busyIds) + {task.id} && ListDisabled()
      ensures tasks == old(tasks) && filter == old(filter) && loading == old(loading)
    {
      error := None;
      MarkBusy(task.id, true);
      op := Api.UpdateTask(task.id, CompletedPatch(!task.completed));
    }

    /** `handleToggle`, once the call settles: the server's task replaces every task with that id. */
    method SettleToggle(task: Task, outcome: Result<Task, string>)
      modifies this
      ensures outcome.Success? ==> tasks == ReplaceById(old(tasks), task.id, outcome.value) && error == old(error)
      ensures outcome.Failure? ==> tasks == old(tasks) && error == Some(ErrorText(outcome.error, UpdateFailed))
      ensures busyIds == old(busyIds) - {task.id}
      ensures filter == old(filter) && loading == old(loading)
    {
      match outcome {
        case Success(updated) =>
          tasks := ReplaceById(tasks, task.id, updated);
        case Failure(message) =>
          error := Some(ErrorText(message, UpdateFailed));
      }
      MarkBusy(task.id, false);
    }

    /** `handleRename(task, title)`, up to the call: the task is busy and only `title` is sent. */
    method StartRename(task: Task, title: string) returns (op: Api.Operation)
      modifies this
      ensures op == Api.UpdateTask(task.id, TitlePatch(title))
      ensures op.patch.fields.Keys == {"title"}
      ensures error == None && busyIds == old(busyIds) + {task.id} && ListDisabled()
      ensures tasks == old(tasks) && filter == old(filter) && loading == old(loading)
    {
      error := None;
      MarkBusy(task.id, true);
      op := Api.UpdateTask(task.id, TitlePatch(title));
    }

    /** `handleRename`, once the call settles: as for a toggle, with its own fallback message. */
    method SettleRename(task: Task, outcome: Result<Task, string>)
      modifies this
      ensures outcome.Success? ==> tasks == ReplaceById(old(tasks), task.id, outcome.value) && error == old(error)
      ensures outcome.Failure? ==> tasks == old(tasks) && error == Some(ErrorText(outcome.error, RenameFailed))
      ensures busyIds == old(busyIds) - {task.id}
      ensures filter == old(filter) && loading == old(loading)
    {
      match outcome {
        case Success(updated) =>
          tasks := ReplaceById(tasks, task.id, updated);
        case Failure(message) =>
          error := Some(ErrorText(message, RenameFailed));
      }
      MarkBusy(task.id, false);
    }

    /** `handleDelete(task)`, up to the call: the task is busy. */
    method StartDelete(task: Task) returns (op: Api.Operation)
      modifies this
      ensures op == Api.RemoveTask(task.id)
      ensures error == None && busyIds == old(busyIds) + {task.id} && ListDisabled()
      ensures tasks == old(tasks) && filter == old(filter) && loading == old(loading)
    {
      error := None;
      MarkBusy(task.id, true);
      op := Api.RemoveTask(task.id);
    }

    /**
     * `handleDelete`, once the call settles, as written: on success the tasks
     * with that id go and the id STAYS busy (there is no `finally`); on failure
     * the list is kept and the id is released.
     */
    method SettleDelete(task: Task, outcome: Result<(), string>)
      modifies this
      ensures outcome.Success? ==> tasks == WithoutId(old(tasks), task.id) && busyIds == old(busyIds) && error == old(error)
      ensures outcome.Failure? ==> tasks == old(tasks) && error == Some(ErrorText(outcome.error, DeleteFailed))
                                   && busyIds == old(busyIds) - {task.id}
      ensures filter == old(filter) && loading == old(loading)
    {
      match outcome {
        case Success(_) =>
          tasks := WithoutId(tasks, task.id);
        case Failure(message) =>
          error := Some(ErrorText(message, DeleteFailed));
          MarkBusy(task.id, false);
      }
    }

    /** `handleDelete` as evidently intended: the id is released whichever way the call settles. */
    method SettleDeleteReleasing(task: Task, outcome: Result<(), string>)
      modifies this
      ensures outcome.Success? ==> tasks == WithoutId(old(tasks), task.id) && error == old(error)
      ensures outcome.Failure? ==> tasks == old(tasks) && error == Some(ErrorText(outcome.error, DeleteFailed))
      ensures busyIds == old(busyIds) - {task.id}
      ensures filter == old(filter) && loading == old(loading)
    {
      match outcome {
        case Success(_) =>
          tasks := WithoutId(tasks, task.id);
        case Failure(message) =>
          error := Some(ErrorText(message, DeleteFailed));
      }
      MarkBusy(task.id, false);
    }
  }

  // ---------------------------------------------------------------------------
  // Scenarios
  // ---------------------------------------------------------------------------

  /**
   * Add one task, then delete it successfully with the store as written: the
   * id stays busy, so the whole task list stays disabled although it is empty.
   */
  method DeleteLeavesListDisabled() returns (tasksLeft: nat, disabled: bool)
    ensures tasksLeft == 0 && disabled
  {
    var store := new TaskStore();
    var t := Task(NumId(1), "A", false);
    var _ := store.StartAdd("A");
    store.SettleAdd(Success(t));
    var _ := store.StartDelete(t);
    store.SettleDelete(t, Success(()));
    tasksLeft := store.TotalCount();
    disabled := store.ListDisabled();
  }

  /** The same run with the releasing delete leaves the (empty) list enabled. */
  method ReleasingDeleteLeavesListEnabled() returns (tasksLeft: nat, disabled: bool)
    ensures tasksLeft == 0 && !disabled
  {
    var store := new TaskStore();
    var t := Task(NumId(1), "A", false);
    var _ := store.StartAdd("A");
    store.SettleAdd(Success(t));
    var _ := store.StartDelete(t);
    store.SettleDeleteReleasing(t, Success(()));
    tasksLeft := store.TotalCount();
    disabled := store.ListDisabled();
  }

  /** A toggle whose PATCH echoes the completed task replaces the task in place. */
  method ToggleReplacesWithServerTask() returns (tasks: seq<Task>, busy: bool)
    ensures tasks == [Task(NumId(1), "A", true)] && !busy
  {
    var store := new TaskStore();
    var _ := store.StartLoad();
    store.SettleLoad(Success(Items([Task(NumId(1), "A", false)])));
    var t := store.tasks[0];
    var op := store.StartToggle(t);
    assert op.patch == CompletedPatch(true);
    store.SettleToggle(t, Success(Task(NumId(1), "A", true)));
    tasks := store.tasks;
    busy := store.AnyTaskBusy();
  }
}
