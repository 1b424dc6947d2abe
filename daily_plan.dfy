/** The doctor's daily plan: a list of tasks kept in component state and
    mirrored into two storage keys, `dailyPlan` and `dailyPlanExpiration`,
    that expire 32 hours after the last save. */
module DailyPlan {
  import opened Wrappers
  import opened Text
  import opened Seqs

  /** A task; its id is the `Date.now()` reading taken when it was added. */
  datatype Task = Task(id: int, task: string)

  /** 32 hours, in milliseconds. */
  const ExpiryMs: int := 32 * 60 * 60 * 1000

  /** The list after adding `text` with id `id`. */
  function WithAddedTask(tasks: seq<Task>, id: int, text: string): (r: seq<Task>)
    ensures |r| == |tasks| + 1
    ensures r[..|tasks|] == tasks
    ensures r[|tasks|] == Task(id, text)
  {
    tasks + [Task(id, text)]
  }

  /** `tasks.filter(task => task.id !== id)`. */
  function WithoutTask(tasks: seq<Task>, id: int): (r: seq<Task>)
    ensures forall t :: t in r <==> t in tasks && t.id != id
    ensures forall t :: t in tasks && t.id == id ==> t !in r
  {
    Filter(tasks, (t: Task) => t.id != id)
  }

  /** Deleting keeps the surviving tasks in their order: it distributes over
      concatenation, deleting again removes nothing more, and a list without
      the id is left as it was. */
  lemma DeleteKeepsOrder(a: seq<Task>, b: seq<Task>, id: int)
    ensures WithoutTask(a + b, id) == WithoutTask(a, id) + WithoutTask(b, id)
    ensures WithoutTask(WithoutTask(a, id), id) == WithoutTask(a, id)
    ensures (forall i :: 0 <= i < |a| ==> a[i].id != id) ==> WithoutTask(a, id) == a
  {
    FilterConcat(a, b, (t: Task) => t.id != id);
    FilterIdempotent(a, (t: Task) => t.id != id);
    if forall i :: 0 <= i < |a| ==> a[i].id != id {
      FilterAll(a, (t: Task) => t.id != id);
    }
  }

  /** `tasks.map(task => task.id === id ? { ...task, task: text } : task)`. */
  function WithEditedTask(tasks: seq<Task>, id: int, text: string): (r: seq<Task>)
    ensures |r| == |tasks|
    ensures forall i :: 0 <= i < |r| ==> r[i].id == tasks[i].id
    ensures forall i :: 0 <= i < |r| ==>
      r[i].task == (if tasks[i].id == id then text else tasks[i].task)
    decreases |tasks|
  {
    if tasks == [] then []
    else
      [if tasks[0].id == id then tasks[0].(task := text) else tasks[0]]
        + WithEditedTask(tasks[1..], id, text)
  }

  /** The load effect keeps the stored list only when it is non-empty, an
      expiration is stored and the current time is before it. */
  predicate StoredPlanValid(plan: Option<seq<Task>>, expiration: Option<int>, now: int) {
    plan.Some? && |plan.value| > 0 && expiration.Some? && now < expiration.value
  }

  /** A list saved at `savedAt` is restored by a later load exactly when it is
      non-empty and the load happens less than 32 hours after the save. */
  lemma SavedPlanRestored(tasks: seq<Task>, savedAt: int, now: int)
    ensures StoredPlanValid(Some(tasks), Some(savedAt + ExpiryMs), now)
        <==> |tasks| > 0 && now - savedAt < 115_200_000
  {
  }

  /** The page's state: the list, the two inputs, and the two storage keys it
      owns. The serialised JSON and the ISO expiration text are abstracted to
      the list and the instant in milliseconds. */
  class DailyPlanPage {
    var tasks: seq<Task>
    var newTask: string
    var editingTaskId: Option<int>
    var editedTaskText: string
    var storedPlan: Option<seq<Task>>
    var storedExpiration: Option<int>

    /** The first render, with whatever the two keys already hold. */
    constructor (plan: Option<seq<Task>>, expiration: Option<int>)
      ensures tasks == [] && newTask == "" && editingTaskId == None && editedTaskText == ""
      ensures storedPlan == plan && storedExpiration == expiration
    {
      tasks, newTask, editingTaskId, editedTaskText := [], "", None, "";
      storedPlan, storedExpiration := plan, expiration;
    }

    /** The load effect: restore a valid stored list, otherwise drop both keys. */
    method Load(now: int)
      modifies this
      ensures StoredPlanValid(old(storedPlan), old(storedExpiration), now) ==>
        tasks == old(storedPlan).value
        && storedPlan == old(storedPlan) && storedExpiration == old(storedExpiration)
      ensures !StoredPlanValid(old(storedPlan), old(storedExpiration), now) ==>
        tasks == old(tasks) && storedPlan == None && storedExpiration == None
      ensures newTask == old(newTask) && editingTaskId == old(editingTaskId)
      ensures editedTaskText == old(editedTaskText)
    {
      var stored := if storedPlan.Some? then storedPlan.value else [];
      if |stored| > 0 && storedExpiration.Some? && now < storedExpiration.value {
        tasks := stored;
      } else {
        storedPlan := None;
        storedExpiration := None;
      }
    }

    /** `saveTasksToLocalStorage`: the list becomes the state and is written
        with an expiration 32 hours after `now`. */
    method SaveTasks(updated: seq<Task>, now: int)
      modifies this
      ensures tasks == updated && storedPlan == Some(updated)
      ensures storedExpiration == Some(now + ExpiryMs)
      ensures newTask == old(newTask) && editingTaskId == old(editingTaskId)
      ensures editedTaskText == old(editedTaskText)
    {
      tasks := updated;
      storedPlan := Some(updated);
      storedExpiration := Some(now + ExpiryMs);
    }

    /** The task input's `onChange`. */
    method SetNewTask(text: string)
      modifies this`newTask
      ensures newTask == text
    {
      newTask := text;
    }

    /** `handleAddTask`, with `now` the `Date.now()` reading that becomes the id. */
    method AddTask(now: int)
      modifies this
      ensures IsBlank(old(newTask)) ==>
        tasks == old(tasks) && newTask == old(newTask)
        && storedPlan == old(storedPlan) && storedExpiration == old(storedExpiration)
      ensures !IsBlank(old(newTask)) ==>
        tasks == WithAddedTask(old(tasks), now, old(newTask)) && newTask == ""
        && storedPlan == Some(tasks) && storedExpiration == Some(now + ExpiryMs)
      ensures editingTaskId == old(editingTaskId) && editedTaskText == old(editedTaskText)
    {
      if !IsBlank(newTask) {
        SaveTasks(tasks + [Task(now, newTask)], now);
        newTask := "";
      }
    }

    /** `handleDeleteTask`. */
    method DeleteTask(id: int, now: int)
      modifies this
      ensures tasks == WithoutTask(old(tasks), id)
      ensures storedPlan == Some(tasks) && storedExpiration == Some(now + ExpiryMs)
      ensures newTask == old(newTask) && editingTaskId == old(editingTaskId)
      ensures editedTaskText == old(editedTaskText)
    {
      SaveTasks(Filter(tasks, (t: Task) => t.id != id), now);
    }

    /** `handleEditTask`: start editing a task with its current text. */
    method EditTask(t: Task)
      modifies this`editingTaskId, this`editedTaskText
      ensures editingTaskId == Some(t.id) && editedTaskText == t.task
    {
      editingTaskId := Some(t.id);
      editedTaskText := t.task;
    }

    /** The edit input's `onChange`. */
    method SetEditedText(text: string)
      modifies this`editedTaskText
      ensures editedTaskText == text
    {
      editedTaskText := text;
    }

    /** `handleSaveEdit`: a non-blank text replaces the text of the tasks with
        that id and is saved; either way editing ends. */
    method SaveEdit(id: int, now: int)
      modifies this
      ensures IsBlank(old(editedTaskText)) ==>
        tasks == old(tasks) && storedPlan == old(storedPlan)
        && storedExpiration == old(storedExpiration)
      ensures !IsBlank(old(editedTaskText)) ==>
        tasks == WithEditedTask(old(tasks), id, old(editedTaskText))
        && storedPlan == Some(tasks) && storedExpiration == Some(now + ExpiryMs)
      ensures editingTaskId == None && editedTaskText == ""
      ensures newTask == old(newTask)
    {
      if !IsBlank(editedTaskText) {
        SaveTasks(WithEditedTask(tasks, id, editedTaskText), now);
      }
      editingTaskId := None;
      editedTaskText := "";
    }

    /** `handleCancelEdit`. */
    method CancelEdit()
      modifies this`editingTaskId, this`editedTaskText
      ensures editingTaskId == None && editedTaskText == ""
    {
      editingTaskId := None;
      editedTaskText := "";
    }
  }
}
