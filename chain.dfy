/**
 * The request chain: a singly linked list of tasks built by appending at the
 * tail, and started by running the head task.
 */
module RequestChain {
  import opened Steps

  /**
   * What the user's explain or forward callback receives: a scope through
   * which its dialog reaches back to the task that invoked the callback.
   */
  datatype Scope = ExplainScope(task: Task?) | ForwardScope(task: Task?)

  /** One link of the chain: a task and the task that runs after it finishes. */
  class Task {
    const kind: TaskKind
    var next: Task?
    var explainReasonScope: Scope
    var forwardToSettingsScope: Scope

    /** A new task is unlinked, and both of its scopes lead back to it. */
    constructor (kind: TaskKind)
      ensures this.kind == kind && next == null
      ensures explainReasonScope == ExplainScope(this) && forwardToSettingsScope == ForwardScope(this)
    {
      this.kind := kind;
      next := null;
      explainReasonScope := ExplainScope(null);
      forwardToSettingsScope := ForwardScope(null);
      new;
      explainReasonScope := ExplainScope(this);
      forwardToSettingsScope := ForwardScope(this);
    }
  }

  /** The kinds of a sequence of tasks, position by position. */
  function KindsOf(ts: seq<Task>): (ks: seq<TaskKind>)
    ensures |ks| == |ts|
    ensures forall i :: 0 <= i < |ts| ==> ks[i] == ts[i].kind
  {
    if ts == [] then [] else [ts[0].kind] + KindsOf(ts[1..])
  }

  class RequestChain {
    var headTask: Task?
    var tailTask: Task?
    /** The tasks in the order they were added. */
    ghost var tasks: seq<Task>

    /**
     * The head is the first task added, the tail the last; each task's `next`
     * is the task added after it, and the tail's `next` is null.
     */
    ghost predicate Valid()
      reads this, tasks
    {
      (headTask == null <==> tasks == []) && (tailTask == null <==> tasks == []) &&
      (tasks != [] ==> headTask == tasks[0] && tailTask == tasks[|tasks| - 1] && tasks[|tasks| - 1].next == null) &&
      (forall i :: 0 <= i < |tasks| - 1 ==> tasks[i].next == tasks[i + 1]) &&
      (forall i, j :: 0 <= i < j < |tasks| ==> tasks[i] != tasks[j])
    }

    ghost function Kinds(): seq<TaskKind>
      reads this
    {
      KindsOf(tasks)
    }

    constructor ()
      ensures Valid() && tasks == []
    {
      headTask := null;
      tailTask := null;
      tasks := [];
    }

    /**
     * Appends a task.  Only the chain's own pointers and the old tail's `next`
     * change; the head stays the first task ever added.
     */
    method AddTaskToChain(task: Task)
      requires Valid() && task !in tasks && task.next == null
      modifies this, tailTask
      ensures Valid() && tasks == old(tasks) + [task]
      ensures old(tasks) != [] ==> headTask == old(headTask) && old(tailTask).next == task
      ensures tailTask == task
    {
      if headTask == null {
        headTask := task;
      }
      if tailTask != null {
        tailTask.next := task;
      }
      tailTask := task;
      tasks := tasks + [task];
    }

    /** The Kotlin chain: starting an empty chain does nothing. */
    method RunTask() returns (first: Task?)
      requires Valid()
      ensures tasks == [] ==> first == null
      ensures tasks != [] ==> first == tasks[0]
    {
      first := headTask;
    }

    /** The Java chain dereferences the head without a null check. */
    method RunTaskNonEmpty() returns (first: Task)
      requires Valid() && tasks != []
      ensures first == tasks[0]
    {
      first := headTask;
    }
  }
}
