/**
 * The executor runtime's side of checkpointing: the outcome tag of a task
 * and the registry that maps task names to live tasks. Both belong to the
 * host runtime; only the part the checkpoint controller relies on is here.
 */
module Executors {

  /** Outcome of a task. The controller inspects only COMPLETED and SKIP;
      every other member of the runtime's enumeration is an `Other`, told
      apart by its tag. */
  datatype ExecutionState = Completed | Skip | Other(tag: nat)

  /** A task as the registry holds it: its name and its current state. */
  datatype Executor = Executor(name: string, state: ExecutionState)

  /** Every task is filed under its own name. */
  ghost predicate WellKeyed(tasks: map<string, Executor>)
  {
    forall n :: n in tasks ==> tasks[n].name == n
  }

  /** The effect of `set_state_for_executor(name, s)`: the task called
      `name` takes state `s`; a name the registry does not know changes
      nothing. */
  function SetState(tasks: map<string, Executor>, name: string, s: ExecutionState): (r: map<string, Executor>)
    ensures r.Keys == tasks.Keys
    ensures forall n :: n in tasks && n != name ==> r[n] == tasks[n]
    ensures name in tasks ==> r[name].name == tasks[name].name && r[name].state == s
    ensures WellKeyed(tasks) ==> WellKeyed(r)
  {
    if name in tasks then tasks[name := tasks[name].(state := s)] else tasks
  }

  /** The executor registry, updated in place by the runtime and, during a
      restart, by the checkpoint controller. */
  class ExecutorRegistry {
    var executors: map<string, Executor>

    ghost predicate Valid()
      reads this
    {
      WellKeyed(executors)
    }

    constructor (tasks: map<string, Executor>)
      requires WellKeyed(tasks)
      ensures Valid() && executors == tasks
    {
      executors := tasks;
    }

    method SetStateForExecutor(name: string, s: ExecutionState)
      requires Valid()
      modifies this
      ensures Valid()
      ensures executors == SetState(old(executors), name, s)
    {
      if name in executors {
        executors := executors[name := executors[name].(state := s)];
      }
    }
  }
}
