/** Task traits (rust_task/task_traits.rs), without the fields that no modelled code reads. */
module Traits {

  datatype TaskPriority = BestEffort | UserVisible | UserBlocking

  /** Position in the derived `Ord` of the enumeration. */
  function Rank(priority: TaskPriority): nat {
    match priority
    case BestEffort => 0
    case UserVisible => 1
    case UserBlocking => 2
  }

  /** What the names of the priorities promise. */
  predicate MoreUrgent(a: TaskPriority, b: TaskPriority) {
    (a.UserBlocking? && !b.UserBlocking?) || (a.UserVisible? && b.BestEffort?)
  }

  datatype ShutdownBehavior = ContinueOnShutdown | SkipOnShutdown | BlockShutdown

  datatype TaskTraits = TaskTraits(priority: TaskPriority, shutdownBehavior: ShutdownBehavior)
}
