/** What several of the models share. */
module Basics {

  datatype Option<T> = None | Some(value: T)

  /** 1 for a fact that holds, 0 for one that does not: lets places be counted. */
  function Flag(b: bool): nat {
    if b then 1 else 0
  }
}
