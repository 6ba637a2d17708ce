/** Small shared vocabulary. */
module Prelude {

  datatype Option<+T> = None | Some(value: T)

  /** The IDs of jobs, workers, tasks and cluster members. */
  type Id = string

  function Elems(xs: seq<Id>): set<Id> {
    set x | x in xs
  }
}
