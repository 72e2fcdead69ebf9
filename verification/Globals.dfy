/** What several components share. */
module Globals {
  const MAX_NUM_NODES: nat := 7

  datatype Option<T> = None | Some(value: T)
}
