/** What every expression node shares: an allocation identity, and the hash
    combiner that structural hash codes are built from. */
module Nodes {

  /** The identity of an allocated node. Two node values are the same instance
      exactly when they are equal as values, ids included: the runtime never
      hands out one id twice. Equality "up to identity" ignores the ids. */
  type NodeId = nat

  /** Stands for HashCode.Combine. Actual hash values are not part of the
      model; only that equal inputs give equal outputs matters. */
  function Combine(h1: int, h2: int): int
  {
    h1 * 31 + h2
  }

  function HashString(s: string): int
    decreases |s|
  {
    if s == [] then 17 else Combine(HashString(s[..|s| - 1]), s[|s| - 1] as int)
  }
}
