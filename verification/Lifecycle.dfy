/** The states of a chunk row, shared by extraction, the queue protocol and the summary tree. */
module Lifecycle {

  datatype Stage = PendingExtraction | Admitted | Dropped | Buffered | Sealed

  /** One legal move of a chunk. */
  predicate Advances(a: Stage, b: Stage) {
    match a
    case PendingExtraction => b.Admitted? || b.Dropped?
    case Admitted => b.Buffered?
    case Buffered => b.Sealed?
    case Dropped => false
    case Sealed => false
  }

  /** How far along a chunk is; `Dropped` and `Sealed` are the two ends. */
  function Rank(a: Stage): nat {
    match a
    case PendingExtraction => 0
    case Admitted => 1
    case Dropped => 1
    case Buffered => 2
    case Sealed => 3
  }

  /** `b` is reachable from `a` by legal moves (or is `a` itself). */
  predicate Reaches(a: Stage, b: Stage) {
    a == b || (!a.Dropped? && !b.Dropped? && Rank(a) < Rank(b)) || (a.PendingExtraction? && b.Dropped?)
  }
}
