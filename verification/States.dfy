/** The two automata that everything else is built on: the state of one operating
    system process, and the state of one process group (its graph). */
module States {

  /** States of a process, in the order of their numeric values. */
  datatype ProcessState = Idle | Starting | Running | Terminating | Terminated {
    function Rank(): nat {
      match this
      case Idle => 0
      case Starting => 1
      case Running => 2
      case Terminating => 3
      case Terminated => 4
    }
  }

  /** States of a graph, in the order of their numeric values. */
  datatype GraphState = Success | InTransition | Aborting | Cancelled | Undefined {
    function Rank(): nat {
      match this
      case Success => 0
      case InTransition => 1
      case Aborting => 2
      case Cancelled => 3
      case Undefined => 4
    }
  }

  /** The codes a graph can leave for its control client. */
  datatype Code =
    | NotSet
    | SetStateSuccess
    | SetStateCancelled
    | SetStateFailed
    | FailedUnexpectedTermination
    | FailedUnexpectedTerminationOnEnter

  /** What a request for `wanted` turns `from` into: the constant transition table. */
  function TableEntry(wanted: GraphState, from: GraphState): GraphState {
    match wanted
    case Success =>
      if from == Success || from == InTransition then Success else Undefined
    case InTransition =>
      if from == Aborting || from == Cancelled then from else InTransition
    case Aborting =>
      if from == InTransition || from == Aborting then Aborting
      else if from == Cancelled then Cancelled else Undefined
    case Cancelled =>
      if from == InTransition || from == Aborting || from == Cancelled then Cancelled else Undefined
    case Undefined =>
      if from == InTransition then Aborting else Undefined
  }

  /** The changes that a graph may make. */
  predicate Allowed(from: GraphState, to: GraphState) {
    match from
    case Success => to == InTransition || to == Undefined
    case InTransition => to == Success || to == Aborting || to == Cancelled
    case Aborting => to == Cancelled || to == Undefined
    case Cancelled => to == Undefined
    case Undefined => to == InTransition
  }

  /** A transition has failed or been cancelled and its jobs are not all back. */
  predicate Left(s: GraphState) {
    s == Aborting || s == Cancelled
  }

  /** What takes the place of a change that is not allowed: a graph that has left its transition does not go back to it or from a
      cancel to an abort, a transition is not undefined before its jobs are back, and all else is undefined. */
  ghost predicate Replaces(from: GraphState, wanted: GraphState, to: GraphState) {
    if Left(from) && (wanted == InTransition || wanted == Aborting) then to == from
    else if from == InTransition then to == Aborting
    else to == Undefined
  }

  /** `to` is what a request for `wanted` must make of a graph in state `from`. */
  ghost predicate Follows(from: GraphState, wanted: GraphState, to: GraphState) {
    if wanted == from || Allowed(from, wanted) then to == wanted else Replaces(from, wanted, to)
  }
}
