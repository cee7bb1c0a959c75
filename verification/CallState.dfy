/** Call states and the guarded steps between them. */
module CallState {
  datatype State = Idle | Ringing | Connecting | Connected | Ended

  datatype Direction = Outbound | Inbound

  function Rank(s: State): (r: nat)
    ensures r <= 4
  {
    match s
    case Idle => 0
    case Ringing => 1
    case Connecting => 2
    case Connected => 3
    case Ended => 4
  }

  /** The guard of transition: one step up, and never out of Ended. */
  predicate CanEnter(from: State, to: State) {
    from != Ended && Rank(to) == Rank(from) + 1
  }

  function Entered(from: State, to: State): State {
    if CanEnter(from, to) then to else from
  }
}
