/** Go's buffered channels, as far as non-blocking sends, receives and close go. */
module Channels {
  import opened ByteStrings

  /** A non-blocking send: dropped when the buffer is full. */
  function Offer<T>(cap: nat, q: seq<T>, x: T): (r: seq<T>)
    ensures |q| <= cap ==> |r| <= cap
    ensures |q| < cap ==> r == q + [x]
  {
    if |q| < cap then q + [x] else q
  }

  class Chan<T> {
    const cap: nat
    var buf: seq<T>
    var closed: bool

    constructor (cap: nat)
      ensures this.cap == cap && buf == [] && !closed
    {
      this.cap := cap;
      buf := [];
      closed := false;
    }

    /** select { case c <- x: default: }; sending on a closed channel panics. */
    method TrySend(x: T)
      requires !closed
      modifies this`buf
      ensures buf == Offer(cap, old(buf), x)
      ensures old(|buf|) >= cap ==> buf == old(buf)
      ensures old(|buf|) < cap ==> buf == old(buf) + [x]
    {
      if |buf| < cap {
        buf := buf + [x];
      }
    }

    /** A receive that does not wait: None when nothing is buffered. */
    method TryRecv() returns (x: Option<T>)
      modifies this`buf
      ensures x == (if old(buf) == [] then None else Some(old(buf)[0]))
      ensures buf == if old(buf) == [] then [] else old(buf)[1..]
    {
      if buf == [] {
        return None;
      }
      x := Some(buf[0]);
      buf := buf[1..];
    }

    /** Closing twice panics. */
    method Close()
      requires !closed
      modifies this`closed
      ensures closed
    {
      closed := true;
    }
  }
}
