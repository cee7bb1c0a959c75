/** `pipeStateChanges` as it runs: a snapshot, then the session's live events. */
module AttachPipes {
  import opened CallState
  import opened Channels
  import opened Sessions
  import A = Attach

  /** The client's connection: what was emitted, and whether it is done. */
  class Conn {
    var sent: seq<StateChange>
    var done: bool

    constructor ()
      ensures sent == [] && !done
    {
      sent := [];
      done := false;
    }

    method EmitEvent(ev: StateChange)
      modifies this`sent
      ensures sent == old(sent) + [ev]
    {
      sent := sent + [ev];
    }
  }

  /** How many events are taken: up to the first "ended". */
  function Taken(evs: seq<StateChange>): (n: nat)
    ensures n <= |evs|
    ensures forall k :: 0 <= k < n - 1 ==> evs[k].state != Ended
    ensures n < |evs| ==> n > 0 && evs[n - 1].state == Ended
  {
    if evs == [] then 0 else if evs[0].state == Ended then 1 else 1 + Taken(evs[1..])
  }

  /** Less the first event, when it repeats the snapshot. */
  function Fresh(first: bool, snap: State, evs: seq<StateChange>): seq<StateChange> {
    if first && evs != [] && evs[0].state == snap then evs[1..] else evs
  }

  predicate LastEnded(taken: seq<StateChange>) {
    taken != [] && taken[|taken| - 1].state == Ended
  }

  /** Of evs the first part is taken, and `sent` is what was told before and that. */
  ghost predicate Progress(evs: seq<StateChange>, taken: seq<StateChange>, rest: seq<StateChange>, told: seq<StateChange>,
                           sent: seq<StateChange>, first: bool, snap: State) {
    && evs == taken + rest
    && Taken(evs) == (if LastEnded(taken) then |taken| else |taken| + Taken(rest))
    && sent == told + Fresh(first, snap, taken)
  }

  function Passed(first: bool, snap: State, ev: StateChange): seq<StateChange> {
    if first && ev.state == snap then [] else [ev]
  }

  lemma Advance(evs: seq<StateChange>, taken: seq<StateChange>, rest: seq<StateChange>, told: seq<StateChange>,
                sent: seq<StateChange>, first: bool, snap: State)
    requires Progress(evs, taken, rest, told, sent, first, snap) && rest != [] && !LastEnded(taken)
    ensures Progress(evs, taken + [rest[0]], rest[1..], told, sent + Passed(first && taken == [], snap, rest[0]), first, snap)
    ensures LastEnded(taken + [rest[0]]) == (rest[0].state == Ended)
  {
    Shift(taken, rest);
    Regroup(told, Fresh(first, snap, taken), Passed(first && taken == [], snap, rest[0]));
    FreshMore(first, snap, taken, rest[0]);
  }

  lemma Beginning(evs: seq<StateChange>, told: seq<StateChange>, first: bool, snap: State)
    ensures Progress(evs, [], evs, told, told, first, snap)
  {
    assert evs == [] + evs && told == told + [];
  }

  lemma Shift(taken: seq<StateChange>, rest: seq<StateChange>)
    requires rest != []
    ensures taken + rest == (taken + [rest[0]]) + rest[1..]
    ensures Taken(rest) == if rest[0].state == Ended then 1 else 1 + Taken(rest[1..])
  {
  }

  lemma FreshMore(first: bool, snap: State, taken: seq<StateChange>, ev: StateChange)
    ensures Fresh(first, snap, taken + [ev]) == Fresh(first, snap, taken) + Passed(first && taken == [], snap, ev)
  {
    if taken != [] {
      assert (taken + [ev])[1..] == taken[1..] + [ev];
    }
  }

  lemma Regroup(a: seq<StateChange>, b: seq<StateChange>, c: seq<StateChange>)
    ensures (a + b) + c == a + (b + c)
  {
  }

  lemma Rest(taken: seq<StateChange>, rest: seq<StateChange>)
    ensures forall i :: 0 <= i < |rest| ==> rest[i] in taken + rest
  {
    forall i | 0 <= i < |rest| ensures rest[i] in taken + rest {
      assert (taken + rest)[|taken| + i] == rest[i];
    }
  }

  class Pipe {
    const s: Session
    const conn: Conn
    var sub: nat
    var ch: Chan<StateChange>
    var snap: State
    var first: bool
    var left: bool

    /** Subscribed until it leaves, and never to a session it saw ended. */
    ghost predicate Inv()
      reads this, s, s.subs.Values
    {
      && s.Inv()
      && (!left ==> snap != Ended && sub in s.subs && s.subs[sub] == ch)
    }

    /** Subscribes, then reads the state, then reports it. */
    constructor (s: Session, conn: Conn)
      requires s.Inv()
      modifies s`subs, s`nextID, conn`sent
      ensures Inv() && this.s == s && this.conn == conn && fresh(ch) && ch.buf == []
      ensures conn.sent == old(conn.sent) + [StateChange(
                sessionId := s.id, state := s.state, direction := s.direction, remote := s.remote, reason := "")]
      ensures snap == s.state && first && left == (s.state == Ended)
      ensures s.subs == if left then old(s.subs) else old(s.subs)[sub := ch]
      ensures ch.closed == left
    {
      this.s := s;
      this.conn := conn;
      var i, c := s.Subscribe();
      sub, ch := i, c;
      snap := s.state;
      first := true;
      left := s.state == Ended;
      new;
      conn.EmitEvent(s.Event(snap, ""));
      if snap == Ended {
        s.Unsubscribe(sub);
        assert s.subs == old(s.subs);
      }
    }

    /** One event: the first is dropped when it repeats the snapshot. */
    method Handle(ev: StateChange) returns (ended: bool)
      requires snap != Ended
      modifies this`first, conn`sent
      ensures conn.sent == old(conn.sent) + Passed(old(first), snap, ev)
      ensures !first && ended == (ev.state == Ended)
    {
      var repeats := first && ev.state == snap;
      first := false;
      if repeats {
        return false;
      }
      conn.EmitEvent(ev);
      return ev.state == Ended;
    }

    /** The loop over what has arrived: until it would block, or the session has ended,
        or the client is gone. */
    method Loop() returns (ended: bool, ghost taken: seq<StateChange>)
      requires snap != Ended
      modifies this`first, ch`buf, conn`sent
      ensures old(ch.buf) == taken + ch.buf && |taken| == (if conn.done then 0 else Taken(old(ch.buf)))
      ensures conn.sent == old(conn.sent) + Fresh(old(first), snap, taken)
      ensures first == (old(first) && taken == []) && ended == LastEnded(taken)
    {
      ghost var evs, told, leading := ch.buf, conn.sent, first;
      ended, taken := false, [];
      Beginning(evs, told, leading, snap);
      while !conn.done && !ended && ch.buf != []
        invariant Progress(evs, taken, ch.buf, told, conn.sent, leading, snap)
        invariant ended == LastEnded(taken) && first == (leading && taken == []) && (conn.done ==> taken == [])
        decreases |ch.buf|
      {
        ended, taken := Turn(evs, taken, told, leading);
      }
    }

    method Turn(ghost evs: seq<StateChange>, ghost before: seq<StateChange>, ghost told: seq<StateChange>, ghost leading: bool)
      returns (ended: bool, ghost taken: seq<StateChange>)
      requires snap != Ended && ch.buf != [] && !LastEnded(before) && first == (leading && before == [])
      requires Progress(evs, before, ch.buf, told, conn.sent, leading, snap)
      modifies this`first, ch`buf, conn`sent
      ensures Progress(evs, taken, ch.buf, told, conn.sent, leading, snap)
      ensures taken != [] && !first && ended == LastEnded(taken) && |ch.buf| < old(|ch.buf|)
    {
      Advance(evs, before, ch.buf, told, conn.sent, leading, snap);
      taken := before + [ch.buf[0]];
      var ev := ch.TryRecv();
      ended := Handle(ev.value);
    }

    /** The goroutine: the loop, then the deferred Unsubscribe when it is over. */
    method Forward() returns (ghost taken: seq<StateChange>)
      requires Inv() && !left
      modifies this`first, this`left, ch, s`subs, conn`sent
      ensures Inv()
      ensures old(ch.buf) == taken + ch.buf && |taken| == (if conn.done then 0 else Taken(old(ch.buf)))
      ensures conn.sent == old(conn.sent) + Fresh(old(first), snap, taken)
      ensures left == (conn.done || LastEnded(taken))
      ensures s.subs == (if left then old(s.subs) - {sub} else old(s.subs)) && ch.closed == left
    {
      var ended;
      ended, taken := Loop();
      Rest(taken, ch.buf);
      if conn.done || ended {
        s.Unsubscribe(sub);
        left := true;
      }
    }
  }

  // ---------------------------------------------------------------- the steps alone

  function States(evs: seq<StateChange>): (r: seq<State>)
    ensures |r| == |evs| && forall i :: 0 <= i < |evs| ==> r[i] == evs[i].state
  {
    seq(|evs|, i requires 0 <= i < |evs| => evs[i].state)
  }

  function Deliveries(n: nat): (r: seq<A.Move>)
    ensures |r| == n && forall i :: 0 <= i < n ==> r[i] == A.Deliver
  {
    seq(n, i => A.Deliver)
  }

  /** c's pipe waits for events, and those of evs are in its buffer. */
  predicate Ready(c: A.Client, evs: seq<StateChange>) {
    c.pc.Live? && c.snap != Ended && c.i < |c.x.subs| && c.x.subs[c.i].q == States(evs)
  }

  lemma TurnAlone(c: A.Client, evs: seq<StateChange>, d: A.Client)
    requires Ready(c, evs) && evs != [] && d == A.Do(c, A.Deliver)
    ensures d.wire == c.wire + States(Passed(c.pc.first, c.snap, evs[0])) && d.snap == c.snap
    ensures evs[0].state == Ended ==> d.pc.Leaving?
    ensures evs[0].state != Ended ==> d.pc == A.Live(false) && Ready(d, evs[1..])
  {
    assert States(evs)[1..] == States(evs[1..]);
    assert c.wire + [] == c.wire;
    assert States(Passed(c.pc.first, c.snap, evs[0])) == if c.pc.first && evs[0].state == c.snap then [] else [evs[0].state];
  }

  lemma FreshCons(first: bool, snap: State, evs: seq<StateChange>, wire: seq<State>)
    requires evs != []
    ensures wire + States(Fresh(first, snap, evs)) == (wire + States(Passed(first, snap, evs[0]))) + States(evs[1..])
  {
    if !(first && evs[0].state == snap) {
      StatesCons(evs);
    }
  }

  lemma StatesCons(evs: seq<StateChange>)
    requires evs != []
    ensures States(evs) == States([evs[0]]) + States(evs[1..])
  {
  }

  /** While the session rests, delivering what has arrived does what `Pipe.Forward` does:
      the same events taken, the same ones reported, and the same end. */
  lemma {:induction false} SoloPipe(c: A.Client, evs: seq<StateChange>)
    requires Ready(c, evs)
    ensures A.LegalMoves(c, Deliveries(Taken(evs)))
    ensures var d, taken := A.AfterMoves(c, Deliveries(Taken(evs))), evs[..Taken(evs)];
            && d.wire == c.wire + States(Fresh(c.pc.first, c.snap, taken))
            && d.pc == (if LastEnded(taken) then A.Leaving else A.Live(c.pc.first && taken == []))
    decreases |evs|
  {
    if evs != [] {
      var d, n := A.Do(c, A.Deliver), Taken(evs);
      TurnAlone(c, evs, d);
      if evs[0].state != Ended {
        SoloPipe(d, evs[1..]);
      }
      var rest := Deliveries(n - 1);
      A.Prepend(c, A.Deliver, rest);
      assert Deliveries(n) == [A.Deliver] + rest;
      FreshCons(c.pc.first, c.snap, evs[..n], c.wire);
      TakenTail(evs, n);
    }
  }

  lemma TakenTail(evs: seq<StateChange>, n: nat)
    requires evs != [] && n == Taken(evs)
    ensures evs[..n][0] == evs[0] && evs[..n][1..] == evs[1..][..n - 1]
    ensures evs[0].state == Ended ==> n == 1
    ensures evs[0].state != Ended ==> n - 1 == Taken(evs[1..]) && (LastEnded(evs[..n]) <==> LastEnded(evs[1..][..n - 1]))
  {
  }
}
