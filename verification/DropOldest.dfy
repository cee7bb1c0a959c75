/**
 Bounded queues that make room for the newest element by dropping the oldest: the
 playback queue (one lock, so one step) and the receive queue, whose delivery is
 three separate channel operations.
 */
module DropOldest {

  /** Appends x, dropping the front element of a queue that holds cap or more. */
  function Put<T>(cap: nat, q: seq<T>, x: T): (r: seq<T>)
    requires cap >= 1
    ensures |q| <= cap ==> |r| <= cap
    ensures |r| >= 1 && r[|r| - 1] == x
  {
    (if |q| >= cap then q[1..] else q) + [x]
  }

  datatype QOp<T> = Produce(x: T) | Consume

  /** A queue with its history: everything produced, and the positions in it of
      what the consumer took. */
  datatype Line<T> = Line(queue: seq<T>, produced: seq<T>, taken: seq<int>)

  function Act<T>(cap: nat, l: Line<T>, op: QOp<T>): Line<T>
    requires cap >= 1
  {
    match op
    case Produce(x) => l.(queue := Put(cap, l.queue, x), produced := l.produced + [x])
    case Consume =>
      if l.queue == [] then l
      else l.(queue := l.queue[1..], taken := l.taken + [|l.produced| - |l.queue|])
  }

  function ActAll<T>(cap: nat, l: Line<T>, ops: seq<QOp<T>>): Line<T>
    requires cap >= 1
    decreases |ops|
  {
    if ops == [] then l else Act(cap, ActAll(cap, l, ops[..|ops| - 1]), ops[|ops| - 1])
  }

  /** The queue is the newest end of what was produced; what was taken comes before
      it, in order. */
  ghost predicate Orderly<T>(cap: nat, l: Line<T>) {
    && |l.queue| <= cap && |l.queue| <= |l.produced|
    && l.queue == l.produced[|l.produced| - |l.queue|..]
    && (forall k :: 0 <= k < |l.taken| ==> 0 <= l.taken[k] < |l.produced| - |l.queue|)
    && (forall j, k :: 0 <= j < k < |l.taken| ==> l.taken[j] < l.taken[k])
  }

  lemma ActOrderly<T>(cap: nat, l: Line<T>, op: QOp<T>)
    requires cap >= 1 && Orderly(cap, l)
    ensures Orderly(cap, Act(cap, l, op))
    ensures op.Produce? ==> Act(cap, l, op).queue != []
    ensures op.Consume? && l.queue != [] ==>
              var k := |l.produced| - |l.queue|;
              Act(cap, l, op).taken == l.taken + [k] && l.produced[k] == l.queue[0]
  {
  }

  /** Whatever the interleaving, the consumer sees an in-order subsequence. */
  lemma {:induction false} AlwaysOrderly<T>(cap: nat, ops: seq<QOp<T>>)
    requires cap >= 1
    ensures Orderly(cap, ActAll(cap, Line([], [], []), ops))
    decreases |ops|
  {
    if ops != [] {
      AlwaysOrderly(cap, ops[..|ops| - 1]);
      ActOrderly(cap, ActAll(cap, Line([], [], []), ops[..|ops| - 1]), ops[|ops| - 1]);
    }
  }

  // ---------------------------------------------------------------- delivery in three channel operations

  const RECV_CAP := 16

  /** Where a producer is inside deliverRecv. */
  datatype Pc<T> = Outside | Evicting(x: T) | Retrying(x: T)

  datatype RecvAct<T> = Offer(p: nat, x: T) | EvictOne(p: nat) | Retry(p: nat) | Receive

  /** The shared channel, its producers, and how many frames a retry gave up. */
  datatype Recv<T> = Recv(line: Line<T>, pcs: seq<Pc<T>>, lost: nat)

  function Start<T>(producers: nat): Recv<T> {
    Recv(Line([], [], []), seq(producers, _ => Outside), 0)
  }

  function Send<T>(l: Line<T>, x: T): Line<T> {
    l.(queue := l.queue + [x], produced := l.produced + [x])
  }

  predicate Enabled<T>(r: Recv<T>, a: RecvAct<T>) {
    match a
    case Offer(p, _) => p < |r.pcs| && r.pcs[p].Outside?
    case EvictOne(p) => p < |r.pcs| && r.pcs[p].Evicting?
    case Retry(p) => p < |r.pcs| && r.pcs[p].Retrying?
    case Receive => true
  }

  function Deliver<T>(r: Recv<T>, a: RecvAct<T>): Recv<T>
    requires Enabled(r, a)
  {
    match a
    case Offer(p, x) =>
      if |r.line.queue| < RECV_CAP then r.(line := Send(r.line, x))
      else r.(pcs := r.pcs[p := Evicting(x)])
    case EvictOne(p) =>
      r.(line := if r.line.queue == [] then r.line else r.line.(queue := r.line.queue[1..]),
         pcs := r.pcs[p := Retrying(r.pcs[p].x)])
    case Retry(p) =>
      var r1 := r.(pcs := r.pcs[p := Outside]);
      if |r.line.queue| < RECV_CAP then r1.(line := Send(r.line, r.pcs[p].x)) else r1.(lost := r.lost + 1)
    case Receive => r.(line := Act(RECV_CAP, r.line, Consume))
  }

  predicate Legal<T>(r: Recv<T>, acts: seq<RecvAct<T>>)
    decreases |acts|
  {
    acts == [] || (Enabled(r, acts[0]) && Legal(Deliver(r, acts[0]), acts[1..]))
  }

  function After<T>(r: Recv<T>, acts: seq<RecvAct<T>>): Recv<T>
    requires Legal(r, acts)
    decreases |acts|
  {
    if acts == [] then r else After(Deliver(r, acts[0]), acts[1..])
  }

  /** Only the holder of a fresh eviction can be retrying, when it is alone. */
  ghost predicate Sole<T>(r: Recv<T>) {
    && |r.pcs| <= 1 && r.lost == 0
    && (|r.pcs| == 1 && r.pcs[0].Retrying? ==> |r.line.queue| < RECV_CAP)
  }

  lemma DeliverOrderly<T>(r: Recv<T>, a: RecvAct<T>)
    requires Orderly(RECV_CAP, r.line) && Enabled(r, a)
    ensures Orderly(RECV_CAP, Deliver(r, a).line) && |Deliver(r, a).pcs| == |r.pcs|
    ensures Sole(r) ==> Sole(Deliver(r, a))
  {
    if a.Receive? { ActOrderly(RECV_CAP, r.line, Consume); }
  }

  /** Any number of producers: the channel stays bounded and in order.  A lone
      producer never loses the frame it delivers. */
  lemma {:induction false} RecvOrderly<T>(r: Recv<T>, acts: seq<RecvAct<T>>)
    requires Orderly(RECV_CAP, r.line) && Legal(r, acts)
    ensures Orderly(RECV_CAP, After(r, acts).line)
    ensures Sole(r) ==> After(r, acts).lost == 0
    decreases |acts|
  {
    if acts != [] {
      DeliverOrderly(r, acts[0]);
      RecvOrderly(Deliver(r, acts[0]), acts[1..]);
    }
  }

  /** The steps of one delivery. */
  function Delivery<T>(r: Recv<T>, x: T): seq<RecvAct<T>> {
    if |r.line.queue| < RECV_CAP then [Offer(0, x)] else [Offer(0, x), EvictOne(0), Retry(0)]
  }

  /** Undisturbed, a delivery queues its frame last and drops the oldest of a full queue. */
  lemma SoloDelivery<T>(r: Recv<T>, x: T)
    requires |r.pcs| >= 1 && r.pcs[0].Outside? && |r.line.queue| <= 16
    ensures Legal(r, Delivery(r, x))
    ensures After(r, Delivery(r, x)).line.queue == (if |r.line.queue| < 16 then r.line.queue else r.line.queue[1..]) + [x]
    ensures After(r, Delivery(r, x)).lost == r.lost && After(r, Delivery(r, x)).pcs == r.pcs
  {
    var acts := Delivery(r, x);
    var r1 := Deliver(r, acts[0]);
    if |r.line.queue| == 16 {
      var r2 := Deliver(r1, EvictOne(0));
      var r3 := Deliver(r2, Retry(0));
      assert acts[1..][0] == EvictOne(0) && acts[1..][1..] == acts[2..] && acts[2..][0] == Retry(0) && acts[2..][1..] == [];
      assert Legal(r2, acts[2..]) && After(r2, acts[2..]) == r3;
      assert Legal(r1, acts[1..]) && After(r1, acts[1..]) == r3;
      assert r3.pcs == r.pcs;
    } else {
      assert acts[1..] == [];
    }
  }

  /** n offers by producer 0. */
  function Offers<T>(x: T, n: nat): seq<RecvAct<T>> {
    if n == 0 then [] else [Offer(0, x)] + Offers(x, n - 1)
  }

  lemma {:induction false} FillUp<T>(r: Recv<T>, x: T, n: nat, rest: seq<RecvAct<T>>)
    requires |r.pcs| >= 1 && r.pcs[0].Outside? && |r.line.queue| + n <= RECV_CAP
    ensures var f := Recv(Line(r.line.queue + seq(n, _ => x), r.line.produced + seq(n, _ => x), r.line.taken), r.pcs, r.lost);
            Legal(f, rest) ==> Legal(r, Offers(x, n) + rest) && After(r, Offers(x, n) + rest) == After(f, rest)
    decreases n
  {
    if n == 0 {
      assert Offers(x, 0) + rest == rest;
      assert r.line.queue + seq(0, _ => x) == r.line.queue;
      assert r.line.produced + seq(0, _ => x) == r.line.produced;
    } else {
      var acts := Offers(x, n) + rest;
      assert acts[0] == Offer(0, x) && acts[1..] == Offers(x, n - 1) + rest;
      var r1 := Deliver(r, acts[0]);
      FillUp(r1, x, n - 1, rest);
      assert r1.line.queue + seq(n - 1, _ => x) == r.line.queue + seq(n, _ => x);
      assert r1.line.produced + seq(n - 1, _ => x) == r.line.produced + seq(n, _ => x);
    }
  }

  /** The schedule in which a second producer takes the slot the first one freed. */
  function Steal<T>(x: T): seq<RecvAct<T>> {
    [Offer(0, x), EvictOne(0), Offer(1, x), Retry(0)]
  }

  lemma StealLoses<T>(f: Recv<T>, x: T)
    requires |f.line.queue| == RECV_CAP && |f.pcs| >= 2 && f.pcs[0].Outside? && f.pcs[1].Outside?
    ensures Legal(f, Steal(x)) && After(f, Steal(x)).lost == f.lost + 1
  {
    var acts := Steal(x);
    var f1 := Deliver(f, acts[0]);
    var f2 := Deliver(f1, acts[1]);
    var f3 := Deliver(f2, acts[2]);
    assert acts[1..][0] == acts[1] && acts[1..][1..] == acts[2..] && acts[2..][1..] == acts[3..] && acts[3..][1..] == [];
    assert Legal(f3, acts[3..]) && After(f3, acts[3..]) == Deliver(f3, acts[3]);
    assert Legal(f2, acts[2..]) && After(f2, acts[2..]) == After(f3, acts[3..]);
    assert Legal(f1, acts[1..]) && After(f1, acts[1..]) == After(f2, acts[2..]);
  }

  /** The newest frame always gets in exactly when there is at most one producer.
      The transport runs up to two. */
  lemma NewestKeptIff<T>(producers: nat, x: T)
    ensures (forall acts: seq<RecvAct<T>> :: Legal(Start(producers), acts) ==> After(Start(producers), acts).lost == 0)
            <==> producers <= 1
  {
    var r := Start<T>(producers);
    if producers <= 1 {
      forall acts: seq<RecvAct<T>> | Legal(r, acts) ensures After(r, acts).lost == 0 {
        RecvOrderly(r, acts);
      }
    } else {
      var f := Recv(Line(r.line.queue + seq(RECV_CAP, _ => x), r.line.produced + seq(RECV_CAP, _ => x), r.line.taken), r.pcs, r.lost);
      StealLoses(f, x);
      FillUp(r, x, RECV_CAP, Steal(x));
      var acts := Offers(x, RECV_CAP) + Steal(x);
      assert Legal(r, acts) && After(r, acts).lost == 1;
    }
  }
}
