/**
 Whole runs of the jitter buffer: the uint16 buffer makes the decisions of the
 unbounded one, and the unbounded one keeps the ledger of what was accepted,
 delivered and dropped.
 */
module JitterRuns {
  import opened ByteStrings
  import opened JitterSpec
  import opened JitterRefinement

  datatype Op = PushOp(idx: int, pkt: Bytes) | PopOp

  /** What the caller of one operation sees. */
  datatype Out = Accepted(ok: bool) | Played(pkt: Option<Bytes>)

  ghost function Step16(w: Buffer<Seq16>, op: Op): (r: (Buffer<Seq16>, Out))
    requires Valid(w)
    ensures Valid(r.0)
  {
    match op
    case PushOp(idx, pkt) =>
      PushValid(w, Wrap(idx), pkt);
      var (w', ok) := Push(w, Wrap(idx), pkt); (w', Accepted(ok))
    case PopOp =>
      PopValid(w);
      var (w', p) := Pop(w); (w', Played(p))
  }

  ghost function IdealStep(i: Buffer<int>, op: Op): (r: (Buffer<int>, Out))
    requires IdealValid(i)
  {
    match op
    case PushOp(idx, pkt) => var (i', ok) := IdealPush(i, idx, pkt); (i', Accepted(ok))
    case PopOp => var (i', p) := IdealPop(i); (i', Played(p))
  }

  lemma IdealStepValid(i: Buffer<int>, op: Op)
    requires IdealValid(i)
    ensures IdealValid(IdealStep(i, op).0)
    ensures IdealStep(i, op).0.max == i.max && IdealStep(i, op).0.target == i.target
  {
    match op
    case PushOp(idx, pkt) =>
      if !IdealLate(i, idx) {
        var c := IdealInsert(i, idx, pkt);
        if |c.frames| > c.max {
          assert idx in c.frames.Keys;
          IdealEvictKeys(c);
        }
      }
    case PopOp =>
      var c := IdealPop(i).0;
      if i.nextOut in i.frames && c != i {
        assert c.frames.Keys == i.frames.Keys - {i.nextOut};
        assert |c.frames.Keys| <= |i.frames.Keys|;
      }
  }

  lemma IdealEvictKeys(c: Buffer<int>)
    requires c.frames.Keys != {} && forall k <- c.frames :: c.nextOut <= k
    ensures |IdealEvict(c).frames| == |c.frames| - 1
    ensures forall k <- IdealEvict(c).frames :: k in c.frames && IdealEvict(c).nextOut <= k
  {
    var e, m := IdealEvict(c), MinKey(c.frames.Keys);
    assert e.frames.Keys == c.frames.Keys - {m};
    assert |e.frames.Keys| == |c.frames.Keys| - 1;
  }

  ghost function Run16(w: Buffer<Seq16>, ops: seq<Op>): (Buffer<Seq16>, seq<Out>)
    requires Valid(w)
    decreases |ops|
  {
    if ops == [] then (w, [])
    else
      var (w1, o) := Step16(w, ops[0]);
      var (w2, os) := Run16(w1, ops[1..]);
      (w2, [o] + os)
  }

  ghost function IdealRun(i: Buffer<int>, ops: seq<Op>): (Buffer<int>, seq<Out>)
    requires IdealValid(i)
    decreases |ops|
  {
    if ops == [] then (i, [])
    else
      IdealStepValid(i, ops[0]);
      var (i1, o) := IdealStep(i, ops[0]);
      var (i2, os) := IdealRun(i1, ops[1..]);
      (i2, [o] + os)
  }

  /** Every pushed index lies within the window at the moment of its push. */
  ghost predicate WindowedRun(i: Buffer<int>, ops: seq<Op>)
    requires IdealValid(i)
    decreases |ops|
  {
    ops == [] ||
    (IdealStepValid(i, ops[0]);
     (ops[0].PushOp? ==> InWindow(i, ops[0].idx)) && WindowedRun(IdealStep(i, ops[0]).0, ops[1..]))
  }

  lemma StepRefines(w: Buffer<Seq16>, i: Buffer<int>, op: Op)
    requires Valid(w) && IdealValid(i) && Refines(w, i) && 1 <= i.max
    requires op.PushOp? ==> InWindow(i, op.idx)
    ensures Step16(w, op).1 == IdealStep(i, op).1
    ensures Refines(Step16(w, op).0, IdealStep(i, op).0)
  {
    match op
    case PushOp(idx, pkt) => PushRefines(w, i, idx, pkt);
    case PopOp => PopRefines(w, i);
  }

  /** Wrap-around is invisible: same outcome of every operation, over any run. */
  lemma {:induction false} WrapRefinement(w: Buffer<Seq16>, i: Buffer<int>, ops: seq<Op>)
    requires Valid(w) && IdealValid(i) && Refines(w, i) && 1 <= i.max
    requires WindowedRun(i, ops)
    ensures Run16(w, ops).1 == IdealRun(i, ops).1
    ensures Refines(Run16(w, ops).0, IdealRun(i, ops).0)
    decreases |ops|
  {
    if ops != [] {
      StepRefines(w, i, ops[0]);
      IdealStepValid(i, ops[0]);
      WrapRefinement(Step16(w, ops[0]).0, IdealStep(i, ops[0]).0, ops[1..]);
    }
  }

  // ---------------------------------------------------------------- raw sequence numbers

  datatype RawOp = RawPush(s: Seq16, pkt: Bytes) | RawPop

  /** The index a sequence number stands for: the one nearest the head. */
  function Unwrap(i: Buffer<int>, s: Seq16): int {
    if i.hasNext then i.nextOut + SeqDelta(Wrap(i.nextOut), s) else s
  }

  function Lift(i: Buffer<int>, op: RawOp): Op {
    match op
    case RawPush(s, pkt) => PushOp(Unwrap(i, s), pkt)
    case RawPop => PopOp
  }

  /** The unbounded run that any uint16 run stands for. */
  ghost function LiftAll(i: Buffer<int>, ops: seq<RawOp>): seq<Op>
    requires IdealValid(i)
    decreases |ops|
  {
    if ops == [] then []
    else
      var op := Lift(i, ops[0]);
      IdealStepValid(i, op);
      [op] + LiftAll(IdealStep(i, op).0, ops[1..])
  }

  ghost function RawStep(w: Buffer<Seq16>, op: RawOp): (r: (Buffer<Seq16>, Out))
    requires Valid(w)
    ensures Valid(r.0)
  {
    match op
    case RawPush(s, pkt) =>
      PushValid(w, s, pkt);
      var (w', ok) := Push(w, s, pkt); (w', Accepted(ok))
    case RawPop =>
      PopValid(w);
      var (w', p) := Pop(w); (w', Played(p))
  }

  ghost function RawRun(w: Buffer<Seq16>, ops: seq<RawOp>): (Buffer<Seq16>, seq<Out>)
    requires Valid(w)
    decreases |ops|
  {
    if ops == [] then (w, [])
    else
      var (w1, o) := RawStep(w, ops[0]);
      var (w2, os) := RawRun(w1, ops[1..]);
      (w2, [o] + os)
  }

  lemma LiftIndex(i: Buffer<int>, s: Seq16)
    requires IdealValid(i)
    ensures InWindow(i, Unwrap(i, s)) && Wrap(Unwrap(i, s)) == s
  {
    if i.hasNext {
      UnwrapNear(i.nextOut, s);
    }
  }

  lemma LiftStep(w: Buffer<Seq16>, i: Buffer<int>, op: RawOp)
    requires Valid(w) && IdealValid(i)
    ensures Lift(i, op).PushOp? ==> InWindow(i, Lift(i, op).idx)
    ensures RawStep(w, op) == Step16(w, Lift(i, op))
  {
    if op.RawPush? {
      LiftIndex(i, op.s);
      assert Lift(i, op) == PushOp(Unwrap(i, op.s), op.pkt);
    }
  }

  /** Every uint16 run, whatever the sequence numbers, is an unbounded run in its window. */
  lemma {:induction false} EveryRunLifts(w: Buffer<Seq16>, i: Buffer<int>, ops: seq<RawOp>)
    requires Valid(w) && IdealValid(i) && Refines(w, i) && 1 <= i.max
    ensures WindowedRun(i, LiftAll(i, ops))
    ensures RawRun(w, ops).1 == IdealRun(i, LiftAll(i, ops)).1
    ensures Refines(RawRun(w, ops).0, IdealRun(i, LiftAll(i, ops)).0)
    decreases |ops|
  {
    if ops != [] {
      var op := Lift(i, ops[0]);
      LiftStep(w, i, ops[0]);
      StepRefines(w, i, op);
      IdealStepValid(i, op);
      EveryRunLifts(Step16(w, op).0, IdealStep(i, op).0, ops[1..]);
      assert LiftAll(i, ops)[1..] == LiftAll(IdealStep(i, op).0, ops[1..]);
    }
  }

  // ---------------------------------------------------------------- the ledger

  /** What a run has done so far: the first index, the payload last accepted at
      each index, what was delivered, pushes that replaced a stored frame, and
      evictions of the head frame. */
  datatype Ledger = Ledger(first: int, latest: map<int, Bytes>, delivered: seq<(int, Bytes)>,
                           replaced: nat, headEvictions: nat)

  const BLANK := Ledger(0, map[], [], 0, 0)

  ghost function Record(l: Ledger, i: Buffer<int>, op: Op): Ledger
    requires IdealValid(i)
  {
    var (i', out) := IdealStep(i, op);
    match op
    case PushOp(idx, pkt) =>
      if !out.ok then l
      else l.(first := if i.hasNext then l.first else idx,
              latest := l.latest[idx := pkt],
              replaced := l.replaced + (if idx in i.frames then 1 else 0),
              headEvictions := l.headEvictions + (if i'.nextOut == (if i.hasNext then i.nextOut else idx) then 0 else 1))
    case PopOp =>
      if out.pkt.None? then l else l.(delivered := l.delivered + [(i.nextOut, out.pkt.value)])
  }

  ghost function RecordAll(l: Ledger, i: Buffer<int>, ops: seq<Op>): Ledger
    requires IdealValid(i)
    decreases |ops|
  {
    if ops == [] then l
    else
      IdealStepValid(i, ops[0]);
      RecordAll(Record(l, i, ops[0]), IdealStep(i, ops[0]).0, ops[1..])
  }

  /** Delivery order and payloads. */
  ghost predicate InOrder(l: Ledger, i: Buffer<int>) {
    && (forall a, b :: 0 <= a < b < |l.delivered| ==> l.delivered[a].0 < l.delivered[b].0)
    && (forall a :: 0 <= a < |l.delivered| ==>
          l.delivered[a].0 < i.nextOut && l.delivered[a].0 in l.latest && l.latest[l.delivered[a].0] == l.delivered[a].1)
    && (forall k <- i.frames :: k in l.latest && l.latest[k] == i.frames[k])
  }

  /** Every packet and every step of the head is accounted for. */
  ghost predicate Balanced(l: Ledger, i: Buffer<int>) {
    var s := i.stats;
    && s.pushed == s.popped + s.droppedLate + s.droppedFull + l.replaced + |i.frames|
    && (i.hasNext ==> i.nextOut == l.first + s.popped + s.gapsFilled + l.headEvictions)
    && |l.delivered| == s.popped
    && (!i.hasNext ==> s.popped == 0)
  }

  /** The books between an accepted push and its eviction. */
  ghost function Enter(l: Ledger, i: Buffer<int>, idx: int, pkt: Bytes): Ledger {
    l.(first := if i.hasNext then l.first else idx,
       latest := l.latest[idx := pkt],
       replaced := l.replaced + (if idx in i.frames then 1 else 0))
  }

  lemma EnterBooks(l: Ledger, i: Buffer<int>, idx: int, pkt: Bytes)
    requires IdealValid(i) && InOrder(l, i) && Balanced(l, i) && !IdealLate(i, idx)
    requires !i.hasNext ==> i.stats.gapsFilled == 0 && l.headEvictions == 0
    ensures var c, l1 := IdealInsert(i, idx, pkt), Enter(l, i, idx, pkt);
            && InOrder(l1, c) && Balanced(l1, c)
            && |c.frames| == |i.frames| + (if idx in i.frames then 0 else 1)
            && forall k <- c.frames :: c.nextOut <= k
  {
    var c := IdealInsert(i, idx, pkt);
    assert c.frames.Keys == i.frames.Keys + {idx};
    assert |c.frames.Keys| == |i.frames.Keys| + if idx in i.frames then 0 else 1;
    assert !i.hasNext ==> l.delivered == [];
  }

  lemma EvictBooks(l: Ledger, c: Buffer<int>)
    requires c.hasNext && InOrder(l, c) && Balanced(l, c)
    requires c.frames.Keys != {} && forall k <- c.frames :: c.nextOut <= k
    ensures var e := IdealEvict(c);
            var l' := l.(headEvictions := l.headEvictions + if e.nextOut == c.nextOut then 0 else 1);
            InOrder(l', e) && Balanced(l', e)
  {
    IdealEvictKeys(c);
  }

  lemma PushBooks(l: Ledger, i: Buffer<int>, op: Op)
    requires IdealValid(i) && op.PushOp? && InOrder(l, i) && Balanced(l, i)
    requires !i.hasNext ==> i.stats.gapsFilled == 0 && l.headEvictions == 0
    ensures var i', l' := IdealStep(i, op).0, Record(l, i, op);
            InOrder(l', i') && Balanced(l', i')
  {
    if IdealLate(i, op.idx) {
      LateBooks(l, i, op);
    } else {
      EnterBooks(l, i, op.idx, op.pkt);
      var c, l1 := IdealInsert(i, op.idx, op.pkt), Enter(l, i, op.idx, op.pkt);
      if |c.frames| > c.max {
        assert op.idx in c.frames.Keys;
        EvictBooks(l1, c);
        EvictRecord(l, i, op);
      } else {
        KeepRecord(l, i, op);
      }
    }
  }

  lemma LateBooks(l: Ledger, i: Buffer<int>, op: Op)
    requires IdealValid(i) && op.PushOp? && IdealLate(i, op.idx) && InOrder(l, i) && Balanced(l, i)
    ensures var i', l' := IdealStep(i, op).0, Record(l, i, op);
            InOrder(l', i') && Balanced(l', i')
  {
  }

  lemma EvictRecord(l: Ledger, i: Buffer<int>, op: Op)
    requires IdealValid(i) && op.PushOp? && !IdealLate(i, op.idx)
    requires |IdealInsert(i, op.idx, op.pkt).frames| > i.max
    ensures IdealInsert(i, op.idx, op.pkt).frames.Keys != {}
    ensures IdealStep(i, op).0 == IdealEvict(IdealInsert(i, op.idx, op.pkt))
    ensures var c, l1 := IdealInsert(i, op.idx, op.pkt), Enter(l, i, op.idx, op.pkt);
            Record(l, i, op)
            == l1.(headEvictions := l1.headEvictions + if IdealEvict(c).nextOut == c.nextOut then 0 else 1)
  {
    assert op.idx in IdealInsert(i, op.idx, op.pkt).frames.Keys;
  }

  lemma KeepRecord(l: Ledger, i: Buffer<int>, op: Op)
    requires IdealValid(i) && op.PushOp? && !IdealLate(i, op.idx)
    requires |IdealInsert(i, op.idx, op.pkt).frames| <= i.max
    ensures IdealStep(i, op).0 == IdealInsert(i, op.idx, op.pkt)
    ensures Record(l, i, op) == Enter(l, i, op.idx, op.pkt)
  {
  }

  lemma PopBooks(l: Ledger, i: Buffer<int>)
    requires IdealValid(i) && InOrder(l, i) && Balanced(l, i)
    ensures var i', l' := IdealStep(i, PopOp).0, Record(l, i, PopOp);
            InOrder(l', i') && Balanced(l', i')
  {
    var i' := IdealStep(i, PopOp).0;
    if i.nextOut in i.frames && i' != i {
      assert i'.frames.Keys == i.frames.Keys - {i.nextOut};
      assert |i'.frames.Keys| == |i.frames.Keys| - 1;
    }
  }

  /** Delivered indices strictly increase, each payload is the last accepted at its
      index, and the counters balance, after any run. */
  lemma {:induction false} LedgerHolds(l: Ledger, i: Buffer<int>, ops: seq<Op>)
    requires IdealValid(i) && InOrder(l, i) && Balanced(l, i)
    requires !i.hasNext ==> i.stats.gapsFilled == 0 && l.headEvictions == 0
    ensures InOrder(RecordAll(l, i, ops), IdealRun(i, ops).0)
    ensures Balanced(RecordAll(l, i, ops), IdealRun(i, ops).0)
    decreases |ops|
  {
    if ops != [] {
      if ops[0].PushOp? { PushBooks(l, i, ops[0]); } else { PopBooks(l, i); }
      IdealStepValid(i, ops[0]);
      LedgerHolds(Record(l, i, ops[0]), IdealStep(i, ops[0]).0, ops[1..]);
    }
  }

  /** The payloads that the pops of a run returned. */
  function Sound(outs: seq<Out>): seq<Bytes> {
    if outs == [] then []
    else SoundOf(outs[0]) + Sound(outs[1..])
  }

  function Payloads(d: seq<(int, Bytes)>): (r: seq<Bytes>)
    ensures |r| == |d|
  {
    if d == [] then [] else Payloads(d[..|d| - 1]) + [d[|d| - 1].1]
  }

  function SoundOf(o: Out): seq<Bytes> {
    if o.Played? && o.pkt.Some? then [o.pkt.value] else []
  }

  lemma SoundCons(o: Out, os: seq<Out>)
    ensures Sound([o] + os) == SoundOf(o) + Sound(os)
  {
    assert ([o] + os)[1..] == os;
  }

  lemma RecordSound(l: Ledger, i: Buffer<int>, op: Op)
    requires IdealValid(i)
    ensures Payloads(Record(l, i, op).delivered) == Payloads(l.delivered) + SoundOf(IdealStep(i, op).1)
  {
    var d := Record(l, i, op).delivered;
    assert d != l.delivered ==> d[..|d| - 1] == l.delivered;
  }

  lemma FirstStep(l: Ledger, i: Buffer<int>, ops: seq<Op>) returns (l1: Ledger, i1: Buffer<int>, o: Out)
    requires IdealValid(i) && ops != []
    ensures IdealValid(i1) && RecordAll(l, i, ops) == RecordAll(l1, i1, ops[1..])
    ensures IdealRun(i, ops).1 == [o] + IdealRun(i1, ops[1..]).1
    ensures Payloads(l1.delivered) == Payloads(l.delivered) + SoundOf(o)
  {
    IdealStepValid(i, ops[0]);
    RecordSound(l, i, ops[0]);
    i1, o := IdealStep(i, ops[0]).0, IdealStep(i, ops[0]).1;
    l1 := Record(l, i, ops[0]);
  }

  lemma SoundOn(all: seq<Bytes>, before: seq<Bytes>, after: seq<Bytes>, o: Out, rest: seq<Out>, outs: seq<Out>)
    requires all == after + Sound(rest) && after == before + SoundOf(o) && outs == [o] + rest
    ensures all == before + Sound(outs)
  {
    SoundCons(o, rest);
  }

  lemma {:induction false} DeliveredIsSound(l: Ledger, i: Buffer<int>, ops: seq<Op>)
    requires IdealValid(i)
    ensures Payloads(RecordAll(l, i, ops).delivered) == Payloads(l.delivered) + Sound(IdealRun(i, ops).1)
    decreases |ops|
  {
    if ops != [] {
      var l1, i1, o := FirstStep(l, i, ops);
      var rest := ops[1..];
      DeliveredIsSound(l1, i1, rest);
      SoundOn(Payloads(RecordAll(l1, i1, rest).delivered), Payloads(l.delivered), Payloads(l1.delivered), o, IdealRun(i1, rest).1,
              IdealRun(i, ops).1);
    }
  }

  function Empty16(target: int, max: int): Buffer<Seq16> {
    Buffer(target, max, map[], 0, false, false, ZERO_STATS)
  }

  function EmptyIdeal(target: int, max: int): Buffer<int> {
    Buffer(target, max, map[], 0, false, false, ZERO_STATS)
  }

  lemma EmptyStart(target: int, max: int)
    requires 0 <= max
    ensures Valid(Empty16(target, max)) && IdealValid(EmptyIdeal(target, max))
    ensures Refines(Empty16(target, max), EmptyIdeal(target, max))
    ensures InOrder(BLANK, EmptyIdeal(target, max)) && Balanced(BLANK, EmptyIdeal(target, max))
  {
  }

  // ---------------------------------------------------------------- with room for nothing

  const EDGE_RUN: seq<Op> := [PushOp(0, []), PushOp(0x8000, [])]

  /** The first push leaves an empty buffer whose head has moved on. */
  lemma EdgeStart(target: int, w: Buffer<Seq16>, i: Buffer<int>)
    requires w == Step16(Empty16(target, 0), EDGE_RUN[0]).0 && i == IdealStep(EmptyIdeal(target, 0), EDGE_RUN[0]).0
    ensures Valid(w) && IdealValid(i) && Refines(w, i)
    ensures i.frames == map[] && i.hasNext && i.nextOut == 1 && i.max == 0
  {
    EmptyStart(target, 0);
    PushRefines(Empty16(target, 0), EmptyIdeal(target, 0), 0, []);
    IdealStepValid(EmptyIdeal(target, 0), EDGE_RUN[0]);
    var c := IdealInsert(EmptyIdeal(target, 0), 0, []);
    assert c.frames.Keys == {0};
  }

  lemma OneMoreStep(w: Buffer<Seq16>, i: Buffer<int>, ops: seq<Op>)
    requires Valid(w) && IdealValid(i) && ops != []
    ensures IdealValid(IdealStep(i, ops[0]).0)
    ensures Run16(w, ops).0 == Run16(Step16(w, ops[0]).0, ops[1..]).0
    ensures IdealRun(i, ops).0 == IdealRun(IdealStep(i, ops[0]).0, ops[1..]).0
  {
    IdealStepValid(i, ops[0]);
  }

  lemma OneStep(w: Buffer<Seq16>, i: Buffer<int>, op: Op)
    requires Valid(w) && IdealValid(i)
    ensures Run16(w, [op]).0 == Step16(w, op).0 && IdealRun(i, [op]).0 == IdealStep(i, op).0
  {
    var w1, i1 := Step16(w, op).0, IdealStep(i, op).0;
    OneMoreStep(w, i, [op]);
    assert [op][1..] == [];
    assert Run16(w1, []).0 == w1 && IdealRun(i1, []).0 == i1;
  }

  /** The second push is in the window, and from there on the two differ. */
  lemma EdgeRun(target: int)
    ensures IdealValid(EmptyIdeal(target, 0)) && Valid(Empty16(target, 0))
    ensures WindowedRun(EmptyIdeal(target, 0), EDGE_RUN)
    ensures !Refines(Run16(Empty16(target, 0), EDGE_RUN).0, IdealRun(EmptyIdeal(target, 0), EDGE_RUN).0)
  {
    EmptyStart(target, 0);
    var w, i := Empty16(target, 0), EmptyIdeal(target, 0);
    var w1, i1 := Step16(w, EDGE_RUN[0]).0, IdealStep(i, EDGE_RUN[0]).0;
    EdgeStart(target, w1, i1);
    PushRefines(w1, i1, 0x8000, []);
    assert EdgePush(i1, 0x8000);
    EdgeTail(i1);
    OneStep(w1, i1, EDGE_RUN[1]);
    OneMoreStep(w, i, EDGE_RUN);
    assert EDGE_RUN[1..] == [EDGE_RUN[1]];
  }

  lemma EdgeTail(i: Buffer<int>)
    requires IdealValid(i) && InWindow(i, 0x8000)
    ensures WindowedRun(i, [EDGE_RUN[1]])
  {
    IdealStepValid(i, EDGE_RUN[1]);
    assert [EDGE_RUN[1]][1..] == [];
  }

  /** Started empty, the two buffers agree over every windowed run exactly if there is
      room for at least one frame. */
  lemma WrapRefinementIff(target: int, max: int)
    requires 0 <= max
    ensures Valid(Empty16(target, max)) && IdealValid(EmptyIdeal(target, max))
    ensures (forall ops :: WindowedRun(EmptyIdeal(target, max), ops) ==>
                             Refines(Run16(Empty16(target, max), ops).0, IdealRun(EmptyIdeal(target, max), ops).0))
            <==> 1 <= max
  {
    EmptyStart(target, max);
    if 1 <= max {
      forall ops | WindowedRun(EmptyIdeal(target, max), ops)
        ensures Refines(Run16(Empty16(target, max), ops).0, IdealRun(EmptyIdeal(target, max), ops).0)
      {
        WrapRefinement(Empty16(target, max), EmptyIdeal(target, max), ops);
      }
    } else {
      EdgeRun(target);
    }
  }

  // ---------------------------------------------------------------- an accepted frame that is gone

  const LOSING: seq<RawOp> := [RawPush(10, []), RawPush(12, []), RawPush(11, [])]

  /** A buffer with room for one frame: 12 replaces 10, and 11, pushed then, is accepted
      and evicted at once. */
  lemma PushCanLose(target: int)
    ensures Valid(Empty16(target, 1)) && RawRun(Empty16(target, 1), LOSING).1[2] == Accepted(true)
    ensures RawRun(Empty16(target, 1), LOSING).0.frames.Keys == {12}
  {
    EmptyStart(target, 1);
    var b0 := Empty16(target, 1);
    var b1 := FirstStored(b0);
    var b2 := Replaces(b1, 10, 12);
    var b3 := Passes(b2, 11, 12);
    var t1, t2 := LOSING[1..], LOSING[1..][1..];
    assert t1[0] == RawPush(12, []) && t2[0] == RawPush(11, []) && t2[1..] == [];
    RunOne(b2, t2, b3);
    RunOne(b1, t1, b2);
    RunOne(b0, LOSING, b1);
  }

  lemma RunOne(b: Buffer<Seq16>, ops: seq<RawOp>, c: Buffer<Seq16>)
    requires Valid(b) && Valid(c) && ops != [] && ops[0].RawPush? && (c, true) == Push(b, ops[0].s, ops[0].pkt)
    ensures RawRun(b, ops) == (RawRun(c, ops[1..]).0, [Accepted(true)] + RawRun(c, ops[1..]).1)
  {
  }

  lemma FirstStored(b: Buffer<Seq16>) returns (c: Buffer<Seq16>)
    requires Valid(b) && !b.hasNext && b.max == 1
    ensures (c, true) == Push(b, 10, []) && Valid(c) && c.frames.Keys == {10} && c.nextOut == 10 && c.hasNext && c.max == 1
  {
    c := Push(b, 10, []).0;
    PushValid(b, 10, []);
    assert c.frames == map[10 := []];
  }

  /** In a buffer of one, a frame further ahead replaces the one at the head. */
  lemma Replaces(b: Buffer<Seq16>, s: Seq16, t: Seq16) returns (c: Buffer<Seq16>)
    requires Valid(b) && b.hasNext && b.max == 1 && b.frames.Keys == {s} && b.nextOut == s && s < t < 100
    ensures (c, true) == Push(b, t, []) && Valid(c) && c.frames.Keys == {t} && c.nextOut == s + 1 && c.hasNext && c.max == 1
  {
    c := Push(b, t, []).0;
    PushValid(b, t, []);
    var w := Insert(b, t, []);
    assert w.frames.Keys == {s, t} && |w.frames.Keys| == 2;
    OldestUnique(w.frames, s, s);
    EvictAhead(w);
    TrimOnce(w);
  }

  /** And the frame at the head, pushed after it, goes by. */
  lemma Passes(b: Buffer<Seq16>, s: Seq16, t: Seq16) returns (c: Buffer<Seq16>)
    requires Valid(b) && b.hasNext && b.max == 1 && b.frames.Keys == {t} && b.nextOut == s && s < t < 100
    ensures (c, true) == Push(b, s, []) && Valid(c) && c.frames.Keys == {t}
  {
    c := Push(b, s, []).0;
    PushValid(b, s, []);
    var w := Insert(b, s, []);
    assert w.frames.Keys == {s, t} && |w.frames.Keys| == 2;
    OldestUnique(w.frames, s, s);
    EvictAhead(w);
    TrimOnce(w);
  }

  /** The whole life of the uint16 buffer: any calls, any sequence numbers. */
  lemma JitterAccounting(target: int, max: int, ops: seq<RawOp>)
    requires 1 <= max
    ensures var (w, outs) := RawRun(Empty16(target, max), ops);
            var l := RecordAll(BLANK, EmptyIdeal(target, max), LiftAll(EmptyIdeal(target, max), ops));
            && |w.frames| <= max
            && w.stats.pushed == w.stats.popped + w.stats.droppedLate + w.stats.droppedFull + l.replaced + |w.frames|
            && (w.hasNext ==> w.nextOut == Wrap(l.first + w.stats.popped + w.stats.gapsFilled + l.headEvictions))
            && Payloads(l.delivered) == Sound(outs)
            && (forall a, b :: 0 <= a < b < |l.delivered| ==> l.delivered[a].0 < l.delivered[b].0)
            && (forall a :: 0 <= a < |l.delivered| ==>
                  l.delivered[a].0 in l.latest && l.latest[l.delivered[a].0] == l.delivered[a].1)
  {
    var w, i := Empty16(target, max), EmptyIdeal(target, max);
    EmptyStart(target, max);
    var lifted := LiftAll(i, ops);
    EveryRunLifts(w, i, ops);
    LedgerHolds(BLANK, i, lifted);
    DeliveredIsSound(BLANK, i, lifted);
    RunValid(w, ops);
    assert Payloads(BLANK.delivered) == [];
  }

  lemma {:induction false} RunValid(w: Buffer<Seq16>, ops: seq<RawOp>)
    requires Valid(w)
    ensures Valid(RawRun(w, ops).0)
    ensures RawRun(w, ops).0.max == w.max
    decreases |ops|
  {
    if ops != [] {
      RunValid(RawStep(w, ops[0]).0, ops[1..]);
      RawStepMax(w, ops[0]);
    }
  }

  lemma RawStepMax(w: Buffer<Seq16>, op: RawOp)
    requires Valid(w)
    ensures RawStep(w, op).0.max == w.max && RawStep(w, op).0.target == w.target
  {
    if op.RawPush? && !Late(w, op.s) {
      TrimMax(Insert(w, op.s, op.pkt));
    }
  }
}
