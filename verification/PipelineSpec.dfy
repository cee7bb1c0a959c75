/**
 The receive loop of the audio pipeline: one Push and one Pop per datagram, then
 a four-slot playback queue that drops its oldest frame.
 */
module PipelineSpec {
  import opened ByteStrings
  import opened JitterSpec
  import opened JitterRefinement
  import opened JitterRuns

  datatype Packet = Packet(seqNo: Seq16, payload: Bytes)

  /** One iteration on the jitter buffer. */
  ghost function Iterate(b: Buffer<Seq16>, p: Packet): (r: (Buffer<Seq16>, Option<Bytes>))
    requires Valid(b)
    ensures Valid(r.0)
  {
    PushValid(b, p.seqNo, p.payload);
    PopValid(Push(b, p.seqNo, p.payload).0);
    Pop(Push(b, p.seqNo, p.payload).0)
  }

  ghost function IterateAll(b: Buffer<Seq16>, ps: seq<Packet>): (r: (Buffer<Seq16>, seq<Option<Bytes>>))
    requires Valid(b)
    ensures Valid(r.0) && |r.1| == |ps|
    decreases |ps|
  {
    if ps == [] then (b, [])
    else
      var front := IterateAll(b, ps[..|ps| - 1]);
      var last := Iterate(front.0, ps[|ps| - 1]);
      (last.0, front.1 + [last.1])
  }

  // ---------------------------------------------------------------- occupancy

  /** The pre-roll that takes effect: a target below one frame acts as one. */
  function PreRoll(target: int): nat {
    if target < 1 then 1 else target
  }

  /** What the iterations since the priming one did. */
  datatype Meter = Meter(gaps: int, full: int, late: int, dups: int)

  ghost function Measure(m: Meter, b: Buffer<Seq16>, p: Packet): Meter
    requires Valid(b)
  {
    var m0 := if b.primed then m else Meter(0, 0, 0, 0);
    var c := Iterate(b, p).0;
    Meter(m0.gaps + c.stats.gapsFilled - b.stats.gapsFilled,
          m0.full + c.stats.droppedFull - b.stats.droppedFull,
          m0.late + (if Late(b, p.seqNo) then 1 else 0),
          m0.dups + (if !Late(b, p.seqNo) && p.seqNo in b.frames then 1 else 0))
  }

  ghost function MeasureAll(b: Buffer<Seq16>, ps: seq<Packet>): Meter
    requires Valid(b)
    decreases |ps|
  {
    if ps == [] then Meter(0, 0, 0, 0)
    else Measure(MeasureAll(b, ps[..|ps| - 1]), IterateAll(b, ps[..|ps| - 1]).0, ps[|ps| - 1])
  }

  lemma InsertSize(b: Buffer<Seq16>, s: Seq16, pkt: Bytes)
    ensures |Insert(b, s, pkt).frames| == |b.frames| + if s in b.frames then 0 else 1
  {
    var c := Insert(b, s, pkt);
    assert c.frames.Keys == b.frames.Keys + {s};
    assert |c.frames.Keys| == |b.frames.Keys| + if s in b.frames then 0 else 1;
  }

  /** A push adds one frame, unless it was late, a duplicate, or evicted another. */
  lemma PushSize(b: Buffer<Seq16>, s: Seq16, pkt: Bytes)
    requires Valid(b) && 1 <= b.max
    ensures var c := Push(b, s, pkt).0;
            && 0 <= c.stats.droppedFull - b.stats.droppedFull
            && c.stats.gapsFilled == b.stats.gapsFilled && c.stats.popped == b.stats.popped
            && (|b.frames| < b.max ==> c.stats.droppedFull == b.stats.droppedFull)
            && |c.frames| == |b.frames| + (if Late(b, s) || s in b.frames then 0 else 1)
                             - (c.stats.droppedFull - b.stats.droppedFull)
            && c.primed == b.primed && c.hasNext && c.target == b.target && c.max == b.max
  {
    if !Late(b, s) {
      InsertSize(b, s, pkt);
      var c := Insert(b, s, pkt);
      InsertAhead(b, s, pkt);
      VictimFound(c, s);
      if |c.frames| > c.max {
        TrimOnce(c);
        EvictHit(c);
      }
    }
  }

  lemma PopSize(b: Buffer<Seq16>)
    requires b.hasNext
    ensures var c := Pop(b).0;
            && 0 <= c.stats.gapsFilled - b.stats.gapsFilled <= 1
            && c.stats.droppedFull == b.stats.droppedFull
            && c.primed == (b.primed || |b.frames| >= b.target)
            && (c.primed ==> |c.frames| == |b.frames| - 1 + (c.stats.gapsFilled - b.stats.gapsFilled))
            && (!c.primed ==> c == b)
            && c.target == b.target && c.max == b.max
  {
    var c := Pop(b).0;
    if b.nextOut in b.frames && c != b {
      assert c.frames.Keys == b.frames.Keys - {b.nextOut};
      assert |c.frames.Keys| == |b.frames.Keys| - 1;
    }
  }

  ghost predicate Occupied(b: Buffer<Seq16>, m: Meter) {
    var t := PreRoll(b.target);
    && (!b.primed ==> |b.frames| <= t - 1)
    && (b.primed ==> |b.frames| == t - 1 + m.gaps - m.full - m.late - m.dups)
  }

  lemma OccupancyStep(b: Buffer<Seq16>, m: Meter, p: Packet)
    requires Valid(b) && 1 <= b.max && PreRoll(b.target) <= b.max
    requires Occupied(b, m)
    ensures Occupied(Iterate(b, p).0, Measure(m, b, p))
    ensures Iterate(b, p).0.target == b.target && Iterate(b, p).0.max == b.max
  {
    PushSize(b, p.seqNo, p.payload);
    PushValid(b, p.seqNo, p.payload);
    PopSize(Push(b, p.seqNo, p.payload).0);
  }

  /** After every iteration from the priming one on, the fill level is the pre-roll
      less one, plus gaps, less everything that was dropped or replaced since. */
  lemma {:induction false} OccupancyLaw(target: int, max: int, ps: seq<Packet>)
    requires PreRoll(target) <= max
    ensures var b := IterateAll(Empty16(target, max), ps).0;
            && b.target == target && b.max == max
            && Occupied(b, MeasureAll(Empty16(target, max), ps))
    decreases |ps|
  {
    if ps != [] {
      var front := ps[..|ps| - 1];
      OccupancyLaw(target, max, front);
      OccupancyStep(IterateAll(Empty16(target, max), front).0, MeasureAll(Empty16(target, max), front), ps[|ps| - 1]);
    }
  }

  // ---------------------------------------------------------------- lossless streams

  /** ps is an unbroken stream of the payloads pk from sequence number s0 on. */
  ghost predicate IsStream(ps: seq<Packet>, s0: Seq16, pk: seq<Bytes>) {
    && |ps| == |pk|
    && forall j :: 0 <= j < |ps| ==> ps[j].seqNo == Wrap(s0 + j) && ps[j].payload == pk[j]
  }

  /** m holds packets [lo, hi) of the stream, keyed by index. */
  ghost predicate Holds(m: map<int, Bytes>, s0: int, pk: seq<Bytes>, lo: nat, hi: nat)
    requires lo <= hi <= |pk|
  {
    && |m| == hi - lo
    && (forall k :: k in m <==> s0 + lo <= k < s0 + hi)
    && (forall k :: k in m ==> m[k] == pk[k - s0])
  }

  /** How many of the first n packets have been played. */
  function PlayedOf(target: int, n: nat): nat {
    if n < PreRoll(target) then 0 else n - (PreRoll(target) - 1)
  }

  /** The unbounded buffer after n packets of the stream, of which m are in hand. */
  ghost predicate IsSnapshot(i: Buffer<int>, s0: int, pk: seq<Bytes>, lo: nat, n: nat, primed: bool)
    requires lo <= n <= |pk|
  {
    && Holds(i.frames, s0, pk, lo, n)
    && (i.hasNext ==> i.nextOut == s0 + lo)
    && i.hasNext == (n > 0) && i.primed == primed
    && i.stats == Stats(n, lo, 0, 0, 0)
  }

  ghost predicate AtPacket(i: Buffer<int>, target: int, max: int, s0: int, pk: seq<Bytes>, n: nat)
    requires n <= |pk|
  {
    && i.target == target && i.max == max && PreRoll(target) <= max
    && IsSnapshot(i, s0, pk, PlayedOf(target, n), n, n >= PreRoll(target))
  }

  lemma SnapshotInsert(i: Buffer<int>, s0: int, pk: seq<Bytes>, lo: nat, n: nat, primed: bool, c: Buffer<int>)
    requires lo <= n < |pk| && IsSnapshot(i, s0, pk, lo, n, primed)
    requires n == 0 ==> !primed
    requires c == IdealInsert(i, s0 + n, pk[n])
    ensures |c.frames| == |i.frames| + 1 && IsSnapshot(c, s0, pk, lo, n + 1, primed)
  {
    NewKey(i.frames, s0 + n, pk[n]);
    if n == 0 { assert i.frames.Keys == {}; assert i.frames == map[]; }
  }

  lemma NewKey(m: map<int, Bytes>, k: int, pkt: Bytes)
    requires k !in m
    ensures |m[k := pkt]| == |m| + 1
  {
    assert m[k := pkt].Keys == m.Keys + {k};
    assert |m.Keys + {k}| == |m.Keys| + 1;
  }

  lemma SnapshotPush(i: Buffer<int>, s0: int, pk: seq<Bytes>, lo: nat, n: nat, primed: bool)
    requires lo <= n < |pk| && IsSnapshot(i, s0, pk, lo, n, primed) && n - lo < i.max
    requires n == 0 ==> !primed
    ensures IdealValid(i) && !IdealLate(i, s0 + n) && IdealPush(i, s0 + n, pk[n]).1
    ensures IdealPush(i, s0 + n, pk[n]).0 == IdealInsert(i, s0 + n, pk[n])
    ensures IsSnapshot(IdealInsert(i, s0 + n, pk[n]), s0, pk, lo, n + 1, primed)
  {
    SnapshotInsert(i, s0, pk, lo, n, primed, IdealInsert(i, s0 + n, pk[n]));
  }

  lemma SnapshotPop(i: Buffer<int>, s0: int, pk: seq<Bytes>, lo: nat, n: nat, primed: bool)
    requires lo < n <= |pk| && IsSnapshot(i, s0, pk, lo, n, primed)
    ensures primed || n - lo >= i.target ==>
              IsSnapshot(IdealPop(i).0, s0, pk, lo + 1, n, true) && IdealPop(i).1 == Some(pk[lo])
    ensures !primed && n - lo < i.target ==> IdealPop(i) == (i, None)
  {
    if primed || n - lo >= i.target {
      assert s0 + lo in i.frames;
      var c := IdealPop(i).0;
      assert c.frames.Keys == i.frames.Keys - {s0 + lo};
      assert |c.frames.Keys| == |i.frames.Keys| - 1;
    }
  }

  /** What iteration j of an unbroken stream plays. */
  function Heard(target: int, pk: seq<Bytes>, j: nat): Option<Bytes>
    requires j < |pk|
  {
    if j + 1 < PreRoll(target) then None else Some(pk[j + 1 - PreRoll(target)])
  }

  lemma SnapshotIterate(i: Buffer<int>, target: int, max: int, s0: int, pk: seq<Bytes>, n: nat)
    requires n < |pk| && AtPacket(i, target, max, s0, pk, n)
    ensures IdealValid(i)
    ensures i.hasNext ==> i.nextOut <= s0 + n <= i.nextOut + PreRoll(target) - 1
    ensures AtPacket(IdealPop(IdealPush(i, s0 + n, pk[n]).0).0, target, max, s0, pk, n + 1)
    ensures IdealPop(IdealPush(i, s0 + n, pk[n]).0).1 == Heard(target, pk, n)
  {
    var lo := PlayedOf(target, n);
    SnapshotPush(i, s0, pk, lo, n, n >= PreRoll(target));
    SnapshotPop(IdealInsert(i, s0 + n, pk[n]), s0, pk, lo, n + 1, n >= PreRoll(target));
  }

  ghost predicate Tracks(w: Buffer<Seq16>, i: Buffer<int>) {
    Valid(w) && IdealValid(i) && Refines(w, i)
  }

  lemma TrackPush(w: Buffer<Seq16>, i: Buffer<int>, idx: int, pkt: Bytes)
    requires Tracks(w, i) && 1 <= i.max && InWindow(i, idx)
    ensures Tracks(Push(w, Wrap(idx), pkt).0, IdealPush(i, idx, pkt).0)
  {
    StepRefines(w, i, PushOp(idx, pkt));
    IdealStepValid(i, PushOp(idx, pkt));
  }

  lemma TrackPop(w: Buffer<Seq16>, i: Buffer<int>)
    requires Tracks(w, i) && 1 <= i.max
    ensures Tracks(Pop(w).0, IdealPop(i).0) && Pop(w).1 == IdealPop(i).1
  {
    StepRefines(w, i, PopOp);
    IdealStepValid(i, PopOp);
  }

  lemma TrackIterate(w: Buffer<Seq16>, i: Buffer<int>, idx: int, pkt: Bytes)
    requires Tracks(w, i) && 1 <= i.max && InWindow(i, idx)
    ensures var r := Iterate(w, Packet(Wrap(idx), pkt));
            && Tracks(r.0, IdealPop(IdealPush(i, idx, pkt).0).0)
            && r.1 == IdealPop(IdealPush(i, idx, pkt).0).1
  {
    TrackPush(w, i, idx, pkt);
    IdealStepValid(i, PushOp(idx, pkt));
    TrackPop(Push(w, Wrap(idx), pkt).0, IdealPush(i, idx, pkt).0);
  }

  lemma TrackStep(w: Buffer<Seq16>, i: Buffer<int>, target: int, max: int, s0: int, pk: seq<Bytes>, n: nat)
    returns (j: Buffer<int>)
    requires n < |pk| && PreRoll(target) <= 32768
    requires Tracks(w, i) && AtPacket(i, target, max, s0, pk, n)
    ensures Tracks(Iterate(w, Packet(Wrap(s0 + n), pk[n])).0, j) && AtPacket(j, target, max, s0, pk, n + 1)
    ensures Iterate(w, Packet(Wrap(s0 + n), pk[n])).1 == Heard(target, pk, n)
  {
    j := IdealPop(IdealPush(i, s0 + n, pk[n]).0).0;
    SnapshotIterate(i, target, max, s0, pk, n);
    assert 1 <= i.max && InWindow(i, s0 + n);
    TrackIterate(w, i, s0 + n, pk[n]);
  }

  lemma IterateLast(b: Buffer<Seq16>, ps: seq<Packet>, n: nat)
    requires Valid(b) && n < |ps|
    ensures var front := IterateAll(b, ps[..n]);
            IterateAll(b, ps[..n + 1]) == (Iterate(front.0, ps[n]).0, front.1 + [Iterate(front.0, ps[n]).1])
  {
    assert ps[..n + 1][..n] == ps[..n];
  }

  /** r is what the loop has after n packets, and i the unbounded buffer it stands for. */
  ghost predicate OnTrack(r: (Buffer<Seq16>, seq<Option<Bytes>>), i: Buffer<int>, target: int, max: int, s0: int, pk: seq<Bytes>, n: nat)
    requires n <= |pk|
  {
    && Tracks(r.0, i) && AtPacket(i, target, max, s0, pk, n)
    && |r.1| == n && forall j :: 0 <= j < n ==> r.1[j] == Heard(target, pk, j)
  }

  lemma ExtendTrack(r: (Buffer<Seq16>, seq<Option<Bytes>>), i: Buffer<int>, target: int, max: int, s0: int, pk: seq<Bytes>, n: nat)
    returns (j: Buffer<int>)
    requires n < |pk| && PreRoll(target) <= 32768 && OnTrack(r, i, target, max, s0, pk, n)
    ensures var q := Iterate(r.0, Packet(Wrap(s0 + n), pk[n]));
            OnTrack((q.0, r.1 + [q.1]), j, target, max, s0, pk, n + 1)
  {
    j := TrackStep(r.0, i, target, max, s0, pk, n);
  }

  lemma StreamStart(target: int, max: int, s0: Seq16, pk: seq<Bytes>)
    requires PreRoll(target) <= max
    ensures OnTrack(IterateAll(Empty16(target, max), []), EmptyIdeal(target, max), target, max, s0, pk, 0)
  {
    EmptyStart(target, max);
  }

  lemma {:induction false} TrackStream(target: int, max: int, ps: seq<Packet>, s0: Seq16, pk: seq<Bytes>, n: nat)
    returns (i: Buffer<int>)
    requires PreRoll(target) <= max && PreRoll(target) <= 32768
    requires IsStream(ps, s0, pk) && n <= |pk|
    ensures OnTrack(IterateAll(Empty16(target, max), ps[..n]), i, target, max, s0, pk, n)
    decreases n
  {
    if n == 0 {
      StreamStart(target, max, s0, pk);
      i := EmptyIdeal(target, max);
    } else {
      var m := n - 1;
      i := TrackStream(target, max, ps, s0, pk, m);
      assert ps[m] == Packet(Wrap(s0 + m), pk[m]);
      IterateLast(Empty16(target, max), ps, m);
      i := ExtendTrack(IterateAll(Empty16(target, max), ps[..m]), i, target, max, s0, pk, m);
    }
  }

  /** An unbroken stream is played in order, delayed by exactly the pre-roll less
      one packet, and nothing is dropped. */
  lemma LosslessDelivery(target: int, max: int, ps: seq<Packet>, s0: Seq16, pk: seq<Bytes>)
    requires PreRoll(target) <= max && PreRoll(target) <= 32768
    requires IsStream(ps, s0, pk)
    ensures var (b, outs) := IterateAll(Empty16(target, max), ps);
            && (forall j :: 0 <= j < |pk| ==> outs[j] == Heard(target, pk, j))
            && b.stats == Stats(|pk|, PlayedOf(target, |pk|), 0, 0, 0)
  {
    var i := TrackStream(target, max, ps, s0, pk, |pk|);
    assert ps[..|pk|] == ps;
  }

  // ---------------------------------------------------------------- buffers that never play

  lemma {:induction false} NearKeys(frames: map<Seq16, Bytes>, n: Seq16, d: nat)
    requires d <= 32768
    ensures |set s | s in frames && 0 <= SeqDelta(n, s) < d| <= d
    decreases d
  {
    var here := set s | s in frames && 0 <= SeqDelta(n, s) < d;
    if d > 0 {
      NearKeys(frames, n, d - 1);
      var before := set s | s in frames && 0 <= SeqDelta(n, s) < d - 1;
      var p := Plus(n, d - 1);
      forall s | s in here && s !in before ensures s == p {
        DeltaPlus(n, s);
      }
      assert here <= before + {p};
      Cardinality(here, before + {p});
    }
  }

  lemma {:induction false} Cardinality(a: set<Seq16>, b: set<Seq16>)
    requires a <= b
    ensures |a| <= |b|
  {
    assert b == a + (b - a);
    assert |b| == |a| + |b - a|;
  }

  /** Half the sequence space is all a buffer can hold. */
  lemma HalfSpace(b: Buffer<Seq16>)
    requires Valid(b)
    ensures |b.frames| <= 32768
  {
    NearKeys(b.frames, b.nextOut, 32768);
    assert b.frames.Keys == set s | s in b.frames && 0 <= SeqDelta(b.nextOut, s) < 32768;
    assert |b.frames| == |b.frames.Keys|;
  }

  /** A pre-roll beyond the cap, or beyond half the sequence space, never completes. */
  lemma {:induction false} NeverPlays(target: int, max: int, ops: seq<RawOp>)
    requires 1 <= max && (PreRoll(target) > max || PreRoll(target) > 32768)
    ensures var (b, outs) := RawRun(Empty16(target, max), ops);
            !b.primed && Sound(outs) == []
  {
    NeverPlaysFrom(Empty16(target, max), ops);
  }

  lemma {:induction false} NeverPlaysFrom(b: Buffer<Seq16>, ops: seq<RawOp>)
    requires Valid(b) && 1 <= b.max && !b.primed
    requires PreRoll(b.target) > b.max || PreRoll(b.target) > 32768
    ensures !RawRun(b, ops).0.primed && Sound(RawRun(b, ops).1) == []
    decreases |ops|
  {
    if ops != [] {
      HalfSpace(b);
      var (b1, o) := RawStep(b, ops[0]);
      RawStepMax(b, ops[0]);
      if ops[0].RawPush? { PushSize(b, ops[0].s, ops[0].pkt); }
      NeverPlaysFrom(b1, ops[1..]);
      SoundCons(o, RawRun(b1, ops[1..]).1);
    }
  }

  lemma {:induction false} IterationsNeverPlay(target: int, max: int, ps: seq<Packet>)
    requires 1 <= max && (PreRoll(target) > max || PreRoll(target) > 32768)
    ensures var (b, outs) := IterateAll(Empty16(target, max), ps);
            && !b.primed && b.max == max && b.target == target
            && forall j :: 0 <= j < |ps| ==> outs[j].None?
    decreases |ps|
  {
    if ps != [] {
      var front := ps[..|ps| - 1];
      IterationsNeverPlay(target, max, front);
      var b, p := IterateAll(Empty16(target, max), front).0, ps[|ps| - 1];
      PushValid(b, p.seqNo, p.payload);
      PushSize(b, p.seqNo, p.payload);
      HalfSpace(Push(b, p.seqNo, p.payload).0);
      PopSize(Push(b, p.seqNo, p.payload).0);
    }
  }

  /** An unbroken stream at least as long as the pre-roll is ever heard exactly when
      the pre-roll fits both the cap and half the sequence space. */
  lemma StreamIsHeardIff(target: int, max: int, ps: seq<Packet>, s0: Seq16, pk: seq<Bytes>)
    requires 1 <= max && IsStream(ps, s0, pk) && PreRoll(target) <= |pk|
    ensures (exists j :: 0 <= j < |ps| && IterateAll(Empty16(target, max), ps).1[j].Some?)
            <==> PreRoll(target) <= max && PreRoll(target) <= 32768
  {
    if PreRoll(target) <= max && PreRoll(target) <= 32768 {
      LosslessDelivery(target, max, ps, s0, pk);
      var last := |pk| - 1;
      assert IterateAll(Empty16(target, max), ps).1[last] == Heard(target, pk, last);
    } else {
      IterationsNeverPlay(target, max, ps);
    }
  }
}
