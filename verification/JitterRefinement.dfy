/**
 The uint16-keyed jitter buffer against a buffer keyed by unbounded packet
 indices: same decisions step for step, through any number of wraps, as long as
 every packet lies within half the sequence space of the head.
 */
module JitterRefinement {
  import opened ByteStrings
  import opened JitterSpec

  // ---------------------------------------------------------------- the unbounded buffer

  /** The least element. */
  ghost function MinKey(keys: set<int>): (m: int)
    requires keys != {}
    ensures m in keys
    ensures forall k :: k in keys ==> m <= k
  {
    Inhabited(keys);
    var k :| k in keys;
    if keys == {k} then k
    else
      var m := MinKey(keys - {k});
      assert forall j :: j in keys ==> j == k || j in keys - {k};
      if k < m then k else m
  }

  ghost predicate IdealValid(b: Buffer<int>) {
    && 0 <= b.max
    && (forall k <- b.frames :: b.nextOut <= k)
    && |b.frames| <= b.max
    && (!b.hasNext ==> b.frames == map[] && !b.primed)
  }

  ghost function IdealInsert(b: Buffer<int>, idx: int, pkt: Bytes): Buffer<int> {
    b.(frames := b.frames[idx := pkt], nextOut := if b.hasNext then b.nextOut else idx, hasNext := true,
       stats := b.stats.(pushed := b.stats.pushed + 1))
  }

  /** Drops the oldest stored frame and steps over it if it was next. */
  ghost function IdealEvict(b: Buffer<int>): Buffer<int>
    requires b.frames.Keys != {}
  {
    var m := MinKey(b.frames.Keys);
    b.(frames := b.frames - {m},
       nextOut := if m == b.nextOut then b.nextOut + 1 else b.nextOut,
       stats := b.stats.(droppedFull := b.stats.droppedFull + 1))
  }

  predicate IdealLate(b: Buffer<int>, idx: int) {
    b.hasNext && idx < b.nextOut
  }

  ghost function IdealPush(b: Buffer<int>, idx: int, pkt: Bytes): (Buffer<int>, bool)
    requires IdealValid(b)
  {
    if IdealLate(b, idx) then
      (b.(stats := b.stats.(pushed := b.stats.pushed + 1, droppedLate := b.stats.droppedLate + 1)), false)
    else
      var c := IdealInsert(b, idx, pkt);
      (if |c.frames| > c.max then assert idx in c.frames.Keys; IdealEvict(c) else c, true)
  }

  ghost function IdealPop(b: Buffer<int>): (Buffer<int>, Option<Bytes>) {
    if !b.hasNext || (!b.primed && |b.frames| < b.target) then (b, None)
    else
      var c := b.(primed := true, nextOut := b.nextOut + 1);
      if b.nextOut in b.frames then
        (c.(frames := b.frames - {b.nextOut}, stats := b.stats.(popped := b.stats.popped + 1)),
         Some(b.frames[b.nextOut]))
      else
        (c.(stats := b.stats.(gapsFilled := b.stats.gapsFilled + 1)), None)
  }

  // ---------------------------------------------------------------- mirroring

  /** The frame at index k is stored in w, at the same distance from the head. */
  ghost predicate Stored16(w: Buffer<Seq16>, i: Buffer<int>, k: int) {
    && 0 <= k - i.nextOut <= 32767
    && k in i.frames
    && Plus(w.nextOut, k - i.nextOut) in w.frames
    && w.frames[Plus(w.nextOut, k - i.nextOut)] == i.frames[k]
  }

  ghost predicate StoredInt(w: Buffer<Seq16>, i: Buffer<int>, s: Seq16) {
    0 <= SeqDelta(w.nextOut, s) && i.nextOut + SeqDelta(w.nextOut, s) in i.frames
  }

  /** The two buffers hold the same frames at the same distances from their heads. */
  ghost predicate Mirrors(w: Buffer<Seq16>, i: Buffer<int>) {
    && w.target == i.target && w.max == i.max
    && w.hasNext == i.hasNext && w.primed == i.primed && w.stats == i.stats
    && |w.frames| == |i.frames|
    && (forall k {:trigger Stored16(w, i, k)} :: k in i.frames ==> Stored16(w, i, k))
    && (forall s {:trigger StoredInt(w, i, s)} :: s in w.frames ==> StoredInt(w, i, s))
  }

  lemma PlusDelta(n: Seq16, d: int)
    requires 0 <= d <= 32767
    ensures SeqDelta(n, Plus(n, d)) == d
  {
  }

  lemma DeltaPlus(n: Seq16, s: Seq16)
    requires 0 <= SeqDelta(n, s)
    ensures Plus(n, SeqDelta(n, s)) == s
  {
  }

  lemma InsertMirrors(w: Buffer<Seq16>, i: Buffer<int>, s: Seq16, idx: int, pkt: Bytes)
    requires w.hasNext && Mirrors(w, i)
    requires 0 <= SeqDelta(w.nextOut, s) == idx - i.nextOut
    ensures Mirrors(Insert(w, s, pkt), IdealInsert(i, idx, pkt))
  {
    var w', i' := Insert(w, s, pkt), IdealInsert(i, idx, pkt);
    DeltaPlus(w.nextOut, s);
    assert Stored16(w, i, idx) || !Stored16(w, i, idx);
    assert StoredInt(w, i, s) || !StoredInt(w, i, s);
    assert idx in i.frames <==> s in w.frames;
    forall k | k in i'.frames ensures Stored16(w', i', k) {
      if k != idx {
        assert Stored16(w, i, k);
        PlusDelta(w.nextOut, k - i.nextOut);
      }
    }
    forall t | t in w'.frames ensures StoredInt(w', i', t) {
      if t != s { assert StoredInt(w, i, t); }
    }
  }

  /** Deleting the frame at the same distance on both sides. */
  lemma DeleteMirrors(w: Buffer<Seq16>, i: Buffer<int>, s: Seq16, k: int, st: Stats)
    requires Mirrors(w, i) && Stored16(w, i, k) && s == Plus(w.nextOut, k - i.nextOut)
    ensures Mirrors(w.(frames := w.frames - {s}, stats := st), i.(frames := i.frames - {k}, stats := st))
  {
    var w', i' := w.(frames := w.frames - {s}, stats := st), i.(frames := i.frames - {k}, stats := st);
    assert |w'.frames.Keys| == |w.frames.Keys| - 1 by { assert w'.frames.Keys == w.frames.Keys - {s}; }
    assert |i'.frames.Keys| == |i.frames.Keys| - 1 by { assert i'.frames.Keys == i.frames.Keys - {k}; }
    PlusDelta(w.nextOut, k - i.nextOut);
    forall j | j in i'.frames ensures Stored16(w', i', j) {
      assert Stored16(w, i, j);
      PlusDelta(w.nextOut, j - i.nextOut);
    }
    forall t | t in w'.frames ensures StoredInt(w', i', t) {
      assert StoredInt(w, i, t);
      DeltaPlus(w.nextOut, t);
    }
  }

  /** Moving both heads on by one when nothing is stored there. */
  lemma StepMirrors(w: Buffer<Seq16>, i: Buffer<int>)
    requires Mirrors(w, i) && i.nextOut !in i.frames
    ensures Mirrors(w.(nextOut := Succ(w.nextOut)), i.(nextOut := i.nextOut + 1))
  {
    var w', i' := w.(nextOut := Succ(w.nextOut)), i.(nextOut := i.nextOut + 1);
    forall k | k in i'.frames ensures Stored16(w', i', k) {
      assert Stored16(w, i, k);
    }
    forall s | s in w'.frames ensures StoredInt(w', i', s) {
      assert StoredInt(w, i, s);
      SuccDelta(w.nextOut, s);
    }
  }

  lemma OldestIsMin(w: Buffer<Seq16>, i: Buffer<int>)
    requires Mirrors(w, i) && i.frames.Keys != {}
    requires Oldest(w.frames, w.nextOut) in w.frames
    ensures Stored16(w, i, MinKey(i.frames.Keys))
    ensures Oldest(w.frames, w.nextOut) == Plus(w.nextOut, MinKey(i.frames.Keys) - i.nextOut)
    ensures (Oldest(w.frames, w.nextOut) == w.nextOut) == (MinKey(i.frames.Keys) == i.nextOut)
  {
    var o, m := Oldest(w.frames, w.nextOut), MinKey(i.frames.Keys);
    ScanMeaning(w.frames, w.nextOut, 0);
    DeltaPlus(w.nextOut, o);
    assert StoredInt(w, i, o);
    assert Stored16(w, i, m);
    assert m <= i.nextOut + SeqDelta(w.nextOut, o);
    PlusDelta(w.nextOut, m - i.nextOut);
    assert SeqDelta(w.nextOut, Plus(w.nextOut, m - i.nextOut)) == m - i.nextOut;
  }

  lemma EvictMirrors(w: Buffer<Seq16>, i: Buffer<int>)
    requires Mirrors(w, i) && i.frames.Keys != {}
    requires Oldest(w.frames, w.nextOut) in w.frames
    ensures Mirrors(Evict(w), IdealEvict(i))
    ensures Evict(w).nextOut == if IdealEvict(i).nextOut == i.nextOut then w.nextOut else Succ(w.nextOut)
  {
    OldestIsMin(w, i);
    var m := MinKey(i.frames.Keys);
    var st := Evict(w).stats;
    var w1 := w.(frames := w.frames - {Oldest(w.frames, w.nextOut)}, stats := st);
    var i1 := i.(frames := i.frames - {m}, stats := st);
    DeleteMirrors(w, i, Oldest(w.frames, w.nextOut), m, st);
    if m == i.nextOut {
      StepMirrors(w1, i1);
    }
  }

  // ---------------------------------------------------------------- one step

  function Wrap(k: int): Seq16 {
    k % 65536
  }

  /** Within half the sequence space of n. */
  predicate Near(n: int, k: int) {
    n - 32768 <= k <= n + 32767
  }

  /** The window a push must fall in for its sequence number to name its index. */
  predicate InWindow(i: Buffer<int>, idx: int) {
    i.hasNext ==> Near(i.nextOut, idx)
  }

  ghost predicate Refines(w: Buffer<Seq16>, i: Buffer<int>) {
    Mirrors(w, i) && (i.hasNext ==> w.nextOut == Wrap(i.nextOut))
  }

  lemma WrapDelta(n: int, k: int)
    requires Near(n, k)
    ensures SeqDelta(Wrap(n), Wrap(k)) == k - n
  {
  }

  lemma WrapSucc(n: int)
    ensures Wrap(n + 1) == Succ(Wrap(n))
  {
  }

  /** Every sequence number names exactly one index near n. */
  lemma UnwrapNear(n: int, s: Seq16)
    ensures Near(n, n + SeqDelta(Wrap(n), s))
    ensures Wrap(n + SeqDelta(Wrap(n), s)) == s
  {
    var q := n / 65536;
    assert n == 65536 * q + Wrap(n);
    var d := SeqDelta(Wrap(n), s);
    var c := if s - Wrap(n) > 32767 then -1 else if s - Wrap(n) < -32768 then 1 else 0;
    assert n + d == 65536 * (q + c) + s;
  }

  lemma FirstInsertMirrors(w: Buffer<Seq16>, i: Buffer<int>, s: Seq16, idx: int, pkt: Bytes)
    requires Mirrors(w, i) && !w.hasNext && w.frames == map[] && i.frames == map[]
    ensures Mirrors(Insert(w, s, pkt), IdealInsert(i, idx, pkt))
  {
    var w', i' := Insert(w, s, pkt), IdealInsert(i, idx, pkt);
    forall k | k in i'.frames ensures Stored16(w', i', k) {
      assert k == idx;
    }
    forall t | t in w'.frames ensures StoredInt(w', i', t) {
      assert t == s;
    }
  }

  lemma InsertRefines(w: Buffer<Seq16>, i: Buffer<int>, idx: int, pkt: Bytes)
    requires Valid(w) && IdealValid(i) && Refines(w, i) && InWindow(i, idx) && !IdealLate(i, idx)
    ensures !Late(w, Wrap(idx))
    ensures Refines(Insert(w, Wrap(idx), pkt), IdealInsert(i, idx, pkt))
  {
    if i.hasNext {
      WrapDelta(i.nextOut, idx);
      InsertMirrors(w, i, Wrap(idx), idx, pkt);
    } else {
      FirstInsertMirrors(w, i, Wrap(idx), idx, pkt);
    }
  }

  lemma EvictRefines(w: Buffer<Seq16>, i: Buffer<int>)
    requires Refines(w, i) && i.hasNext && i.frames.Keys != {}
    requires Oldest(w.frames, w.nextOut) in w.frames
    ensures Refines(Evict(w), IdealEvict(i))
  {
    EvictMirrors(w, i);
    WrapSucc(i.nextOut);
  }

  /** The one push the two buffers treat differently: an empty buffer that may
      hold nothing gets a frame exactly 0x7fff ahead. */
  predicate EdgePush(i: Buffer<int>, idx: int) {
    i.max == 0 && i.hasNext && idx == i.nextOut + 0x7fff
  }

  lemma TrimOnce(w: Buffer<Seq16>)
    requires 0 <= w.max && Ahead(w.frames, w.nextOut) && |w.frames| == w.max + 1
    requires Oldest(w.frames, w.nextOut) in w.frames
    ensures Trim(w) == Evict(w)
  {
    EvictHit(w);
    EvictAhead(w);
  }

  lemma OverfullRefines(w: Buffer<Seq16>, i: Buffer<int>)
    requires Refines(w, i) && i.hasNext && 0 <= w.max && Ahead(w.frames, w.nextOut)
    requires |w.frames| == w.max + 1
    requires Oldest(w.frames, w.nextOut) in w.frames
    ensures i.frames.Keys != {} && Refines(Trim(w), IdealEvict(i))
  {
    assert |i.frames.Keys| > 0;
    TrimOnce(w);
    EvictRefines(w, i);
  }

  lemma LoneVictim(w: Buffer<Seq16>, k: Seq16)
    requires w.frames.Keys == {k} && SeqDelta(w.nextOut, k) == 0x7ffe
    ensures Oldest(w.frames, w.nextOut) == k
  {
    ScanMeaning(w.frames, w.nextOut, 0);
    assert k in w.frames;
  }

  /** The stray eviction is counted twice. */
  lemma EdgeTrim(w: Buffer<Seq16>)
    requires w.max == 0 && Ahead(w.frames, w.nextOut) && |w.frames| == 1
    requires Oldest(w.frames, w.nextOut) !in w.frames
    ensures Trim(w).stats.droppedFull == w.stats.droppedFull + 2
  {
    EvictMiss(w);
    var e := Evict(w);
    assert e.frames == w.frames;
    EvictAhead(w);
    LoneVictim(e, Plus(w.nextOut, 0x7fff));
    EvictHit(e);
    EvictAhead(e);
    assert Trim(w) == Trim(e) == Trim(Evict(e)) == Evict(e);
  }

  lemma VictimFound(w: Buffer<Seq16>, s: Seq16)
    requires Ahead(w.frames, w.nextOut) && s in w.frames
    ensures Oldest(w.frames, w.nextOut) in w.frames
            <==> (|w.frames| >= 2 || SeqDelta(w.nextOut, s) < 0x7fff)
  {
    ScanMeaning(w.frames, w.nextOut, 0);
    if Oldest(w.frames, w.nextOut) !in w.frames {
      assert |w.frames.Keys| > 0;
      EvictMiss(w);
    } else if |w.frames| < 2 {
      assert w.frames.Keys == {s} by {
        assert |w.frames.Keys - {s}| == 0;
      }
    }
  }

  /** s would be the nearest to the head of all frames, and there is no room for one more. */
  ghost predicate NearestOfTooMany(b: Buffer<Seq16>, s: Seq16) {
    && s !in b.frames && |b.frames| == b.max
    && forall t <- b.frames :: SeqDelta(b.nextOut, s) < SeqDelta(b.nextOut, t)
  }

  /** With something else to evict, the new frame goes exactly if it is the nearest. */
  lemma VictimIsNew(b: Buffer<Seq16>, s: Seq16, c: Buffer<Seq16>)
    requires Ahead(c.frames, c.nextOut) && c.nextOut == b.nextOut && c.frames.Keys == b.frames.Keys + {s}
    requires s !in b.frames && Oldest(c.frames, c.nextOut) in c.frames
    ensures Oldest(c.frames, c.nextOut) == s <==> forall t <- b.frames :: SeqDelta(b.nextOut, s) < SeqDelta(b.nextOut, t)
  {
    ScanMeaning(c.frames, c.nextOut, 0);
    var o := Oldest(c.frames, c.nextOut);
    if o == s {
      forall t <- b.frames ensures SeqDelta(b.nextOut, s) < SeqDelta(b.nextOut, t) {
        assert t in c.frames && t != s;
        DeltaPlus(b.nextOut, s);
        DeltaPlus(b.nextOut, t);
      }
    } else {
      assert o in b.frames && s in c.frames;
    }
  }

  /** A push that reports true has stored the frame, unless the buffer was full of frames
      further ahead: then the frame itself is evicted, and the result is still true. */
  lemma PushLosesIff(b: Buffer<Seq16>, s: Seq16, pkt: Bytes)
    requires Valid(b)
    ensures Push(b, s, pkt).1 <==> !Late(b, s)
    ensures Push(b, s, pkt).1 && s !in Push(b, s, pkt).0.frames <==> !Late(b, s) && NearestOfTooMany(b, s)
  {
    if !Late(b, s) {
      var c := Insert(b, s, pkt);
      InsertAhead(b, s, pkt);
      assert c.frames.Keys == b.frames.Keys + {s};
      assert |c.frames.Keys| == |b.frames.Keys| + if s in b.frames then 0 else 1;
      if |c.frames| > b.max {
        if b.max == 0 {
          TrimValid(c);
          TrimMax(c);
          assert |Trim(c).frames.Keys| == 0;
        } else {
          VictimFound(c, s);
          TrimOnce(c);
          EvictAhead(c);
          VictimIsNew(b, s, c);
        }
      }
    }
  }

  /** A push within the window is decided alike by both buffers, except for `EdgePush`. */
  lemma PushRefines(w: Buffer<Seq16>, i: Buffer<int>, idx: int, pkt: Bytes)
    requires Valid(w) && IdealValid(i) && Refines(w, i) && InWindow(i, idx)
    ensures Push(w, Wrap(idx), pkt).1 == IdealPush(i, idx, pkt).1
    ensures Refines(Push(w, Wrap(idx), pkt).0, IdealPush(i, idx, pkt).0) <==> !EdgePush(i, idx)
  {
    var s := Wrap(idx);
    if i.hasNext { WrapDelta(i.nextOut, idx); }
    if IdealLate(i, idx) {
      LateRefines(w, i, idx, pkt);
    } else {
      InsertRefines(w, i, idx, pkt);
      var w', i' := Insert(w, s, pkt), IdealInsert(i, idx, pkt);
      InsertAhead(w, s, pkt);
      assert |w'.frames| <= w.max + 1;
      VictimFound(w', s);
      WrapDelta(i'.nextOut, idx);
      if |w'.frames| > w.max {
        if Oldest(w'.frames, w'.nextOut) in w'.frames {
          OverfullRefines(w', i');
        } else {
          EdgeTrim(w');
        }
      }
    }
  }

  /** Counters and flags do not matter to the frames. */
  lemma Relabel(w: Buffer<Seq16>, i: Buffer<int>, primed: bool, st: Stats)
    requires Mirrors(w, i)
    ensures Mirrors(w.(primed := primed, stats := st), i.(primed := primed, stats := st))
  {
    var w', i' := w.(primed := primed, stats := st), i.(primed := primed, stats := st);
    forall k | k in i'.frames ensures Stored16(w', i', k) {
      assert Stored16(w, i, k);
    }
    forall t | t in w'.frames ensures StoredInt(w', i', t) {
      assert StoredInt(w, i, t);
    }
  }

  lemma LateRefines(w: Buffer<Seq16>, i: Buffer<int>, idx: int, pkt: Bytes)
    requires Valid(w) && IdealValid(i) && Refines(w, i) && InWindow(i, idx) && IdealLate(i, idx)
    ensures Late(w, Wrap(idx))
    ensures Refines(Push(w, Wrap(idx), pkt).0, IdealPush(i, idx, pkt).0)
  {
    WrapDelta(i.nextOut, idx);
    Relabel(w, i, w.primed, Push(w, Wrap(idx), pkt).0.stats);
  }

  lemma HeadMirrors(w: Buffer<Seq16>, i: Buffer<int>)
    requires Mirrors(w, i)
    ensures i.nextOut in i.frames <==> w.nextOut in w.frames
    ensures i.nextOut in i.frames ==> Stored16(w, i, i.nextOut)
  {
    assert Stored16(w, i, i.nextOut) || !Stored16(w, i, i.nextOut);
    assert StoredInt(w, i, w.nextOut) || !StoredInt(w, i, w.nextOut);
  }

  lemma PopHitMirrors(w: Buffer<Seq16>, i: Buffer<int>, st: Stats)
    requires Mirrors(w, i) && Stored16(w, i, i.nextOut)
    ensures Mirrors(w.(frames := w.frames - {w.nextOut}, nextOut := Succ(w.nextOut), stats := st),
                    i.(frames := i.frames - {i.nextOut}, nextOut := i.nextOut + 1, stats := st))
  {
    DeleteMirrors(w, i, w.nextOut, i.nextOut, st);
    StepMirrors(w.(frames := w.frames - {w.nextOut}, stats := st), i.(frames := i.frames - {i.nextOut}, stats := st));
  }

  lemma PopMissMirrors(w: Buffer<Seq16>, i: Buffer<int>, st: Stats)
    requires Mirrors(w, i) && i.nextOut !in i.frames
    ensures Mirrors(w.(nextOut := Succ(w.nextOut), stats := st), i.(nextOut := i.nextOut + 1, stats := st))
  {
    Relabel(w, i, w.primed, st);
    StepMirrors(w.(stats := st), i.(stats := st));
  }

  lemma PopRefines(w: Buffer<Seq16>, i: Buffer<int>)
    requires Valid(w) && IdealValid(i) && Refines(w, i)
    ensures JitterSpec.Pop(w).1 == IdealPop(i).1
    ensures Refines(JitterSpec.Pop(w).0, IdealPop(i).0)
  {
    if w.hasNext && (w.primed || |w.frames| >= w.target) {
      PopPlays(w, i);
    }
  }

  lemma PopPlays(w: Buffer<Seq16>, i: Buffer<int>)
    requires Valid(w) && IdealValid(i) && Refines(w, i) && w.hasNext && (w.primed || |w.frames| >= w.target)
    ensures JitterSpec.Pop(w).1 == IdealPop(i).1
    ensures Refines(JitterSpec.Pop(w).0, IdealPop(i).0)
  {
    var w1, i1 := w.(primed := true), i.(primed := true);
    var w2, i2 := JitterSpec.Pop(w).0, IdealPop(i).0;
    Relabel(w, i, true, w.stats);
    HeadMirrors(w1, i1);
    WrapSucc(i.nextOut);
    if i.nextOut in i.frames {
      PopHitMirrors(w1, i1, w2.stats);
      assert w2 == w1.(frames := w1.frames - {w1.nextOut}, nextOut := Succ(w1.nextOut), stats := w2.stats);
      assert i2 == i1.(frames := i1.frames - {i1.nextOut}, nextOut := i1.nextOut + 1, stats := w2.stats);
      assert Mirrors(w2, i2);
    } else {
      PopMissMirrors(w1, i1, w2.stats);
      assert w2 == w1.(nextOut := Succ(w1.nextOut), stats := w2.stats);
      assert i2 == i1.(nextOut := i1.nextOut + 1, stats := w2.stats);
      assert Mirrors(w2, i2);
    }
  }
}
