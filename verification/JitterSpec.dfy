/**
 The jitter buffer as values: the uint16-keyed buffer of the source and the
 unbounded-integer buffer it stands for.  `JitterBuffer` proves the imperative
 code against the uint16 functions; `JitterRefinement` relates the two.
 */
module JitterSpec {
  import opened ByteStrings

  /** RTP sequence numbers (section 5.1 of RFC 3550). */
  type Seq16 = x: int | 0 <= x < 65536

  datatype Stats = Stats(pushed: nat, popped: nat, droppedLate: nat, droppedFull: nat, gapsFilled: nat)

  const ZERO_STATS := Stats(0, 0, 0, 0, 0)

  /** Keys are `Seq16` in the source's buffer and `int` in the unbounded one. */
  datatype Buffer<K> = Buffer(target: int, max: int, frames: map<K, Bytes>, nextOut: K,
                              hasNext: bool, primed: bool, stats: Stats)

  /** uint16 addition of d in [0, 65535]. */
  function Plus(a: Seq16, d: int): Seq16
    requires 0 <= d < 65536
  {
    if a + d < 65536 then a + d else a + d - 65536
  }

  function Succ(s: Seq16): Seq16 {
    Plus(s, 1)
  }

  /** int16(b - a): the distance from a to b that fits a signed 16-bit number. */
  function SeqDelta(a: Seq16, b: Seq16): (d: int)
    ensures -32768 <= d <= 32767
  {
    var d := b - a;
    if d > 32767 then d - 65536 else if d < -32768 then d + 65536 else d
  }

  /** Every stored frame lies at or after the next frame to play. */
  ghost predicate Ahead(frames: map<Seq16, Bytes>, n: Seq16) {
    forall s <- frames :: 0 <= SeqDelta(n, s)
  }

  ghost predicate Valid(b: Buffer<Seq16>) {
    && 0 <= b.max
    && Ahead(b.frames, b.nextOut)
    && |b.frames| <= b.max
    && (!b.hasNext ==> b.frames == map[] && !b.primed)
  }

  // ---------------------------------------------------------------- uint16 buffer

  /** The eviction victim: the stored key of least distance in [d, 0x7fff), else n. */
  ghost function Scan(frames: map<Seq16, Bytes>, n: Seq16, d: nat): (o: Seq16)
    requires d <= 0x7fff
    decreases 0x7fff - d
  {
    if d == 0x7fff then n
    else if Plus(n, d) in frames then Plus(n, d)
    else Scan(frames, n, d + 1)
  }

  ghost function Oldest(frames: map<Seq16, Bytes>, n: Seq16): Seq16 {
    Scan(frames, n, 0)
  }

  ghost function Evict(b: Buffer<Seq16>): Buffer<Seq16> {
    var o := Oldest(b.frames, b.nextOut);
    b.(frames := b.frames - {o},
       nextOut := if o == b.nextOut then Succ(b.nextOut) else b.nextOut,
       stats := b.stats.(droppedFull := b.stats.droppedFull + 1))
  }

  /** Decreases at every eviction, also at the one that removes nothing. */
  ghost function TrimRank(b: Buffer<Seq16>): nat {
    2 * |b.frames| + if Plus(b.nextOut, 0x7fff) in b.frames then 1 else 0
  }

  lemma ScanMeaning(frames: map<Seq16, Bytes>, n: Seq16, d: nat)
    requires d <= 0x7fff
    requires forall s <- frames :: !(0 <= SeqDelta(n, s) < d)
    ensures var o := Scan(frames, n, d);
            && ((o in frames && 0 <= SeqDelta(n, o) < 0x7fff)
                || (o == n && forall s <- frames :: !(0 <= SeqDelta(n, s) < 0x7fff)))
            && forall s <- frames :: 0 <= SeqDelta(n, s) < 0x7fff ==> SeqDelta(n, o) <= SeqDelta(n, s)
    decreases 0x7fff - d
  {
    if d < 0x7fff {
      if Plus(n, d) in frames {
        assert SeqDelta(n, Plus(n, d)) == d;
      } else {
        var p := Plus(n, d);
        forall s <- frames ensures !(0 <= SeqDelta(n, s) < d + 1) {
          assert s != p;
        }
        ScanMeaning(frames, n, d + 1);
      }
    }
  }

  /** The scan's answer does not depend on the order in which keys are visited. */
  lemma OldestUnique(frames: map<Seq16, Bytes>, n: Seq16, o: Seq16)
    requires (o in frames && 0 <= SeqDelta(n, o) < 0x7fff)
             || (o == n && forall s <- frames :: !(0 <= SeqDelta(n, s) < 0x7fff))
    requires forall s <- frames :: 0 <= SeqDelta(n, s) < 0x7fff ==> SeqDelta(n, o) <= SeqDelta(n, s)
    ensures o == Oldest(frames, n)
  {
    ScanMeaning(frames, n, 0);
    var p := Oldest(frames, n);
    assert o in frames && p in frames ==> SeqDelta(n, o) == SeqDelta(n, p);
  }

  /** Moving the head by one brings every other frame one step closer. */
  lemma SuccDelta(n: Seq16, s: Seq16)
    requires 0 <= SeqDelta(n, s) && s != n
    ensures SeqDelta(Succ(n), s) == SeqDelta(n, s) - 1
  {
  }

  lemma EvictAhead(b: Buffer<Seq16>)
    requires Ahead(b.frames, b.nextOut)
    ensures Ahead(Evict(b).frames, Evict(b).nextOut)
    ensures Evict(b).frames.Keys == b.frames.Keys - {Oldest(b.frames, b.nextOut)}
  {
    var n, o := b.nextOut, Oldest(b.frames, b.nextOut);
    forall s <- Evict(b).frames ensures 0 <= SeqDelta(Evict(b).nextOut, s) {
      assert s in b.frames && s != o;
      if o == n { SuccDelta(n, s); }
    }
  }

  /** An eviction that finds no victim happens only for a lone frame at distance 0x7fff. */
  lemma EvictMiss(b: Buffer<Seq16>)
    requires Ahead(b.frames, b.nextOut) && |b.frames| > 0
    requires Oldest(b.frames, b.nextOut) !in b.frames
    ensures b.frames.Keys == {Plus(b.nextOut, 0x7fff)} && |b.frames| == 1
    ensures Oldest(b.frames, b.nextOut) == b.nextOut
    ensures Plus(Succ(b.nextOut), 0x7fff) != Plus(b.nextOut, 0x7fff)
  {
    var edge := Plus(b.nextOut, 0x7fff);
    ScanMeaning(b.frames, b.nextOut, 0);
    forall s <- b.frames ensures s == edge {
      assert SeqDelta(b.nextOut, s) == 0x7fff;
    }
    var s :| s in b.frames;
    assert b.frames.Keys == {edge};
    assert |b.frames| == |b.frames.Keys|;
  }

  lemma EvictHit(b: Buffer<Seq16>)
    requires Ahead(b.frames, b.nextOut)
    requires Oldest(b.frames, b.nextOut) in b.frames
    ensures |Evict(b).frames| == |b.frames| - 1
  {
    EvictAhead(b);
    assert |Evict(b).frames| == |Evict(b).frames.Keys|;
    assert |b.frames| == |b.frames.Keys|;
  }

  lemma EvictProgress(b: Buffer<Seq16>)
    requires Ahead(b.frames, b.nextOut) && |b.frames| > 0
    ensures TrimRank(Evict(b)) < TrimRank(b)
    ensures |b.frames| >= 2 ==> Oldest(b.frames, b.nextOut) in b.frames
  {
    EvictAhead(b);
    if Oldest(b.frames, b.nextOut) in b.frames {
      EvictHit(b);
    } else {
      EvictMiss(b);
      assert Evict(b).frames == b.frames;
    }
  }

  ghost function Trim(b: Buffer<Seq16>): Buffer<Seq16>
    requires 0 <= b.max && Ahead(b.frames, b.nextOut)
    decreases TrimRank(b)
  {
    if |b.frames| <= b.max then b
    else
      EvictProgress(b);
      EvictAhead(b);
      Trim(Evict(b))
  }

  // ---------------------------------------------------------------- when the cap loop ends

  /** The cap loop ends within n turns. */
  ghost predicate EndsWithin(b: Buffer<Seq16>, n: nat)
    decreases n
  {
    |b.frames| <= b.max || (n > 0 && EndsWithin(Evict(b), n - 1))
  }

  ghost predicate Ends(b: Buffer<Seq16>) {
    exists n: nat :: EndsWithin(b, n)
  }

  lemma {:induction false} NegativeCap(b: Buffer<Seq16>, n: nat)
    requires b.max < 0
    ensures !EndsWithin(b, n)
    decreases n
  {
    if n > 0 {
      NegativeCap(Evict(b), n - 1);
    }
  }

  lemma {:induction false} RankSuffices(b: Buffer<Seq16>, n: nat)
    requires 0 <= b.max && Ahead(b.frames, b.nextOut) && TrimRank(b) <= n
    ensures EndsWithin(b, n)
    decreases n
  {
    if |b.frames| > b.max {
      EvictProgress(b);
      EvictAhead(b);
      RankSuffices(Evict(b), n - 1);
    }
  }

  /** The loop ends at all exactly if the cap is not negative. */
  lemma CapLoopEndsIff(b: Buffer<Seq16>)
    requires Ahead(b.frames, b.nextOut)
    ensures Ends(b) <==> 0 <= b.max
  {
    if 0 <= b.max {
      RankSuffices(b, TrimRank(b));
      assert EndsWithin(b, TrimRank(b));
    } else {
      forall n: nat ensures !EndsWithin(b, n) {
        NegativeCap(b, n);
      }
    }
  }

  ghost function Insert(b: Buffer<Seq16>, s: Seq16, pkt: Bytes): Buffer<Seq16> {
    b.(frames := b.frames[s := pkt], nextOut := if b.hasNext then b.nextOut else s, hasNext := true,
       stats := b.stats.(pushed := b.stats.pushed + 1))
  }

  predicate Late(b: Buffer<Seq16>, s: Seq16) {
    b.hasNext && SeqDelta(b.nextOut, s) < 0
  }

  ghost function Push(b: Buffer<Seq16>, s: Seq16, pkt: Bytes): (r: (Buffer<Seq16>, bool))
    requires Valid(b)
  {
    if Late(b, s) then
      (b.(stats := b.stats.(pushed := b.stats.pushed + 1, droppedLate := b.stats.droppedLate + 1)), false)
    else
      (Trim(Insert(b, s, pkt)), true)
  }

  ghost function Pop(b: Buffer<Seq16>): (Buffer<Seq16>, Option<Bytes>) {
    if !b.hasNext || (!b.primed && |b.frames| < b.target) then (b, None)
    else
      var c := b.(primed := true, nextOut := Succ(b.nextOut));
      if b.nextOut in b.frames then
        (c.(frames := b.frames - {b.nextOut}, stats := b.stats.(popped := b.stats.popped + 1)),
         Some(b.frames[b.nextOut]))
      else
        (c.(stats := b.stats.(gapsFilled := b.stats.gapsFilled + 1)), None)
  }

  lemma TrimValid(b: Buffer<Seq16>)
    requires 0 <= b.max && Ahead(b.frames, b.nextOut) && b.hasNext
    ensures Valid(Trim(b))
    decreases TrimRank(b)
  {
    if |b.frames| > b.max {
      EvictProgress(b);
      EvictAhead(b);
      TrimValid(Evict(b));
    }
  }

  lemma {:induction false} TrimMax(b: Buffer<Seq16>)
    requires 0 <= b.max && Ahead(b.frames, b.nextOut)
    ensures Trim(b).max == b.max && Trim(b).target == b.target
    decreases TrimRank(b)
  {
    if |b.frames| > b.max {
      EvictProgress(b);
      EvictAhead(b);
      TrimMax(Evict(b));
    }
  }

  lemma InsertAhead(b: Buffer<Seq16>, s: Seq16, pkt: Bytes)
    requires Valid(b) && !Late(b, s)
    ensures Ahead(Insert(b, s, pkt).frames, Insert(b, s, pkt).nextOut)
  {
  }

  lemma PushValid(b: Buffer<Seq16>, s: Seq16, pkt: Bytes)
    requires Valid(b)
    ensures Valid(Push(b, s, pkt).0)
  {
    if !Late(b, s) {
      TrimValid(Insert(b, s, pkt));
    }
  }

  lemma PopValid(b: Buffer<Seq16>)
    requires Valid(b)
    ensures Valid(Pop(b).0)
  {
    var c := Pop(b).0;
    assert c.frames.Keys <= b.frames.Keys;
    assert c.nextOut in b.frames ==> c.frames.Keys == b.frames.Keys - {b.nextOut} || c.frames == b.frames;
    if b.nextOut in b.frames && c != b {
      assert c.frames.Keys == b.frames.Keys - {b.nextOut};
    }
    forall s <- c.frames ensures 0 <= SeqDelta(c.nextOut, s) {
      assert 0 <= SeqDelta(b.nextOut, s);
      if c != b { assert s != b.nextOut; }
    }
  }
}
