/** `internal/audio/jitter.go` in its own form, proved against `JitterSpec`. */
module JitterBuffers {
  import opened ByteStrings
  import opened JitterSpec

  const FRAME_MS := 20

  /** Go's integer division, which truncates toward zero. */
  function TruncDiv(a: int, b: int): (q: int)
    requires b > 0
    ensures 0 <= a ==> b * q <= a < b * q + b
    ensures a < 0 ==> b * q - b < a <= b * q
  {
    if a >= 0 then a / b else -((-a) / b)
  }

  class JitterBuffer {
    const targetFrames: int
    const maxFrames: int
    var frames: map<Seq16, Bytes>
    var nextOut: Seq16
    var hasNext: bool
    var primed: bool
    var stats: Stats

    ghost function View(): Buffer<Seq16>
      reads this
    {
      Buffer(targetFrames, maxFrames, frames, nextOut, hasNext, primed, stats)
    }

    ghost predicate Inv()
      reads this
    {
      Valid(View())
    }

    // With maxMs <= -20 the cap is negative and Push never returns (JitterSpec.CapLoopEndsIff).
    constructor (targetMs: int, maxMs: int)
      requires -FRAME_MS < maxMs
      ensures Inv()
      ensures View() == Buffer(TruncDiv(targetMs, 20), TruncDiv(maxMs, 20), map[], 0, false, false, ZERO_STATS)
    {
      targetFrames := TruncDiv(targetMs, FRAME_MS);
      maxFrames := TruncDiv(maxMs, FRAME_MS);
      frames := map[];
      nextOut := 0;
      hasNext := false;
      primed := false;
      stats := ZERO_STATS;
    }

    /** The scan for the eviction victim; the map is visited in any order. */
    method FindOldest() returns (oldest: Seq16)
      ensures oldest == Oldest(frames, nextOut)
    {
      oldest := nextOut;
      var oldestDelta := 0x7fff;
      var rest := frames.Keys;
      while rest != {}
        invariant rest <= frames.Keys
        invariant oldestDelta <= 0x7fff
        invariant oldestDelta < 0x7fff ==> oldest in frames && SeqDelta(nextOut, oldest) == oldestDelta >= 0
        invariant oldestDelta == 0x7fff ==> oldest == nextOut
        invariant forall s <- frames.Keys - rest :: 0 <= SeqDelta(nextOut, s) < 0x7fff ==> oldestDelta <= SeqDelta(nextOut, s)
        decreases rest
      {
        var s :| s in rest;
        rest := rest - {s};
        var d := SeqDelta(nextOut, s);
        if d >= 0 && d < oldestDelta {
          oldest, oldestDelta := s, d;
        }
      }
      ScanMeaning(frames, nextOut, 0);
      OldestUnique(frames, nextOut, oldest);
    }

    /** One iteration of the cap loop. */
    method EvictOldest()
      modifies this
      ensures View() == Evict(old(View()))
    {
      var oldest := FindOldest();
      frames := frames - {oldest};
      stats := stats.(droppedFull := stats.droppedFull + 1);
      if oldest == nextOut {
        nextOut := Succ(nextOut);
      }
    }

    /** The cap loop. */
    method EnforceCap()
      requires 0 <= maxFrames && Ahead(frames, nextOut)
      modifies this
      ensures View() == Trim(old(View()))
    {
      while |frames| > maxFrames
        invariant Ahead(frames, nextOut)
        invariant Trim(View()) == Trim(old(View()))
        decreases TrimRank(View())
      {
        EvictProgress(View());
        EvictAhead(View());
        EvictOldest();
      }
    }

    method Push(seqNo: Seq16, pkt: Bytes) returns (ok: bool)
      requires Inv()
      modifies this
      ensures Inv()
      ensures (View(), ok) == JitterSpec.Push(old(View()), seqNo, pkt)
    {
      ghost var before := View();
      PushValid(before, seqNo, pkt);
      stats := stats.(pushed := stats.pushed + 1);
      if !hasNext {
        nextOut := seqNo;
        hasNext := true;
      } else if SeqDelta(nextOut, seqNo) < 0 {
        stats := stats.(droppedLate := stats.droppedLate + 1);
        assert Late(before, seqNo);
        return false;
      }
      frames := frames[seqNo := pkt];
      assert !Late(before, seqNo);
      InsertAhead(before, seqNo, pkt);
      assert View() == Insert(before, seqNo, pkt);
      EnforceCap();
      return true;
    }

    method Pop() returns (pkt: Option<Bytes>)
      requires Inv()
      modifies this
      ensures Inv()
      ensures (View(), pkt) == JitterSpec.Pop(old(View()))
    {
      PopValid(View());
      if !hasNext {
        return None;
      }
      if !primed {
        if |frames| < targetFrames {
          return None;
        }
        primed := true;
      }
      if nextOut in frames {
        pkt := Some(frames[nextOut]);
        frames := frames - {nextOut};
        nextOut := Succ(nextOut);
        stats := stats.(popped := stats.popped + 1);
        return;
      }
      nextOut := Succ(nextOut);
      stats := stats.(gapsFilled := stats.gapsFilled + 1);
      return None;
    }
  }
}
