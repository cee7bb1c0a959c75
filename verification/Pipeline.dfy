/** `internal/audio/pipeline.go`: the receive loop and the playback callback. */
module Pipelines {
  import opened ByteStrings
  import opened JitterSpec
  import opened JitterBuffers
  import opened DropOldest
  import opened PipelineSpec

  const FRAME_SIZE := 960
  const PULL_CAP := 4

  type Pcm = seq<int>

  /** The decoder is an arbitrary function of everything it was fed; None is a decode error. */
  type Decoder = seq<Option<Bytes>> -> Option<Pcm>

  const SILENCE: Pcm := seq(FRAME_SIZE, _ => 0)

  /** The datagrams that parse as RTP packets. */
  function Parsed(dgs: seq<Option<Packet>>): seq<Packet>
    decreases |dgs|
  {
    if dgs == [] then []
    else Parsed(dgs[..|dgs| - 1]) + if dgs[|dgs| - 1].Some? then [dgs[|dgs| - 1].value] else []
  }

  function Enqueue(q: seq<Pcm>, decoded: Option<Pcm>): seq<Pcm> {
    if decoded.None? then q else Put(PULL_CAP, q, decoded.value)
  }

  /** The playback queue after decoding `outs` on top of the history `fed`. */
  function PlayQueue(decode: Decoder, fed: seq<Option<Bytes>>, q: seq<Pcm>, outs: seq<Option<Bytes>>): seq<Pcm>
    decreases |outs|
  {
    if outs == [] then q
    else Enqueue(PlayQueue(decode, fed, q, outs[..|outs| - 1]), decode(fed + outs))
  }

  /** The frames that decoding `outs` on top of the history `fed` yields, in order. */
  function Decoded(decode: Decoder, fed: seq<Option<Bytes>>, outs: seq<Option<Bytes>>): seq<Pcm>
    decreases |outs|
  {
    if outs == [] then []
    else
      Decoded(decode, fed, outs[..|outs| - 1])
      + match decode(fed + outs)
        case Some(f) => [f]
        case None => []
  }

  /** The last four, or all there are. */
  function LastFour(s: seq<Pcm>): seq<Pcm> {
    if |s| <= 4 then s else s[|s| - 4..]
  }

  lemma EnqueueMeans(all: seq<Pcm>, d: Option<Pcm>)
    ensures Enqueue(LastFour(all), d) == LastFour(all + match d case Some(f) => [f] case None => [])
  {
    if d.None? {
      assert all + [] == all;
    }
  }

  /** Of all that was queued and decoded, the playback queue keeps the newest four. */
  lemma {:induction false} NewestFour(decode: Decoder, fed: seq<Option<Bytes>>, q: seq<Pcm>, outs: seq<Option<Bytes>>)
    requires |q| <= 4
    ensures PlayQueue(decode, fed, q, outs) == LastFour(q + Decoded(decode, fed, outs))
    decreases |outs|
  {
    if outs == [] {
      assert q + [] == q;
    } else {
      var front, d := outs[..|outs| - 1], decode(fed + outs);
      NewestFour(decode, fed, q, front);
      EnqueueMeans(q + Decoded(decode, fed, front), d);
      Regroup(q, Decoded(decode, fed, front), match d case Some(f) => [f] case None => []);
    }
  }

  lemma Regroup(a: seq<Pcm>, b: seq<Pcm>, c: seq<Pcm>)
    ensures (a + b) + c == a + (b + c)
  {
  }

  /** The receive side of a pipeline as a value. */
  datatype Rx = Rx(buffer: Buffer<Seq16>, fed: seq<Option<Bytes>>, queue: seq<Pcm>)

  ghost function RxStep(rx: Rx, decode: Decoder, dg: Option<Packet>): (r: Rx)
    requires Valid(rx.buffer)
    ensures Valid(r.buffer)
  {
    if dg.None? then rx
    else
      var (b, out) := Iterate(rx.buffer, dg.value);
      Rx(b, rx.fed + [out], Enqueue(rx.queue, decode(rx.fed + [out])))
  }

  ghost function RxAll(rx: Rx, decode: Decoder, dgs: seq<Option<Packet>>): (r: Rx)
    requires Valid(rx.buffer)
    ensures Valid(r.buffer)
    decreases |dgs|
  {
    if dgs == [] then rx
    else RxStep(RxAll(rx, decode, dgs[..|dgs| - 1]), decode, dgs[|dgs| - 1])
  }

  lemma RxAllMore(rx: Rx, decode: Decoder, dgs: seq<Option<Packet>>, i: nat)
    requires Valid(rx.buffer) && i < |dgs|
    ensures RxAll(rx, decode, dgs[..i + 1]) == RxStep(RxAll(rx, decode, dgs[..i]), decode, dgs[i])
  {
    assert dgs[..i + 1][..i] == dgs[..i];
  }

  lemma IterateSnoc(b: Buffer<Seq16>, ps: seq<Packet>, p: Packet)
    requires Valid(b)
    ensures var front := IterateAll(b, ps);
            IterateAll(b, ps + [p]) == (Iterate(front.0, p).0, front.1 + [Iterate(front.0, p).1])
  {
    assert (ps + [p])[..|ps|] == ps;
  }

  /** r is what the loop makes of rx when the jitter loop yields f. */
  ghost predicate Matches(r: Rx, rx: Rx, decode: Decoder, f: (Buffer<Seq16>, seq<Option<Bytes>>)) {
    && r.buffer == f.0
    && r.fed == rx.fed + f.1
    && r.queue == PlayQueue(decode, rx.fed, rx.queue, f.1)
  }

  lemma MatchStep(r: Rx, rx: Rx, decode: Decoder, f: (Buffer<Seq16>, seq<Option<Bytes>>), p: Packet)
    requires Valid(r.buffer) && Matches(r, rx, decode, f)
    ensures Matches(RxStep(r, decode, Some(p)), rx, decode, (Iterate(f.0, p).0, f.1 + [Iterate(f.0, p).1]))
  {
    PlayQueueSnoc(decode, rx.fed, rx.queue, f.1, Iterate(f.0, p).1);
  }

  lemma MatchStart(rx: Rx, decode: Decoder)
    ensures Matches(rx, rx, decode, (rx.buffer, []))
  {
    assert rx.fed + [] == rx.fed;
  }

  /** The receive loop is the jitter loop over the packets that parse, decoded into
      the playback queue; datagrams that do not parse change nothing. */
  lemma {:induction false} RxIsIterate(rx: Rx, decode: Decoder, dgs: seq<Option<Packet>>)
    requires Valid(rx.buffer)
    ensures Matches(RxAll(rx, decode, dgs), rx, decode, IterateAll(rx.buffer, Parsed(dgs)))
    decreases |dgs|
  {
    var r := RxAll(rx, decode, dgs);
    var f := IterateAll(rx.buffer, Parsed(dgs));
    if dgs == [] {
      MatchStart(rx, decode);
      assert r == rx && f == (rx.buffer, []);
    } else {
      var n := |dgs| - 1;
      RxIsIterate(rx, decode, dgs[..n]);
      var r0 := RxAll(rx, decode, dgs[..n]);
      var f0 := IterateAll(rx.buffer, Parsed(dgs[..n]));
      if dgs[n].None? {
        assert Parsed(dgs) == Parsed(dgs[..n]) + [] == Parsed(dgs[..n]);
      } else {
        IterateSnoc(rx.buffer, Parsed(dgs[..n]), dgs[n].value);
        MatchStep(r0, rx, decode, f0, dgs[n].value);
        assert r == RxStep(r0, decode, Some(dgs[n].value));
      }
    }
  }

  lemma PlayQueueSnoc(decode: Decoder, fed: seq<Option<Bytes>>, q: seq<Pcm>, outs: seq<Option<Bytes>>, out: Option<Bytes>)
    ensures PlayQueue(decode, fed, q, outs + [out])
            == Enqueue(PlayQueue(decode, fed, q, outs), decode(fed + outs + [out]))
  {
    assert (outs + [out])[..|outs|] == outs;
    assert fed + (outs + [out]) == fed + outs + [out];
  }

  class Pipeline {
    const jb: JitterBuffer
    const decode: Decoder
    var fed: seq<Option<Bytes>>
    var pullQ: seq<Pcm>
    var rxDropped: nat

    ghost predicate Inv()
      reads this, jb
    {
      jb.Inv() && |pullQ| <= PULL_CAP
    }

    constructor (targetMs: int, maxMs: int, decode: Decoder)
      requires -FRAME_MS < maxMs
      ensures Inv() && fresh(jb) && this.decode == decode
      ensures fed == [] && pullQ == [] && rxDropped == 0
      ensures jb.targetFrames == TruncDiv(if targetMs == 0 then 60 else targetMs, 20)
      ensures jb.maxFrames == TruncDiv(if maxMs == 0 then 200 else maxMs, 20)
      ensures jb.View().frames == map[] && !jb.View().hasNext && jb.View().stats == ZERO_STATS
    {
      jb := new JitterBuffer(if targetMs == 0 then 60 else targetMs, if maxMs == 0 then 200 else maxMs);
      this.decode := decode;
      fed := [];
      pullQ := [];
      rxDropped := 0;
    }

    ghost function View(): Rx
      reads this, jb
    {
      Rx(jb.View(), fed, pullQ)
    }

    /** One iteration of recvLoop; None is a datagram that is not an RTP packet. */
    method RecvOne(dg: Option<Packet>)
      requires Inv()
      modifies this, jb
      ensures Inv()
      ensures View() == RxStep(old(View()), decode, dg)
      ensures rxDropped == old(rxDropped) + if dg.None? || decode(fed).None? then 1 else 0
      ensures dg.Some? && decode(fed).Some? ==> pullQ == LastFour(old(pullQ) + [decode(fed).value])
      ensures dg.None? || decode(fed).None? ==> pullQ == old(pullQ)
    {
      if dg.None? {
        rxDropped := rxDropped + 1;
        return;
      }
      var _ := jb.Push(dg.value.seqNo, dg.value.payload);
      var opusFrame := jb.Pop();
      fed := fed + [opusFrame];
      var decoded := decode(fed);
      if decoded.None? {
        rxDropped := rxDropped + 1;
        return;
      }
      if |pullQ| >= PULL_CAP {
        pullQ := pullQ[1..];
      }
      pullQ := pullQ + [decoded.value];
    }

    /** The loop over the datagrams received until the call ends. */
    method RecvLoop(dgs: seq<Option<Packet>>)
      requires Inv()
      modifies this, jb
      ensures Inv()
      ensures View() == RxAll(old(View()), decode, dgs)
      ensures var outs := IterateAll(old(jb.View()), Parsed(dgs)).1;
              fed == old(fed) + outs && pullQ == LastFour(old(pullQ) + Decoded(decode, old(fed), outs))
    {
      ghost var start := View();
      var i := 0;
      while i < |dgs|
        invariant 0 <= i <= |dgs|
        invariant Inv()
        invariant View() == RxAll(start, decode, dgs[..i])
      {
        RxAllMore(start, decode, dgs, i);
        RecvOne(dgs[i]);
        i := i + 1;
      }
      assert dgs[..|dgs|] == dgs;
      RxIsIterate(start, decode, dgs);
      NewestFour(decode, start.fed, start.queue, IterateAll(start.buffer, Parsed(dgs)).1);
    }

    /** The playback callback: the oldest queued frame, or silence. */
    method OnPull() returns (f: Pcm)
      requires Inv()
      modifies this
      ensures Inv() && fed == old(fed) && rxDropped == old(rxDropped)
      ensures old(pullQ) == [] ==> |f| == 960 && (forall k :: 0 <= k < 960 ==> f[k] == 0) && pullQ == []
      ensures old(pullQ) != [] ==> old(pullQ) == [f] + pullQ
    {
      if |pullQ| == 0 {
        return SILENCE;
      }
      f := pullQ[0];
      pullQ := pullQ[1..];
    }
  }
}
