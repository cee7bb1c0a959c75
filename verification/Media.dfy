/** Framing of media on the reliable stream, and the pump that feeds the receive queue. */
module Media {
  import opened ByteStrings
  import opened DropOldest

  const MAX_MEDIA_FRAME := 1500

  /** What readFramedMedia returns. `Eof` is io.EOF, `Cut` is io.ErrUnexpectedEOF. */
  datatype ReadResult = Got(frame: Bytes) | Eof | Cut | TooLarge(n: nat)

  function High(n: nat): Byte
    requires n < 65536
  {
    (n / 256) as char
  }

  function Low(n: nat): Byte {
    (n % 256) as char
  }

  function Header(n: nat): Bytes
    requires n < 65536
  {
    [High(n), Low(n)]
  }

  function Value(hi: Byte, lo: Byte): nat {
    hi as int * 256 + lo as int
  }

  lemma HeaderValue(n: nat)
    requires n < 65536
    ensures Value(High(n), Low(n)) == n
  {
  }

  function Framed(b: Bytes): Bytes
    requires |b| <= MAX_MEDIA_FRAME
  {
    Header(|b|) + b
  }

  /** io.ReadFull for n > 0 bytes: the bytes and what stays on the stream. */
  function ReadFull(data: Bytes, n: nat): (ReadResult, Bytes) {
    if |data| >= n then (Got(data[..n]), data[n..])
    else if data == [] then (Eof, [])
    else (Cut, [])
  }

  function ReadFrame(data: Bytes): (r: (ReadResult, Bytes))
    ensures r.0.Got? ==> |r.1| < |data|
  {
    var (h, rest) := ReadFull(data, 2);
    if !h.Got? then (h, rest)
    else
      var n := Value(h.frame[0], h.frame[1]);
      if n == 0 then (Got([]), rest)
      else if n > MAX_MEDIA_FRAME then (TooLarge(n), rest)
      else ReadFull(rest, n)
  }

  function ReadAll(data: Bytes): (r: (seq<Bytes>, ReadResult))
    ensures !r.1.Got?
    decreases |data|
  {
    var (f, rest) := ReadFrame(data);
    if !f.Got? then ([], f)
    else
      var (fs, e) := ReadAll(rest);
      ([f.frame] + fs, e)
  }

  ghost predicate Sendable(frames: seq<Bytes>) {
    forall f <- frames :: |f| <= MAX_MEDIA_FRAME
  }

  function Concat(frames: seq<Bytes>): Bytes
    requires forall f <- frames :: |f| <= MAX_MEDIA_FRAME
  {
    if frames == [] then [] else Framed(frames[0]) + Concat(frames[1..])
  }

  lemma FrameRoundTrip(b: Bytes, rest: Bytes)
    requires |b| <= MAX_MEDIA_FRAME
    ensures ReadFrame(Framed(b) + rest) == (Got(b), rest)
  {
    var data := Framed(b) + rest;
    HeaderValue(|b|);
    assert data[..2] == Header(|b|) && data[2..] == b + rest;
    assert (b + rest)[..|b|] == b && (b + rest)[|b|..] == rest;
  }

  /** A frame read is the frame that was written there. */
  lemma FrameInverse(data: Bytes)
    requires ReadFrame(data).0.Got?
    ensures |ReadFrame(data).0.frame| <= MAX_MEDIA_FRAME
    ensures data == Framed(ReadFrame(data).0.frame) + ReadFrame(data).1
  {
    var b := ReadFrame(data).0.frame;
    var n := Value(data[0], data[1]);
    assert |b| == n;
    assert High(n) == data[0] && Low(n) == data[1];
    assert data == data[..2] + data[2..];
  }

  /** The length on the wire, most significant byte first. */
  function Length(data: Bytes): nat
    requires |data| >= 2
  {
    data[0] as int * 256 + data[1] as int
  }

  /** What is wrong with a stream that does not yield a frame: it is at its end, or was cut
      in a header or a payload, or names a length that is too much. */
  lemma FrameErrors(data: Bytes)
    ensures ReadFrame(data).0 == Eof <==> |data| == 0 || (|data| == 2 && 0 < Length(data) <= 1500)
    ensures ReadFrame(data).0 == Cut <==> |data| == 1 || (2 < |data| < 2 + Length(data) <= 1502)
    ensures ReadFrame(data).0.TooLarge? <==> |data| >= 2 && Length(data) > 1500
    ensures ReadFrame(data).0.TooLarge? ==> ReadFrame(data) == (TooLarge(Length(data)), data[2..])
    ensures ReadFrame(data).0.Got? <==> |data| >= 2 + (if |data| >= 2 then Length(data) else 0) && Length(data) <= 1500
  {
  }

  /** A stream cut right after a non-empty header looks like a clean end. */
  ghost predicate StrayHeader(tail: Bytes) {
    |tail| == 2 && 0 < Value(tail[0], tail[1]) <= MAX_MEDIA_FRAME
  }

  /** The reader sees frames fs and then end of file exactly on the encoding of fs,
      possibly followed by one header whose payload never came. */
  lemma {:induction false} StreamRoundTrip(data: Bytes, fs: seq<Bytes>)
    ensures ReadAll(data) == (fs, Eof)
            <==> Sendable(fs) && exists tail: Bytes :: (tail == [] || StrayHeader(tail)) && data == Concat(fs) + tail
    decreases |data|, |fs|
  {
    if ReadAll(data) == (fs, Eof) {
      ReadBack(data, fs);
    }
    if Sendable(fs) {
      forall tail: Bytes | (tail == [] || StrayHeader(tail)) && data == Concat(fs) + tail
        ensures ReadAll(data) == (fs, Eof)
      {
        ReadForward(fs, tail);
      }
    }
  }

  lemma TailIsEof(tail: Bytes)
    ensures ReadFrame(tail).0 == Eof <==> tail == [] || StrayHeader(tail)
  {
  }

  /** The header of a frame of five bytes, and nothing after it, is a clean end. */
  lemma CutAfterHeader()
    ensures ReadAll([0 as char, 5 as char]) == ([], Eof)
  {
  }

  lemma ReadAllCons(f: Bytes, rest: Bytes)
    requires |f| <= MAX_MEDIA_FRAME
    ensures ReadAll(Framed(f) + rest) == ([f] + ReadAll(rest).0, ReadAll(rest).1)
  {
    FrameRoundTrip(f, rest);
  }

  lemma ConcatCons(fs: seq<Bytes>, tail: Bytes)
    requires Sendable(fs) && fs != []
    ensures Concat(fs) + tail == Framed(fs[0]) + (Concat(fs[1..]) + tail)
  {
  }

  lemma ReadEnd(tail: Bytes)
    requires tail == [] || StrayHeader(tail)
    ensures ReadAll(tail) == ([], Eof)
  {
    TailIsEof(tail);
  }

  lemma ReadStep(data: Bytes, f: Bytes, rest: Bytes, fs: seq<Bytes>)
    requires |f| <= MAX_MEDIA_FRAME && data == Framed(f) + rest
    requires ReadAll(rest) == (fs, Eof)
    ensures ReadAll(data) == ([f] + fs, Eof)
  {
    ReadAllCons(f, rest);
  }

  lemma {:induction false} ReadForward(fs: seq<Bytes>, tail: Bytes)
    requires Sendable(fs) && (tail == [] || StrayHeader(tail))
    ensures ReadAll(Concat(fs) + tail) == (fs, Eof)
    decreases |fs|
  {
    var data := Concat(fs) + tail;
    if fs == [] {
      assert data == tail;
      ReadEnd(tail);
    } else {
      ConcatCons(fs, tail);
      ReadForward(fs[1..], tail);
      ReadStep(data, fs[0], Concat(fs[1..]) + tail, fs[1..]);
      assert [fs[0]] + fs[1..] == fs;
    }
  }

  lemma {:induction false} ReadBack(data: Bytes, fs: seq<Bytes>)
    requires ReadAll(data) == (fs, Eof)
    ensures Sendable(fs) && exists tail: Bytes :: (tail == [] || StrayHeader(tail)) && data == Concat(fs) + tail
    decreases |data|
  {
    var tail := ReadTail(data, fs);
  }

  lemma {:induction false} ReadTail(data: Bytes, fs: seq<Bytes>) returns (tail: Bytes)
    requires ReadAll(data) == (fs, Eof)
    ensures Sendable(fs) && (tail == [] || StrayHeader(tail)) && data == Concat(fs) + tail
    decreases |data|
  {
    var (f, rest) := ReadFrame(data);
    if f.Got? {
      FrameInverse(data);
      assert fs[1..] == ReadAll(rest).0;
      tail := ReadTail(rest, fs[1..]);
      assert Sendable(fs) by {
        forall g | g in fs ensures |g| <= MAX_MEDIA_FRAME {
          assert g == fs[0] || g in fs[1..];
        }
      }
      ConcatCons(fs, tail);
    } else {
      TailIsEof(data);
      tail := data;
      assert data == Concat(fs) + data;
    }
  }

  // ---------------------------------------------------------------- the code

  /** A byte stream: written at the end, read from the front. */
  class Stream {
    var data: Bytes

    constructor ()
      ensures data == []
    {
      data := [];
    }
  }

  method WriteFramedMedia(w: Stream, b: Bytes) returns (ok: bool)
    modifies w
    ensures ok <==> |b| <= MAX_MEDIA_FRAME
    ensures w.data == old(w.data) + if |b| <= MAX_MEDIA_FRAME then Framed(b) else []
    ensures ok <==> |b| <= 1500
    ensures ok ==> w.data == old(w.data) + [(|b| / 256) as char, (|b| % 256) as char] + b
  {
    if |b| > MAX_MEDIA_FRAME {
      return false;
    }
    w.data := w.data + Header(|b|);
    w.data := w.data + b;
    return true;
  }

  method Take(r: Stream, n: nat) returns (res: ReadResult)
    modifies r
    ensures (res, r.data) == ReadFull(old(r.data), n)
  {
    if |r.data| >= n {
      res := Got(r.data[..n]);
      r.data := r.data[n..];
    } else {
      res := if r.data == [] then Eof else Cut;
      r.data := [];
    }
  }

  method ReadFramedMedia(r: Stream) returns (res: ReadResult)
    modifies r
    ensures (res, r.data) == ReadFrame(old(r.data))
  {
    var hdr := Take(r, 2);
    if !hdr.Got? {
      return hdr;
    }
    var n := Value(hdr.frame[0], hdr.frame[1]);
    if n == 0 {
      return Got([]);
    }
    if n > MAX_MEDIA_FRAME {
      return TooLarge(n);
    }
    res := Take(r, n);
  }

  function PutAll(q: seq<Bytes>, fs: seq<Bytes>): seq<Bytes>
    decreases |fs|
  {
    if fs == [] then q else PutAll(Put(RECV_CAP, q, fs[0]), fs[1..])
  }

  /** The last sixteen, or all there are. */
  function LastSixteen(s: seq<Bytes>): seq<Bytes> {
    if |s| <= 16 then s else s[|s| - 16..]
  }

  lemma PutMeans(all: seq<Bytes>, b: Bytes)
    ensures Put(RECV_CAP, LastSixteen(all), b) == LastSixteen(all + [b])
  {
  }

  /** Of all that was queued and delivered, the newest sixteen wait. */
  lemma {:induction false} NewestSixteen(all: seq<Bytes>, fs: seq<Bytes>)
    ensures PutAll(LastSixteen(all), fs) == LastSixteen(all + fs)
    decreases |fs|
  {
    if fs == [] {
      assert all + [] == all;
    } else {
      PutMeans(all, fs[0]);
      NewestSixteen(all + [fs[0]], fs[1..]);
      assert (all + [fs[0]]) + fs[1..] == all + fs;
    }
  }

  class Transport {
    var recvCh: seq<Bytes>

    constructor ()
      ensures recvCh == []
    {
      recvCh := [];
    }

    /** deliverRecv when nothing interleaves. */
    method DeliverRecv(b: Bytes)
      requires |recvCh| <= RECV_CAP
      modifies this
      ensures recvCh == Put(RECV_CAP, old(recvCh), b) == LastSixteen(old(recvCh) + [b])
    {
      if |recvCh| < RECV_CAP {
        recvCh := recvCh + [b];
        return;
      }
      if recvCh != [] {
        recvCh := recvCh[1..];
      }
      if |recvCh| < RECV_CAP {
        recvCh := recvCh + [b];
      }
    }

    /** The stream pump: every frame up to the first error, in order. */
    method RecvPumpStream(s: Stream)
      requires |recvCh| <= RECV_CAP
      modifies this, s
      ensures recvCh == PutAll(old(recvCh), ReadAll(old(s.data)).0) == LastSixteen(old(recvCh) + ReadAll(old(s.data)).0)
    {
      NewestSixteen(recvCh, ReadAll(s.data).0);
      var more := true;
      while more
        invariant |recvCh| <= RECV_CAP
        invariant more ==> PutAll(recvCh, ReadAll(s.data).0) == PutAll(old(recvCh), ReadAll(old(s.data)).0)
        invariant !more ==> recvCh == PutAll(old(recvCh), ReadAll(old(s.data)).0)
        decreases more, |s.data|
      {
        ghost var before := s.data;
        var b := ReadFramedMedia(s);
        if b.Got? {
          assert ReadAll(before).0 == [b.frame] + ReadAll(s.data).0;
          DeliverRecv(b.frame);
        } else {
          more := false;
        }
      }
    }
  }
}
