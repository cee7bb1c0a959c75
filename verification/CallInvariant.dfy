/** What every step of the two-party protocol keeps. */
module CallInvariant {
  import opened CallState
  import opened CallProtocol
  import opened CallWeights

  // ---------------------------------------------------------------- messages

  predicate HasHangup(out: seq<Msg>) {
    exists k :: 0 <= k < |out| && out[k].Hangup?
  }

  predicate HasAccept(out: seq<Msg>) {
    exists k :: 0 <= k < |out| && out[k] == Accept
  }

  predicate HasInvite(out: seq<Msg>) {
    exists k :: 0 <= k < |out| && out[k] == Invite
  }

  /** An ACCEPT is among the first n messages. */
  predicate AcceptBy(out: seq<Msg>, n: nat) {
    exists k :: 0 <= k < n && k < |out| && out[k] == Accept
  }

  predicate NoHangupBy(out: seq<Msg>, n: nat) {
    forall k :: 0 <= k < n && k < |out| ==> !out[k].Hangup?
  }

  /** r is the reason of the first HANGUP. */
  predicate FirstHangup(out: seq<Msg>, r: string) {
    exists k :: 0 <= k < |out| && out[k] == Hangup(r) && NoHangupBy(out, k)
  }

  // ---------------------------------------------------------------- one side

  predicate BeforeRing(m: Main) {
    (m.PBind? || m.PRegister? || m.PLookup? || m.PEncode? || m.PRing? || m.HFirst? || m.HBind? || m.HRegister? || m.HRing?)
  }

  predicate Failing(m: Main) {
    (m.PFailEnd? || m.PFailUnbind? || m.PFailClose? || m.PFailRemove? || m.HAbort?)
  }

  predicate Serving(m: Main) {
    (m.PSpawn? || m.RScan? || m.RAccept1? || m.RAccept2?)
  }

  predicate CleaningUp(m: Main) {
    (m.PFailUnbind? || m.PFailClose? || m.PFailRemove? || m.HAbort? || m.RUnbind? || m.RClose? || m.RRemove?)
  }

  /** Registration, the phase and the position of the main thread. */
  ghost predicate Flow(r: Role, s: Side) {
    && (r == Caller ==> s.exists_ && !s.reset
                        && !(s.main.HFirst? || s.main.HBind? || s.main.HRegister? || s.main.HRing? || s.main.HAbort?))
    && (r == Callee ==> !s.main.PBind? && !s.main.PRegister? && !s.main.PLookup? && !s.main.PEncode? && !s.main.PRing?
                        && !s.main.PSpawn? && !s.main.PFailEnd? && !s.main.PFailUnbind? && !s.main.PFailClose? && !s.main.PFailRemove?)
    && (!s.exists_ ==> r == Callee && ((s.main == HFirst && !s.reset && !s.closed) || (s.main == Done && s.reset && s.closed))
                       && s.phase == Idle && !s.bound && !s.reg && !s.known && s.out == [])
    && (s.exists_ ==> s.main != HFirst && !s.reset)
    && ((s.main.PBind? || s.main.HBind? || s.main.HFirst?) ==> !s.bound && !s.known)
    && ((s.main.PRegister? || s.main.HRegister?) ==> s.bound && !s.known)
    && (!(s.main.PBind? || s.main.HBind? || s.main.HFirst? || s.main.PRegister? || s.main.HRegister?) && s.exists_ ==> s.known)
    && (!s.known ==> s.ops == [] && s.phase == Idle && !s.reg && s.out == [])
    && (BeforeRing(s.main) ==> s.phase == Idle || s.phase == Ended)
    && (s.main == PFailEnd ==> s.phase == Idle || s.phase == Ended)
    && (Serving(s.main) || s.main.REnd? ==> s.phase != Idle)
    && (CleaningUp(s.main) || (s.main == Done && s.exists_) ==> s.phase == Ended)
    && (s.closed && s.exists_ ==> s.phase == Ended)
    && (forall i :: 0 <= i < |s.ops| && InCleanup(s.ops[i]) ==> s.phase == Ended)
  }

  /** The thread that ended the session still has to unbind it. */
  ghost predicate AtUnbind(s: Side, t: int) {
    if t == -1 then s.main == RUnbind || s.main == PFailUnbind
    else 0 <= t < |s.ops| && s.ops[t] == HangUnbind
  }

  ghost predicate AtClose(s: Side, t: int) {
    if t == -1 then s.main == RClose || s.main == PFailClose
    else 0 <= t < |s.ops| && s.ops[t] == HangClose
  }

  ghost predicate AtRemove(s: Side, t: int) {
    if t == -1 then s.main == RRemove || s.main == PFailRemove
    else 0 <= t < |s.ops| && s.ops[t] == HangRemove
  }

  /** An ended session, and no other, is unbound, closed and unregistered, or someone is about to. */
  ghost predicate Cleanup(s: Side) {
    && (s.known && !s.bound ==> s.phase == Ended && (s.closed || AtClose(s, s.log.closer)))
    && (s.known && !s.reg ==> s.phase == Ended)
    && (s.phase == Ended && s.bound ==> AtUnbind(s, s.log.ender))
    && (s.phase == Ended && s.reg ==> AtUnbind(s, s.log.ender) || AtClose(s, s.log.ender) || AtRemove(s, s.log.ender))
  }

  /** ACCEPT is written by local callers of Accept on the callee, and by nobody else. */
  ghost predicate Consent(r: Role, s: Side) {
    && (r == Caller ==> !HasAccept(s.out) && !s.log.idleAcc && !s.log.rungAcc
                        && forall i :: 0 <= i < |s.ops| ==> !InAccept(s.ops[i]))
    && (r == Callee ==>
          && !(s.main.RAccept1? || s.main.RAccept2?)
          && ((s.phase.Connecting? || s.phase.Connected?) ==> s.log.rungAcc)
          && (s.log.rungAcc ==> HasAccept(s.out) && (s.phase.Connecting? || s.phase.Connected? || s.phase.Ended?))
          && (s.log.idleAcc ==> HasAccept(s.out))
          && (s.phase == Connecting ==> 0 <= s.log.stepper < |s.ops| && s.ops[s.log.stepper] == AccConnected)
          && (HasAccept(s.out) ==> (s.phase.Connecting? || s.phase.Connected? || s.phase.Ended?) || s.log.idleAcc
                                   || (0 <= s.log.accer < |s.ops| && s.ops[s.log.accer] == AccConnecting))
          && (forall i :: 0 <= i < |s.ops| && (s.ops[i].AccConnecting? || s.ops[i].AccConnected?) ==> HasAccept(s.out)))
  }

  /** HANGUP is written by local callers of Hangup, who then end the session. */
  ghost predicate HangLog(s: Side) {
    && (forall i :: 0 <= i < |s.ops| && (InHangup(s.ops[i]) || InCleanup(s.ops[i])) ==> s.log.hung)
    && (HasHangup(s.out) ==> s.log.hung
                             && (s.phase == Ended || (0 <= s.log.hanger < |s.ops| && s.ops[s.log.hanger].HangEnd?)))
  }

  /** What a side may have written. */
  ghost predicate Written(r: Role, s: Side) {
    && (forall k :: 0 <= k < |s.out| ==> !s.out[k].Decline? && (r == Callee ==> s.out[k] != Invite))
    && ((s.main.PBind? || s.main.PRegister? || s.main.PLookup? || s.main.PEncode?) ==> !HasInvite(s.out))
    && (r == Caller && (s.main == PRing || Serving(s.main)) ==> HasInvite(s.out))
  }

  ghost predicate Local(r: Role, s: Side) {
    Flow(r, s) && Cleanup(s) && Consent(r, s) && HangLog(s) && Written(r, s)
  }

  // ---------------------------------------------------------------- one side and its peer

  /** What has been read. */
  ghost predicate Reads(r: Role, s: Side, p: Side) {
    && s.inp <= |p.out|
    && (r == Callee && s.exists_ ==> p.out != [] && p.out[0] == Invite && s.inp >= 1)
    && (r == Callee && s.main == HFirst ==> s.inp == 0)
    && (r == Callee && (s.main.HBind? || s.main.HRegister? || s.main.HRing?) ==> s.inp == 1)
    && (Serving(s.main) ==> NoHangupBy(p.out, s.inp))
    && (r == Caller ==>
          && ((s.phase.Connecting? || s.phase.Connected?) || (s.main.RAccept1? || s.main.RAccept2?) ==> AcceptBy(p.out, s.inp))
          && (AcceptBy(p.out, s.inp) && !(s.main.RAccept1? || s.main.RAccept2?) && s.phase != Ended ==> s.phase == Connected)
          && (s.phase == Connecting ==> s.main == RAccept2)
          && (s.main == RAccept2 ==> s.phase != Ringing)
          && (BeforeRing(s.main) || (s.main.PSpawn? || s.main.PFailEnd?) ==> s.inp == 0))
  }

  /** Some HANGUP was written. */
  predicate AnyHangup(s: Side, p: Side) {
    HasHangup(s.out) || HasHangup(p.out)
  }

  /** Nothing ends, closes or unbinds before a HANGUP has been written by someone. */
  ghost predicate Breaks(s: Side, p: Side) {
    && (s.phase == Ended || s.closed || s.reset || (s.known && !s.bound) || s.main == PFailEnd || s.main.REnd? ==> AnyHangup(s, p))
    && (forall i :: 0 <= i < |s.ops| && s.ops[i].HangEnd? ==> AnyHangup(s, p))
  }

  /** A side that never hung up ends only on the peer's first HANGUP. */
  ghost predicate Reasons(s: Side, p: Side) {
    !s.log.hung && s.exists_ ==>
      && !Failing(s.main) && !(s.main.PFailUnbind? || s.main.PFailClose? || s.main.PFailRemove?)
      && (BeforeRing(s.main) || Serving(s.main) ==> s.phase != Ended)
      && (s.main.REnd? ==> s.phase != Ended && FirstHangup(p.out, s.main.why))
      && (s.phase == Ended ==> FirstHangup(p.out, s.reason))
  }

  ghost predicate Inv(r: Role, s: Side, p: Side) {
    Local(r, s) && Reads(r, s, p) && Breaks(s, p) && Reasons(s, p)
  }

  function Other(r: Role): Role {
    if r == Caller then Callee else Caller
  }

  ghost predicate Both(r: Role, s: Side, p: Side) {
    Inv(r, s, p) && Inv(Other(r), p, s)
  }

  ghost predicate SysInv(x: Sys) {
    Both(Caller, x.a, x.b)
  }

  lemma InitInv()
    ensures SysInv(INIT)
  {
  }

  // ---------------------------------------------------------------- a longer output

  lemma Appended(out: seq<Msg>, m: Msg)
    ensures HasHangup(out + [m]) <==> HasHangup(out) || m.Hangup?
    ensures HasAccept(out + [m]) <==> HasAccept(out) || m == Accept
    ensures HasInvite(out + [m]) <==> HasInvite(out) || m == Invite
    ensures forall n: nat :: n <= |out| ==> AcceptBy(out + [m], n) == AcceptBy(out, n) && NoHangupBy(out + [m], n) == NoHangupBy(out, n)
    ensures forall r :: FirstHangup(out, r) ==> FirstHangup(out + [m], r)
  {
    var o := out + [m];
    assert forall k :: 0 <= k < |out| ==> o[k] == out[k];
    assert o[|out|] == m;
    forall r | FirstHangup(out, r) ensures FirstHangup(o, r) {
      var k :| 0 <= k < |out| && out[k] == Hangup(r) && NoHangupBy(out, k);
      assert o[k] == Hangup(r) && NoHangupBy(o, k);
    }
  }

  /** A step of the peer only adds to its output, as far as this side is concerned. */
  lemma PeerWrites(r: Role, s: Side, p: Side, q: Side)
    requires Inv(r, s, p) && AtMostOne(p.out, q.out)
    ensures Inv(r, s, q)
  {
    if q.out != p.out {
      var m := q.out[|p.out|];
      assert q.out == p.out + [m];
      Appended(p.out, m);
    }
  }
}
