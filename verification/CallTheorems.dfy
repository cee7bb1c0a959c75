/** What the two parties of a call can rely on, over every run. */
module CallTheorems {
  import opened CallState
  import opened CallProtocol
  import opened CallInvariant
  import opened CallSteps
  import opened CallWeights

  // ---------------------------------------------------------------- agreement

  /** No thread of this side can take a step. */
  predicate Quiet(s: Side, p: Side) {
    !MainEnabled(s, p) && forall i :: 0 <= i < |s.ops| ==> s.ops[i] == Finished
  }

  predicate Quiescent(x: Sys) {
    Quiet(x.a, x.b) && Quiet(x.b, x.a)
  }

  predicate Internal(m: Move) {
    !m.act.CallAccept? && !m.act.CallHangup?
  }

  lemma QuiescentIff(x: Sys)
    ensures Quiescent(x) <==> forall m :: Internal(m) ==> !CanMove(x, m)
  {
    if forall m :: Internal(m) ==> !CanMove(x, m) {
      assert Internal(ByCaller(MainAct(false, ""))) && Internal(ByCallee(MainAct(false, "")));
      assert !CanMove(x, ByCaller(MainAct(false, ""))) && !CanMove(x, ByCallee(MainAct(false, "")));
      forall i: nat | i < |x.a.ops| ensures x.a.ops[i] == Finished {
        assert Internal(ByCaller(OpAct(i, false)));
        assert !CanMove(x, ByCaller(OpAct(i, false)));
      }
      forall i: nat | i < |x.b.ops| ensures x.b.ops[i] == Finished {
        assert Internal(ByCallee(OpAct(i, false)));
        assert !CanMove(x, ByCallee(OpAct(i, false)));
      }
    }
  }

  /** Ended, and absent from the manager and from the engine's maps. */
  predicate Gone(s: Side) {
    s.exists_ ==> s.phase == Ended && !s.bound && !s.reg
  }

  /** In a live call, still serving its stream. */
  predicate Live(s: Side) {
    s.exists_ && s.bound && s.reg && (s.phase == Ringing || s.phase == Connected)
  }

  predicate Agree(x: Sys) {
    (Gone(x.a) && Gone(x.b)) || (Live(x.a) && Live(x.b) && x.a.phase == x.b.phase)
  }

  /** A side that stopped after an end is closed and gone. */
  lemma QuietEnded(r: Role, s: Side, p: Side)
    requires Both(r, s, p) && Quiet(s, p) && s.exists_ && s.phase == Ended
    ensures Gone(s) && s.closed && s.main == Done
  {
    assert !s.bound && s.closed;
  }

  /** An end that finds the other one closed does not wait. */
  lemma QuietPeer(r: Role, s: Side, p: Side)
    requires Both(r, s, p) && Quiet(s, p) && p.closed
    ensures Gone(s)
  {
    assert s.main == Done;
    if s.exists_ {
      QuietEnded(r, s, p);
    }
  }

  lemma QuietAfterHangup(r: Role, s: Side, p: Side)
    requires Both(r, s, p) && Quiet(s, p) && Quiet(p, s) && HasHangup(s.out)
    ensures Gone(s) && Gone(p)
  {
    assert s.phase == Ended && s.exists_;
    QuietEnded(r, s, p);
    QuietPeer(Other(r), p, s);
  }

  /** Without a HANGUP both scanners wait, having read everything. */
  lemma QuietWaits(r: Role, s: Side, p: Side)
    requires Both(r, s, p) && Quiet(s, p) && s.exists_ && !AnyHangup(s, p)
    ensures s.main == RScan && s.inp == |p.out| && s.phase != Ended && s.bound && s.known && s.phase != Idle
  {
    assert s.main != Done;
  }

  /** The callee answered or is still ringing; so is the caller, if it was not
      answered before it rang. */
  lemma QuietLive(x: Sys)
    requires SysInv(x) && Quiescent(x) && !AnyHangup(x.a, x.b)
    ensures x.b.exists_ && x.a.bound && x.b.bound
    ensures x.a.phase == if HasAccept(x.b.out) then Connected else Ringing
    ensures x.b.phase == if x.b.log.rungAcc then Connected else Ringing
    ensures HasAccept(x.b.out) <==> x.b.log.rungAcc || x.b.log.idleAcc
  {
    QuietWaits(Caller, x.a, x.b);
    assert HasInvite(x.a.out);
    assert x.b.main != HFirst && !x.b.reset;
    QuietWaits(Callee, x.b, x.a);
    assert HasAccept(x.b.out) <==> AcceptBy(x.b.out, x.a.inp);
  }

  /** The callee was accepted before it rang and never after. */
  predicate OnlyEarly(s: Side) {
    s.log.idleAcc && !s.log.rungAcc
  }

  lemma AgreementAt(x: Sys)
    requires SysInv(x) && Quiescent(x)
    ensures AnyHangup(x.a, x.b) ==> Gone(x.a) && Gone(x.b)
    ensures !AnyHangup(x.a, x.b) ==> Live(x.a) && Live(x.b) && (x.a.phase == x.b.phase <==> !OnlyEarly(x.b))
  {
    if HasHangup(x.a.out) {
      QuietAfterHangup(Caller, x.a, x.b);
    } else if HasHangup(x.b.out) {
      QuietAfterHangup(Callee, x.b, x.a);
    } else {
      QuietLive(x);
    }
  }

  /**
   Wherever the threads of both ends stop: if anyone hung up, every existing end is
   ended and gone.  Otherwise both are in the call, and they are in the same state
   of it unless Accept only ever met a session that did not yet ring.
   */
  lemma TwoPartyAgreement(ms: seq<Move>, x: Sys)
    requires Legal(INIT, ms) && x == After(INIT, ms) && Quiescent(x)
    ensures AnyHangup(x.a, x.b) ==> Gone(x.a) && Gone(x.b)
    ensures !AnyHangup(x.a, x.b) ==> Live(x.a) && Live(x.b) && (x.a.phase == x.b.phase <==> !OnlyEarly(x.b))
    ensures Agree(x) <==> AnyHangup(x.a, x.b) || !OnlyEarly(x.b)
  {
    Reachable(ms);
    AgreementAt(x);
  }

  lemma {:induction false} Append(x: Sys, ms: seq<Move>, m: Move)
    requires Legal(x, ms) && CanMove(After(x, ms), m)
    ensures Legal(x, ms + [m]) && After(x, ms + [m]) == Step(After(x, ms), m)
    decreases |ms|
  {
    var all := ms + [m];
    if ms == [] {
      assert all[1..] == [];
    } else {
      Append(Step(x, ms[0]), ms[1..], m);
      assert all[0] == ms[0] && all[1..] == ms[1..] + [m];
    }
  }

  // ---------------------------------------------------------------- consent

  /** The callee is in the call only after a local Accept met it ringing, the caller
      only after it read an ACCEPT; and it never writes one. */
  lemma ConsentHolds(ms: seq<Move>, x: Sys)
    requires Legal(INIT, ms) && x == After(INIT, ms)
    ensures x.b.phase == Connecting || x.b.phase == Connected ==> x.b.log.rungAcc && HasAccept(x.b.out)
    ensures x.a.phase == Connecting || x.a.phase == Connected ==> AcceptBy(x.b.out, x.a.inp)
    ensures !HasAccept(x.a.out)
  {
    Reachable(ms);
  }

  /** No step but a local Accept takes the callee out of Ringing into the call. */
  lemma ConsentStep(ms: seq<Move>, x: Sys, m: Move)
    requires Legal(INIT, ms) && x == After(INIT, ms) && CanMove(x, m)
    requires x.b.phase != Connecting && Step(x, m).b.phase == Connecting
    ensures x.b.phase == Ringing && m.ByCallee? && m.act.OpAct? && x.b.ops[m.act.i] == AccConnecting
  {
    Reachable(ms);
    match m.act
    case MainAct(fail, text) => MainConnects(x.b, x.a, fail, text, Step(x, m).b);
    case OpAct(i, fail) => OpConnects(x.b, x.a, i, fail, x.b.ops[i], Step(x, m).b);
    case _ =>
  }

  lemma MainConnects(s: Side, p: Side, fail: bool, text: string, t: Side)
    requires MainEnabled(s, p) && !InPlace(s.main) && !InPlaceError(s.main) && t == MainStep(s, p, fail, text)
    ensures t.phase == Connecting ==> s.phase == Connecting || s.main == RAccept1
  {
    if InHandle(s.main) {
      HandleConnects(s, p, t, s.main);
    } else if s.main == RScan {
      assert t == Scan(s, p, fail, text);
    } else {
      ServeConnects(s, t, s.main);
    }
  }

  lemma HandleConnects(s: Side, p: Side, t: Side, m: Main)
    requires m == s.main && InHandle(m) && MainEnabled(s, p) && t == HandleStep(s, p)
    ensures t.phase == Connecting ==> s.phase == Connecting
  {
    if m == HRing {
      assert t.phase == s.phase || t.phase == Ringing;
    } else if m == HFirst {
      assert t.phase == s.phase;
    }
  }

  lemma ServeConnects(s: Side, t: Side, m: Main)
    requires m == s.main && InScanner(m) && t == ServeStep(s)
    ensures t.phase == Connecting ==> s.phase == Connecting || m == RAccept1
  {
    if m == RAccept2 {
      assert t.phase == Entered(s.phase, Connected);
    } else if m.REnd? {
      assert t.phase == Ended;
    } else if m != RAccept1 {
      assert t.phase == s.phase;
    }
  }

  lemma OpConnects(s: Side, p: Side, i: nat, fail: bool, op: Op, t: Side)
    requires OpEnabled(s, i) && op == s.ops[i] && t == OpStep(s, p, i, fail)
    ensures t.phase == Connecting ==> s.phase == Connecting || (s.phase == Ringing && op == AccConnecting)
  {
    if InAccept(op) {
      AcceptPhase(s, p, i, fail, op, t);
    } else if InHangup(op) {
      HangupPhase(s, p, i, fail, op, t);
    } else {
      CleanPhase(s, i, op, t);
    }
  }

  lemma AcceptPhase(s: Side, p: Side, i: nat, fail: bool, op: Op, t: Side)
    requires OpEnabled(s, i) && op == s.ops[i] && InAccept(op) && t == AcceptStep(s, p, i, fail)
    ensures t.phase == Connecting ==> s.phase == Connecting || (s.phase == Ringing && op == AccConnecting)
  {
    if op == AccConnecting {
      assert CanEnter(s.phase, Connecting) || t.phase == s.phase;
    } else if op == AccConnected {
      assert t.phase == Entered(s.phase, Connected);
    }
  }

  lemma HangupPhase(s: Side, p: Side, i: nat, fail: bool, op: Op, t: Side)
    requires OpEnabled(s, i) && op == s.ops[i] && InHangup(op) && t == HangupStep(s, p, i, fail)
    ensures t.phase == s.phase || t.phase == Ended
  {
    if op.HangEnd? {
      assert t == EndBy(Goto(s, i, HangUnbind), op.why, i);
    } else {
      assert t.phase == s.phase;
    }
  }

  lemma CleanPhase(s: Side, i: nat, op: Op, t: Side)
    requires OpEnabled(s, i) && op == s.ops[i] && InCleanup(op) && t == CleanStep(s, i)
    ensures t.phase == s.phase
  {
  }

  // ---------------------------------------------------------------- hanging up

  lemma FirstIsUnique(out: seq<Msg>, r: string, r': string)
    requires FirstHangup(out, r) && FirstHangup(out, r')
    ensures r == r'
  {
    var k :| 0 <= k < |out| && out[k] == Hangup(r) && NoHangupBy(out, k);
    var k' :| 0 <= k' < |out| && out[k'] == Hangup(r') && NoHangupBy(out, k');
    assert !(k < k') && !(k' < k);
  }

  /** An end that did not hang up itself records the reason the other one sent,
      whatever it reads first and however the stream breaks. */
  lemma HangupPropagation(ms: seq<Move>, x: Sys, r: string)
    requires Legal(INIT, ms) && x == After(INIT, ms)
    ensures FirstHangup(x.a.out, r) && x.b.exists_ && !x.b.log.hung && x.b.phase == Ended ==> x.b.reason == r
    ensures FirstHangup(x.b.out, r) && !x.a.log.hung && x.a.phase == Ended ==> x.a.reason == r
    ensures FirstHangup(x.a.out, r) && x.b.exists_ && !x.b.log.hung && Quiescent(x) ==> x.b.phase == Ended
    ensures FirstHangup(x.b.out, r) && !x.a.log.hung && Quiescent(x) ==> x.a.phase == Ended
  {
    Reachable(ms);
    if x.b.exists_ && !x.b.log.hung && x.b.phase == Ended && FirstHangup(x.a.out, r) {
      FirstIsUnique(x.a.out, r, x.b.reason);
    }
    if !x.a.log.hung && x.a.phase == Ended && FirstHangup(x.b.out, r) {
      FirstIsUnique(x.b.out, r, x.a.reason);
    }
    if Quiescent(x) {
      TwoPartyAgreement(ms, x);
    }
  }

  // ---------------------------------------------------------------- coming to rest

  lemma WeightNat(x: Sys)
    requires SysInv(x)
    ensures Weight(x) >= 0
  {
    assert Reads(Caller, x.a, x.b) && Reads(Callee, x.b, x.a);
  }

  lemma StepLowers(x: Sys, m: Move)
    requires SysInv(x) && CanMove(x, m)
    ensures SysInv(Step(x, m)) && Weight(Step(x, m)) >= 0 && Onward(x.a, Step(x, m).a) && Onward(x.b, Step(x, m).b)
    ensures Internal(m) ==> Weight(Step(x, m)) < Weight(x)
    ensures AnyHangup(x.a, x.b) ==> AnyHangup(Step(x, m).a, Step(x, m).b)
  {
    StepKeeps(x, m);
    match m {
      case ByCaller(act) =>
        SideKeeps(Caller, x.a, x.b, act);
        Grows(x.a.out, Step(x, m).a.out);
      case ByCallee(act) =>
        SideKeeps(Callee, x.b, x.a, act);
        Grows(x.b.out, Step(x, m).b.out);
    }
    WeightNat(Step(x, m));
  }

  lemma Grows(before: seq<Msg>, after: seq<Msg>)
    requires AtMostOne(before, after)
    ensures HasHangup(before) ==> HasHangup(after)
  {
    if HasHangup(before) {
      var k :| 0 <= k < |before| && before[k].Hangup?;
      assert after[..|before|][k] == after[k];
    }
  }

  predicate AllInternal(ms: seq<Move>) {
    forall i :: 0 <= i < |ms| ==> Internal(ms[i])
  }

  /** Once nobody calls Accept or Hangup any more, the threads take a bounded number
      of steps. */
  lemma {:induction false} RunsAreBounded(x: Sys, ms: seq<Move>)
    requires SysInv(x) && Weight(x) >= 0 && Legal(x, ms) && AllInternal(ms)
    ensures |ms| <= Weight(x)
    decreases |ms|
  {
    if ms != [] {
      StepLowers(x, ms[0]);
      RunsAreBounded(Step(x, ms[0]), ms[1..]);
    }
  }

  /** In any run an ended session stays ended and keeps its reason. */
  lemma {:induction false} RunsOnward(x: Sys, ms: seq<Move>)
    requires SysInv(x) && Legal(x, ms)
    ensures Onward(x.a, After(x, ms).a) && Onward(x.b, After(x, ms).b)
    ensures AnyHangup(x.a, x.b) ==> AnyHangup(After(x, ms).a, After(x, ms).b)
    decreases |ms|
  {
    if ms != [] {
      StepLowers(x, ms[0]);
      RunsOnward(Step(x, ms[0]), ms[1..]);
    }
  }

  lemma SomeMove(x: Sys) returns (m: Move, y: Sys)
    requires SysInv(x) && Weight(x) >= 0 && !Quiescent(x)
    ensures Internal(m) && CanMove(x, m) && y == Step(x, m) && SysInv(y) && 0 <= Weight(y) < Weight(x)
  {
    QuiescentIff(x);
    m :| Internal(m) && CanMove(x, m);
    StepLowers(x, m);
    y := Step(x, m);
  }

  lemma Prepend(x: Sys, m: Move, rest: seq<Move>)
    requires Internal(m) && CanMove(x, m) && AllInternal(rest) && Legal(Step(x, m), rest) && Quiescent(After(Step(x, m), rest))
    ensures AllInternal([m] + rest) && Legal(x, [m] + rest) && Quiescent(After(x, [m] + rest))
  {
    assert ([m] + rest)[1..] == rest;
  }

  /** Letting the threads run on, in any order, brings them to rest. */
  lemma Drain(x: Sys) returns (ms: seq<Move>)
    requires SysInv(x) && Weight(x) >= 0
    ensures Legal(x, ms) && AllInternal(ms) && Quiescent(After(x, ms))
    decreases Weight(x)
  {
    if Quiescent(x) {
      ms := [];
    } else {
      var m, y := SomeMove(x);
      var rest := Drain(y);
      Prepend(x, m, rest);
      ms := [m] + rest;
    }
  }

  /** From every reachable state: without new calls of Accept and Hangup no run of the
      threads is longer than the state's weight, and one of them reaches rest. */
  lemma ComesToRest(before: seq<Move>, x: Sys) returns (ms: seq<Move>)
    requires Legal(INIT, before) && x == After(INIT, before)
    ensures forall run :: Legal(x, run) && AllInternal(run) ==> |run| <= Weight(x)
    ensures Legal(x, ms) && AllInternal(ms) && Quiescent(After(x, ms))
  {
    Reachable(before);
    WeightNat(x);
    forall run | Legal(x, run) && AllInternal(run) ensures |run| <= Weight(x) {
      RunsAreBounded(x, run);
    }
    ms := Drain(x);
  }

  /** Once a HANGUP is written, whatever happens next, the ends are ended and gone
      as soon as the threads come to rest. */
  lemma HangupDrains(before: seq<Move>, x: Sys, ms: seq<Move>)
    requires Legal(INIT, before) && x == After(INIT, before) && AnyHangup(x.a, x.b)
    requires Legal(x, ms) && Quiescent(After(x, ms))
    ensures Gone(After(x, ms).a) && Gone(After(x, ms).b)
    ensures x.a.phase == Ended ==> After(x, ms).a.reason == x.a.reason
    ensures x.b.phase == Ended ==> After(x, ms).b.reason == x.b.reason
  {
    Reachable(before);
    RunKeeps(x, ms);
    RunsOnward(x, ms);
    AgreementAt(After(x, ms));
  }
}
