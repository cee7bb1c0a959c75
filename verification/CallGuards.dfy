/** Agreement again, from what a caller of Accept can see: the session's state when it
    makes the call. */
module CallGuards {
  import opened CallState
  import opened CallProtocol
  import opened CallInvariant
  import opened CallWeights
  import opened CallSteps
  import opened CallTheorems

  /** Accept is only called on sessions in one of the given states. */
  predicate Guarded(g: set<State>, x: Sys, ms: seq<Move>)
    requires Legal(x, ms)
    decreases |ms|
  {
    ms == [] || ((ms[0] == ByCallee(CallAccept) ==> x.b.phase in g) && Guarded(g, Step(x, ms[0]), ms[1..]))
  }

  /** No Accept met an idle session, and none that still runs can. */
  ghost predicate NoEarly(s: Side) {
    !s.log.idleAcc && forall i {:trigger Accepting(s, i)} :: Accepting(s, i) ==> s.phase != Idle
  }

  lemma CallKeeps(s: Side, p: Side, a: Act, t: Side)
    requires NoEarly(s) && (a.CallAccept? || a.CallHangup?) && Enabled(s, p, a) && t == SideStep(Callee, s, p, a)
    requires a == CallAccept ==> s.phase != Idle
    ensures NoEarly(t)
  {
    forall i | Accepting(t, i) ensures t.phase != Idle {
      assert i < |s.ops| ==> Accepting(s, i);
    }
  }

  lemma GuardStep(g: set<State>, x: Sys, m: Move)
    requires SysInv(x) && CanMove(x, m) && NoEarly(x.b) && Idle !in g
    requires m == ByCallee(CallAccept) ==> x.b.phase in g
    ensures NoEarly(Step(x, m).b)
  {
    if m.ByCallee? {
      var s, t := x.b, Step(x, m).b;
      if m.act.MainAct? || m.act.OpAct? {
        SideKeeps(Callee, s, x.a, m.act);
        forall i | Accepting(t, i) ensures t.phase != Idle {
          assert Accepting(s, i);
        }
      } else {
        CallKeeps(s, x.a, m.act, t);
      }
    }
  }

  lemma {:induction false} GuardRun(g: set<State>, x: Sys, ms: seq<Move>)
    requires SysInv(x) && Legal(x, ms) && NoEarly(x.b) && Idle !in g && Guarded(g, x, ms)
    ensures NoEarly(After(x, ms).b)
    decreases |ms|
  {
    if ms != [] {
      GuardStep(g, x, ms[0]);
      StepKeeps(x, ms[0]);
      GuardRun(g, Step(x, ms[0]), ms[1..]);
    }
  }

  /** Both ends agree wherever the threads stop, over every run in which Accept is called
      on sessions in the given states. */
  ghost predicate AgreeUnder(g: set<State>) {
    forall ms :: Legal(INIT, ms) && Guarded(g, INIT, ms) && Quiescent(After(INIT, ms)) ==> Agree(After(INIT, ms))
  }

  /** With Accept never called on an idle session, both ends agree. */
  lemma GuardedAgreement(g: set<State>, ms: seq<Move>)
    requires Idle !in g && Legal(INIT, ms) && Guarded(g, INIT, ms) && Quiescent(After(INIT, ms))
    ensures Agree(After(INIT, ms))
  {
    InitInv();
    GuardRun(g, INIT, ms);
    TwoPartyAgreement(ms, After(INIT, ms));
  }

  lemma {:induction false} GuardedMore(g: set<State>, x: Sys, ms: seq<Move>, m: Move)
    requires Legal(x, ms) && CanMove(After(x, ms), m) && Legal(x, ms + [m])
    ensures Guarded(g, x, ms + [m]) <==> Guarded(g, x, ms) && (m == ByCallee(CallAccept) ==> After(x, ms).b.phase in g)
    decreases |ms|
  {
    var all := ms + [m];
    if ms == [] {
      assert all[1..] == [];
    } else {
      assert all[0] == ms[0] && all[1..] == ms[1..] + [m];
      Append(Step(x, ms[0]), ms[1..], m);
      GuardedMore(g, Step(x, ms[0]), ms[1..], m);
    }
  }

  // ---------------------------------------------------------------- the exception

  /** ms is a run to x that calls Accept on idle sessions only. */
  predicate Early(ms: seq<Move>, x: Sys) {
    Legal(INIT, ms) && After(INIT, ms) == x && Guarded({Idle}, INIT, ms)
  }

  lemma Extend(ms: seq<Move>, x: Sys, m: Move) returns (longer: seq<Move>, y: Sys)
    requires Early(ms, x) && CanMove(x, m) && (m == ByCallee(CallAccept) ==> x.b.phase == Idle)
    ensures longer == ms + [m] && Early(longer, y) && y == Step(x, m)
  {
    longer, y := ms + [m], Step(x, m);
    Append(INIT, ms, m);
    GuardedMore({Idle}, INIT, ms, m);
  }

  lemma {:induction false} GuardedWider(g: set<State>, h: set<State>, x: Sys, ms: seq<Move>)
    requires Legal(x, ms) && g <= h && Guarded(g, x, ms)
    ensures Guarded(h, x, ms)
    decreases |ms|
  {
    if ms != [] {
      GuardedWider(g, h, Step(x, ms[0]), ms[1..]);
    }
  }

  const INVITING := NEW_CALLER.(bound := true, reg := true, known := true, out := [Invite], main := PRing)

  lemma EarlyInvite() returns (ms: seq<Move>, x: Sys)
    ensures Early(ms, x) && x == INIT.(a := INVITING)
  {
    var go := ByCaller(MainAct(false, ""));
    ms, x := Extend([], INIT, go);
    assert x == INIT.(a := NEW_CALLER.(bound := true, main := PRegister));
    ms, x := Extend(ms, x, go);
    assert x == INIT.(a := NEW_CALLER.(bound := true, reg := true, known := true, main := PLookup));
    ms, x := Extend(ms, x, go);
    assert x == INIT.(a := NEW_CALLER.(bound := true, reg := true, known := true, main := PEncode));
    ms, x := Extend(ms, x, go);
  }

  const REGISTERED := NEW_CALLEE.(exists_ := true, bound := true, reg := true, known := true, inp := 1, main := HRing)

  /** The callee has registered its session. */
  lemma EarlySession() returns (ms: seq<Move>, x: Sys)
    ensures Early(ms, x) && x.a == INVITING
    ensures x.b == REGISTERED
  {
    var serve := ByCallee(MainAct(false, ""));
    ms, x := EarlyInvite();
    ms, x := Extend(ms, x, serve);
    assert x == Sys(INVITING, NEW_CALLEE.(exists_ := true, inp := 1, main := HBind));
    ms, x := Extend(ms, x, serve);
    assert x == Sys(INVITING, NEW_CALLEE.(exists_ := true, bound := true, inp := 1, main := HRegister));
    ms, x := Extend(ms, x, serve);
  }

  /** The callee accepts before its session rings. */
  lemma EarlyAnswer() returns (ms: seq<Move>, x: Sys)
    ensures Early(ms, x) && x.a == INVITING
    ensures x.b == REGISTERED.(ops := [AccConnecting], out := [Accept], log := NO_LOG.(accer := 0))
  {
    ms, x := EarlySession();
    ms, x := Extend(ms, x, ByCallee(CallAccept));
    assert x == Sys(INVITING, REGISTERED.(ops := [AccLookup]));
    ms, x := Extend(ms, x, ByCallee(OpAct(0, false)));
    assert x == Sys(INVITING, REGISTERED.(ops := [AccEncode]));
    ms, x := Extend(ms, x, ByCallee(OpAct(0, false)));
  }

  /** Its session starts to ring only then. */
  lemma LateRing() returns (ms: seq<Move>, x: Sys)
    ensures Early(ms, x) && x.a == INVITING
    ensures x.b.main == RScan && x.b.inp == 1 && x.b.phase == Ringing && x.b.out == [Accept] && x.b.ops == [Finished] && !x.b.closed
            && !x.b.reset
  {
    ms, x := EarlyAnswer();
    ms, x := Extend(ms, x, ByCallee(OpAct(0, false)));
    assert x.b == REGISTERED.(ops := [Finished], out := [Accept], log := NO_LOG.(accer := 0, idleAcc := true));
    ms, x := Extend(ms, x, ByCallee(MainAct(false, "")));
  }

  /** The caller rings and reads the answer. */
  lemma EarlyRead() returns (ms: seq<Move>, x: Sys)
    ensures Early(ms, x)
    ensures x.a == INVITING.(phase := Ringing, main := RAccept1, inp := 1)
    ensures x.b.main == RScan && x.b.inp == 1 && x.b.phase == Ringing && x.b.out == [Accept] && x.b.ops == [Finished] && !x.b.closed
            && !x.b.reset
  {
    var go := ByCaller(MainAct(false, ""));
    ms, x := LateRing();
    var was := x;
    ms, x := Extend(ms, x, go);
    assert x == was.(a := INVITING.(phase := Ringing, main := PSpawn));
    ms, x := Extend(ms, x, go);
    assert x == was.(a := INVITING.(phase := Ringing, main := RScan));
    ms, x := Extend(ms, x, go);
  }

  /**
   Accept is not guarded by the session's state before it writes.  When it meets a
   registered session that does not ring yet, the caller is told that the call was
   answered and the callee goes on ringing, for good.
   */
  lemma EarlyAccept() returns (ms: seq<Move>, x: Sys)
    ensures Early(ms, x) && Quiescent(x)
    ensures x.a.phase == Connected && x.b.phase == Ringing && !Agree(x)
  {
    var go := ByCaller(MainAct(false, ""));
    ms, x := EarlyRead();
    var was := x;
    ms, x := Extend(ms, x, go);
    assert x == was.(a := INVITING.(phase := Connecting, main := RAccept2, inp := 1));
    ms, x := Extend(ms, x, go);
    assert x == was.(a := INVITING.(phase := Connected, main := RScan, inp := 1));
  }

  /** Agreement is safe exactly if Accept is never called on an idle session: that it is
      registered is not enough. */
  lemma AgreementIff(g: set<State>)
    ensures AgreeUnder(g) <==> Idle !in g
  {
    if Idle in g {
      var ms, x := EarlyAccept();
      GuardedWider({Idle}, g, INIT, ms);
    } else {
      forall ms | Legal(INIT, ms) && Guarded(g, INIT, ms) && Quiescent(After(INIT, ms)) ensures Agree(After(INIT, ms)) {
        GuardedAgreement(g, ms);
      }
    }
  }
}
