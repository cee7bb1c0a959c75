/** Every step of either side keeps the invariant, step by step. */
module CallSteps {
  import opened CallState
  import opened CallProtocol
  import opened CallInvariant
  import opened CallWeights

  // ---------------------------------------------------------------- Place

  lemma Bind(r: Role, s: Side, p: Side, t: Side)
    requires Inv(r, s, p) && s.main == PBind
    requires t == s.(bound := true, main := PRegister)
    ensures Inv(r, t, p) && Advances(s, t)
  {
  }

  lemma Register(r: Role, s: Side, p: Side, t: Side)
    requires Inv(r, s, p) && s.main == PRegister
    requires t == s.(reg := true, known := true, main := PLookup)
    ensures Inv(r, t, p) && Advances(s, t)
  {
  }

  lemma LookupFound(r: Role, s: Side, p: Side, t: Side)
    requires Inv(r, s, p) && s.main == PLookup && s.bound
    requires t == s.(main := PEncode)
    ensures Inv(r, t, p) && Advances(s, t)
  {
  }

  lemma LookupMissing(r: Role, s: Side, p: Side, t: Side)
    requires Inv(r, s, p) && s.main == PLookup && !s.bound
    requires t == s.(main := PFailEnd)
    ensures Inv(r, t, p) && Advances(s, t)
  {
  }

  lemma InviteFails(r: Role, s: Side, p: Side, t: Side)
    requires Both(r, s, p) && s.main == PEncode && (s.closed || p.closed)
    requires t == s.(main := PFailEnd)
    ensures Inv(r, t, p) && Advances(s, t)
  {
  }

  lemma InviteSent(r: Role, s: Side, p: Side, t: Side)
    requires Inv(r, s, p) && s.main == PEncode
    requires t == s.(out := s.out + [Invite], main := PRing)
    ensures Inv(r, t, p) && Advances(s, t)
  {
    Appended(s.out, Invite);
  }

  lemma Rings(r: Role, s: Side, p: Side, t: Side)
    requires Inv(r, s, p) && s.main == PRing && s.phase == Idle
    requires t == s.(phase := Ringing, main := PSpawn)
    ensures Inv(r, t, p) && Advances(s, t)
  {
  }

  lemma RingsLate(r: Role, s: Side, p: Side, t: Side)
    requires Inv(r, s, p) && s.main == PRing && s.phase != Idle
    requires t == s.(main := Done)
    ensures Inv(r, t, p) && Advances(s, t)
  {
  }

  lemma Spawns(r: Role, s: Side, p: Side, t: Side)
    requires Inv(r, s, p) && s.main == PSpawn && s.bound
    requires t == s.(main := RScan)
    ensures Inv(r, t, p) && Advances(s, t)
  {
  }

  lemma SpawnsLateHere(r: Role, s: Side, p: Side, t: Side)
    requires Inv(r, s, p) && s.main == PSpawn && !s.bound && t == s.(main := Done)
    ensures Local(r, t) && s.log.hung && s.phase == Ended
  {
  }

  lemma SpawnsLate(r: Role, s: Side, p: Side, t: Side)
    requires Inv(r, s, p) && s.main == PSpawn && !s.bound
    requires t == s.(main := Done)
    ensures Inv(r, t, p) && Advances(s, t)
  {
    SpawnsLateHere(r, s, p, t);
    assert Reads(r, t, p) && Breaks(t, p);
  }

  lemma GivesUp(r: Role, s: Side, p: Side, text: string, t: Side)
    requires Inv(r, s, p) && s.main == PFailEnd && s.phase != Ended
    requires t == s.(phase := Ended, reason := text, main := PFailUnbind, log := s.log.(ender := -1))
    ensures Inv(r, t, p) && Advances(s, t)
  {
  }

  lemma GivesUpLate(r: Role, s: Side, p: Side, t: Side)
    requires Inv(r, s, p) && s.main == PFailEnd && s.phase == Ended
    requires t == s.(main := PFailUnbind)
    ensures Inv(r, t, p) && Advances(s, t)
  {
  }

  lemma Unbinds(r: Role, s: Side, p: Side, t: Side)
    requires Inv(r, s, p) && s.main == PFailUnbind && s.bound
    requires t == s.(bound := false, main := PFailClose, log := s.log.(closer := -1))
    ensures Inv(r, t, p) && Advances(s, t)
  {
  }

  lemma UnbindsLate(r: Role, s: Side, p: Side, t: Side)
    requires Inv(r, s, p) && s.main == PFailUnbind && !s.bound
    requires t == s.(main := PFailRemove)
    ensures Inv(r, t, p) && Advances(s, t)
  {
  }

  lemma Closes(r: Role, s: Side, p: Side, t: Side)
    requires Inv(r, s, p) && s.main == PFailClose
    requires t == s.(closed := true, main := PFailRemove)
    ensures Inv(r, t, p) && Advances(s, t)
  {
  }

  lemma RemovesHere(r: Role, s: Side, t: Side)
    requires Local(r, s) && (s.main == PFailRemove || s.main == RRemove)
    requires t == s.(reg := false, main := Done)
    ensures Local(r, t) && s.phase == Ended
  {
  }

  lemma Removes(r: Role, s: Side, p: Side, t: Side)
    requires Inv(r, s, p) && s.main == PFailRemove
    requires t == s.(reg := false, main := Done)
    ensures Inv(r, t, p) && Advances(s, t)
  {
    RemovesHere(r, s, t);
  }

  // ---------------------------------------------------------------- handleStream

  lemma FirstInvite(r: Role, s: Side, p: Side, t: Side)
    requires Inv(r, s, p) && s.main == HFirst && p.out != [] && p.out[0] == Invite
    requires t == s.(inp := 1, exists_ := true, main := HBind)
    ensures Inv(r, t, p) && Advances(s, t)
  {
  }

  lemma FirstOther(r: Role, s: Side, p: Side, t: Side)
    requires Both(r, s, p) && s.main == HFirst && p.out != [] && p.out[0] != Invite
    requires t == s.(inp := 1, closed := true, reset := true, main := Done)
    ensures Inv(r, t, p) && Advances(s, t)
  {
  }

  /** The caller's output cannot end before the callee reads a first message. */
  lemma FirstExists(r: Role, s: Side, p: Side)
    requires Both(r, s, p) && s.main == HFirst && MainEnabled(s, p)
    ensures p.out != []
  {
  }

  lemma Binds(r: Role, s: Side, p: Side, t: Side)
    requires Inv(r, s, p) && s.main == HBind
    requires t == s.(bound := true, main := HRegister)
    ensures Inv(r, t, p) && Advances(s, t)
  {
  }

  lemma Registers(r: Role, s: Side, p: Side, t: Side)
    requires Inv(r, s, p) && s.main == HRegister
    requires t == s.(reg := true, known := true, main := HRing)
    ensures Inv(r, t, p) && Advances(s, t)
  {
  }

  lemma CalleeRings(r: Role, s: Side, p: Side, t: Side)
    requires Inv(r, s, p) && s.main == HRing && s.phase == Idle
    requires t == s.(phase := Ringing, main := RScan)
    ensures Inv(r, t, p) && Advances(s, t)
  {
  }

  lemma CalleeRingsLate(r: Role, s: Side, p: Side, t: Side)
    requires Inv(r, s, p) && s.main == HRing && s.phase != Idle
    requires t == s.(main := HAbort)
    ensures Inv(r, t, p) && Advances(s, t)
  {
  }

  lemma Aborts(r: Role, s: Side, p: Side, t: Side)
    requires Inv(r, s, p) && s.main == HAbort
    requires t == s.(closed := true, main := Done)
    ensures Inv(r, t, p) && Advances(s, t)
  {
    assert Local(r, t);
  }

  // ---------------------------------------------------------------- runScanner

  lemma ReadsError(r: Role, s: Side, p: Side, text: string, t: Side)
    requires Both(r, s, p) && s.main == RScan && (s.closed || p.reset)
    requires t == s.(main := REnd(text))
    ensures Inv(r, t, p) && Advances(s, t)
  {
    if s.main == RScan && s.inp < |p.out| && p.out[s.inp] == Hangup(text) { assert FirstHangup(p.out, text);}
  }

  lemma ReadsAccept(r: Role, s: Side, p: Side, t: Side)
    requires Both(r, s, p) && s.main == RScan && s.inp < |p.out| && p.out[s.inp] == Accept
    requires t == s.(inp := s.inp + 1, main := RAccept1)
    ensures Inv(r, t, p) && Advances(s, t)
  {
    assert r == Caller;
    assert Local(r, t);
    assert AcceptBy(p.out, t.inp) && NoHangupBy(p.out, t.inp);
  }

  lemma ReadsHangup(r: Role, s: Side, p: Side, text: string, t: Side)
    requires Inv(r, s, p) && s.main == RScan && s.inp < |p.out| && p.out[s.inp] == Hangup(text)
    requires t == s.(inp := s.inp + 1, main := REnd(text))
    ensures Inv(r, t, p) && Advances(s, t)
  {
    assert NoHangupBy(p.out, s.inp) && FirstHangup(p.out, text);
    assert AcceptBy(p.out, t.inp) <==> AcceptBy(p.out, s.inp);
    assert Reads(r, t, p);
    assert Reasons(t, p);
    assert Breaks(t, p);
    assert Flow(r, t);
  }

  lemma ReadsInvite(r: Role, s: Side, p: Side, t: Side)
    requires Inv(r, s, p) && s.main == RScan && s.inp < |p.out| && p.out[s.inp] == Invite
    requires t == s.(inp := s.inp + 1)
    ensures Inv(r, t, p) && Advances(s, t)
  {
    assert NoHangupBy(p.out, t.inp);
    assert AcceptBy(p.out, t.inp) <==> AcceptBy(p.out, s.inp);
    assert Local(r, t);
  }

  lemma ReadsEnd(r: Role, s: Side, p: Side, text: string, t: Side)
    requires Both(r, s, p) && s.main == RScan && s.inp >= |p.out| && p.closed
    requires t == s.(main := REnd(text))
    ensures Inv(r, t, p) && Advances(s, t)
  {
  }

  lemma EntersConnecting(r: Role, s: Side, p: Side, t: Side)
    requires Inv(r, s, p) && s.main == RAccept1 && s.phase == Ringing
    requires t == s.(phase := Connecting, main := RAccept2)
    ensures Inv(r, t, p) && Advances(s, t)
  {
  }

  lemma ConnectingLate(r: Role, s: Side, p: Side, t: Side)
    requires Inv(r, s, p) && s.main == RAccept1 && s.phase != Ringing
    requires t == s.(main := RAccept2)
    ensures Inv(r, t, p) && Advances(s, t)
  {
  }

  lemma EntersConnected(r: Role, s: Side, p: Side, t: Side)
    requires Inv(r, s, p) && s.main == RAccept2 && s.phase == Connecting
    requires t == s.(phase := Connected, main := RScan)
    ensures Inv(r, t, p) && Advances(s, t)
  {
  }

  lemma ConnectedLate(r: Role, s: Side, p: Side, t: Side)
    requires Inv(r, s, p) && s.main == RAccept2 && s.phase != Connecting
    requires t == s.(main := RScan)
    ensures Inv(r, t, p) && Advances(s, t)
  {
  }

  lemma Ends(r: Role, s: Side, p: Side, text: string, t: Side)
    requires Inv(r, s, p) && s.main == REnd(text) && s.phase != Ended
    requires t == s.(phase := Ended, reason := text, main := RUnbind, log := s.log.(ender := -1))
    ensures Inv(r, t, p) && Advances(s, t)
  {
  }

  lemma EndsLate(r: Role, s: Side, p: Side, t: Side)
    requires Inv(r, s, p) && s.main.REnd? && s.phase == Ended
    requires t == s.(main := RUnbind)
    ensures Inv(r, t, p) && Advances(s, t)
  {
  }

  lemma ScanUnbinds(r: Role, s: Side, p: Side, t: Side)
    requires Inv(r, s, p) && s.main == RUnbind && s.bound
    requires t == s.(bound := false, main := RClose, log := s.log.(closer := -1))
    ensures Inv(r, t, p) && Advances(s, t)
  {
  }

  lemma ScanUnbindsLate(r: Role, s: Side, p: Side, t: Side)
    requires Inv(r, s, p) && s.main == RUnbind && !s.bound
    requires t == s.(main := RRemove)
    ensures Inv(r, t, p) && Advances(s, t)
  {
  }

  lemma ScanCloses(r: Role, s: Side, p: Side, t: Side)
    requires Inv(r, s, p) && s.main == RClose
    requires t == s.(closed := true, main := RRemove)
    ensures Inv(r, t, p) && Advances(s, t)
  {
  }

  lemma ScanRemoves(r: Role, s: Side, p: Side, t: Side)
    requires Inv(r, s, p) && s.main == RRemove
    requires t == s.(reg := false, main := Done)
    ensures Inv(r, t, p) && Advances(s, t)
  {
    RemovesHere(r, s, t);
  }

  // ---------------------------------------------------------------- Accept and Hangup

  lemma AcceptFound(r: Role, s: Side, p: Side, i: nat, t: Side)
    requires Inv(r, s, p) && OpEnabled(s, i) && s.ops[i] == AccLookup && s.bound
    requires t == Goto(s, i, AccEncode)
    ensures Inv(r, t, p) && Advances(s, t)
  {
    OpsUpdate(s.ops, i, AccEncode);
  }

  lemma AcceptMissing(r: Role, s: Side, p: Side, i: nat, t: Side)
    requires Inv(r, s, p) && OpEnabled(s, i) && s.ops[i] == AccLookup && !s.bound
    requires t == Goto(s, i, Finished)
    ensures Inv(r, t, p) && Advances(s, t)
  {
    OpsUpdate(s.ops, i, Finished);
  }

  lemma AcceptFails(r: Role, s: Side, p: Side, i: nat, t: Side)
    requires Inv(r, s, p) && OpEnabled(s, i) && s.ops[i] == AccEncode
    requires t == Goto(s, i, Finished)
    ensures Inv(r, t, p) && Advances(s, t)
  {
    OpsUpdate(s.ops, i, Finished);
  }

  lemma AcceptSent(r: Role, s: Side, p: Side, i: nat, t: Side)
    requires Inv(r, s, p) && OpEnabled(s, i) && s.ops[i] == AccEncode
    requires t == Goto(s, i, AccConnecting).(out := s.out + [Accept], log := s.log.(accer := i))
    ensures Inv(r, t, p) && Advances(s, t)
  {
    OpsUpdate(s.ops, i, AccConnecting);
    Appended(s.out, Accept);
    assert r == Callee;
  }

  lemma AcceptEnters(r: Role, s: Side, p: Side, i: nat, t: Side)
    requires Inv(r, s, p) && OpEnabled(s, i) && s.ops[i] == AccConnecting && s.phase == Ringing
    requires t == Goto(s, i, AccConnected).(phase := Connecting, log := s.log.(stepper := i, rungAcc := true))
    ensures Inv(r, t, p) && Advances(s, t)
  {
    OpsUpdate(s.ops, i, AccConnected);
  }

  lemma AcceptTooEarly(r: Role, s: Side, p: Side, i: nat, t: Side)
    requires Inv(r, s, p) && OpEnabled(s, i) && s.ops[i] == AccConnecting && s.phase == Idle
    requires t == Goto(s, i, Finished).(log := s.log.(idleAcc := true))
    ensures Inv(r, t, p) && Advances(s, t)
  {
    OpsUpdate(s.ops, i, Finished);
    assert Accepting(s, i);
  }

  lemma AcceptTooLate(r: Role, s: Side, p: Side, i: nat, t: Side)
    requires Inv(r, s, p) && OpEnabled(s, i) && s.ops[i] == AccConnecting && !s.phase.Idle? && !s.phase.Ringing?
    requires t == Goto(s, i, Finished).(log := s.log.(rungAcc := true))
    ensures Inv(r, t, p) && Advances(s, t)
  {
    OpsUpdate(s.ops, i, Finished);
  }

  lemma AcceptConnects(r: Role, s: Side, p: Side, i: nat, t: Side)
    requires Inv(r, s, p) && OpEnabled(s, i) && s.ops[i] == AccConnected
    requires t == Goto(s, i, Finished).(phase := Entered(s.phase, Connected))
    ensures Inv(r, t, p) && Advances(s, t)
  {
    OpsUpdate(s.ops, i, Finished);
    if CanEnter(s.phase, Connected) {
      assert t == Goto(s, i, Finished).(phase := Connected);
    } else {
      assert t == Goto(s, i, Finished);
    }
  }

  lemma HangupFound(r: Role, s: Side, p: Side, i: nat, why: string, t: Side)
    requires Inv(r, s, p) && OpEnabled(s, i) && s.ops[i] == HangLookup(why) && s.bound
    requires t == Goto(s, i, HangEncode(why))
    ensures Inv(r, t, p) && Advances(s, t)
  {
    OpsUpdate(s.ops, i, HangEncode(why));
  }

  lemma HangupMissing(r: Role, s: Side, p: Side, i: nat, why: string, t: Side)
    requires Inv(r, s, p) && OpEnabled(s, i) && s.ops[i] == HangLookup(why) && !s.bound
    requires t == Goto(s, i, HangEnd(why))
    ensures Inv(r, t, p) && Advances(s, t)
  {
    OpsUpdate(s.ops, i, HangEnd(why));
  }

  lemma HangupFails(r: Role, s: Side, p: Side, i: nat, why: string, t: Side)
    requires Both(r, s, p) && OpEnabled(s, i) && s.ops[i] == HangEncode(why) && (s.closed || p.closed)
    requires t == Goto(s, i, HangEnd(why))
    ensures Inv(r, t, p) && Advances(s, t)
  {
    OpsUpdate(s.ops, i, HangEnd(why));
    HangupAccepts(s, i, HangEnd(why), t);
    assert Local(r, t);
  }

  lemma HangupSentHere(r: Role, s: Side, p: Side, i: nat, why: string, t: Side)
    requires Inv(r, s, p) && OpEnabled(s, i) && s.ops[i] == HangEncode(why)
    requires t == Goto(s, i, HangEnd(why)).(out := s.out + [Hangup(why)], log := s.log.(hanger := i))
    ensures Local(r, t)
  {
    Appended(s.out, Hangup(why));
  }

  lemma HangupSent(r: Role, s: Side, p: Side, i: nat, why: string, t: Side)
    requires Inv(r, s, p) && OpEnabled(s, i) && s.ops[i] == HangEncode(why)
    requires t == Goto(s, i, HangEnd(why)).(out := s.out + [Hangup(why)], log := s.log.(hanger := i))
    ensures Inv(r, t, p) && Advances(s, t)
  {
    OpsUpdate(s.ops, i, HangEnd(why));
    HangupSentHere(r, s, p, i, why, t);
    Appended(s.out, Hangup(why));
  }

  lemma HangupEnds(r: Role, s: Side, p: Side, i: nat, why: string, t: Side)
    requires Inv(r, s, p) && OpEnabled(s, i) && s.ops[i] == HangEnd(why) && s.phase != Ended
    requires t == Goto(s, i, HangUnbind).(phase := Ended, reason := why, log := s.log.(ender := i))
    ensures Inv(r, t, p) && Advances(s, t)
  {
    OpsUpdate(s.ops, i, HangUnbind);
  }

  lemma HangupEndsLate(r: Role, s: Side, p: Side, i: nat, t: Side)
    requires Inv(r, s, p) && OpEnabled(s, i) && s.ops[i].HangEnd? && s.phase == Ended
    requires t == Goto(s, i, HangUnbind)
    ensures Inv(r, t, p) && Advances(s, t)
  {
    OpsUpdate(s.ops, i, HangUnbind);
  }

  lemma HangupUnbinds(r: Role, s: Side, p: Side, i: nat, t: Side)
    requires Inv(r, s, p) && OpEnabled(s, i) && s.ops[i] == HangUnbind && s.bound
    requires t == Goto(s, i, HangClose).(bound := false, log := s.log.(closer := i))
    ensures Inv(r, t, p) && Advances(s, t)
  {
    OpsUpdate(s.ops, i, HangClose);
  }

  lemma HangupUnbindsLate(r: Role, s: Side, p: Side, i: nat, t: Side)
    requires Inv(r, s, p) && OpEnabled(s, i) && s.ops[i] == HangUnbind && !s.bound
    requires t == Goto(s, i, HangRemove)
    ensures Inv(r, t, p) && Advances(s, t)
  {
    OpsUpdate(s.ops, i, HangRemove);
  }

  /** A step of Hangup starts no Accept. */
  lemma HangupAccepts(s: Side, i: nat, op: Op, t: Side)
    requires i < |s.ops| && t.ops == s.ops[i := op] && !InAccept(op) && t.log == s.log
    ensures AcceptsOnward(s, t)
  {
    forall j | Accepting(t, j) ensures Accepting(s, j) {
      assert j != i;
    }
  }

  lemma HangupCloses(r: Role, s: Side, p: Side, i: nat, t: Side)
    requires Inv(r, s, p) && OpEnabled(s, i) && s.ops[i] == HangClose
    requires t == Goto(s, i, HangRemove).(closed := true)
    ensures Inv(r, t, p) && Advances(s, t)
  {
    OpsUpdate(s.ops, i, HangRemove);
    HangupAccepts(s, i, HangRemove, t);
  }

  lemma HangupRemoves(r: Role, s: Side, p: Side, i: nat, t: Side)
    requires Inv(r, s, p) && OpEnabled(s, i) && s.ops[i] == HangRemove
    requires t == Goto(s, i, Finished).(reg := false)
    ensures Inv(r, t, p) && Advances(s, t)
  {
    OpsUpdate(s.ops, i, Finished);
    HangupAccepts(s, i, Finished, t);
  }

  lemma AcceptStarts(r: Role, s: Side, p: Side, t: Side)
    requires Inv(r, s, p) && s.known && r == Callee
    requires t == s.(ops := s.ops + [AccLookup])
    ensures Inv(r, t, p)
  {
  }

  lemma AcceptRefused(r: Role, s: Side, p: Side, t: Side)
    requires Inv(r, s, p) && s.known && r == Caller
    requires t == s.(ops := s.ops + [Finished])
    ensures Inv(r, t, p)
  {
  }

  lemma HangupStarts(r: Role, s: Side, p: Side, why: string, t: Side)
    requires Inv(r, s, p) && s.known
    requires t == s.(ops := s.ops + [HangLookup(why)], log := s.log.(hung := true))
    ensures Inv(r, t, p)
  {
  }

  // ---------------------------------------------------------------- all steps

  lemma PlaceKeeps(r: Role, s: Side, p: Side, fail: bool, t: Side, m: Main)
    requires m == s.main && Both(r, s, p) && InPlace(s.main) && t == PlaceStep(s, p, fail)
    ensures Inv(r, t, p) && Advances(s, t)
  {
    match m
    case PBind => Bind(r, s, p, t);
    case PRegister => Register(r, s, p, t);
    case PLookup => if s.bound { LookupFound(r, s, p, t); } else { LookupMissing(r, s, p, t); }
    case PEncode => if WriteFails(s, p, fail) { InviteFails(r, s, p, t); } else { InviteSent(r, s, p, t); }
    case PRing => if s.phase == Idle { Rings(r, s, p, t); } else { RingsLate(r, s, p, t); }
    case PSpawn => if s.bound { Spawns(r, s, p, t); } else { SpawnsLate(r, s, p, t); }
  }

  lemma PlaceErrorKeeps(r: Role, s: Side, p: Side, text: string, t: Side, m: Main)
    requires m == s.main && Both(r, s, p) && InPlaceError(s.main) && t == PlaceErrorStep(s, text)
    ensures Inv(r, t, p) && Advances(s, t)
  {
    match m
    case PFailEnd => if s.phase == Ended { GivesUpLate(r, s, p, t); } else { GivesUp(r, s, p, text, t); }
    case PFailUnbind => if s.bound { Unbinds(r, s, p, t); } else { UnbindsLate(r, s, p, t); }
    case PFailClose => Closes(r, s, p, t);
    case PFailRemove => Removes(r, s, p, t);
  }

  lemma HandleKeeps(r: Role, s: Side, p: Side, t: Side, m: Main)
    requires m == s.main && Both(r, s, p) && InHandle(s.main) && MainEnabled(s, p) && t == HandleStep(s, p)
    ensures Inv(r, t, p) && Advances(s, t)
  {
    match m
    case HFirst =>
      FirstExists(r, s, p);
      if p.out[0] == Invite { FirstInvite(r, s, p, t); } else { FirstOther(r, s, p, t); }
    case HBind => Binds(r, s, p, t);
    case HRegister => Registers(r, s, p, t);
    case HRing => if s.phase == Idle { CalleeRings(r, s, p, t); } else { CalleeRingsLate(r, s, p, t); }
    case HAbort => Aborts(r, s, p, t);
  }

  lemma MessageKeeps(r: Role, s: Side, p: Side, fail: bool, text: string, t: Side, m: Msg)
    requires Both(r, s, p) && s.inp < |p.out| && m == p.out[s.inp] && s.main == RScan && !((s.closed || p.reset) && fail)
    requires t == Scan(s, p, fail, text)
    ensures Inv(r, t, p) && Advances(s, t)
  {
    match m
    case Accept => ReadsAccept(r, s, p, t);
    case Hangup(why) => ReadsHangup(r, s, p, why, t);
    case Decline(_) => assert false;
    case Invite => ReadsInvite(r, s, p, t);
  }

  lemma ScanKeeps(r: Role, s: Side, p: Side, fail: bool, text: string, t: Side)
    requires Both(r, s, p) && s.main == RScan && Readable(s, p) && t == Scan(s, p, fail, text)
    ensures Inv(r, t, p) && Advances(s, t)
  {
    if (s.closed || p.reset) && fail {
      ReadsError(r, s, p, text, t);
    } else if s.inp < |p.out| {
      MessageKeeps(r, s, p, fail, text, t, p.out[s.inp]);
    } else if s.closed || p.reset {
      ReadsError(r, s, p, text, t);
    } else {
      ReadsEnd(r, s, p, "remote disconnected", t);
    }
  }

  lemma ScanAcceptKeeps(r: Role, s: Side, p: Side, t: Side)
    requires (s.main == RAccept1 || s.main == RAccept2) && Both(r, s, p) && t == ServeStep(s)
    ensures Inv(r, t, p) && Advances(s, t)
  {
    if s.main == RAccept1 && s.phase == Ringing {
      EntersConnecting(r, s, p, t);
    } else if s.main == RAccept1 {
      ConnectingLate(r, s, p, t);
    } else if s.phase == Connecting {
      EntersConnected(r, s, p, t);
    } else {
      ConnectedLate(r, s, p, t);
    }
  }

  lemma ServeKeeps(r: Role, s: Side, p: Side, t: Side, m: Main)
    requires m == s.main && Both(r, s, p) && InScanner(s.main) && t == ServeStep(s)
    ensures Inv(r, t, p) && Advances(s, t)
  {
    match m
    case RAccept1 => ScanAcceptKeeps(r, s, p, t);
    case RAccept2 => ScanAcceptKeeps(r, s, p, t);
    case REnd(why) => if s.phase == Ended { EndsLate(r, s, p, t); } else { Ends(r, s, p, why, t); }
    case RUnbind => if s.bound { ScanUnbinds(r, s, p, t); } else { ScanUnbindsLate(r, s, p, t); }
    case RClose => ScanCloses(r, s, p, t);
    case RRemove => ScanRemoves(r, s, p, t);
  }

  lemma AcceptEntersKeeps(r: Role, s: Side, p: Side, i: nat, fail: bool, t: Side)
    requires Both(r, s, p) && OpEnabled(s, i) && s.ops[i] == AccConnecting && t == AcceptStep(s, p, i, fail)
    ensures Inv(r, t, p) && Advances(s, t)
  {
    match s.phase
    case Ringing => AcceptEnters(r, s, p, i, t);
    case Idle => AcceptTooEarly(r, s, p, i, t);
    case _ => AcceptTooLate(r, s, p, i, t);
  }

  lemma AcceptKeeps(r: Role, s: Side, p: Side, i: nat, fail: bool, t: Side, op: Op)
    requires Both(r, s, p) && OpEnabled(s, i) && op == s.ops[i] && InAccept(op) && t == AcceptStep(s, p, i, fail)
    ensures Inv(r, t, p) && Advances(s, t)
  {
    match op
    case AccLookup => if s.bound { AcceptFound(r, s, p, i, t); } else { AcceptMissing(r, s, p, i, t); }
    case AccEncode => if WriteFails(s, p, fail) { AcceptFails(r, s, p, i, t); } else { AcceptSent(r, s, p, i, t); }
    case AccConnecting => AcceptEntersKeeps(r, s, p, i, fail, t);
    case AccConnected => AcceptConnects(r, s, p, i, t);
  }

  lemma HangupKeeps(r: Role, s: Side, p: Side, i: nat, fail: bool, t: Side, op: Op)
    requires Both(r, s, p) && OpEnabled(s, i) && op == s.ops[i] && InHangup(op) && t == HangupStep(s, p, i, fail)
    ensures Inv(r, t, p) && Advances(s, t)
  {
    match op
    case HangLookup(why) => if s.bound { HangupFound(r, s, p, i, why, t); } else { HangupMissing(r, s, p, i, why, t); }
    case HangEncode(why) =>
      if WriteFails(s, p, fail) { HangupFails(r, s, p, i, why, t); } else { HangupSent(r, s, p, i, why, t); }
    case HangEnd(why) => if s.phase == Ended { HangupEndsLate(r, s, p, i, t); } else { HangupEnds(r, s, p, i, why, t); }
  }

  lemma CleanKeeps(r: Role, s: Side, p: Side, i: nat, t: Side, op: Op)
    requires Both(r, s, p) && OpEnabled(s, i) && op == s.ops[i] && InCleanup(op) && t == CleanStep(s, i)
    ensures Inv(r, t, p) && Advances(s, t)
  {
    match op
    case HangUnbind => if s.bound { HangupUnbinds(r, s, p, i, t); } else { HangupUnbindsLate(r, s, p, i, t); }
    case HangClose => HangupCloses(r, s, p, i, t);
    case HangRemove => HangupRemoves(r, s, p, i, t);
  }

  lemma MainKeeps(r: Role, s: Side, p: Side, fail: bool, text: string, t: Side)
    requires Both(r, s, p) && MainEnabled(s, p) && t == MainStep(s, p, fail, text)
    ensures Inv(r, t, p) && Advances(s, t)
  {
    if InPlace(s.main) {
      PlaceKeeps(r, s, p, fail, t, s.main);
    } else if InPlaceError(s.main) {
      PlaceErrorKeeps(r, s, p, text, t, s.main);
    } else if InHandle(s.main) {
      HandleKeeps(r, s, p, t, s.main);
    } else if s.main == RScan {
      ScanKeeps(r, s, p, fail, text, t);
    } else {
      ServeKeeps(r, s, p, t, s.main);
    }
  }

  lemma OpKeeps(r: Role, s: Side, p: Side, i: nat, fail: bool, t: Side)
    requires Both(r, s, p) && OpEnabled(s, i) && t == OpStep(s, p, i, fail)
    ensures Inv(r, t, p) && Advances(s, t)
  {
    var op := s.ops[i];
    if InAccept(op) {
      AcceptKeeps(r, s, p, i, fail, t, op);
    } else if InHangup(op) {
      HangupKeeps(r, s, p, i, fail, t, op);
    } else {
      CleanKeeps(r, s, p, i, t, op);
    }
  }

  lemma SideKeeps(r: Role, s: Side, p: Side, a: Act)
    requires Both(r, s, p) && Enabled(s, p, a)
    ensures Both(r, SideStep(r, s, p, a), p)
    ensures Onward(s, SideStep(r, s, p, a)) && AtMostOne(s.out, SideStep(r, s, p, a).out)
    ensures a.MainAct? || a.OpAct? ==> Spends(s, SideStep(r, s, p, a)) && AcceptsOnward(s, SideStep(r, s, p, a))
  {
    var t := SideStep(r, s, p, a);
    ActKeeps(r, s, p, a, t);
    PeerWrites(Other(r), p, s, t);
  }

  lemma ActKeeps(r: Role, s: Side, p: Side, a: Act, t: Side)
    requires Both(r, s, p) && Enabled(s, p, a) && t == SideStep(r, s, p, a)
    ensures Inv(r, t, p) && Onward(s, t) && AtMostOne(s.out, t.out)
    ensures a.MainAct? || a.OpAct? ==> Spends(s, t) && AcceptsOnward(s, t)
  {
    match a
    case MainAct(fail, text) => MainKeeps(r, s, p, fail, text, t);
    case OpAct(i, fail) => OpKeeps(r, s, p, i, fail, t);
    case CallAccept => CallAcceptKeeps(r, s, p, t);
    case CallHangup(why) => HangupStarts(r, s, p, why, t);
  }

  lemma CallAcceptKeeps(r: Role, s: Side, p: Side, t: Side)
    requires Both(r, s, p) && s.known && t == SideStep(r, s, p, CallAccept)
    ensures Inv(r, t, p) && Onward(s, t) && AtMostOne(s.out, t.out)
  {
    if r == Callee { AcceptStarts(r, s, p, t); } else { AcceptRefused(r, s, p, t); }
  }

  lemma StepKeeps(x: Sys, m: Move)
    requires SysInv(x) && CanMove(x, m)
    ensures SysInv(Step(x, m))
  {
    match m
    case ByCaller(act) => SideKeeps(Caller, x.a, x.b, act);
    case ByCallee(act) => SideKeeps(Callee, x.b, x.a, act);
  }

  lemma RunKeeps(x: Sys, ms: seq<Move>)
    requires SysInv(x) && Legal(x, ms)
    ensures SysInv(After(x, ms))
    decreases |ms|
  {
    if ms != [] {
      StepKeeps(x, ms[0]);
      RunKeeps(Step(x, ms[0]), ms[1..]);
    }
  }

  /** Whatever both ends do and however their threads interleave. */
  lemma Reachable(ms: seq<Move>)
    requires Legal(INIT, ms)
    ensures SysInv(After(INIT, ms))
  {
    InitInv();
    RunKeeps(INIT, ms);
  }
}
