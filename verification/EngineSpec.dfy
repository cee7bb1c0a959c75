/** What the engine's operations do to one call when no other thread interferes, and
    that this is the same as running the steps of the protocol to their end. */
module EngineSpec {
  import opened CallState
  import P = CallProtocol

  /** One line read from a control stream. */
  datatype Line = Garbage | Line(callId: string, caller: string, msg: P.Msg)

  /** What the rest of the program sees of one call. */
  datatype View = View(phase: State, reason: string, bound: bool, reg: bool, closed: bool)

  function EndView(v: View, why: string): View {
    if v.phase == Ended then v else v.(phase := Ended, reason := why)
  }

  /** unbindAndClose, then Remove. */
  function Cleaned(v: View): View {
    (if v.bound then v.(bound := false, closed := true) else v).(reg := false)
  }

  /** Whether a message gets out; `down` says that the stream below refuses it. */
  predicate Sends(v: View, down: bool) {
    v.bound && !v.closed && !down
  }

  function AcceptView(v: View, down: bool): View {
    if Sends(v, down) && v.phase == Ringing then v.(phase := Connected) else v
  }

  function HangupView(v: View, why: string): View {
    Cleaned(EndView(v, why))
  }

  // ---------------------------------------------------------------- the read loop

  /** The state of the session when the loop ends, why it ends, and how many lines were
      taken. */
  datatype Served = Served(phase: State, text: string, read: nat)

  function AfterAccept(st: State): State {
    Entered(Entered(st, Connecting), Connected)
  }

  /** The lines Scan delivers before it returns false, and the text for that. */
  function Serve(id: string, st: State, lines: seq<Line>, text: string): Served
    decreases |lines|
  {
    if lines == [] then Served(st, text, 0)
    else
      var l := lines[0];
      if l.Garbage? || l.callId != id || l.msg == P.Invite then
        var rest := Serve(id, st, lines[1..], text);
        rest.(read := rest.read + 1)
      else if l.msg == P.Accept then
        var rest := Serve(id, AfterAccept(st), lines[1..], text);
        rest.(read := rest.read + 1)
      else
        Served(st, ClosingText(l), 1)
  }

  predicate Closing(id: string, l: Line) {
    l.Line? && l.callId == id && (l.msg.Hangup? || l.msg.Decline?)
  }

  predicate Accepting(id: string, l: Line) {
    l.Line? && l.callId == id && l.msg == P.Accept
  }

  /** What one line does to the session, if it does not end the call. */
  function Affected(id: string, st: State, l: Line): State {
    if Accepting(id, l) then AfterAccept(st) else st
  }

  function ClosingText(l: Line): string
    requires l.Line? && (l.msg.Hangup? || l.msg.Decline?)
  {
    if l.msg.Hangup? then l.msg.reason else "declined: " + l.msg.reason
  }

  lemma ServeOne(id: string, st: State, lines: seq<Line>, text: string, r: Served)
    requires lines != [] && r == Serve(id, st, lines, text)
    ensures Closing(id, lines[0]) ==> r == Served(st, ClosingText(lines[0]), 1)
    ensures !Closing(id, lines[0]) ==>
              var rest := Serve(id, Affected(id, st, lines[0]), lines[1..], text);
              r == rest.(read := rest.read + 1)
  {
  }

  predicate Closes(id: string, lines: seq<Line>) {
    exists k :: 0 <= k < |lines| && Closing(id, lines[k])
  }

  /** Lines are taken up to the first HANGUP or DECLINE of this call, which also says
      why the call ends. */
  lemma {:induction false} ServeReads(id: string, st: State, lines: seq<Line>, text: string, r: Served)
    requires r == Serve(id, st, lines, text)
    ensures r.read <= |lines|
    ensures forall k :: 0 <= k < r.read - 1 ==> !Closing(id, lines[k])
    ensures Closes(id, lines) <==> r.read > 0 && Closing(id, lines[r.read - 1])
    ensures !Closes(id, lines) ==> r.read == |lines|
    ensures r.text == if Closes(id, lines) then ClosingText(lines[r.read - 1]) else text
    decreases |lines|
  {
    if lines != [] {
      var l, tail := lines[0], lines[1..];
      assert forall k :: 0 <= k < |tail| ==> tail[k] == lines[k + 1];
      ServeOne(id, st, lines, text, r);
      if !Closing(id, l) {
        var st1 := Affected(id, st, l);
        ServeReads(id, st1, tail, text, Serve(id, st1, tail, text));
        assert Closes(id, lines) <==> Closes(id, tail);
      }
    }
  }

  /** Nothing in l ends the call: it is of another call, or no message, or a harmless one. */
  predicate Harmless(id: string, l: Line) {
    l.Line? && l.callId == id ==> l.msg == P.Invite || l.msg == P.Accept
  }

  /** The first HANGUP or DECLINE of this very call decides, and nothing behind it counts. */
  lemma ServeEndsAt(id: string, st: State, lines: seq<Line>, text: string, r: Served, k: nat, why: string)
    requires r == Serve(id, st, lines, text) && k < |lines| && forall j :: 0 <= j < k ==> Harmless(id, lines[j])
    requires lines[k].Line? && lines[k].callId == id && (lines[k].msg == P.Hangup(why) || lines[k].msg == P.Decline(why))
    ensures r.read == k + 1 && r.text == if lines[k].msg.Hangup? then why else "declined: " + why
  {
    ServeReads(id, st, lines, text, r);
    assert Closing(id, lines[k]) && forall j :: 0 <= j < k ==> !Closing(id, lines[j]);
  }

  predicate Answered(id: string, lines: seq<Line>, n: nat) {
    exists k :: 0 <= k < n && k < |lines| && Accepting(id, lines[k])
  }

  /** A ringing session is connected when the loop ends exactly if an ACCEPT of this
      call came first; idle, connected and ended sessions are left as they were. */
  lemma {:induction false} ServeAnswers(id: string, st: State, lines: seq<Line>, text: string, r: Served)
    requires r == Serve(id, st, lines, text)
    ensures st == Ringing ==> r.phase == if Answered(id, lines, r.read) then Connected else Ringing
    ensures st == Connecting ==> r.phase == if Answered(id, lines, r.read) then Connected else Connecting
    ensures st == Connected || st == Idle || st == Ended ==> r.phase == st
    ensures Answered(id, lines, r.read)
            <==> exists k :: 0 <= k < r.read && k < |lines| && lines[k].Line? && lines[k].callId == id && lines[k].msg == P.Accept
    decreases |lines|
  {
    if lines != [] {
      var l, tail := lines[0], lines[1..];
      assert forall k :: 0 <= k < |tail| ==> tail[k] == lines[k + 1];
      ServeOne(id, st, lines, text, r);
      if !Closing(id, l) {
        var st1 := Affected(id, st, l);
        ServeAnswers(id, st1, tail, text, Serve(id, st1, tail, text));
        if Answered(id, tail, r.read - 1) {
          var k :| 0 <= k < r.read - 1 && k < |tail| && Accepting(id, tail[k]);
          assert Accepting(id, lines[k + 1]);
        }
      }
    }
  }

  lemma ServeStays(id: string, st: State, lines: seq<Line>, text: string, r: Served)
    requires r == Serve(id, st, lines, text) && st != Ended
    ensures r.phase != Ended
  {
    ServeAnswers(id, st, lines, text, r);
  }

  /** Without a line that ends this very call, the end of the stream gives the reason; the
      lines alone never end a session. */
  lemma ServeRunsOut(id: string, st: State, lines: seq<Line>, text: string, r: Served)
    requires r == Serve(id, st, lines, text)
    ensures (forall l <- lines :: Harmless(id, l)) ==> r.text == text && r.read == |lines|
    ensures st != Ended ==> r.phase != Ended
  {
    ServeReads(id, st, lines, text, r);
    if st != Ended { ServeStays(id, st, lines, text, r); }
    if Closes(id, lines) {
      var k :| 0 <= k < |lines| && Closing(id, lines[k]);
      assert !Harmless(id, lines[k]);
    }
  }

  // ---------------------------------------------------------------- the protocol's steps

  function ViewOf(s: P.Side): View {
    View(s.phase, s.reason, s.bound, s.reg, s.closed)
  }

  /** Up to n steps of operation i while everything else rests. */
  function OpSteps(s: P.Side, p: P.Side, i: nat, fail: bool, n: nat): P.Side
    decreases n
  {
    if n == 0 || !P.OpEnabled(s, i) then s else OpSteps(P.OpStep(s, p, i, fail), p, i, fail, n - 1)
  }

  lemma Finishing(s: P.Side, p: P.Side, i: nat, fail: bool, n: nat)
    requires i < |s.ops| && s.ops[i] == P.Finished
    ensures OpSteps(s, p, i, fail, n) == s
  {
  }

  lemma Stepping(s: P.Side, p: P.Side, i: nat, fail: bool, n: nat, t: P.Side)
    requires P.OpEnabled(s, i) && n > 0 && t == P.OpStep(s, p, i, fail)
    ensures OpSteps(s, p, i, fail, n) == OpSteps(t, p, i, fail, n - 1)
  {
  }

  /** The end of Hangup. */
  lemma SoloCleanup(s: P.Side, p: P.Side, i: nat, fail: bool, n: nat) returns (t: P.Side)
    requires i < |s.ops| && s.ops[i] == P.HangUnbind && n >= 3
    ensures t == OpSteps(s, p, i, fail, n) && i < |t.ops| && t.ops[i] == P.Finished
    ensures ViewOf(t) == Cleaned(ViewOf(s)) && t.out == s.out
  {
    var s1 := if s.bound then P.Goto(s, i, P.HangClose).(bound := false, log := s.log.(closer := i)) else P.Goto(s, i, P.HangRemove);
    Stepping(s, p, i, fail, n, s1);
    var s2 := if s.bound then P.Goto(s1, i, P.HangRemove).(closed := true) else s1;
    if s.bound {
      Stepping(s1, p, i, fail, n - 1, s2);
    }
    t := P.Goto(s2, i, P.Finished).(reg := false);
    Stepping(s2, p, i, fail, if s.bound then n - 2 else n - 1, t);
    Finishing(t, p, i, fail, if s.bound then n - 3 else n - 2);
  }

  lemma SoloEnd(s: P.Side, p: P.Side, i: nat, fail: bool, why: string, n: nat) returns (t: P.Side)
    requires i < |s.ops| && s.ops[i] == P.HangEnd(why) && n >= 4
    ensures t == OpSteps(s, p, i, fail, n) && i < |t.ops| && t.ops[i] == P.Finished
    ensures ViewOf(t) == HangupView(ViewOf(s), why) && t.out == s.out
  {
    var s1: P.Side;
    if s.phase == Ended {
      s1 := P.Goto(s, i, P.HangUnbind);
    } else {
      s1 := P.Goto(s, i, P.HangUnbind).(phase := Ended, reason := why, log := s.log.(ender := i));
    }
    Stepping(s, p, i, fail, n, s1);
    t := SoloCleanup(s1, p, i, fail, n - 1);
  }

  lemma SoloHangup(s: P.Side, p: P.Side, i: nat, fail: bool, why: string) returns (t: P.Side)
    requires i < |s.ops| && s.ops[i] == P.HangLookup(why)
    ensures t == OpSteps(s, p, i, fail, 6) && i < |t.ops| && t.ops[i] == P.Finished
    ensures ViewOf(t) == HangupView(ViewOf(s), why)
    ensures t.out == if Sends(ViewOf(s), p.closed && fail) then s.out + [P.Hangup(why)] else s.out
  {
    if s.bound {
      var s1 := P.Goto(s, i, P.HangEncode(why));
      Stepping(s, p, i, fail, 6, s1);
      var s2: P.Side;
      if Sends(ViewOf(s), p.closed && fail) {
        s2 := P.Goto(s1, i, P.HangEnd(why)).(out := s.out + [P.Hangup(why)], log := s.log.(hanger := i));
      } else {
        s2 := P.Goto(s1, i, P.HangEnd(why));
      }
      Stepping(s1, p, i, fail, 5, s2);
      t := SoloEnd(s2, p, i, fail, why, 4);
    } else {
      var s1 := P.Goto(s, i, P.HangEnd(why));
      Stepping(s, p, i, fail, 6, s1);
      t := SoloEnd(s1, p, i, fail, why, 5);
    }
  }

  lemma SoloAccept(s: P.Side, p: P.Side, i: nat, fail: bool) returns (t: P.Side)
    requires i < |s.ops| && s.ops[i] == P.AccLookup
    ensures t == OpSteps(s, p, i, fail, 4) && i < |t.ops| && t.ops[i] == P.Finished
    ensures ViewOf(t) == AcceptView(ViewOf(s), p.closed && fail)
    ensures t.out == if Sends(ViewOf(s), p.closed && fail) then s.out + [P.Accept] else s.out
  {
    if !s.bound {
      t := P.Goto(s, i, P.Finished);
      Stepping(s, p, i, fail, 4, t);
      Finishing(t, p, i, fail, 3);
      return;
    }
    var s1 := P.Goto(s, i, P.AccEncode);
    Stepping(s, p, i, fail, 4, s1);
    if !Sends(ViewOf(s), p.closed && fail) {
      t := P.Goto(s1, i, P.Finished);
      Stepping(s1, p, i, fail, 3, t);
      Finishing(t, p, i, fail, 2);
      return;
    }
    var s2 := P.Goto(s1, i, P.AccConnecting).(out := s.out + [P.Accept], log := s.log.(accer := i));
    Stepping(s1, p, i, fail, 3, s2);
    t := SoloEnters(s2, p, i, fail);
  }

  lemma SoloEnters(s: P.Side, p: P.Side, i: nat, fail: bool) returns (t: P.Side)
    requires i < |s.ops| && s.ops[i] == P.AccConnecting
    ensures t == OpSteps(s, p, i, fail, 2) && i < |t.ops| && t.ops[i] == P.Finished && t.out == s.out
    ensures ViewOf(t) == if s.phase == Ringing then ViewOf(s).(phase := Connected) else ViewOf(s)
  {
    if s.phase == Ringing {
      var s1 := P.Goto(s, i, P.AccConnected).(phase := Connecting, log := s.log.(rungAcc := true, stepper := i));
      Stepping(s, p, i, fail, 2, s1);
      t := P.Goto(s1, i, P.Finished).(phase := Connected);
      Stepping(s1, p, i, fail, 1, t);
    } else {
      t := SoloRefused(s, p, i, fail);
    }
  }

  lemma SoloRefused(s: P.Side, p: P.Side, i: nat, fail: bool) returns (t: P.Side)
    requires i < |s.ops| && s.ops[i] == P.AccConnecting && s.phase != Ringing
    ensures t == OpSteps(s, p, i, fail, 2) && i < |t.ops| && t.ops[i] == P.Finished && t.out == s.out && ViewOf(t) == ViewOf(s)
  {
    if s.phase == Idle {
      t := P.Goto(s, i, P.Finished).(log := s.log.(idleAcc := true));
      Stepping(s, p, i, fail, 2, t);
    } else {
      t := P.Goto(s, i, P.Finished).(log := s.log.(rungAcc := true));
      Stepping(s, p, i, fail, 2, t);
    }
    Finishing(t, p, i, fail, 1);
  }

  // ---------------------------------------------------------------- the scanner's steps

  function MainSteps(s: P.Side, p: P.Side, fail: bool, text: string, n: nat): P.Side
    decreases n
  {
    if n == 0 || !P.MainEnabled(s, p) then s else MainSteps(P.MainStep(s, p, fail, text), p, fail, text, n - 1)
  }

  function Wrapped(id: string, ms: seq<P.Msg>): (r: seq<Line>)
    ensures |r| == |ms|
  {
    if ms == [] then [] else [Line(id, "", ms[0])] + Wrapped(id, ms[1..])
  }

  lemma ServeStepping(s: P.Side, p: P.Side, text: string, n: nat, t: P.Side)
    requires P.InScanner(s.main) && n > 0 && t == P.ServeStep(s)
    ensures MainSteps(s, p, false, text, n) == MainSteps(t, p, false, text, n - 1)
  {
    assert t == P.MainStep(s, p, false, text);
  }

  lemma ScanStepping(s: P.Side, p: P.Side, text: string, n: nat, t: P.Side)
    requires s.main == P.RScan && P.Readable(s, p) && n > 0 && t == P.Scan(s, p, false, text)
    ensures MainSteps(s, p, false, text, n) == MainSteps(t, p, false, text, n - 1)
  {
    assert t == P.MainStep(s, p, false, text);
  }

  /** The deferred unbindAndClose and Remove. */
  lemma SoloUnbind(s: P.Side, p: P.Side, text: string, n: nat) returns (t: P.Side)
    requires s.main == P.RUnbind && n >= 3
    ensures t == MainSteps(s, p, false, text, n) && t.main == P.Done && t.inp == s.inp
    ensures ViewOf(t) == Cleaned(ViewOf(s))
  {
    if s.bound {
      var s1 := s.(bound := false, main := P.RClose, log := s.log.(closer := -1));
      ServeStepping(s, p, text, n, s1);
      var s2 := s1.(closed := true, main := P.RRemove);
      ServeStepping(s1, p, text, n - 1, s2);
      t := SoloRemoves(s2, p, text, n - 2);
    } else {
      var s1 := s.(main := P.RRemove);
      ServeStepping(s, p, text, n, s1);
      t := SoloRemoves(s1, p, text, n - 1);
    }
  }

  lemma SoloRemoves(s: P.Side, p: P.Side, text: string, n: nat) returns (t: P.Side)
    requires s.main == P.RRemove && n >= 1
    ensures t == MainSteps(s, p, false, text, n) && t == s.(reg := false, main := P.Done)
  {
    t := s.(reg := false, main := P.Done);
    ServeStepping(s, p, text, n, t);
  }

  lemma SoloEnds(s: P.Side, p: P.Side, text: string, n: nat, why: string) returns (t: P.Side)
    requires s.main == P.REnd(why) && n >= 4
    ensures t == MainSteps(s, p, false, text, n) && t.main == P.Done && t.inp == s.inp
    ensures ViewOf(t) == HangupView(ViewOf(s), why)
  {
    var s1 := SoloEndStep(s, p, text, n, why);
    t := SoloUnbind(s1, p, text, n - 1);
  }

  lemma SoloEndStep(s: P.Side, p: P.Side, text: string, n: nat, why: string) returns (t: P.Side)
    requires s.main == P.REnd(why) && n > 0
    ensures MainSteps(s, p, false, text, n) == MainSteps(t, p, false, text, n - 1)
    ensures t.main == P.RUnbind && t.inp == s.inp && ViewOf(t) == EndView(ViewOf(s), why)
  {
    t := P.EndBy(s, why, -1).(main := P.RUnbind);
    assert t == P.ServeStep(s);
    ServeStepping(s, p, text, n, t);
  }

  const EOF := "remote disconnected"

  /** The scanner alone, up to its return, on a stream the peer has closed. */
  lemma {:induction false} SoloServe(id: string, s: P.Side, p: P.Side, msgs: seq<P.Msg>, r: Served) returns (n: nat, t: P.Side)
    requires s.main == P.RScan && s.inp <= |p.out| && p.closed && !p.reset && !s.closed
    requires msgs == p.out[s.inp..] && r == Serve(id, s.phase, Wrapped(id, msgs), EOF)
    ensures t == MainSteps(s, p, false, "", n) && t.main == P.Done && t.inp == s.inp + r.read
    ensures ViewOf(t) == HangupView(ViewOf(s).(phase := r.phase), r.text)
    decreases |msgs|
  {
    if msgs == [] {
      n, t := SoloReturns(s, p, s.(main := P.REnd(EOF)), EOF);
      return;
    }
    var m, rest := msgs[0], msgs[1..];
    assert m == p.out[s.inp] && rest == p.out[s.inp + 1..];
    if m == P.Invite || m == P.Accept {
      var r1 := ServeSkips(id, s.phase, msgs, r);
      var s1 := Skipped(s, m);
      n, t := SoloServe(id, s1, p, rest, r1);
      n := SoloSkips(s, p, m, s1, n);
    } else {
      var why := ServeStops(id, s.phase, msgs, r);
      n, t := SoloStops(s, p, m, why);
    }
  }

  lemma SoloSkips(s: P.Side, p: P.Side, m: P.Msg, t: P.Side, n: nat) returns (n': nat)
    requires s.main == P.RScan && s.inp < |p.out| && m == p.out[s.inp]
    requires (m == P.Invite || m == P.Accept) && t == Skipped(s, m)
    ensures MainSteps(s, p, false, "", n') == MainSteps(t, p, false, "", n)
  {
    if m == P.Invite {
      n' := n + 1;
      ScanStepping(s, p, "", n', t);
    } else {
      n' := n + 3;
      SoloAnswers(s, p, t, n);
    }
  }

  lemma ServeSkips(id: string, st: State, msgs: seq<P.Msg>, r: Served) returns (r1: Served)
    requires msgs != [] && r == Serve(id, st, Wrapped(id, msgs), EOF) && (msgs[0] == P.Invite || msgs[0] == P.Accept)
    ensures r1 == Serve(id, if msgs[0] == P.Accept then AfterAccept(st) else st, Wrapped(id, msgs[1..]), EOF)
    ensures r == r1.(read := r1.read + 1)
  {
    var lines := Wrapped(id, msgs);
    assert lines[0] == Line(id, "", msgs[0]) && lines[1..] == Wrapped(id, msgs[1..]);
    r1 := Serve(id, if msgs[0] == P.Accept then AfterAccept(st) else st, lines[1..], EOF);
  }

  lemma ServeStops(id: string, st: State, msgs: seq<P.Msg>, r: Served) returns (text: string)
    requires msgs != [] && r == Serve(id, st, Wrapped(id, msgs), EOF) && (msgs[0].Hangup? || msgs[0].Decline?)
    ensures text == if msgs[0].Hangup? then msgs[0].reason else "declined: " + msgs[0].reason
    ensures r == Served(st, text, 1)
  {
    text := if msgs[0].Hangup? then msgs[0].reason else "declined: " + msgs[0].reason;
    assert Wrapped(id, msgs)[0] == Line(id, "", msgs[0]);
  }

  lemma SoloReturns(s: P.Side, p: P.Side, s1: P.Side, why: string) returns (n: nat, t: P.Side)
    requires s.main == P.RScan && P.Readable(s, p) && s1 == P.Scan(s, p, false, "") && s1.main == P.REnd(why)
    ensures t == MainSteps(s, p, false, "", n) && t.main == P.Done && t.inp == s1.inp
    ensures ViewOf(t) == HangupView(ViewOf(s1), why)
  {
    n := 5;
    t := SoloEnds(s1, p, "", 4, why);
    ScanStepping(s, p, "", 5, s1);
  }

  lemma SoloStops(s: P.Side, p: P.Side, m: P.Msg, why: string) returns (n: nat, t: P.Side)
    requires s.main == P.RScan && s.inp < |p.out| && m == p.out[s.inp] && (m.Hangup? || m.Decline?)
    requires why == if m.Hangup? then m.reason else "declined: " + m.reason
    ensures t == MainSteps(s, p, false, "", n) && t.main == P.Done && t.inp == s.inp + 1
    ensures ViewOf(t) == HangupView(ViewOf(s), why)
  {
    var s1 := s.(inp := s.inp + 1, main := P.REnd(why));
    n, t := SoloReturns(s, p, s1, why);
  }

  function Skipped(s: P.Side, m: P.Msg): (t: P.Side)
    ensures t.main == s.main && t.inp == s.inp + 1 && t.closed == s.closed
    ensures ViewOf(t) == ViewOf(s).(phase := if m == P.Accept then AfterAccept(s.phase) else s.phase)
  {
    if m == P.Accept then s.(phase := AfterAccept(s.phase), inp := s.inp + 1) else s.(inp := s.inp + 1)
  }

  lemma SoloAnswers(s: P.Side, p: P.Side, t: P.Side, n: nat)
    requires s.main == P.RScan && s.inp < |p.out| && p.out[s.inp] == P.Accept && t == Skipped(s, P.Accept)
    ensures MainSteps(s, p, false, "", n + 3) == MainSteps(t, p, false, "", n)
  {
    var s1 := s.(inp := s.inp + 1, main := P.RAccept1);
    ScanStepping(s, p, "", n + 3, s1);
    SoloAnswers2(s1, p, t, n);
  }

  lemma SoloAnswers2(s: P.Side, p: P.Side, t: P.Side, n: nat)
    requires s.main == P.RAccept1 && t == s.(phase := AfterAccept(s.phase), main := P.RScan)
    ensures MainSteps(s, p, false, "", n + 2) == MainSteps(t, p, false, "", n)
  {
    var s2 := s.(phase := Entered(s.phase, Connecting), main := P.RAccept2);
    ServeStepping(s, p, "", n + 2, s2);
    ServeStepping(s2, p, "", n + 1, t);
  }

  // ---------------------------------------------------------------- Place and handleStream

  lemma PlaceStepping(s: P.Side, p: P.Side, fail: bool, text: string, n: nat, t: P.Side)
    requires P.InPlace(s.main) && n > 0 && t == P.PlaceStep(s, p, fail)
    ensures MainSteps(s, p, fail, text, n) == MainSteps(t, p, fail, text, n - 1)
  {
    assert t == P.MainStep(s, p, fail, text);
  }

  lemma PlaceErrorStepping(s: P.Side, p: P.Side, fail: bool, text: string, n: nat, t: P.Side)
    requires P.InPlaceError(s.main) && n > 0 && t == P.PlaceErrorStep(s, text)
    ensures MainSteps(s, p, fail, text, n) == MainSteps(t, p, fail, text, n - 1)
  {
    assert t == P.MainStep(s, p, fail, text);
  }

  lemma HandleStepping(s: P.Side, p: P.Side, n: nat, t: P.Side)
    requires P.InHandle(s.main) && P.MainEnabled(s, p) && n > 0 && t == P.HandleStep(s, p)
    ensures MainSteps(s, p, false, "", n) == MainSteps(t, p, false, "", n - 1)
  {
    assert t == P.MainStep(s, p, false, "");
  }

  /** A new session, bound and registered. */
  const OPENED := View(Idle, "", true, true, false)

  predicate Unused(s: P.Side) {
    s.phase == Idle && s.reason == "" && !s.closed
  }

  lemma SoloOpens(s: P.Side, p: P.Side, fail: bool, text: string, n: nat) returns (t: P.Side)
    requires s.main == P.PBind && Unused(s) && n >= 3
    ensures MainSteps(s, p, fail, text, n) == MainSteps(t, p, fail, text, n - 3)
    ensures t.main == P.PEncode && ViewOf(t) == OPENED && t.out == s.out
  {
    var s1 := s.(bound := true, main := P.PRegister);
    PlaceStepping(s, p, fail, text, n, s1);
    var s2 := s1.(reg := true, known := true, main := P.PLookup);
    PlaceStepping(s1, p, fail, text, n - 1, s2);
    t := s2.(main := P.PEncode);
    PlaceStepping(s2, p, fail, text, n - 2, t);
  }

  lemma SoloInvites(s: P.Side, p: P.Side, fail: bool, text: string, n: nat) returns (t: P.Side)
    requires s.main == P.PEncode && ViewOf(s) == OPENED && !(p.closed && fail) && n >= 3
    ensures MainSteps(s, p, fail, text, n) == MainSteps(t, p, fail, text, n - 3)
    ensures t.main == P.RScan && ViewOf(t) == OPENED.(phase := Ringing) && t.out == s.out + [P.Invite]
  {
    var s1 := s.(out := s.out + [P.Invite], main := P.PRing);
    PlaceStepping(s, p, fail, text, n, s1);
    var s2 := s1.(phase := Ringing, main := P.PSpawn);
    PlaceStepping(s1, p, fail, text, n - 1, s2);
    t := s2.(main := P.RScan);
    PlaceStepping(s2, p, fail, text, n - 2, t);
  }

  lemma SoloGivesUp(s: P.Side, p: P.Side, fail: bool, text: string, n: nat) returns (t: P.Side)
    requires s.main == P.PEncode && ViewOf(s) == OPENED && p.closed && fail && n >= 5
    ensures t == MainSteps(s, p, fail, text, n) && t.main == P.Done
    ensures ViewOf(t) == HangupView(OPENED, text) && t.out == s.out
  {
    var s1 := s.(main := P.PFailEnd);
    PlaceStepping(s, p, fail, text, n, s1);
    var s2 := s1.(phase := Ended, reason := text, main := P.PFailUnbind, log := s1.log.(ender := -1));
    PlaceErrorStepping(s1, p, fail, text, n - 1, s2);
    var s3 := s2.(bound := false, main := P.PFailClose, log := s2.log.(closer := -1));
    PlaceErrorStepping(s2, p, fail, text, n - 2, s3);
    var s4 := s3.(closed := true, main := P.PFailRemove);
    PlaceErrorStepping(s3, p, fail, text, n - 3, s4);
    t := s4.(reg := false, main := P.Done);
    PlaceErrorStepping(s4, p, fail, text, n - 4, t);
  }

  /** Place alone: a ringing session and its INVITE if the stream takes it, else nothing
      but the reason. */
  lemma SoloPlace(s: P.Side, p: P.Side, fail: bool, text: string) returns (n: nat, t: P.Side)
    requires s.main == P.PBind && Unused(s)
    ensures t == MainSteps(s, p, fail, text, n)
    ensures !(p.closed && fail) ==>
              t.main == P.RScan && ViewOf(t) == OPENED.(phase := Ringing) && t.out == s.out + [P.Invite]
    ensures p.closed && fail ==> t.main == P.Done && ViewOf(t) == HangupView(OPENED, text) && t.out == s.out
  {
    if p.closed && fail {
      n := 8;
      var s1 := SoloOpens(s, p, fail, text, 8);
      t := SoloGivesUp(s1, p, fail, text, 5);
    } else {
      n := 6;
      var s1 := SoloOpens(s, p, fail, text, 6);
      t := SoloInvites(s1, p, fail, text, 3);
    }
  }

  function Rung(s: P.Side): (t: P.Side)
    ensures Unused(s) ==> ViewOf(t) == OPENED.(phase := Ringing)
    ensures t.main == P.RScan && t.inp == 1 && t.closed == s.closed
  {
    s.(inp := 1, exists_ := true, bound := true, reg := true, known := true, phase := Ringing, main := P.RScan)
  }

  lemma SoloRings(s: P.Side, p: P.Side, n: nat)
    requires s.main == P.HFirst && Unused(s) && p.out != [] && p.out[0] == P.Invite
    ensures MainSteps(s, p, false, "", n + 4) == MainSteps(Rung(s), p, false, "", n)
  {
    var s1 := s.(inp := 1, exists_ := true, main := P.HBind);
    HandleStepping(s, p, n + 4, s1);
    var s2 := s1.(bound := true, main := P.HRegister);
    HandleStepping(s1, p, n + 3, s2);
    var s3 := s2.(reg := true, known := true, main := P.HRing);
    HandleStepping(s2, p, n + 2, s3);
    HandleStepping(s3, p, n + 1, Rung(s));
  }

  lemma SoloRefuses(s: P.Side, p: P.Side) returns (t: P.Side)
    requires s.main == P.HFirst && p.closed && (p.out == [] || p.out[0] != P.Invite)
    ensures t == MainSteps(s, p, false, "", 1) && t.main == P.Done
    ensures t.closed && t.reset && t.bound == s.bound && t.reg == s.reg
  {
    t := s.(inp := if p.out != [] then 1 else 0, closed := true, reset := true, main := P.Done);
    HandleStepping(s, p, 1, t);
  }

  lemma SoloServes(id: string, s: P.Side, p: P.Side, r: Served) returns (n: nat, t: P.Side)
    requires s.main == P.HFirst && Unused(s) && p.closed && !p.reset && p.out != [] && p.out[0] == P.Invite
    requires r == Serve(id, Ringing, Wrapped(id, p.out[1..]), EOF)
    ensures t == MainSteps(s, p, false, "", n) && t.main == P.Done
    ensures ViewOf(t) == View(Ended, r.text, false, false, true) && t.inp == 1 + r.read
  {
    ServeRunsOut(id, Ringing, Wrapped(id, p.out[1..]), EOF, r);
    n, t := SoloServe(id, Rung(s), p, p.out[1..], r);
    SoloRings(s, p, n);
    n := n + 4;
  }

  /** handleStream alone, on a stream the peer has closed: after an INVITE the call is
      served to its end and gone, anything else resets the stream. */
  lemma SoloHandle(id: string, s: P.Side, p: P.Side, r: Served) returns (n: nat, t: P.Side)
    requires s.main == P.HFirst && Unused(s) && p.closed && !p.reset
    requires p.out != [] ==> r == Serve(id, Ringing, Wrapped(id, p.out[1..]), EOF)
    ensures t == MainSteps(s, p, false, "", n) && t.main == P.Done
    ensures p.out != [] && p.out[0] == P.Invite ==>
              ViewOf(t) == View(Ended, r.text, false, false, true) && t.inp == 1 + r.read
    ensures p.out == [] || p.out[0] != P.Invite ==> t.closed && t.reset && t.bound == s.bound && t.reg == s.reg
  {
    if p.out != [] && p.out[0] == P.Invite {
      n, t := SoloServes(id, s, p, r);
    } else {
      n := 1;
      t := SoloRefuses(s, p);
    }
  }
}
