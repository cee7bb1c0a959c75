/**
 From the two-party protocol to what an end's clients and audio sessions see of it.
 The protocol's steps commit the state changes; when they are broadcast, delivered,
 fanned out and acted upon is up to the scheduler.
 */
module CallEvents {
  import opened CallState
  import opened CallProtocol
  import opened CallInvariant
  import opened CallSteps
  import opened CallTheorems
  import SE = SessionEvents
  import A = Attach
  import F = Fanout
  import AM = AudioManagers

  function SideOf(r: Role, x: Sys): Side {
    if r == Caller then x.a else x.b
  }

  // ---------------------------------------------------------------- what a step commits

  /** Registration comes first and happens once; every other step takes the state one up,
      or to Ended, or leaves it. */
  predicate Commits(s: Side, t: Side) {
    && (t.phase == s.phase || CanEnter(s.phase, t.phase) || (s.phase != Ended && t.phase == Ended))
    && (s.known ==> t.known)
    && (t.known && !s.known ==> t.phase == s.phase)
  }

  lemma PlaceCommits(s: Side, p: Side, fail: bool, m: Main, t: Side)
    requires m == s.main && InPlace(m) && t == PlaceStep(s, p, fail)
    ensures Commits(s, t)
  {
  }

  lemma PlaceErrorCommits(s: Side, text: string, m: Main, t: Side)
    requires m == s.main && InPlaceError(m) && t == PlaceErrorStep(s, text)
    ensures Commits(s, t)
  {
  }

  lemma HandleCommits(s: Side, p: Side, m: Main, t: Side)
    requires m == s.main && InHandle(m) && MainEnabled(s, p) && t == HandleStep(s, p)
    ensures Commits(s, t)
  {
  }

  lemma ScanCommits(s: Side, p: Side, fail: bool, text: string, t: Side)
    requires Readable(s, p) && t == Scan(s, p, fail, text)
    ensures Commits(s, t)
  {
    if (s.closed || p.reset) && fail {
      assert t == s.(main := REnd(text));
    } else if s.inp < |p.out| {
      MessageCommits(s, p, fail, text, p.out[s.inp], t);
    }
  }

  lemma MessageCommits(s: Side, p: Side, fail: bool, text: string, msg: Msg, t: Side)
    requires s.inp < |p.out| && msg == p.out[s.inp] && !((s.closed || p.reset) && fail) && t == Scan(s, p, fail, text)
    ensures t.phase == s.phase && t.known == s.known
  {
    if msg.Hangup? || msg.Decline? {
      assert t.main.REnd? && t == s.(inp := s.inp + 1, main := t.main);
    } else if msg == Accept {
      assert t == s.(inp := s.inp + 1, main := RAccept1);
    } else {
      assert t == s.(inp := s.inp + 1);
    }
  }

  lemma ServeCommits(s: Side, m: Main, t: Side)
    requires m == s.main && InScanner(m) && t == ServeStep(s)
    ensures Commits(s, t)
  {
  }

  lemma MainCommits(s: Side, p: Side, fail: bool, text: string, t: Side)
    requires MainEnabled(s, p) && t == MainStep(s, p, fail, text)
    ensures Commits(s, t)
  {
    var m := s.main;
    if InPlace(m) {
      PlaceCommits(s, p, fail, m, t);
    } else if InPlaceError(m) {
      PlaceErrorCommits(s, text, m, t);
    } else if InHandle(m) {
      HandleCommits(s, p, m, t);
    } else if m == RScan {
      ScanCommits(s, p, fail, text, t);
    } else {
      ServeCommits(s, m, t);
    }
  }

  lemma AcceptCommits(s: Side, p: Side, i: nat, fail: bool, op: Op, t: Side)
    requires OpEnabled(s, i) && op == s.ops[i] && InAccept(op) && t == AcceptStep(s, p, i, fail)
    ensures Commits(s, t)
  {
    if op == AccConnecting {
      ConnectingCommits(s, p, i, fail, t);
    } else if op == AccConnected {
      assert t.phase == Entered(s.phase, Connected);
    } else {
      assert t.phase == s.phase;
    }
  }

  lemma ConnectingCommits(s: Side, p: Side, i: nat, fail: bool, t: Side)
    requires OpEnabled(s, i) && s.ops[i] == AccConnecting && t == AcceptStep(s, p, i, fail)
    ensures Commits(s, t)
  {
    assert CanEnter(s.phase, Connecting) || t.phase == s.phase;
  }

  lemma HangupCommits(s: Side, p: Side, i: nat, fail: bool, op: Op, t: Side)
    requires OpEnabled(s, i) && op == s.ops[i] && InHangup(op) && t == HangupStep(s, p, i, fail)
    ensures Commits(s, t)
  {
  }

  lemma CleanCommits(s: Side, i: nat, op: Op, t: Side)
    requires OpEnabled(s, i) && op == s.ops[i] && InCleanup(op) && t == CleanStep(s, i)
    ensures Commits(s, t)
  {
  }

  lemma SideCommits(r: Role, s: Side, p: Side, a: Act)
    requires Enabled(s, p, a)
    ensures Commits(s, SideStep(r, s, p, a))
  {
    var t := SideStep(r, s, p, a);
    match a
    case MainAct(fail, text) => MainCommits(s, p, fail, text, t);
    case OpAct(i, fail) =>
      var op := s.ops[i];
      if InAccept(op) {
        AcceptCommits(s, p, i, fail, op, t);
      } else if InHangup(op) {
        HangupCommits(s, p, i, fail, op, t);
      } else {
        CleanCommits(s, i, op, t);
      }
    case CallAccept =>
    case CallHangup(_) =>
  }

  lemma MoveCommits(r: Role, x: Sys, m: Move)
    requires CanMove(x, m)
    ensures Commits(SideOf(r, x), SideOf(r, Step(x, m)))
  {
    match m
    case ByCaller(act) => SideCommits(Caller, x.a, x.b, act);
    case ByCallee(act) => SideCommits(Callee, x.b, x.a, act);
  }

  // ---------------------------------------------------------------- one session

  /** The session machine's name for committing a state. */
  function Committing(to: State): SE.Act {
    if to == Ended then SE.EndCall else SE.Enter(to)
  }

  function Change(s: Side, t: Side): seq<SE.Act> {
    if s.phase == t.phase then [] else [Committing(t.phase)]
  }

  /** The changes that the run ms commits at the end r. */
  function Changes(r: Role, x: Sys, ms: seq<Move>): seq<SE.Act>
    requires Legal(x, ms)
    decreases |ms|
  {
    if ms == [] then []
    else Change(SideOf(r, x), SideOf(r, Step(x, ms[0]))) + Changes(r, Step(x, ms[0]), ms[1..])
  }

  predicate IsCommit(a: SE.Act) {
    a.Enter? || a.EndCall?
  }

  /** The commits among the acts of a session. */
  function Committed(acts: seq<SE.Act>): seq<SE.Act> {
    if acts == [] then [] else (if IsCommit(acts[0]) then [acts[0]] else []) + Committed(acts[1..])
  }

  function Next(st: State, a: SE.Act): State {
    match a
    case Enter(to) => to
    case EndCall => Ended
    case _ => st
  }

  function StateAfter(st: State, acts: seq<SE.Act>): State
    decreases |acts|
  {
    if acts == [] then st else StateAfter(Next(st, acts[0]), acts[1..])
  }

  lemma {:induction false} StateConcat(st: State, a: seq<SE.Act>, b: seq<SE.Act>)
    ensures StateAfter(st, a + b) == StateAfter(StateAfter(st, a), b)
    decreases |a|
  {
    if a == [] {
      assert a + b == b;
    } else {
      assert (a + b)[1..] == a[1..] + b;
      StateConcat(Next(st, a[0]), a[1..], b);
    }
  }

  lemma {:induction false} CommitsDecide(st: State, acts: seq<SE.Act>)
    ensures StateAfter(st, Committed(acts)) == StateAfter(st, acts)
    decreases |acts|
  {
    if acts != [] {
      var first := if IsCommit(acts[0]) then [acts[0]] else [];
      assert StateAfter(st, first) == Next(st, acts[0]);
      StateConcat(st, first, Committed(acts[1..]));
      CommitsDecide(Next(st, acts[0]), acts[1..]);
    }
  }

  lemma {:induction false} SessionState(y: SE.Sess, acts: seq<SE.Act>)
    requires SE.Legal(y, acts)
    ensures SE.After(y, acts).st == StateAfter(y.st, acts)
    decreases |acts|
  {
    if acts != [] {
      SessionState(SE.Step(y, acts[0]), acts[1..]);
    }
  }

  lemma {:induction false} RunState(r: Role, x: Sys, ms: seq<Move>)
    requires Legal(x, ms)
    ensures StateAfter(SideOf(r, x).phase, Changes(r, x, ms)) == SideOf(r, After(x, ms)).phase
    decreases |ms|
  {
    if ms != [] {
      var y := Step(x, ms[0]);
      StateConcat(SideOf(r, x).phase, Change(SideOf(r, x), SideOf(r, y)), Changes(r, y, ms[1..]));
      RunState(r, y, ms[1..]);
    }
  }

  /** Every run of the protocol is, at either end, a run of the session machine. */
  lemma {:induction false} RunsAreSessions(r: Role, x: Sys, ms: seq<Move>, y: SE.Sess)
    requires Legal(x, ms) && y.st == SideOf(r, x).phase
    ensures SE.Legal(y, Changes(r, x, ms)) && SE.After(y, Changes(r, x, ms)).st == SideOf(r, After(x, ms)).phase
    decreases |ms|
  {
    if ms != [] {
      var x1, all := Step(x, ms[0]), Changes(r, x, ms);
      var c := Change(SideOf(r, x), SideOf(r, x1));
      MoveCommits(r, x, ms[0]);
      if c == [] {
        assert all == Changes(r, x1, ms[1..]);
        RunsAreSessions(r, x1, ms[1..], y);
      } else {
        assert all[0] == c[0] && all[1..] == Changes(r, x1, ms[1..]);
        RunsAreSessions(r, x1, ms[1..], SE.Step(y, c[0]));
      }
    }
  }

  // ---------------------------------------------------------------- a client

  /** What the session does while a client is attached, apart from that client. */
  function EnvActs(ms: seq<A.Move>): seq<SE.Act> {
    if ms == [] then [] else (if ms[0].Env? then [ms[0].a] else []) + EnvActs(ms[1..])
  }

  /** An end that a client saw is the session's end. */
  predicate SnapHolds(c: A.Client) {
    c.snap == Ended && !c.pc.Waiting? ==> c.x.st == Ended
  }

  lemma {:induction false} ClientState(c: A.Client, ms: seq<A.Move>)
    requires A.LegalMoves(c, ms) && SnapHolds(c)
    ensures SnapHolds(A.AfterMoves(c, ms)) && A.AfterMoves(c, ms).x.st == StateAfter(c.x.st, EnvActs(ms))
    decreases |ms|
  {
    if ms != [] {
      ClientState(A.Do(c, ms[0]), ms[1..]);
      var first := if ms[0].Env? then [ms[0].a] else [];
      assert StateAfter(c.x.st, first) == A.Do(c, ms[0]).x.st;
      StateConcat(c.x.st, first, EnvActs(ms[1..]));
    }
  }

  lemma EndedIsOver(c: A.Client)
    requires A.ClientInv(c) && SnapHolds(c) && Ended in c.wire
    ensures c.x.st == Ended
  {
    var u := c.x.subs[c.i];
    if c.snap != Ended {
      assert Ended in u.got;
      var k :| 0 <= k < |u.got| && u.got[k] == Ended;
      SE.GotIsLog(u, c.x.log);
      assert Ended in c.x.log;
    }
  }

  /** c is a client of the end r of a run of the protocol: it attached at any time to the
      session whose changes are those that the run commits there. */
  ghost predicate Watches(r: Role, ms: seq<Move>, before: seq<SE.Act>, after: seq<A.Move>, c: A.Client)
    requires Legal(INIT, ms)
  {
    && SE.Legal(SE.FRESH, before) && A.LegalMoves(A.Joined(SE.After(SE.FRESH, before)), after)
    && c == A.AfterMoves(A.Joined(SE.After(SE.FRESH, before)), after)
    && Committed(before) + Committed(EnvActs(after)) == Changes(r, INIT, ms)
  }

  lemma WatchedState(r: Role, ms: seq<Move>, before: seq<SE.Act>, after: seq<A.Move>, c: A.Client)
    requires Legal(INIT, ms) && Watches(r, ms, before, after, c)
    ensures A.ClientInv(c) && SnapHolds(c) && c.x.st == SideOf(r, After(INIT, ms)).phase
    ensures SE.Inv(SE.After(SE.FRESH, before))
  {
    var y := SE.After(SE.FRESH, before);
    SE.RunInv(SE.FRESH, before);
    A.JoinKeeps(y);
    A.MovesKeep(A.Joined(y), after);
    SessionState(SE.FRESH, before);
    ClientState(A.Joined(y), after);
    CommitsDecide(Idle, before);
    CommitsDecide(y.st, EnvActs(after));
    StateConcat(Idle, Committed(before), Committed(EnvActs(after)));
    RunState(r, INIT, ms);
  }

  /** At no time is a client told of an end before somebody hung up. */
  lemma EndedMeansHangup(r: Role, ms: seq<Move>, before: seq<SE.Act>, after: seq<A.Move>, c: A.Client)
    requires Legal(INIT, ms) && Watches(r, ms, before, after, c) && Ended in c.wire
    ensures var x := After(INIT, ms); AnyHangup(x.a, x.b)
  {
    WatchedState(r, ms, before, after, c);
    EndedIsOver(c);
    Reachable(ms);
  }

  /** When the threads of both ends rest and the events are delivered, the last thing
      that a client at either end was told is "ended" exactly if either user hung up. */
  lemma ClientsHearTheEnd(r: Role, ms: seq<Move>, x: Sys, before: seq<SE.Act>, after: seq<A.Move>, c: A.Client)
    requires Legal(INIT, ms) && x == After(INIT, ms) && Quiescent(x) && SideOf(r, x).exists_
    requires Watches(r, ms, before, after, c)
    requires Ended !in c.x.pend && !c.dropped && c.i < |c.x.subs| && A.Drained(c)
    ensures c.wire != [] && c.wire[|c.wire| - 1] == Ended <==> AnyHangup(x.a, x.b)
  {
    WatchedState(r, ms, before, after, c);
    TwoPartyAgreement(ms, x);
    A.AttachStream(SE.After(SE.FRESH, before), after);
    if c.wire != [] && c.wire[|c.wire| - 1] == Ended {
      EndedMeansHangup(r, ms, before, after, c);
    }
  }

  lemma {:induction false} SessionConcat(y: SE.Sess, a: seq<SE.Act>, b: seq<SE.Act>)
    requires SE.Legal(y, a) && SE.Legal(SE.After(y, a), b)
    ensures SE.Legal(y, a + b) && SE.After(y, a + b) == SE.After(SE.After(y, a), b)
    decreases |a|
  {
    if a == [] {
      assert a + b == b;
    } else {
      var y1, all := SE.Step(y, a[0]), a + b;
      assert all[0] == a[0] && all[1..] == a[1..] + b;
      SessionConcat(y1, a[1..], b);
      assert SE.Legal(y, all) && SE.After(y, all) == SE.After(y1, all[1..]);
      assert SE.After(y, a) == SE.After(y1, a[1..]);
    }
  }

  lemma {:induction false} CommittedConcat(a: seq<SE.Act>, b: seq<SE.Act>)
    ensures Committed(a + b) == Committed(a) + Committed(b)
  {
    if a == [] {
      assert a + b == b;
    } else {
      assert (a + b)[0] == a[0] && (a + b)[1..] == a[1..] + b;
      CommittedConcat(a[1..], b);
    }
  }

  lemma CastAll(y: SE.Sess) returns (acts: seq<SE.Act>)
    ensures SE.Legal(y, acts) && SE.After(y, acts).pend == {} && Committed(acts) == []
    decreases |y.pend|
  {
    if y.pend == {} {
      acts := [];
    } else {
      var s :| s in y.pend;
      var rest := CastAll(SE.Step(y, SE.Cast(s)));
      acts := [SE.Cast(s)] + rest;
      assert acts[1..] == rest;
    }
  }

  lemma {:induction false} ChangesCommit(r: Role, x: Sys, ms: seq<Move>)
    requires Legal(x, ms)
    ensures Committed(Changes(r, x, ms)) == Changes(r, x, ms)
    decreases |ms|
  {
    if ms != [] {
      var y := Step(x, ms[0]);
      var c, rest := Change(SideOf(r, x), SideOf(r, y)), Changes(r, y, ms[1..]);
      ChangesCommit(r, y, ms[1..]);
      if c == [] {
        assert c + rest == rest;
      } else {
        assert (c + rest)[1..] == rest;
      }
    }
  }

  /** Every run can be watched, at either end, by a client to whom all is delivered. */
  lemma SomeoneWatches(r: Role, ms: seq<Move>) returns (before: seq<SE.Act>, after: seq<A.Move>, c: A.Client)
    requires Legal(INIT, ms)
    ensures Watches(r, ms, before, after, c) && Ended !in c.x.pend && !c.dropped && c.i < |c.x.subs| && A.Drained(c)
  {
    var changes := Changes(r, INIT, ms);
    RunsAreSessions(r, INIT, ms, SE.FRESH);
    ChangesCommit(r, INIT, ms);
    var casts := CastAll(SE.After(SE.FRESH, changes));
    SessionConcat(SE.FRESH, changes, casts);
    CommittedConcat(changes, casts);
    before := changes + casts;
    after, c := Attaches(SE.After(SE.FRESH, before));
    assert Committed([]) == [];
  }

  lemma Attaches(y: SE.Sess) returns (after: seq<A.Move>, c: A.Client)
    requires y.pend == {}
    ensures A.LegalMoves(A.Joined(y), after) && c == A.AfterMoves(A.Joined(y), after) && EnvActs(after) == []
    ensures c.x.pend == {} && !c.dropped && c.i < |c.x.subs| && A.Drained(c)
  {
    var c0 := A.Joined(y);
    var c1 := A.Do(c0, A.Snapshot);
    c := A.Do(c1, A.Emit);
    var rest: seq<A.Move> := [];
    if c.snap == Ended {
      A.Prepend(c, A.Leave, []);
      rest := [A.Leave];
      c := A.Do(c, A.Leave);
    }
    A.Prepend(c1, A.Emit, rest);
    A.Prepend(c0, A.Snapshot, [A.Emit] + rest);
    after := [A.Snapshot] + ([A.Emit] + rest);
    NoEnv(after);
  }

  lemma {:induction false} NoEnv(ms: seq<A.Move>)
    requires forall i :: 0 <= i < |ms| ==> !ms[i].Env?
    ensures EnvActs(ms) == []
  {
    if ms != [] {
      NoEnv(ms[1..]);
    }
  }

  // ---------------------------------------------------------------- the call manager

  /** Registration and changes, as the call manager sees them. */
  function Mark(sid: string, s: Side, t: Side): seq<F.Act> {
    if t.known && !s.known then [F.Register(sid)]
    else if s.phase == t.phase then []
    else [F.InCall(sid, Committing(t.phase))]
  }

  function Marks(r: Role, sid: string, x: Sys, ms: seq<Move>): seq<F.Act>
    requires Legal(x, ms)
    decreases |ms|
  {
    if ms == [] then []
    else Mark(sid, SideOf(r, x), SideOf(r, Step(x, ms[0]))) + Marks(r, sid, Step(x, ms[0]), ms[1..])
  }

  predicate IsMark(sid: string, a: F.Act) {
    a == F.Register(sid) || (a.InCall? && a.sid == sid && IsCommit(a.a))
  }

  function Marked(sid: string, acts: seq<F.Act>): seq<F.Act> {
    if acts == [] then [] else (if IsMark(sid, acts[0]) then [acts[0]] else []) + Marked(sid, acts[1..])
  }

  /** The hub has the side's state, and its forwarder was there from the start. */
  ghost predicate Tracks(h: F.Hub, sid: string, s: Side) {
    if sid !in h.calls then !s.known && s.phase == Idle
    else
      var k := h.calls[sid];
      && k.x.st == s.phase && (k.fwd.NotYet? <==> !s.known)
      && (k.fwd.NotYet? ==> k.x.pend == {} && k.x.log == [])
      && (!k.fwd.NotYet? ==> k.fwd.sub < |k.x.subs| && k.x.subs[k.fwd.sub].from == 0)
  }

  lemma UnmarkedTracks(h: F.Hub, a: F.Act, sid: string, s: Side)
    requires Tracks(h, sid, s) && F.Enabled(h, a) && !IsMark(sid, a)
    ensures Tracks(F.Step(h, a), sid, s)
  {
  }

  lemma MarkTracks(h: F.Hub, a: F.Act, sid: string, s: Side, t: Side)
    requires Tracks(h, sid, s) && F.Enabled(h, a) && Mark(sid, s, t) == [a] && Commits(s, t)
    requires !s.known ==> s.phase == Idle
    requires !t.known ==> t.phase == Idle
    ensures Tracks(F.Step(h, a), sid, t)
  {
  }

  /** Along the run, nothing is committed before the session is registered. */
  ghost predicate Orderly(r: Role, x: Sys, ms: seq<Move>)
    requires Legal(x, ms)
    decreases |ms|
  {
    && (!SideOf(r, x).known ==> SideOf(r, x).phase == Idle)
    && (ms != [] ==> Commits(SideOf(r, x), SideOf(r, Step(x, ms[0]))) && Orderly(r, Step(x, ms[0]), ms[1..]))
  }

  lemma {:induction false} RunsAreOrderly(r: Role, x: Sys, ms: seq<Move>)
    requires SysInv(x) && Legal(x, ms)
    ensures Orderly(r, x, ms)
    decreases |ms|
  {
    SideFlow(r, x);
    if ms != [] {
      StepKeeps(x, ms[0]);
      MoveCommits(r, x, ms[0]);
      RunsAreOrderly(r, Step(x, ms[0]), ms[1..]);
    }
  }

  lemma SideFlow(r: Role, x: Sys)
    requires SysInv(x)
    ensures !SideOf(r, x).known ==> SideOf(r, x).phase == Idle
  {
  }

  /** Whatever else the hub does in between. */
  lemma {:induction false} HubTracks(r: Role, sid: string, x: Sys, ms: seq<Move>, h: F.Hub, acts: seq<F.Act>)
    requires Legal(x, ms) && Orderly(r, x, ms) && F.Legal(h, acts) && Tracks(h, sid, SideOf(r, x))
    requires Marked(sid, acts) == Marks(r, sid, x, ms)
    ensures Tracks(F.After(h, acts), sid, SideOf(r, After(x, ms)))
    decreases |ms| + |acts|
  {
    if acts != [] && !IsMark(sid, acts[0]) {
      UnmarkedTracks(h, acts[0], sid, SideOf(r, x));
      assert Marked(sid, acts) == Marked(sid, acts[1..]);
      HubTracks(r, sid, x, ms, F.Step(h, acts[0]), acts[1..]);
    } else if ms != [] {
      var y := Step(x, ms[0]);
      var m := Mark(sid, SideOf(r, x), SideOf(r, y));
      if m == [] {
        assert Marks(r, sid, x, ms) == Marks(r, sid, y, ms[1..]);
        HubTracks(r, sid, y, ms[1..], h, acts);
      } else {
        FirstMark(sid, m, Marks(r, sid, y, ms[1..]), acts);
        assert !SideOf(r, y).known ==> SideOf(r, y).phase == Idle;
        MarkTracks(h, acts[0], sid, SideOf(r, x), SideOf(r, y));
        HubTracks(r, sid, y, ms[1..], F.Step(h, acts[0]), acts[1..]);
      }
    }
  }

  lemma FirstMark(sid: string, m: seq<F.Act>, marks: seq<F.Act>, acts: seq<F.Act>)
    requires |m| == 1 && Marked(sid, acts) == m + marks && (acts != [] ==> IsMark(sid, acts[0]))
    ensures acts != [] && [acts[0]] == m && Marked(sid, acts[1..]) == marks
  {
    assert Marked(sid, acts) == [acts[0]] + Marked(sid, acts[1..]);
    assert (m + marks)[0] == m[0] && (m + marks)[1..] == marks;
  }

  // ---------------------------------------------------------------- the audio sessions

  /** The call manager of the end r: its steps for this call are those of the run. */
  ghost predicate Manages(r: Role, sid: string, ms: seq<Move>, acts: seq<F.Act>)
    requires Legal(INIT, ms)
  {
    F.Legal(F.EMPTY, acts) && Marked(sid, acts) == Marks(r, sid, INIT, ms)
  }

  /** With everything broadcast and forwarded, "ended" was fanned out exactly if the call
      has ended at this end. */
  lemma EndIsForwarded(r: Role, sid: string, ms: seq<Move>, calls: seq<F.Act>)
    requires Legal(INIT, ms) && Manages(r, sid, ms, calls)
    requires var h := F.After(F.EMPTY, calls); sid in h.calls && F.Quiet(h.calls[sid]) && Ended !in h.calls[sid].x.pend
    ensures var k := F.After(F.EMPTY, calls).calls[sid];
            k.x.st == SideOf(r, After(INIT, ms)).phase && F.CallInv(k) && (k.x.st == Ended <==> Ended in F.Forwarded(k))
  {
    InitInv();
    RunsAreOrderly(r, INIT, ms);
    HubTracks(r, sid, INIT, ms, F.EMPTY, calls);
    F.RunInv(F.EMPTY, calls);
    var k := F.After(F.EMPTY, calls).calls[sid];
    var u := k.x.subs[k.fwd.sub];
    assert k.x.log[..0] == [];
    if k.x.st == Ended {
      F.QuietHeard(k);
    } else if Ended in F.Forwarded(k) {
      ForwardedIsLogged(k, Ended);
    }
  }

  lemma ForwardedIsLogged(k: F.Call, s: State)
    requires F.CallInv(k) && s in F.Forwarded(k)
    ensures s in k.x.log
  {
    var u := k.x.subs[k.fwd.sub];
    assert s in u.got;
    var i :| 0 <= i < |u.got| && u.got[i] == s;
    SE.GotIsLog(u, k.x.log);
  }

  /** The audio loop has a session for the call, or is opening one. */
  predicate Sounds(a: AM.Audio, sid: string) {
    sid in a.held || ((a.loop.Starting? || a.loop.Inserting?) && a.loop.sid == sid)
  }

  lemma SoundsConnected(sid: string, calls: seq<F.Act>, c: nat, acts: seq<AM.Act>)
    requires F.Legal(F.EMPTY, calls) && F.Roomy(F.EMPTY, calls, c)
    requires var h := F.After(F.EMPTY, calls); c in h.listed && c < |h.chans|
    requires AM.Legal(AM.SILENT, acts) && AM.After(AM.SILENT, acts).seen == F.After(F.EMPTY, calls).chans[c].sent
    requires Sounds(AM.After(AM.SILENT, acts), sid)
    ensures var h := F.After(F.EMPTY, calls);
            sid in h.calls && Connected in F.Forwarded(h.calls[sid]) && Ended !in F.Forwarded(h.calls[sid])
  {
    var h := F.After(F.EMPTY, calls);
    AM.ChainLifecycle(calls, c, acts);
    F.RunInv(F.EMPTY, calls);
    assert F.Known(h.calls, F.Event(sid, Connected));
    if Ended in F.Forwarded(h.calls[sid]) {
      F.EndIsTold(calls, sid, c);
    }
  }

  /** When the threads of both ends rest and the events are processed, only a call that
      is connected here, and that nobody has hung up, has an audio session here. */
  lemma AudioFallsSilent(r: Role, sid: string, ms: seq<Move>, x: Sys, calls: seq<F.Act>, c: nat, acts: seq<AM.Act>)
    requires Legal(INIT, ms) && x == After(INIT, ms) && Quiescent(x) && SideOf(r, x).exists_
    requires Manages(r, sid, ms, calls) && F.Roomy(F.EMPTY, calls, c)
    requires var h := F.After(F.EMPTY, calls);
             && sid in h.calls && F.Quiet(h.calls[sid]) && Ended !in h.calls[sid].x.pend
             && c in h.listed && c < |h.chans|
             && AM.Legal(AM.SILENT, acts) && AM.After(AM.SILENT, acts).seen == h.chans[c].sent
    ensures Sounds(AM.After(AM.SILENT, acts), sid) ==> !AnyHangup(x.a, x.b) && SideOf(r, x).phase == Connected
  {
    if Sounds(AM.After(AM.SILENT, acts), sid) {
      SoundsConnected(sid, calls, c, acts);
      EndIsForwarded(r, sid, ms, calls);
      ForwardedIsLogged(F.After(F.EMPTY, calls).calls[sid], Connected);
      TwoPartyAgreement(ms, x);
    }
  }
}
