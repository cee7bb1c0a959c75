/**
 `pipeStateChanges`: a client attaches to a session, is sent the state as it is
 now, then the live events.  Subscribing, reading the state and every delivery are
 separate steps, interleaved with whatever the session does.
 */
module Attach {
  import opened CallState
  import opened SessionEvents

  datatype Pc = Waiting | Snapped | Live(first: bool) | Leaving | Gone

  /** The session, the client's subscription, and what went out on the wire. */
  datatype Client = Client(x: Sess, i: nat, pc: Pc, snap: State, wire: seq<State>, dropped: bool)

  datatype Move =
    | Env(a: Act)
    | Snapshot
    | Emit
    | Deliver
    | Disconnect
    | Leave

  function Joined(x: Sess): Client {
    Client(Step(x, Subscribe), |x.subs|, Waiting, Idle, [], false)
  }

  predicate CanMove(c: Client, m: Move) {
    match m
    case Env(a) => Enabled(c.x, a) && a != Read(c.i) && a != Unsubscribe(c.i)
    case Snapshot => c.pc.Waiting?
    case Emit => c.pc.Snapped?
    case Deliver => c.pc.Live? && c.i < |c.x.subs| && c.x.subs[c.i].q != []
    case Disconnect => c.pc.Live?
    case Leave => c.pc.Leaving? && c.i < |c.x.subs|
  }

  function Do(c: Client, m: Move): Client
    requires CanMove(c, m)
  {
    match m
    case Env(a) => c.(x := Step(c.x, a))
    case Snapshot => c.(pc := Snapped, snap := c.x.st)
    case Emit => c.(wire := [c.snap], pc := if c.snap == Ended then Leaving else Live(true))
    case Deliver =>
      var ev := c.x.subs[c.i].q[0];
      var c1 := c.(x := Step(c.x, Read(c.i)));
      if c.pc.first && ev == c.snap then c1.(pc := Live(false))
      else c1.(wire := c.wire + [ev], pc := if ev == Ended then Leaving else Live(false))
    case Disconnect => c.(pc := Leaving, dropped := true)
    case Leave => c.(x := Step(c.x, Unsubscribe(c.i)), pc := Gone)
  }

  predicate LegalMoves(c: Client, ms: seq<Move>)
    decreases |ms|
  {
    ms == [] || (CanMove(c, ms[0]) && LegalMoves(Do(c, ms[0]), ms[1..]))
  }

  function AfterMoves(c: Client, ms: seq<Move>): Client
    requires LegalMoves(c, ms)
    decreases |ms|
  {
    if ms == [] then c else AfterMoves(Do(c, ms[0]), ms[1..])
  }

  /** The events read, less a leading repeat of the snapshot. */
  function Dedup(snap: State, got: seq<State>): seq<State> {
    if got != [] && got[0] == snap then got[1..] else got
  }

  ghost predicate Started(c: Client) {
    c.pc.Live? || c.pc.Leaving? || c.pc.Gone?
  }

  ghost predicate ClientInv(c: Client) {
    && SessionEvents.Inv(c.x) && c.i < |c.x.subs|
    && (var u := c.x.subs[c.i];
        && (c.pc.Gone? <==> !u.open)
        && (!Started(c) ==> u.got == [] && c.wire == [] && !c.dropped)
        && (Started(c) ==> c.wire == [c.snap] + Dedup(c.snap, u.got))
        && (c.pc.Live? ==> (c.pc.first <==> u.got == []) && Ended !in u.got && c.snap != Ended && !c.dropped)
        && (c.snap == Ended && Started(c) ==> u.got == [])
        && (forall k :: 0 <= k < |u.got| - 1 ==> u.got[k] != Ended)
        && (Started(c) && !c.pc.Live? && !c.dropped ==> c.snap == Ended || (u.got != [] && u.got[|u.got| - 1] == Ended))
        && (!c.pc.Waiting? && c.snap != Ended ==> Ended !in c.x.log[..u.from]))
  }

  lemma EnvKeeps(c: Client, a: Act)
    requires ClientInv(c) && CanMove(c, Env(a))
    ensures ClientInv(Do(c, Env(a)))
  {
    StepInv(c.x, a);
    var d := Do(c, Env(a));
    var u, v := c.x.subs[c.i], d.x.subs[c.i];
    assert v.got == u.got && v.open == u.open && v.from == u.from;
    assert d.x.log[..u.from] == c.x.log[..u.from];
  }

  lemma DeliverKeeps(c: Client)
    requires ClientInv(c) && CanMove(c, Deliver)
    ensures ClientInv(Do(c, Deliver))
  {
    StepInv(c.x, Read(c.i));
    var d := Do(c, Deliver);
    var u, v := c.x.subs[c.i], d.x.subs[c.i];
    assert v.got == u.got + [u.q[0]];
    assert Dedup(c.snap, v.got) == if c.pc.first && u.q[0] == c.snap then [] else Dedup(c.snap, u.got) + [u.q[0]];
  }

  lemma MoveKeeps(c: Client, m: Move)
    requires ClientInv(c) && CanMove(c, m)
    ensures ClientInv(Do(c, m))
  {
    match m
    case Env(a) => EnvKeeps(c, a);
    case Snapshot =>
      assert Ended in c.x.log ==> c.x.st == Ended;
    case Emit =>
    case Deliver => DeliverKeeps(c);
    case Disconnect =>
    case Leave => StepInv(c.x, Unsubscribe(c.i));
  }

  lemma {:induction false} MovesKeep(c: Client, ms: seq<Move>)
    requires ClientInv(c) && LegalMoves(c, ms)
    ensures ClientInv(AfterMoves(c, ms))
    decreases |ms|
  {
    if ms != [] {
      MoveKeeps(c, ms[0]);
      MovesKeep(Do(c, ms[0]), ms[1..]);
    }
  }

  lemma JoinKeeps(x: Sess)
    requires SessionEvents.Inv(x)
    ensures ClientInv(Joined(x))
  {
    StepInv(x, Subscribe);
  }

  /** Nothing left for the client to do until the session moves. */
  predicate Drained(c: Client)
    requires c.i < |c.x.subs|
  {
    c.pc.Gone? || (c.pc.Live? && c.x.subs[c.i].q == [])
  }

  /** From any point in a session's life, under any interleaving: "ended" goes out
      at most once and nothing follows it; every event read is on the wire; and a
      client that stays connected has been told, last, once the end is broadcast. */
  lemma AttachStream(x: Sess, ms: seq<Move>)
    requires SessionEvents.Inv(x) && LegalMoves(Joined(x), ms)
    ensures var c := AfterMoves(Joined(x), ms);
            && c.i < |c.x.subs|
            && (forall k :: 0 <= k < |c.wire| - 1 ==> c.wire[k] != Ended)
            && (Started(c) ==> forall s :: s in c.x.subs[c.i].got ==> s in c.wire)
            && (c.x.st == Ended && Ended !in c.x.pend && !c.dropped && Drained(c)
                ==> c.wire != [] && c.wire[|c.wire| - 1] == Ended)
  {
    JoinKeeps(x);
    MovesKeep(Joined(x), ms);
    var c := AfterMoves(Joined(x), ms);
    var u := c.x.subs[c.i];
    if Started(c) { AllOnWire(c.snap, u.got); }
    if c.pc.Live? && u.q == [] { LiveMeansNotEnded(c); }
  }

  lemma AllOnWire(snap: State, got: seq<State>)
    ensures forall s :: s in got ==> s in [snap] + Dedup(snap, got)
  {
    forall s | s in got ensures s in [snap] + Dedup(snap, got) {
      var k :| 0 <= k < |got| && got[k] == s;
      assert Dedup(snap, got) == got || (k == 0 && s == snap) || Dedup(snap, got)[k - 1] == s;
    }
  }

  /** A client that has read everything and still waits: the end is not broadcast yet. */
  lemma LiveMeansNotEnded(c: Client)
    requires ClientInv(c) && c.pc.Live? && c.x.subs[c.i].q == []
    ensures Ended !in c.x.log
    ensures c.x.st == Ended ==> Ended in c.x.pend
  {
    var u := c.x.subs[c.i];
    assert u.got == u.got + u.q == c.x.log[u.from..];
    assert c.x.log == c.x.log[..u.from] + c.x.log[u.from..];
  }

  /** A state is sent twice exactly when the snapshot's own change reaches the client
      behind another event: only a leading repeat is recognised. */
  lemma RepeatIff(x: Sess, ms: seq<Move>)
    requires SessionEvents.Inv(x) && LegalMoves(Joined(x), ms) && Started(AfterMoves(Joined(x), ms))
    ensures var c := AfterMoves(Joined(x), ms);
            && c.i < |c.x.subs|
            && (var got := c.x.subs[c.i].got;
                (exists j, k :: 0 <= j < k < |c.wire| && c.wire[j] == c.wire[k])
                <==> exists k :: 1 <= k < |got| && got[k] == c.snap)
  {
    JoinKeeps(x);
    MovesKeep(Joined(x), ms);
    var c := AfterMoves(Joined(x), ms);
    var got := c.x.subs[c.i].got;
    GotDistinct(c.x, c.i);
    RepeatOnWire(c.snap, got);
  }

  lemma RepeatOnWire(snap: State, got: seq<State>)
    requires forall j, k :: 0 <= j < k < |got| ==> got[j] != got[k]
    ensures var wire := [snap] + Dedup(snap, got);
            (exists j, k :: 0 <= j < k < |wire| && wire[j] == wire[k])
            <==> exists k :: 1 <= k < |got| && got[k] == snap
  {
    if got != [] && got[0] == snap {
      assert [snap] + Dedup(snap, got) == got;
    } else {
      RepeatOfHead(snap, got);
    }
  }

  lemma RepeatOfHead(snap: State, got: seq<State>)
    requires forall j, k :: 0 <= j < k < |got| ==> got[j] != got[k]
    requires got == [] || got[0] != snap
    ensures var wire := [snap] + got;
            (exists j, k :: 0 <= j < k < |wire| && wire[j] == wire[k])
            <==> exists k :: 1 <= k < |got| && got[k] == snap
  {
    var wire := [snap] + got;
    if j, k :| 0 <= j < k < |wire| && wire[j] == wire[k] {
      assert wire[k] == got[k - 1];
      assert j == 0;
    }
    if k :| 1 <= k < |got| && got[k] == snap {
      assert wire[0] == wire[k + 1];
    }
  }

  lemma Prepend(c: Client, m: Move, ms: seq<Move>)
    requires CanMove(c, m) && LegalMoves(Do(c, m), ms)
    ensures LegalMoves(c, [m] + ms) && AfterMoves(c, [m] + ms) == AfterMoves(Do(c, m), ms)
  {
    assert ([m] + ms)[1..] == ms;
  }

  /** Two changes commit before the state is read, and only the first has been broadcast. */
  const OVERTAKEN: seq<Move> :=
    [Env(Enter(Ringing)), Env(Cast(Ringing)), Env(Enter(Connecting)), Snapshot, Emit,
     Env(Cast(Connecting)), Deliver, Deliver]

  /** The first change waits in the buffer, the second is in the snapshot only. */
  lemma OvertakenStart(c: Client)
    requires c == Do(Do(Do(Joined(FRESH), Env(Enter(Ringing))), Env(Cast(Ringing))), Env(Enter(Connecting)))
    ensures c == Client(Sess(Connecting, {Connecting}, [Ringing], [Sub(true, [Ringing], [], 0, 1, 0)]), 0, Waiting, Idle, [], false)
    ensures LegalMoves(Joined(FRESH), OVERTAKEN) <==> LegalMoves(c, OVERTAKEN[3..])
    ensures LegalMoves(c, OVERTAKEN[3..]) ==> AfterMoves(Joined(FRESH), OVERTAKEN) == AfterMoves(c, OVERTAKEN[3..])
  {
    var c0 := Joined(FRESH);
    var c1 := Do(c0, Env(Enter(Ringing)));
    var c2 := Do(c1, Env(Cast(Ringing)));
    assert |c2.x.subs| == 1 && c2.x.subs[0] == Sub(true, [Ringing], [], 0, 1, 0);
    assert OVERTAKEN[1..][0] == Env(Cast(Ringing)) && OVERTAKEN[1..][1..] == OVERTAKEN[2..];
    assert OVERTAKEN[2..][0] == Env(Enter(Connecting)) && OVERTAKEN[2..][1..] == OVERTAKEN[3..];
  }

  /** So the wire is not free of repeats, nor in commit order. */
  lemma RepeatHappens()
    ensures LegalMoves(Joined(FRESH), OVERTAKEN)
    ensures AfterMoves(Joined(FRESH), OVERTAKEN).wire == [Connecting, Ringing, Connecting]
  {
    var c3 := Do(Do(Do(Joined(FRESH), Env(Enter(Ringing))), Env(Cast(Ringing))), Env(Enter(Connecting)));
    OvertakenStart(c3);
    var c4 := Do(c3, Snapshot);
    var c5 := Do(c4, Emit);
    assert c5.wire == [Connecting];
    OvertakenRest(c5);
    Prepend(c4, Emit, [Env(Cast(Connecting)), Deliver, Deliver]);
    Prepend(c3, Snapshot, [Emit] + [Env(Cast(Connecting)), Deliver, Deliver]);
    assert OVERTAKEN[3..] == [Snapshot] + ([Emit] + [Env(Cast(Connecting)), Deliver, Deliver]);
  }

  lemma OvertakenRest(c: Client)
    requires c == Client(Sess(Connecting, {Connecting}, [Ringing], [Sub(true, [Ringing], [], 0, 1, 0)]), 0, Live(true), Connecting,
                         [Connecting], false)
    ensures LegalMoves(c, [Env(Cast(Connecting)), Deliver, Deliver])
    ensures AfterMoves(c, [Env(Cast(Connecting)), Deliver, Deliver]).wire == [Connecting, Ringing, Connecting]
  {
    var c1 := Do(c, Env(Cast(Connecting)));
    assert |c1.x.subs| == 1 && c1.x.subs[0] == Sub(true, [Ringing, Connecting], [], 0, 2, 0);
    var c2 := Do(c1, Deliver);
    assert c2.wire == [Connecting, Ringing] && c2.x.subs[0].q == [Connecting];
    Prepend(c2, Deliver, []);
    Prepend(c1, Deliver, [Deliver] + []);
    Prepend(c, Env(Cast(Connecting)), [Deliver] + ([Deliver] + []));
    assert [Env(Cast(Connecting)), Deliver, Deliver] == [Env(Cast(Connecting))] + ([Deliver] + ([Deliver] + []));
  }

  // ---------------------------------------------------------------- what the snapshot decides

  predicate Repeats(c: Client) {
    exists j, k :: 0 <= j < k < |c.wire| && c.wire[j] == c.wire[k]
  }

  /** From c, after ms, a state has gone out twice. */
  predicate RepeatsAfter(c: Client, ms: seq<Move>) {
    LegalMoves(c, ms) && Repeats(AfterMoves(c, ms))
  }

  /** The snapshot's change waits behind another event, or it is still to be broadcast
      and another change that leaves the call alive can be broadcast before it. */
  predicate CanRepeat(c: Client)
    requires c.i < |c.x.subs|
  {
    var q := c.x.subs[c.i].q;
    && c.snap != Idle && c.snap != Ended
    && ((exists k :: 1 <= k < |q| && q[k] == c.snap)
        || (c.snap in c.x.pend && (q != [] || c.x.pend != {c.snap} || c.snap != Connected)))
  }

  /** What is broadcast after c was pending then or committed after it. */
  ghost predicate Later(c: Client, z: Client)
    requires c.i < |c.x.subs|
  {
    && z.i == c.i && z.i < |z.x.subs| && z.snap == c.snap && z.x.subs[z.i].from == c.x.subs[c.i].from
    && c.x.log <= z.x.log && Rank(c.x.st) <= Rank(z.x.st)
    && (forall s :: s in z.x.pend || s in z.x.log[|c.x.log|..] ==> s in c.x.pend || Rank(s) > Rank(c.x.st))
  }

  lemma LaterMove(c: Client, z: Client, m: Move)
    requires c.i < |c.x.subs| && Later(c, z) && CanMove(z, m) && !z.pc.Waiting?
    ensures Later(c, Do(z, m)) && !Do(z, m).pc.Waiting?
  {
    var y := Do(z, m);
    if m.Env? && m.a.Cast? {
      assert y.x.log[|c.x.log|..] == z.x.log[|c.x.log|..] + [m.a.s];
    }
  }

  lemma {:induction false} LaterMoves(c: Client, z: Client, ms: seq<Move>)
    requires c.i < |c.x.subs| && Later(c, z) && LegalMoves(z, ms) && !z.pc.Waiting?
    ensures Later(c, AfterMoves(z, ms))
    decreases |ms|
  {
    if ms != [] {
      LaterMove(c, z, ms[0]);
      LaterMoves(c, Do(z, ms[0]), ms[1..]);
    }
  }

  /** Events that were not broadcast yet at c were pending there or are of a later state. */
  lemma ReadLater(c: Client, z: Client, j: nat)
    requires ClientInv(c) && ClientInv(z) && Later(c, z)
    requires j < |z.x.subs[z.i].got| && c.x.subs[c.i].from + j >= |c.x.log|
    ensures var s := z.x.subs[z.i].got[j]; s in c.x.pend || Rank(s) > Rank(c.x.st)
  {
    var v, n := z.x.subs[z.i], |c.x.log|;
    GotIsLog(v, z.x.log);
    assert z.x.log[n..][v.from + j - n] == v.got[j];
  }

  /** Events that were broadcast at c already waited there. */
  lemma ReadWaited(c: Client, z: Client, j: nat)
    requires ClientInv(c) && c.pc.Snapped? && ClientInv(z) && Later(c, z) && j < |z.x.subs[z.i].got|
    ensures c.x.subs[c.i].from + j < |c.x.log| <==> j < |c.x.subs[c.i].q|
    ensures j < |c.x.subs[c.i].q| ==> c.x.subs[c.i].q[j] == z.x.subs[z.i].got[j]
  {
    QueueIsLog(c);
    GotIsLog(z.x.subs[z.i], z.x.log);
  }

  /** Before it reads, everything broadcast since it subscribed waits for the client. */
  lemma QueueIsLog(c: Client)
    requires ClientInv(c) && c.pc.Snapped?
    ensures c.x.subs[c.i].q == c.x.log[c.x.subs[c.i].from..]
  {
    var u := c.x.subs[c.i];
    assert u.q == u.got + u.q;
  }

  /** A repeat needs the snapshot read as a later event, and that needs `CanRepeat`. */
  lemma RepeatNeeds(c: Client, z: Client, k: nat)
    requires ClientInv(c) && c.pc.Snapped? && c.x.st == c.snap
    requires ClientInv(z) && Started(z) && Later(c, z)
    requires 1 <= k < |z.x.subs[z.i].got| && z.x.subs[z.i].got[k] == c.snap
    ensures CanRepeat(c)
  {
    SnapLives(c, z, k);
    ReadWaited(c, z, k);
    if k >= |c.x.subs[c.i].q| {
      ReadLater(c, z, k);
      if c.x.subs[c.i].q == [] {
        ReadBefore(c, z, k);
      }
    }
  }

  /** What is read later was broadcast, and the call's end is read last. */
  lemma SnapLives(c: Client, z: Client, k: nat)
    requires ClientInv(c) && c.pc.Snapped? && ClientInv(z) && Started(z) && Later(c, z)
    requires 1 <= k < |z.x.subs[z.i].got| && z.x.subs[z.i].got[k] == c.snap
    ensures c.snap != Idle && c.snap != Ended
  {
    GotIsLog(z.x.subs[z.i], z.x.log);
    assert z.snap in z.x.log;
  }

  /** With nothing waiting, what is read first was pending then or is of a later state. */
  lemma ReadBefore(c: Client, z: Client, k: nat)
    requires ClientInv(c) && c.pc.Snapped? && c.x.st == c.snap && c.x.subs[c.i].q == []
    requires ClientInv(z) && Later(c, z)
    requires 1 <= k < |z.x.subs[z.i].got| && z.x.subs[z.i].got[k] == c.snap
    ensures c.x.pend != {c.snap} || c.snap != Connected
  {
    GotDistinct(z.x, z.i);
    ReadWaited(c, z, 0);
    ReadLater(c, z, 0);
    assert z.x.subs[z.i].got[0] != Ended;
  }

  lemma ReadOne(c: Client) returns (d: Client)
    requires ClientInv(c) && c.pc.Live? && c.x.subs[c.i].q != [] && c.x.subs[c.i].q[0] != Ended
    ensures CanMove(c, Deliver) && d == Do(c, Deliver) && ClientInv(d) && d.pc.Live? && d.i == c.i && d.snap == c.snap
    ensures d.x.subs[c.i].q == c.x.subs[c.i].q[1..] && d.x.subs[c.i].got == c.x.subs[c.i].got + [c.x.subs[c.i].q[0]]
  {
    d := Do(c, Deliver);
    DeliverKeeps(c);
  }

  predicate HasRead(c: Client, i: nat, snap: State, got: seq<State>) {
    i == c.i && i < |c.x.subs| && c.snap == snap && c.x.subs[i].got == got
  }

  lemma OneRead(got: seq<State>, q: seq<State>, n: nat)
    requires 0 < n <= |q|
    ensures (got + [q[0]]) + q[1..][..n - 1] == got + q[..n]
  {
    assert q[..n] == [q[0]] + q[1..][..n - 1];
  }

  /** The client reads n events, none of which ends the call. */
  lemma {:induction false} ReadOn(c: Client, n: nat) returns (ms: seq<Move>)
    requires ClientInv(c) && c.pc.Live? && n <= |c.x.subs[c.i].q|
    requires forall j :: 0 <= j < n ==> c.x.subs[c.i].q[j] != Ended
    ensures LegalMoves(c, ms) && HasRead(AfterMoves(c, ms), c.i, c.snap, c.x.subs[c.i].got + c.x.subs[c.i].q[..n])
    decreases n
  {
    if n == 0 {
      ms := [];
    } else {
      var q, got := c.x.subs[c.i].q, c.x.subs[c.i].got;
      var d := ReadOne(c);
      var rest := ReadOn(d, n - 1);
      Prepend(c, Deliver, rest);
      ms := [Deliver] + rest;
      OneRead(got, q, n);
    }
  }

  /** With the snapshot's change behind another event in the buffer, the client need only
      read on. */
  lemma RepeatFromQueue(c: Client, k: nat) returns (ms: seq<Move>)
    requires ClientInv(c) && c.pc.Snapped? && c.snap != Ended && Ended !in c.x.subs[c.i].q
    requires 1 <= k < |c.x.subs[c.i].q| && c.x.subs[c.i].q[k] == c.snap
    ensures RepeatsAfter(c, ms)
  {
    var d := Do(c, Emit);
    MoveKeeps(c, Emit);
    var rest := ReadOn(d, k + 1);
    Prepend(c, Emit, rest);
    ms := [Emit] + rest;
    MovesKeep(d, rest);
    RepeatSeen(AfterMoves(c, ms), k);
  }

  lemma RepeatSeen(z: Client, k: nat)
    requires ClientInv(z) && 1 <= k < |z.x.subs[z.i].got| && z.x.subs[z.i].got[k] == z.snap
    ensures Repeats(z)
  {
    assert Started(z);
    GotDistinct(z.x, z.i);
    RepeatOnWire(z.snap, z.x.subs[z.i].got);
  }

  /** A pending change is broadcast to the back of the client's buffer. */
  lemma CastQueues(c: Client, s: State, d: Client)
    requires ClientInv(c) && c.pc.Snapped? && s in c.x.pend && d == Do(c, Env(Cast(s)))
    ensures ClientInv(d) && d.pc.Snapped? && d.snap == c.snap && d.i == c.i && d.x.pend == c.x.pend - {s}
    ensures d.x.subs[d.i].q == c.x.subs[c.i].q + [s]
  {
    EnvKeeps(c, Cast(s));
    QueueIsLog(c);
    QueueIsLog(d);
  }

  /** The change is broadcast behind what waits already. */
  lemma RepeatBehind(c: Client) returns (ms: seq<Move>)
    requires ClientInv(c) && c.pc.Snapped? && c.snap != Ended && Ended !in c.x.subs[c.i].q
    requires c.snap in c.x.pend && c.x.subs[c.i].q != []
    ensures RepeatsAfter(c, ms)
  {
    var m := Env(Cast(c.snap));
    var d := Do(c, m);
    CastQueues(c, c.snap, d);
    var rest := RepeatFromQueue(d, |c.x.subs[c.i].q|);
    Prepend(c, m, rest);
    ms := [m] + rest;
  }

  /** Another change is broadcast first. */
  lemma RepeatOvertaken(c: Client, s: State) returns (ms: seq<Move>)
    requires ClientInv(c) && c.pc.Snapped? && c.snap != Ended && c.x.subs[c.i].q == []
    requires c.snap in c.x.pend && s in c.x.pend && s != c.snap && s != Ended
    ensures RepeatsAfter(c, ms)
  {
    var m := Env(Cast(s));
    var d := Do(c, m);
    CastQueues(c, s, d);
    var rest := RepeatBehind(d);
    Prepend(c, m, rest);
    ms := [m] + rest;
  }

  /** The call moves on first. */
  lemma RepeatMovesOn(c: Client) returns (ms: seq<Move>)
    requires ClientInv(c) && c.pc.Snapped? && c.x.subs[c.i].q == [] && c.snap in c.x.pend
    requires c.x.st == c.snap && (c.snap == Ringing || c.snap == Connecting)
    ensures RepeatsAfter(c, ms)
  {
    var next := if c.snap == Ringing then Connecting else Connected;
    var m := Env(Enter(next));
    var d := Do(c, m);
    EnvKeeps(c, Enter(next));
    var rest := RepeatOvertaken(d, next);
    Prepend(c, m, rest);
    ms := [m] + rest;
  }

  /** While the call is alive no client waits to read its end. */
  lemma AliveQueue(c: Client)
    requires ClientInv(c) && c.pc.Snapped? && c.x.st != Ended
    ensures Ended !in c.x.subs[c.i].q
  {
    QueueIsLog(c);
    assert Ended !in c.x.log;
  }

  lemma RepeatCan(c: Client) returns (ms: seq<Move>)
    requires ClientInv(c) && c.pc.Snapped? && c.x.st == c.snap && CanRepeat(c)
    ensures RepeatsAfter(c, ms)
  {
    var u := c.x.subs[c.i];
    AliveQueue(c);
    if k: nat :| 1 <= k < |u.q| && u.q[k] == c.snap {
      ms := RepeatFromQueue(c, k);
    } else if u.q != [] {
      ms := RepeatBehind(c);
    } else if s :| s in c.x.pend && s != c.snap {
      ms := RepeatOvertaken(c, s);
    } else {
      ms := RepeatMovesOn(c);
    }
  }

  lemma RepeatShows(c: Client, ms: seq<Move>)
    requires ClientInv(c) && c.pc.Snapped? && c.x.st == c.snap
    requires RepeatsAfter(c, ms)
    ensures CanRepeat(c)
  {
    MovesKeep(c, ms);
    assert c.x.log[|c.x.log|..] == [];
    LaterMoves(c, c, ms);
    var z := AfterMoves(c, ms);
    var k := RepeatRead(z);
    RepeatNeeds(c, z, k);
  }

  lemma RepeatRead(z: Client) returns (k: nat)
    requires ClientInv(z) && Repeats(z)
    ensures Started(z) && 1 <= k < |z.x.subs[z.i].got| && z.x.subs[z.i].got[k] == z.snap
  {
    assert Started(z);
    var got := z.x.subs[z.i].got;
    GotDistinct(z.x, z.i);
    RepeatOnWire(z.snap, got);
    assert z.wire == [z.snap] + Dedup(z.snap, got);
    k :| 1 <= k < |got| && got[k] == z.snap;
  }

  /** When the state is read it is settled whether a state can still go out twice. */
  lemma RepeatPossibleIff(x: Sess, before: seq<Move>, d: Client, c: Client)
    requires SessionEvents.Inv(x) && LegalMoves(Joined(x), before) && d == AfterMoves(Joined(x), before)
    requires d.pc.Waiting? && c == Do(d, Snapshot)
    ensures c.i < |c.x.subs|
    ensures (exists ms :: RepeatsAfter(c, ms)) <==> CanRepeat(c)
  {
    JoinKeeps(x);
    MovesKeep(Joined(x), before);
    MoveKeeps(d, Snapshot);
    if CanRepeat(c) {
      var ms := RepeatCan(c);
      assert RepeatsAfter(c, ms);
    }
    forall ms | RepeatsAfter(c, ms) ensures CanRepeat(c) {
      RepeatShows(c, ms);
    }
  }
}
