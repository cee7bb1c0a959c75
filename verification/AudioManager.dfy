/**
 `internal/audio/manager.go`: audio sessions follow call events, while Stop may run
 at any moment.  First the code, then its lock regions and channel operations as
 single steps under any interleaving.
 */
module AudioManagers {
  import opened CallState
  import opened Fanout

  // ---------------------------------------------------------------- the code

  class AudioSession {
    var closed: bool

    constructor ()
      ensures !closed
    {
      closed := false;
    }

    /** Closing twice would stop devices twice. */
    method Close()
      requires !closed
      modifies this
      ensures closed
    {
      closed := true;
    }
  }

  class Manager {
    var sessions: map<string, AudioSession>
    var cancelled: bool

    ghost predicate Inv()
      reads this, sessions.Values
    {
      && (forall k <- sessions :: !sessions[k].closed)
      && (forall j, k :: j in sessions && k in sessions && sessions[j] == sessions[k] ==> j == k)
    }

    constructor ()
      ensures Inv() && sessions == map[] && !cancelled
    {
      sessions := map[];
      cancelled := false;
    }

    /** `works` is whether the devices and the transport open. */
    method StartSession(id: string, works: bool)
      requires Inv()
      modifies this`sessions
      ensures Inv()
      ensures id in old(sessions) || !works ==> sessions == old(sessions)
      ensures id !in old(sessions) && works ==>
                id in sessions && fresh(sessions[id]) && sessions == old(sessions)[id := sessions[id]]
    {
      if id in sessions {
        return;
      }
      if !works {
        return;
      }
      var sess := new AudioSession();
      sessions := sessions[id := sess];
    }

    method StopSession(id: string)
      requires Inv()
      modifies this`sessions, sessions.Values
      ensures Inv() && sessions == old(sessions) - {id}
      ensures forall k <- old(sessions) :: old(sessions)[k].closed == (k == id)
    {
      if id in sessions {
        var s := sessions[id];
        sessions := sessions - {id};
        s.Close();
      }
    }

    method Stop()
      requires Inv()
      modifies this, sessions.Values
      ensures Inv() && sessions == map[] && cancelled
      ensures forall k <- old(sessions) :: old(sessions)[k].closed
    {
      cancelled := true;
      var taken := sessions;
      sessions := map[];
      var rest := taken.Keys;
      while rest != {}
        invariant rest <= taken.Keys && taken == old(sessions)
        invariant sessions == map[] && cancelled
        invariant forall k <- taken :: taken[k].closed == (k !in rest)
        decreases rest
      {
        var k :| k in rest;
        taken[k].Close();
        rest := rest - {k};
      }
    }

    /** Of the sessions there were, those are closed whose call has ended; the others stay. */
    ghost predicate Followed(was: map<string, AudioSession>, events: seq<Event>)
      reads this, was.Values
    {
      forall k <- was ::
        && was[k].closed == (Event(k, Ended) in events)
        && (Event(k, Ended) !in events ==> k in sessions && sessions[k] == was[k])
    }

    /** One event of the loop. */
    method Handle(ev: Event, works: bool)
      requires Inv()
      modifies this`sessions, sessions.Values
      ensures Inv() && sessions.Keys == KeysTurn(old(sessions).Keys, ev, works)
      ensures forall k <- old(sessions) :: old(sessions)[k].closed == (ev == Event(k, Ended))
      ensures forall k <- sessions :: if k in old(sessions) then sessions[k] == old(sessions)[k] else fresh(sessions[k])
    {
      match ev.state
      case Connected => StartSession(ev.sid, works);
      case Ended => StopSession(ev.sid);
      case _ =>
    }

    method Turn(ghost was: map<string, AudioSession>, ghost before: seq<Event>, ev: Event, works: bool)
      requires Inv() && Followed(was, before) && (forall k <- sessions :: k !in was ==> sessions[k] !in was.Values)
      requires forall j, k :: j in was && k in was && was[j] == was[k] ==> j == k
      modifies this`sessions, sessions.Values
      ensures Inv() && sessions.Keys == KeysTurn(old(sessions).Keys, ev, works)
      ensures Followed(was, before + [ev])
      ensures forall k <- sessions :: if k in old(sessions) then sessions[k] == old(sessions)[k] else fresh(sessions[k])
    {
      Handle(ev, works);
      forall k <- was
        ensures was[k].closed == (Event(k, Ended) in before + [ev])
        ensures Event(k, Ended) !in before + [ev] ==> k in sessions && sessions[k] == was[k]
      {
        assert Event(k, Ended) in before + [ev] <==> Event(k, Ended) in before || ev == Event(k, Ended);
        assert Event(k, Ended) in before ==> was[k] !in old(sessions).Values;
      }
    }

    /** The loop over the events received before the context ends. */
    method Run(events: seq<Event>, works: seq<bool>)
      requires Inv() && |works| == |events|
      modifies this`sessions, sessions.Values
      ensures Inv()
      ensures sessions.Keys == KeysAfter(old(sessions).Keys, events, works)
      ensures forall k <- old(sessions) :: old(sessions)[k].closed == (Event(k, Ended) in events)
      ensures forall k <- old(sessions) :: Event(k, Ended) !in events ==> k in sessions && sessions[k] == old(sessions)[k]
    {
      var i := 0;
      while i < |events|
        invariant 0 <= i <= |events|
        invariant Inv() && Followed(old(sessions), events[..i])
        invariant forall k <- sessions :: (k in old(sessions) && sessions[k] == old(sessions)[k]) || fresh(sessions[k])
        invariant sessions.Keys == KeysAfter(old(sessions).Keys, events[..i], works[..i])
      {
        KeysMore(old(sessions).Keys, events, works, i);
        assert events[..i + 1] == events[..i] + [events[i]];
        Turn(old(sessions), events[..i], events[i], works[i]);
        i := i + 1;
      }
      assert events[..|events|] == events && works[..|works|] == works;
    }
  }

  /** The calls with an audio session after one more event. */
  function KeysTurn(keys: set<string>, ev: Event, works: bool): set<string> {
    match ev.state
    case Connected => if works then keys + {ev.sid} else keys
    case Ended => keys - {ev.sid}
    case _ => keys
  }

  function KeysAfter(keys: set<string>, events: seq<Event>, works: seq<bool>): set<string>
    requires |works| == |events|
    decreases |events|
  {
    if events == [] then keys
    else
      var n := |events| - 1;
      KeysTurn(KeysAfter(keys, events[..n], works[..n]), events[n], works[n])
  }

  lemma KeysMore(keys: set<string>, events: seq<Event>, works: seq<bool>, i: nat)
    requires |works| == |events| && i < |events|
    ensures KeysAfter(keys, events[..i + 1], works[..i + 1]) == KeysTurn(KeysAfter(keys, events[..i], works[..i]), events[i], works[i])
  {
    assert events[..i + 1][..i] == events[..i] && works[..i + 1][..i] == works[..i];
  }

  /** Its audio was opened at event i, and it did not end after it. */
  predicate OpenSince(events: seq<Event>, works: seq<bool>, id: string, i: nat)
    requires |works| == |events|
  {
    i < |events| && events[i] == Event(id, Connected) && works[i] && Event(id, Ended) !in events[i..]
  }

  /** A call has an audio session exactly if one was opened for it, now or before, and the
      call has not ended since; whatever the events, and in whatever order. */
  lemma {:induction false} KeysMean(keys: set<string>, events: seq<Event>, works: seq<bool>, id: string)
    requires |works| == |events|
    ensures id in KeysAfter(keys, events, works)
            <==> (id in keys && Event(id, Ended) !in events) || exists i :: OpenSince(events, works, id, i)
    decreases |events|
  {
    if events != [] {
      var n := |events| - 1;
      KeysMean(keys, events[..n], works[..n], id);
      OneMore(events, works, id, n);
    }
  }

  lemma OneMore(events: seq<Event>, works: seq<bool>, id: string, n: nat)
    requires |works| == |events| == n + 1
    ensures (exists i :: OpenSince(events, works, id, i))
            <==> || (events[n] == Event(id, Connected) && works[n])
                 || (events[n] != Event(id, Ended) && exists i :: OpenSince(events[..n], works[..n], id, i))
    ensures Event(id, Ended) in events <==> Event(id, Ended) in events[..n] || events[n] == Event(id, Ended)
  {
    assert events == events[..n] + [events[n]];
    forall i: nat | i < n ensures events[i..] == events[..n][i..] + [events[n]] {}
    assert events[n..] == [events[n]];
    if i: nat :| OpenSince(events[..n], works[..n], id, i) && events[n] != Event(id, Ended) {
      assert OpenSince(events, works, id, i);
    }
    if i: nat :| OpenSince(events, works, id, i) && i < n {
      assert OpenSince(events[..n], works[..n], id, i);
    }
    if events[n] == Event(id, Connected) && works[n] {
      assert OpenSince(events, works, id, n);
    }
  }

  // ---------------------------------------------------------------- any interleaving

  /** The Start loop: waiting, opening a session outside the lock, about to insert
      it, closing one it removed, or finished. */
  datatype Loop = Ready | Starting(sid: string) | Inserting(sid: string, h: nat) | Closing(h: nat) | Exited

  /** Where the session with a given number is. */
  datatype Place = Held(sid: string) | InHand | InSweep(i: nat) | Shut(k: nat)

  /** Sessions are numbered in the order they are made.  Each running Stop has the
      set it swapped out and has not closed yet; `place` follows every session. */
  datatype Audio = Audio(held: map<string, nat>, loop: Loop, sweeps: seq<set<nat>>, closed: seq<nat>,
                         seen: seq<Event>, made: nat, place: map<nat, Place>)

  const SILENT := Audio(map[], Ready, [], [], [], 0, map[])

  datatype Act =
    | Recv(ev: Event)
    | Make(works: bool)
    | Insert
    | CloseOne
    | Stop
    | Sweep(i: nat, h: nat)
    | Exit

  predicate Enabled(a: Audio, m: Act) {
    match m
    case Recv(_) => a.loop.Ready?
    case Make(_) => a.loop.Starting?
    case Insert => a.loop.Inserting?
    case CloseOne => a.loop.Closing?
    case Stop => true
    case Sweep(i, h) => i < |a.sweeps| && h in a.sweeps[i]
    case Exit => a.loop.Ready?
  }

  function Receive(a: Audio, ev: Event): Audio
  {
    var b := a.(seen := a.seen + [ev]);
    match ev.state
    case Connected => if ev.sid in a.held then b else b.(loop := Starting(ev.sid))
    case Ended =>
      if ev.sid in a.held then
        b.(held := a.held - {ev.sid}, loop := Closing(a.held[ev.sid]), place := a.place[a.held[ev.sid] := InHand])
      else b
    case _ => b
  }

  function Step(a: Audio, m: Act): Audio
    requires Enabled(a, m)
  {
    match m
    case Recv(ev) => Receive(a, ev)
    case Make(works) =>
      if works then a.(loop := Inserting(a.loop.sid, a.made), made := a.made + 1, place := a.place[a.made := InHand]) else a.(loop := Ready)
    case Insert =>
      a.(held := a.held[a.loop.sid := a.loop.h], loop := Ready, place := a.place[a.loop.h := Held(a.loop.sid)])
    case CloseOne => a.(closed := a.closed + [a.loop.h], loop := Ready, place := a.place[a.loop.h := Shut(|a.closed|)])
    case Stop =>
      a.(sweeps := a.sweeps + [a.held.Values], held := map[],
         place := map h | h in a.place :: if h in a.held.Values then InSweep(|a.sweeps|) else a.place[h])
    case Sweep(i, h) =>
      a.(closed := a.closed + [h], sweeps := a.sweeps[i := a.sweeps[i] - {h}], place := a.place[h := Shut(|a.closed|)])
    case Exit => a.(loop := Exited)
  }

  predicate Legal(a: Audio, acts: seq<Act>)
    decreases |acts|
  {
    acts == [] || (Enabled(a, acts[0]) && Legal(Step(a, acts[0]), acts[1..]))
  }

  function After(a: Audio, acts: seq<Act>): Audio
    requires Legal(a, acts)
    decreases |acts|
  {
    if acts == [] then a else After(Step(a, acts[0]), acts[1..])
  }

  /** Every session is in exactly the place recorded for it. */
  ghost predicate Placed(a: Audio) {
    && (forall h: nat :: h in a.place <==> h < a.made)
    && (forall sid <- a.held :: At(a, a.held[sid], Held(sid)))
    && (forall i, h :: 0 <= i < |a.sweeps| && h in a.sweeps[i] ==> At(a, h, InSweep(i)))
    && (forall k :: 0 <= k < |a.closed| ==> At(a, a.closed[k], Shut(k)))
    && (a.loop.Inserting? || a.loop.Closing? ==> At(a, a.loop.h, InHand))
    && (a.loop.Starting? || a.loop.Inserting? ==> a.loop.sid !in a.held)
    && (forall h <- a.place :: Found(a, h))
  }

  predicate At(a: Audio, h: nat, p: Place) {
    h in a.place && a.place[h] == p
  }

  ghost predicate Found(a: Audio, h: nat)
    requires h in a.place
  {
    match a.place[h]
    case Held(sid) => sid in a.held && a.held[sid] == h
    case InHand => (a.loop.Inserting? || a.loop.Closing?) && a.loop.h == h
    case InSweep(i) => i < |a.sweeps| && h in a.sweeps[i]
    case Shut(k) => k < |a.closed| && a.closed[k] == h
  }

  lemma StepPlaced(a: Audio, m: Act)
    requires Placed(a) && Enabled(a, m)
    ensures Placed(Step(a, m))
  {
    match m
    case Recv(ev) => ReceivePlaced(a, ev);
    case Make(_) => LoopPlaced(a, m);
    case Insert => LoopPlaced(a, m);
    case CloseOne => LoopPlaced(a, m);
    case Stop => StopPlaced(a);
    case Sweep(i, g) => SweepPlaced(a, i, g);
    case Exit => LoopPlaced(a, m);
  }

  lemma LoopPlaced(a: Audio, m: Act)
    requires Placed(a) && Enabled(a, m)
    requires m.Make? || m.Insert? || m.CloseOne? || m.Exit?
    ensures Placed(Step(a, m))
  {
    var b := Step(a, m);
    forall h <- b.place ensures Found(b, h) {
      if h in a.place { assert Found(a, h); }
    }
  }

  lemma ReceivePlaced(a: Audio, ev: Event)
    requires Placed(a) && a.loop.Ready?
    ensures Placed(Receive(a, ev))
  {
    var b := Receive(a, ev);
    forall h <- b.place ensures Found(b, h) { assert Found(a, h); }
  }

  lemma StopPlaced(a: Audio)
    requires Placed(a)
    ensures Placed(Step(a, Stop))
  {
    var b := Step(a, Stop);
    assert b.sweeps[|a.sweeps|] == a.held.Values;
    forall h <- b.place ensures Found(b, h) {
      assert Found(a, h);
    }
  }

  lemma SweepPlaced(a: Audio, i: nat, g: nat)
    requires Placed(a) && Enabled(a, Sweep(i, g))
    ensures Placed(Step(a, Sweep(i, g)))
  {
    var b := Step(a, Sweep(i, g));
    assert At(a, g, InSweep(i));
    forall h <- b.place ensures Found(b, h) { assert Found(a, h); }
    forall j, h | 0 <= j < |b.sweeps| && h in b.sweeps[j] ensures At(b, h, InSweep(j)) {
      assert h in a.sweeps[j];
      assert At(a, h, InSweep(j));
      assert h != g;
    }
  }

  lemma {:induction false} RunPlaced(a: Audio, acts: seq<Act>)
    requires Placed(a) && Legal(a, acts)
    ensures Placed(After(a, acts))
    decreases |acts|
  {
    if acts != [] {
      StepPlaced(a, acts[0]);
      RunPlaced(Step(a, acts[0]), acts[1..]);
    }
  }

  /** However Stop, the loop and the events interleave, no audio session is closed
      twice, and every one made is closed or still known to someone. */
  lemma ClosedAtMostOnce(acts: seq<Act>)
    requires Legal(SILENT, acts)
    ensures var a := After(SILENT, acts);
            && (forall i, j :: 0 <= i < j < |a.closed| ==> a.closed[i] != a.closed[j])
            && (forall h :: 0 <= h < a.made ==>
                  h in a.closed || h in a.held.Values || (exists i :: 0 <= i < |a.sweeps| && h in a.sweeps[i])
                  || ((a.loop.Inserting? || a.loop.Closing?) && a.loop.h == h))
  {
    RunPlaced(SILENT, acts);
    var a := After(SILENT, acts);
    forall i, j | 0 <= i < j < |a.closed| ensures a.closed[i] != a.closed[j] {
      assert At(a, a.closed[i], Shut(i)) && At(a, a.closed[j], Shut(j));
    }
    forall h | 0 <= h < a.made
      ensures h in a.closed || h in a.held.Values || (exists i :: 0 <= i < |a.sweeps| && h in a.sweeps[i])
              || ((a.loop.Inserting? || a.loop.Closing?) && a.loop.h == h)
    {
      assert Found(a, h);
    }
  }

  // ---------------------------------------------------------------- following the calls

  /** Whoever has, or is about to have, an audio session is connected and not ended. */
  ghost predicate Follows(a: Audio) {
    && (forall sid <- a.held :: OnCall(a.seen, sid))
    && (a.loop.Starting? || a.loop.Inserting? ==> OnCall(a.seen, a.loop.sid))
  }

  predicate OnCall(seen: seq<Event>, sid: string) {
    Event(sid, Connected) in seen && Event(sid, Ended) !in seen
  }

  lemma FollowStep(a: Audio, m: Act)
    requires Follows(a) && Enabled(a, m) && EndedLast(Step(a, m).seen)
    ensures Follows(Step(a, m))
  {
    if m.Recv? {
      var b := Step(a, m);
      forall e ensures e in b.seen <==> e in a.seen || e == m.ev {}
      if m.ev.state == Connected && b.loop.Starting? {
        assert b.seen[|a.seen|] == m.ev;
        forall i | 0 <= i < |a.seen| ensures a.seen[i] != Event(m.ev.sid, Ended) {
          assert b.seen[i] == a.seen[i];
        }
      }
      forall sid <- b.held ensures OnCall(b.seen, sid) {
        assert OnCall(a.seen, sid);
      }
    }
  }

  lemma {:induction false} SeenGrows(a: Audio, acts: seq<Act>)
    requires Legal(a, acts)
    ensures a.seen <= After(a, acts).seen
    decreases |acts|
  {
    if acts != [] {
      SeenGrows(Step(a, acts[0]), acts[1..]);
    }
  }

  lemma {:induction false} FollowRun(a: Audio, acts: seq<Act>)
    requires Follows(a) && Legal(a, acts) && EndedLast(After(a, acts).seen)
    ensures Follows(After(a, acts))
    decreases |acts|
  {
    if acts != [] {
      var b := Step(a, acts[0]);
      SeenGrows(b, acts[1..]);
      var all := After(a, acts).seen;
      forall i, j | 0 <= i < j < |b.seen| && b.seen[i].sid == b.seen[j].sid
        ensures b.seen[i].state != Ended && b.seen[i].state != b.seen[j].state
      {
        assert all[i] == b.seen[i] && all[j] == b.seen[j];
      }
      FollowStep(a, acts[0]);
      FollowRun(b, acts[1..]);
    }
  }

  /** The whole chain, from the session state machines to the audio sessions: the
      loop reads some channel of the call manager; any interleaving on either side. */
  lemma ChainLifecycle(calls: seq<Fanout.Act>, c: nat, acts: seq<Act>)
    requires Fanout.Legal(EMPTY, calls) && c < |Fanout.After(EMPTY, calls).chans|
    requires Legal(SILENT, acts) && After(SILENT, acts).seen <= Fanout.After(EMPTY, calls).chans[c].sent
    ensures var a := After(SILENT, acts);
            && (forall sid <- a.held :: Event(sid, Connected) in a.seen && Event(sid, Ended) !in a.seen)
            && (a.loop.Starting? || a.loop.Inserting? ==> Event(a.loop.sid, Connected) in a.seen && Event(a.loop.sid, Ended) !in a.seen)
  {
    NothingAfterEnded(calls);
    var sent, seen := Fanout.After(EMPTY, calls).chans[c].sent, After(SILENT, acts).seen;
    assert EndedLast(seen) by {
      forall i, j | 0 <= i < j < |seen| && seen[i].sid == seen[j].sid
        ensures seen[i].state != Ended && seen[i].state != seen[j].state
      {
        assert sent[i] == seen[i] && sent[j] == seen[j];
      }
    }
    FollowRun(SILENT, acts);
  }

  // ---------------------------------------------------------------- the loop alone

  /** One more action at the front of a run. */
  lemma Prepend(a: Audio, m: Act, acts: seq<Act>)
    requires Enabled(a, m) && Legal(Step(a, m), acts)
    ensures Legal(a, [m] + acts) && After(a, [m] + acts) == After(Step(a, m), acts)
  {
    assert ([m] + acts)[1..] == acts;
  }

  lemma {:induction false} Concat(a: Audio, xs: seq<Act>, ys: seq<Act>)
    requires Legal(a, xs) && Legal(After(a, xs), ys)
    ensures Legal(a, xs + ys) && After(a, xs + ys) == After(After(a, xs), ys)
    decreases |xs|
  {
    if xs == [] {
      assert xs + ys == ys;
    } else {
      Concat(Step(a, xs[0]), xs[1..], ys);
      assert (xs + ys)[0] == xs[0] && (xs + ys)[1..] == xs[1..] + ys;
    }
  }

  /** One event, handled by the loop's steps without interference. */
  lemma SoloTurn(a: Audio, ev: Event, works: bool) returns (acts: seq<Act>)
    requires a.loop.Ready?
    ensures Legal(a, acts) && After(a, acts).loop.Ready?
    ensures After(a, acts).held.Keys == KeysTurn(a.held.Keys, ev, works)
    ensures After(a, acts).seen == a.seen + [ev]
  {
    var b := Step(a, Recv(ev));
    var rest: seq<Act>;
    match b.loop {
      case Starting(_) =>
        var c := Step(b, Make(works));
        if works {
          Prepend(c, Insert, []);
          Prepend(b, Make(works), [Insert]);
          rest := [Make(works)] + [Insert];
        } else {
          Prepend(b, Make(works), []);
          rest := [Make(works)] + [];
        }
      case Closing(_) =>
        Prepend(b, CloseOne, []);
        rest := [CloseOne] + [];
      case _ => rest := [];
    }
    Prepend(a, Recv(ev), rest);
    acts := [Recv(ev)] + rest;
  }

  /** So the loop's steps do over any events what `Manager.Run` does. */
  lemma {:induction false} SoloLoop(a: Audio, events: seq<Event>, works: seq<bool>) returns (acts: seq<Act>)
    requires a.loop.Ready? && |works| == |events|
    ensures Legal(a, acts) && After(a, acts).loop.Ready?
    ensures After(a, acts).held.Keys == KeysAfter(a.held.Keys, events, works)
    ensures After(a, acts).seen == a.seen + events
    decreases |events|
  {
    if events == [] {
      return [];
    }
    var n := |events| - 1;
    var front := SoloLoop(a, events[..n], works[..n]);
    var last := SoloTurn(After(a, front), events[n], works[n]);
    Concat(a, front, last);
    acts := front + last;
    assert events == events[..n] + [events[n]];
  }

  // ---------------------------------------------------------------- what Stop leaves behind

  predicate AllClosed(a: Audio) {
    forall h :: 0 <= h < a.made ==> h in a.closed
  }

  /** No thread is left that could close a session. */
  predicate Over(a: Audio) {
    a.loop.Exited? && forall i :: 0 <= i < |a.sweeps| ==> a.sweeps[i] == {}
  }

  lemma {:induction false} ExitedStays(a: Audio, acts: seq<Act>)
    requires a.loop.Exited? && Legal(a, acts)
    ensures After(a, acts).loop.Exited?
    ensures a.held == map[] ==> After(a, acts).held == map[]
    decreases |acts|
  {
    if acts != [] {
      ExitedStays(Step(a, acts[0]), acts[1..]);
    }
  }

  lemma HeldIsOpen(a: Audio)
    requires Placed(a)
    ensures forall sid <- a.held :: a.held[sid] !in a.closed && a.held[sid] < a.made
  {
    forall sid <- a.held ensures a.held[sid] !in a.closed && a.held[sid] < a.made {
      assert At(a, a.held[sid], Held(sid));
    }
  }

  /** A Stop that starts after the loop has returned closes everything. */
  lemma StopAfterExit(before: seq<Act>, after: seq<Act>)
    requires Legal(SILENT, before) && After(SILENT, before).loop.Exited?
    requires Legal(Step(After(SILENT, before), Stop), after)
    requires Over(After(Step(After(SILENT, before), Stop), after))
    ensures AllClosed(After(Step(After(SILENT, before), Stop), after))
  {
    var a := After(SILENT, before);
    RunPlaced(SILENT, before);
    StepPlaced(a, Stop);
    RunPlaced(Step(a, Stop), after);
    ExitedStays(Step(a, Stop), after);
    var z := After(Step(a, Stop), after);
    forall h | 0 <= h < z.made ensures h in z.closed {
      assert Found(z, h);
    }
  }

  function ToSweep(sweeps: seq<set<nat>>): nat {
    if sweeps == [] then 0 else ToSweep(sweeps[..|sweeps| - 1]) + |sweeps[|sweeps| - 1]|
  }

  lemma {:induction false} SweepLess(sweeps: seq<set<nat>>, i: nat, h: nat)
    requires i < |sweeps| && h in sweeps[i]
    ensures ToSweep(sweeps[i := sweeps[i] - {h}]) < ToSweep(sweeps)
  {
    var n := |sweeps| - 1;
    var less := sweeps[i := sweeps[i] - {h}];
    if i == n {
      assert less[..n] == sweeps[..n];
      assert |sweeps[n] - {h}| == |sweeps[n]| - 1;
    } else {
      SweepLess(sweeps[..n], i, h);
      assert less[..n] == sweeps[..n][i := sweeps[..n][i] - {h}];
    }
  }

  /** Once the loop has returned, the running Stops can finish, and no more is closed
      than what they took. */
  lemma SweepAll(a: Audio) returns (acts: seq<Act>)
    requires a.loop.Exited?
    ensures Legal(a, acts) && Over(After(a, acts)) && After(a, acts).held == a.held
    decreases ToSweep(a.sweeps)
  {
    if Over(a) {
      return [];
    }
    var i: nat :| i < |a.sweeps| && a.sweeps[i] != {};
    Inhabited(a.sweeps[i]);
    var h: nat :| h in a.sweeps[i];
    SweepLess(a.sweeps, i, h);
    var rest := SweepAll(Step(a, Sweep(i, h)));
    Prepend(a, Sweep(i, h), rest);
    acts := [Sweep(i, h)] + rest;
  }

  lemma Inhabited(s: set<nat>)
    ensures s != {} ==> exists h: nat :: h in s
  {
    if !exists h: nat :: h in s {
      assert s == {};
    }
  }

  /** How far a running loop is from having put a session into the map. */
  function Distance(a: Audio): nat {
    match a.loop
    case Closing(_) => 4
    case Ready => if a.held == map[] then 3 else 0
    case Starting(_) => 2
    case Inserting(_, _) => 1
    case Exited => 0
  }

  /** As long as the loop runs, it can put one more session into the map, and return. */
  lemma LoopCanLeave(a: Audio) returns (acts: seq<Act>)
    requires !a.loop.Exited? && (a.loop.Closing? ==> a.held == map[])
    ensures Legal(a, acts) && Over(After(a, acts)) && After(a, acts).held != map[]
    decreases Distance(a)
  {
    var m: Act;
    match a.loop {
      case Closing(_) => m := CloseOne;
      case Ready => m := if a.held == map[] then Recv(Event("c-1", Connected)) else Exit;
      case Starting(_) => m := Make(true);
      case Inserting(sid, _) => m := Insert; assert sid in Step(a, m).held;
    }
    var rest;
    if m == Exit {
      rest := SweepAll(Step(a, m));
    } else {
      rest := LoopCanLeave(Step(a, m));
    }
    Prepend(a, m, rest);
    acts := [m] + rest;
  }

  /** Stop closes all sessions, whatever happens after it, exactly if the Start loop had
      returned when it was called. */
  lemma StopClosesIff(before: seq<Act>, a: Audio)
    requires Legal(SILENT, before) && a == After(SILENT, before)
    ensures (forall after :: Legal(Step(a, Stop), after) && Over(After(Step(a, Stop), after))
                             ==> AllClosed(After(Step(a, Stop), after)))
            <==> a.loop.Exited?
  {
    if a.loop.Exited? {
      forall after | Legal(Step(a, Stop), after) && Over(After(Step(a, Stop), after))
        ensures AllClosed(After(Step(a, Stop), after))
      {
        StopAfterExit(before, after);
      }
    } else {
      var after := LoopCanLeave(Step(a, Stop));
      RunPlaced(SILENT, before);
      StepPlaced(a, Stop);
      RunPlaced(Step(a, Stop), after);
      var z := After(Step(a, Stop), after);
      HeldIsOpen(z);
      var sid :| sid in z.held;
      assert !AllClosed(z);
    }
  }

  /** A Stop that overtakes the loop while it opens a session. */
  const OVERTAKEN: seq<Act> := [Recv(Event("c-1", Connected)), Stop, Make(true), Insert, Exit]

  lemma StopCanLeak()
    ensures Legal(SILENT, OVERTAKEN)
    ensures Over(After(SILENT, OVERTAKEN)) && !AllClosed(After(SILENT, OVERTAKEN))
  {
    var a1 := Step(SILENT, Recv(Event("c-1", Connected)));
    var a2 := Step(a1, Stop);
    var a3 := Step(a2, Make(true));
    var a4 := Step(a3, Insert);
    Prepend(a4, Exit, []);
    Prepend(a3, Insert, [Exit]);
    Prepend(a2, Make(true), [Insert, Exit]);
    Prepend(a1, Stop, [Make(true), Insert, Exit]);
    Prepend(SILENT, Recv(Event("c-1", Connected)), [Stop, Make(true), Insert, Exit]);
    assert OVERTAKEN == [Recv(Event("c-1", Connected))] + [Stop, Make(true), Insert, Exit];
    assert a1.held.Values == {};
    assert Step(a4, Exit).made == 1 && 0 !in a4.closed;
  }
}
