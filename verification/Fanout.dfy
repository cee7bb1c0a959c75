/**
 Any number of sessions, each with its forwarder, and any number of manager-level
 subscribers, under any interleaving.
 */
module Fanout {
  import opened CallState
  import SE = SessionEvents

  const MANAGER_CAP := 32

  datatype Event = Event(sid: string, state: State)

  /** A forwarder: not started, waiting on its subscription, holding an event it
      has received but not fanned out, leaving after "ended", gone. */
  datatype Fwd = NotYet | Waiting(sub: nat) | Holding(sub: nat, ev: State) | Leaving(sub: nat) | Gone(sub: nat)

  datatype Call = Call(x: SE.Sess, fwd: Fwd)

  /** A manager-level channel: what it was sent (and took in), what is still
      buffered, and whether it is closed. */
  datatype Chan = Chan(sent: seq<Event>, q: seq<Event>, closed: bool)

  /** `panicked` records a send on a closed channel or a second close. */
  datatype Hub = Hub(calls: map<string, Call>, chans: seq<Chan>, listed: seq<nat>, panicked: bool)

  const EMPTY := Hub(map[], [], [], false)

  datatype Act =
    | NewCall(sid: string)
    | InCall(sid: string, a: SE.Act)
    | Register(sid: string)
    | FwdRead(sid: string)
    | Fan(sid: string)
    | FwdLeave(sid: string)
    | Join
    | Quit(c: nat)
    | Read(c: nat)

  /** The forwarder's own subscription is read and closed by it alone. */
  predicate Others(f: Fwd, a: SE.Act) {
    f.NotYet? || (a != SE.Read(f.sub) && a != SE.Unsubscribe(f.sub))
  }

  predicate Enabled(h: Hub, a: Act) {
    match a
    case NewCall(sid) => sid !in h.calls
    case InCall(sid, b) => sid in h.calls && SE.Enabled(h.calls[sid].x, b) && Others(h.calls[sid].fwd, b)
    case Register(sid) => sid in h.calls && h.calls[sid].fwd.NotYet?
    case FwdRead(sid) => sid in h.calls && h.calls[sid].fwd.Waiting? && SE.Enabled(h.calls[sid].x, SE.Read(h.calls[sid].fwd.sub))
    case Fan(sid) => sid in h.calls && h.calls[sid].fwd.Holding?
    case FwdLeave(sid) =>
      sid in h.calls && h.calls[sid].fwd.Leaving? && SE.Enabled(h.calls[sid].x, SE.Unsubscribe(h.calls[sid].fwd.sub))
    case Join => true
    case Quit(c) => true
    case Read(c) => c < |h.chans| && h.chans[c].q != []
  }

  function Put(c: Chan, e: Event): Chan {
    if |c.q| < MANAGER_CAP then c.(sent := c.sent + [e], q := c.q + [e]) else c
  }

  /** Removes the first listing of c, as the loop over subs does. */
  function Unlist(l: seq<nat>, c: nat): seq<nat> {
    if l == [] then [] else if l[0] == c then l[1..] else [l[0]] + Unlist(l[1..], c)
  }

  function Step(h: Hub, a: Act): Hub
    requires Enabled(h, a)
  {
    match a
    case NewCall(sid) => h.(calls := h.calls[sid := Call(SE.FRESH, NotYet)])
    case InCall(sid, b) => h.(calls := h.calls[sid := h.calls[sid].(x := SE.Step(h.calls[sid].x, b))])
    case Register(sid) =>
      var k := h.calls[sid];
      h.(calls := h.calls[sid := Call(SE.Step(k.x, SE.Subscribe), Waiting(|k.x.subs|))])
    case FwdRead(sid) =>
      var k := h.calls[sid];
      h.(calls := h.calls[sid := Call(SE.Step(k.x, SE.Read(k.fwd.sub)), Holding(k.fwd.sub, k.x.subs[k.fwd.sub].q[0]))])
    case Fan(sid) =>
      var k := h.calls[sid];
      var e := Event(sid, k.fwd.ev);
      h.(calls := h.calls[sid := k.(fwd := if k.fwd.ev == Ended then Leaving(k.fwd.sub) else Waiting(k.fwd.sub))],
         chans := seq(|h.chans|, c requires 0 <= c < |h.chans| => if c in h.listed then Put(h.chans[c], e) else h.chans[c]),
         panicked := h.panicked || exists c :: 0 <= c < |h.chans| && c in h.listed && h.chans[c].closed)
    case FwdLeave(sid) =>
      var k := h.calls[sid];
      h.(calls := h.calls[sid := Call(SE.Step(k.x, SE.Unsubscribe(k.fwd.sub)), Gone(k.fwd.sub))])
    case Join => h.(chans := h.chans + [Chan([], [], false)], listed := h.listed + [|h.chans|])
    case Quit(c) =>
      if c in h.listed && c < |h.chans| then
        h.(chans := h.chans[c := h.chans[c].(closed := true)], listed := Unlist(h.listed, c),
           panicked := h.panicked || h.chans[c].closed)
      else h
    case Read(c) => h.(chans := h.chans[c := h.chans[c].(q := h.chans[c].q[1..])])
  }

  predicate Legal(h: Hub, acts: seq<Act>)
    decreases |acts|
  {
    acts == [] || (Enabled(h, acts[0]) && Legal(Step(h, acts[0]), acts[1..]))
  }

  function After(h: Hub, acts: seq<Act>): Hub
    requires Legal(h, acts)
    decreases |acts|
  {
    if acts == [] then h else After(Step(h, acts[0]), acts[1..])
  }

  /** What a forwarder has fanned out. */
  function Forwarded(k: Call): seq<State> {
    if k.fwd.NotYet? || k.fwd.sub >= |k.x.subs| then []
    else
      var got := k.x.subs[k.fwd.sub].got;
      if k.fwd.Holding? && got != [] then got[..|got| - 1] else got
  }

  ghost predicate CallInv(k: Call) {
    && SE.Inv(k.x)
    && (!k.fwd.NotYet? ==> k.fwd.sub < |k.x.subs|)
    && (k.fwd.Holding? ==> var got := k.x.subs[k.fwd.sub].got; got != [] && got[|got| - 1] == k.fwd.ev)
    && (k.fwd.Waiting? || k.fwd.Holding? ==> Ended !in Forwarded(k))
    && (k.fwd.Leaving? || k.fwd.Gone? ==> Ended in Forwarded(k))
    && (k.fwd.Waiting? || k.fwd.Holding? || k.fwd.Leaving? ==> k.x.subs[k.fwd.sub].open)
  }

  /** e came through the forwarder of its own call. */
  ghost predicate Known(calls: map<string, Call>, e: Event) {
    e.sid in calls && e.state in Forwarded(calls[e.sid])
  }

  /** Events of one call are all different, and none follows its "ended". */
  ghost predicate EndedLast(log: seq<Event>) {
    forall i, j :: 0 <= i < j < |log| && log[i].sid == log[j].sid ==> log[i].state != Ended && log[i].state != log[j].state
  }

  ghost predicate ChanInv(calls: map<string, Call>, c: Chan) {
    && EndedLast(c.sent)
    && (forall e :: e in c.sent ==> Known(calls, e))
    && |c.q| <= MANAGER_CAP && |c.q| <= |c.sent| && c.q == c.sent[|c.sent| - |c.q|..]
  }

  ghost predicate ListInv(h: Hub) {
    && !h.panicked
    && (forall c :: c in h.listed ==> c < |h.chans| && !h.chans[c].closed)
    && (forall i, j :: 0 <= i < j < |h.listed| ==> h.listed[i] != h.listed[j])
  }

  ghost predicate HubInv(h: Hub) {
    && (forall sid :: sid in h.calls ==> CallInv(h.calls[sid]))
    && (forall c :: 0 <= c < |h.chans| ==> ChanInv(h.calls, h.chans[c]))
    && ListInv(h)
  }

  // ---------------------------------------------------------------- one call

  lemma InCallKeeps(k: Call, b: SE.Act)
    requires CallInv(k) && SE.Enabled(k.x, b) && Others(k.fwd, b)
    ensures CallInv(k.(x := SE.Step(k.x, b)))
    ensures Forwarded(k.(x := SE.Step(k.x, b))) == Forwarded(k)
  {
    SE.StepInv(k.x, b);
  }

  lemma RegisterKeeps(k: Call)
    requires CallInv(k) && k.fwd.NotYet?
    ensures CallInv(Call(SE.Step(k.x, SE.Subscribe), Waiting(|k.x.subs|)))
    ensures Forwarded(Call(SE.Step(k.x, SE.Subscribe), Waiting(|k.x.subs|))) == []
  {
    SE.StepInv(k.x, SE.Subscribe);
  }

  lemma FwdReadKeeps(k: Call)
    requires CallInv(k) && k.fwd.Waiting? && SE.Enabled(k.x, SE.Read(k.fwd.sub))
    ensures var k' := Call(SE.Step(k.x, SE.Read(k.fwd.sub)), Holding(k.fwd.sub, k.x.subs[k.fwd.sub].q[0]));
            CallInv(k') && Forwarded(k') == Forwarded(k)
  {
    SE.StepInv(k.x, SE.Read(k.fwd.sub));
    var got := k.x.subs[k.fwd.sub].got;
    assert (got + [k.x.subs[k.fwd.sub].q[0]])[..|got|] == got;
  }

  lemma FanKeeps(k: Call)
    requires CallInv(k) && k.fwd.Holding?
    ensures var k' := k.(fwd := if k.fwd.ev == Ended then Leaving(k.fwd.sub) else Waiting(k.fwd.sub));
            && CallInv(k') && Forwarded(k') == Forwarded(k) + [k.fwd.ev]
            && k.fwd.ev !in Forwarded(k) && Ended !in Forwarded(k)
  {
    SE.GotDistinct(k.x, k.fwd.sub);
    var got := k.x.subs[k.fwd.sub].got;
    assert got == got[..|got| - 1] + [k.fwd.ev];
  }

  lemma FwdLeaveKeeps(k: Call)
    requires CallInv(k) && k.fwd.Leaving? && SE.Enabled(k.x, SE.Unsubscribe(k.fwd.sub))
    ensures var k' := Call(SE.Step(k.x, SE.Unsubscribe(k.fwd.sub)), Gone(k.fwd.sub));
            CallInv(k') && Forwarded(k') == Forwarded(k)
  {
    SE.StepInv(k.x, SE.Unsubscribe(k.fwd.sub));
  }

  // ---------------------------------------------------------------- the hub

  /** Replacing one call by one that has forwarded at least as much keeps every channel. */
  lemma ChansKeep(h: Hub, sid: string, k: Call)
    requires HubInv(h)
    requires sid in h.calls ==> Forwarded(h.calls[sid]) <= Forwarded(k)
    ensures forall c :: 0 <= c < |h.chans| ==> ChanInv(h.calls[sid := k], h.chans[c])
  {
    forall c, e | 0 <= c < |h.chans| && e in h.chans[c].sent ensures Known(h.calls[sid := k], e) {
      assert Known(h.calls, e);
      if e.sid == sid {
        assert e.state in Forwarded(h.calls[sid]);
      }
    }
  }

  lemma PutKeeps(calls: map<string, Call>, calls': map<string, Call>, c: Chan, e: Event)
    requires ChanInv(calls, c) && ChanInv(calls', c)
    requires Known(calls', e) && !Known(calls, e) && !Known(calls, Event(e.sid, Ended))
    ensures ChanInv(calls', Put(c, e))
  {
    if |c.q| < MANAGER_CAP {
      var d := Put(c, e);
      forall i, j | 0 <= i < j < |d.sent| && d.sent[i].sid == d.sent[j].sid
        ensures d.sent[i].state != Ended && d.sent[i].state != d.sent[j].state
      {
        assert d.sent[i] in c.sent;
        assert Known(calls, d.sent[i]);
        if j == |c.sent| {
          assert d.sent[j] == e;
          assert d.sent[i] == Event(e.sid, d.sent[i].state);
        }
      }
    }
  }

  lemma FanList(h: Hub, sid: string)
    requires ListInv(h) && Enabled(h, Fan(sid))
    ensures ListInv(Step(h, Fan(sid)))
  {
  }

  lemma FanChan(h: Hub, sid: string, c: nat)
    requires HubInv(h) && Enabled(h, Fan(sid)) && c < |h.chans|
    ensures var h' := Step(h, Fan(sid)); ChanInv(h'.calls, h'.chans[c])
  {
    var k, h' := h.calls[sid], Step(h, Fan(sid));
    var k', e := h'.calls[sid], Event(sid, k.fwd.ev);
    FanKeeps(k);
    ChansKeep(h, sid, k');
    assert Known(h'.calls, e) by { assert Forwarded(k')[|Forwarded(k)|] == e.state; }
    PutKeeps(h.calls, h'.calls, h.chans[c], e);
  }

  lemma FanStep(h: Hub, sid: string)
    requires HubInv(h) && Enabled(h, Fan(sid))
    ensures HubInv(Step(h, Fan(sid)))
  {
    FanKeeps(h.calls[sid]);
    FanList(h, sid);
    var h' := Step(h, Fan(sid));
    forall c | 0 <= c < |h'.chans| ensures ChanInv(h'.calls, h'.chans[c]) {
      FanChan(h, sid, c);
    }
  }

  lemma CallStep(h: Hub, a: Act)
    requires HubInv(h) && Enabled(h, a)
    requires a.NewCall? || a.InCall? || a.Register? || a.FwdRead? || a.FwdLeave?
    ensures HubInv(Step(h, a))
  {
    var sid := a.sid;
    match a {
      case NewCall(_) =>
      case InCall(_, b) => InCallKeeps(h.calls[sid], b);
      case Register(_) => RegisterKeeps(h.calls[sid]);
      case FwdRead(_) => FwdReadKeeps(h.calls[sid]);
      case FwdLeave(_) => FwdLeaveKeeps(h.calls[sid]);
    }
    var h' := Step(h, a);
    ChansKeep(h, sid, h'.calls[sid]);
    assert h'.calls == h.calls[sid := h'.calls[sid]];
  }

  lemma {:induction false} UnlistKeeps(l: seq<nat>, c: nat)
    requires forall i, j :: 0 <= i < j < |l| ==> l[i] != l[j]
    ensures c !in Unlist(l, c)
    ensures forall d :: d in Unlist(l, c) ==> d in l
    ensures forall i, j :: 0 <= i < j < |Unlist(l, c)| ==> Unlist(l, c)[i] != Unlist(l, c)[j]
  {
    if l != [] && l[0] != c {
      UnlistKeeps(l[1..], c);
      assert l[0] !in l[1..];
    }
  }

  lemma JoinLists(h: Hub, h': Hub)
    requires ListInv(h) && h' == Step(h, Join)
    ensures ListInv(h')
  {
    var n := |h.chans|;
    assert h'.listed == h.listed + [n] && h'.chans == h.chans + [Chan([], [], false)];
    forall c | c in h'.listed ensures c < |h'.chans| && !h'.chans[c].closed {
      assert c == n || c in h.listed;
    }
    forall i, j | 0 <= i < j < |h'.listed| ensures h'.listed[i] != h'.listed[j] {
      assert h'.listed[i] in h.listed;
    }
  }

  lemma JoinStep(h: Hub)
    requires HubInv(h)
    ensures HubInv(Step(h, Join))
  {
    var h' := Step(h, Join);
    JoinLists(h, h');
    assert h'.calls == h.calls && h'.chans == h.chans + [Chan([], [], false)];
    forall c | 0 <= c < |h'.chans| ensures ChanInv(h'.calls, h'.chans[c]) {
      assert h'.chans[c] == if c < |h.chans| then h.chans[c] else Chan([], [], false);
    }
  }

  lemma QuitStep(h: Hub, c: nat)
    requires HubInv(h)
    ensures HubInv(Step(h, Quit(c)))
  {
    UnlistKeeps(h.listed, c);
  }

  lemma ReadStep(h: Hub, c: nat)
    requires HubInv(h) && Enabled(h, Read(c))
    ensures HubInv(Step(h, Read(c)))
  {
  }

  lemma StepInv(h: Hub, a: Act)
    requires HubInv(h) && Enabled(h, a)
    ensures HubInv(Step(h, a))
  {
    if a.Fan? {
      FanStep(h, a.sid);
    } else if a.Join? {
      JoinStep(h);
    } else if a.Quit? {
      QuitStep(h, a.c);
    } else if a.Read? {
      ReadStep(h, a.c);
    } else {
      CallStep(h, a);
    }
  }

  lemma {:induction false} RunInv(h: Hub, acts: seq<Act>)
    requires HubInv(h) && Legal(h, acts)
    ensures HubInv(After(h, acts))
    decreases |acts|
  {
    if acts != [] {
      StepInv(h, acts[0]);
      RunInv(Step(h, acts[0]), acts[1..]);
    }
  }

  /** However broadcasts overtake each other: no manager-level subscriber is sent an
      event of a call twice or after that call's "ended", full channels or not, and
      no step sends on a closed channel or closes one twice. */
  lemma NothingAfterEnded(acts: seq<Act>)
    requires Legal(EMPTY, acts)
    ensures !After(EMPTY, acts).panicked
    ensures forall c :: 0 <= c < |After(EMPTY, acts).chans| ==> EndedLast(After(EMPTY, acts).chans[c].sent)
  {
    RunInv(EMPTY, acts);
  }

  /** The forwarder has nothing to do until the session moves. */
  predicate Quiet(k: Call) {
    match k.fwd
    case NotYet => false
    case Waiting(sub) => sub < |k.x.subs| && k.x.subs[sub].q == []
    case Holding(_, _) => false
    case Leaving(_) => true
    case Gone(_) => true
  }

  /** A broadcast that a subscriber read came after it subscribed. */
  lemma ReadIsLater(u: SE.Sub, log: seq<State>, s: State)
    requires SE.Faithful(u, log) && s in u.got
    requires forall i, j :: 0 <= i < j < |log| ==> log[i] != log[j]
    ensures s in log && s !in log[..u.from]
  {
    var i :| 0 <= i < |u.got| && u.got[i] == s;
    SE.GotIsLog(u, log);
  }

  /** An open subscriber with nothing left to read has read all since it subscribed. */
  lemma ReadAll(u: SE.Sub, log: seq<State>, s: State)
    requires SE.Faithful(u, log) && u.open && u.q == [] && s in log
    ensures s in u.got || s in log[..u.from]
  {
    assert u.got == u.got + u.q == log[u.from..];
    assert log == log[..u.from] + log[u.from..];
  }

  lemma QuietHeard(k: Call)
    requires CallInv(k) && Quiet(k) && k.x.st == Ended && Ended !in k.x.pend
    ensures k.x.subs[k.fwd.sub].from <= |k.x.log|
    ensures Ended in Forwarded(k) <==> Ended !in k.x.log[..k.x.subs[k.fwd.sub].from]
  {
    var u := k.x.subs[k.fwd.sub];
    assert SE.Faithful(u, k.x.log) && Forwarded(k) == u.got;
    if Ended in u.got {
      ReadIsLater(u, k.x.log, Ended);
    } else {
      ReadAll(u, k.x.log, Ended);
    }
  }

  /** Once the end of a call is broadcast and its forwarder is quiet, "ended" was
      fanned out, exactly when the forwarder had subscribed before that broadcast. */
  lemma EndedIsForwardedIff(acts: seq<Act>, sid: string)
    requires Legal(EMPTY, acts) && sid in After(EMPTY, acts).calls
    requires var k := After(EMPTY, acts).calls[sid]; Quiet(k) && k.x.st == Ended && Ended !in k.x.pend
    ensures var k := After(EMPTY, acts).calls[sid];
            && k.fwd.sub < |k.x.subs| && k.x.subs[k.fwd.sub].from <= |k.x.log|
            && (Ended in Forwarded(k) <==> Ended !in k.x.log[..k.x.subs[k.fwd.sub].from])
  {
    RunInv(EMPTY, acts);
    QuietHeard(After(EMPTY, acts).calls[sid]);
  }

  // ---------------------------------------------------------------- who hears of the end

  /** Channel c has room whenever something is fanned out. */
  predicate Roomy(h: Hub, acts: seq<Act>, c: nat)
    requires Legal(h, acts)
    decreases |acts|
  {
    acts == [] || ((acts[0].Fan? && c < |h.chans| ==> |h.chans[c].q| < MANAGER_CAP) && Roomy(Step(h, acts[0]), acts[1..], c))
  }

  /** Whoever is still listed and was told that a call connected is told that it ended. */
  ghost predicate Told(h: Hub, sid: string, c: nat) {
    c < |h.chans| && c in h.listed && Event(sid, Connected) in h.chans[c].sent && Known(h.calls, Event(sid, Ended))
    ==> Event(sid, Ended) in h.chans[c].sent
  }

  lemma FanTells(h: Hub, fan: string, sid: string, c: nat)
    requires HubInv(h) && Enabled(h, Fan(fan)) && Told(h, sid, c) && (c < |h.chans| ==> |h.chans[c].q| < MANAGER_CAP)
    ensures Told(Step(h, Fan(fan)), sid, c)
  {
    var h' := Step(h, Fan(fan));
    FanKeeps(h.calls[fan]);
    if c < |h.chans| && c in h.listed {
      var was, e := h.chans[c].sent, Event(fan, h.calls[fan].fwd.ev);
      assert h'.chans[c].sent == was + [e];
      assert forall d :: d in was + [e] <==> d in was || d == e;
      if fan == sid && e.state == Connected {
        assert !Known(h'.calls, Event(sid, Ended));
      }
    }
  }

  lemma CallTells(h: Hub, a: Act, sid: string, c: nat)
    requires HubInv(h) && Enabled(h, a) && Told(h, sid, c)
    requires a.NewCall? || a.InCall? || a.Register? || a.FwdRead? || a.FwdLeave?
    ensures Told(Step(h, a), sid, c)
  {
    match a {
      case NewCall(_) =>
      case InCall(_, b) => InCallKeeps(h.calls[a.sid], b);
      case Register(_) => RegisterKeeps(h.calls[a.sid]);
      case FwdRead(_) => FwdReadKeeps(h.calls[a.sid]);
      case FwdLeave(_) => FwdLeaveKeeps(h.calls[a.sid]);
    }
    assert Known(Step(h, a).calls, Event(sid, Ended)) ==> Known(h.calls, Event(sid, Ended));
  }

  lemma StepTells(h: Hub, a: Act, sid: string, c: nat)
    requires HubInv(h) && Enabled(h, a) && Told(h, sid, c) && (a.Fan? && c < |h.chans| ==> |h.chans[c].q| < MANAGER_CAP)
    ensures Told(Step(h, a), sid, c)
  {
    match a
    case Fan(fan) => FanTells(h, fan, sid, c);
    case Join =>
    case Quit(d) => UnlistKeeps(h.listed, d);
    case Read(_) =>
    case _ => CallTells(h, a, sid, c);
  }

  lemma {:induction false} RunTells(h: Hub, acts: seq<Act>, sid: string, c: nat)
    requires HubInv(h) && Legal(h, acts) && Told(h, sid, c) && Roomy(h, acts, c)
    ensures Told(After(h, acts), sid, c)
    decreases |acts|
  {
    if acts != [] {
      StepInv(h, acts[0]);
      StepTells(h, acts[0], sid, c);
      RunTells(Step(h, acts[0]), acts[1..], sid, c);
    }
  }

  /** A subscriber that never overflows and has not left hears of the end of every call
      that it heard was connected, once that end is fanned out. */
  lemma EndIsTold(acts: seq<Act>, sid: string, c: nat)
    requires Legal(EMPTY, acts) && Roomy(EMPTY, acts, c)
    requires var h := After(EMPTY, acts);
             && c in h.listed && sid in h.calls && Ended in Forwarded(h.calls[sid])
             && c < |h.chans| && Event(sid, Connected) in h.chans[c].sent
    ensures Event(sid, Ended) in After(EMPTY, acts).chans[c].sent
  {
    RunTells(EMPTY, acts, sid, c);
  }

  // ---------------------------------------------------------------- the forwarder alone

  /** The forwarder's steps, undisturbed, take one event and put it to every listed
      channel, and give up the subscription after "ended". */
  lemma SoloForward(h: Hub, sid: string) returns (acts: seq<Act>, h': Hub)
    requires HubInv(h) && sid in h.calls && h.calls[sid].fwd.Waiting? && h.calls[sid].x.subs[h.calls[sid].fwd.sub].q != []
    ensures Legal(h, acts) && h' == After(h, acts) && h'.listed == h.listed && |h'.chans| == |h.chans|
    ensures sid in h'.calls && h'.calls == h.calls[sid := h'.calls[sid]]
    ensures var k, k' := h.calls[sid], h'.calls[sid];
            var u, i := k.x.subs[k.fwd.sub], k.fwd.sub;
            && k'.fwd == (if u.q[0] == Ended then Gone(i) else Waiting(i)) && |k'.x.subs| == |k.x.subs|
            && k'.x.subs[i] == u.(q := u.q[1..], got := u.got + [u.q[0]], open := u.q[0] != Ended)
            && forall c :: 0 <= c < |h.chans| ==>
                 h'.chans[c] == if c in h.listed && |h.chans[c].q| < 32
                                then Chan(h.chans[c].sent + [Event(sid, u.q[0])], h.chans[c].q + [Event(sid, u.q[0])], h.chans[c].closed)
                                else h.chans[c]
  {
    var h1 := Step(h, FwdRead(sid));
    var h2 := Step(h1, Fan(sid));
    SoloFan(h, sid, h1, h2);
    var rest: seq<Act> := [];
    h' := h2;
    if h2.calls[sid].fwd.Leaving? {
      h' := Step(h2, FwdLeave(sid));
      rest := [FwdLeave(sid)];
      Prepend(h2, FwdLeave(sid), []);
    }
    Prepend(h1, Fan(sid), rest);
    Prepend(h, FwdRead(sid), [Fan(sid)] + rest);
    acts := [FwdRead(sid)] + ([Fan(sid)] + rest);
  }

  /** The event is read and handed to every listed channel that has room. */
  lemma SoloFan(h: Hub, sid: string, h1: Hub, h2: Hub)
    requires HubInv(h) && Enabled(h, FwdRead(sid)) && h1 == Step(h, FwdRead(sid)) && h2 == Step(h1, Fan(sid))
    ensures h2.listed == h.listed && |h2.chans| == |h.chans| && h2.calls == h.calls[sid := h2.calls[sid]]
    ensures var k, k2 := h.calls[sid], h2.calls[sid];
            var u, i := k.x.subs[k.fwd.sub], k.fwd.sub;
            && k2.fwd == (if u.q[0] == Ended then Leaving(i) else Waiting(i))
            && k2.x == k.x.(subs := k.x.subs[i := u.(q := u.q[1..], got := u.got + [u.q[0]])])
            && forall c :: 0 <= c < |h.chans| ==>
                 h2.chans[c] == if c in h.listed && |h.chans[c].q| < 32
                                then Chan(h.chans[c].sent + [Event(sid, u.q[0])], h.chans[c].q + [Event(sid, u.q[0])], h.chans[c].closed)
                                else h.chans[c]
  {
  }

  lemma Prepend(h: Hub, a: Act, acts: seq<Act>)
    requires Enabled(h, a) && Legal(Step(h, a), acts)
    ensures Legal(h, [a] + acts) && After(h, [a] + acts) == After(Step(h, a), acts)
  {
    assert ([a] + acts)[1..] == acts;
  }
}
