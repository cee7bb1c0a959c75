/**
 Events race with the registration of the subscription they belong to: they may arrive
 before the subscriber's channel exists, and are then put aside.  For the subscriber
 this is one bounded queue.
 */
module IpcRouting {
  import opened Channels

  const EVENT_CAP := 16

  datatype Event = Event(sub: string, kind: string, data: string)

  type Queues = map<string, seq<Event>>

  /** `subs` are the registered channels, `pendEvs` what was put aside, `closed` the
      channels that are closed but can still be read; `gone` once the read loop left. */
  datatype Routing = Routing(subs: Queues, pendEvs: Queues, closed: Queues, gone: bool)

  const START := Routing(map[], map[], map[], false)

  function Stash(r: Routing, id: string): seq<Event> {
    if id in r.pendEvs then r.pendEvs[id] else []
  }

  /** What is sent or put aside for a sub, and is still to be read. */
  function Waiting(r: Routing, id: string): seq<Event> {
    if id in r.subs then r.subs[id] else if id in r.closed then r.closed[id] else Stash(r, id)
  }

  datatype Act = Arrive(ev: Event) | Register(id: string) | Read(id: string) | Close(id: string) | TearDown

  predicate Known(r: Routing, id: string) {
    id in r.subs || id in r.closed
  }

  /** A server hands out an ID once; events arrive while the read loop runs. */
  predicate Enabled(r: Routing, a: Act) {
    match a
    case Arrive(_) => !r.gone
    case Register(id) => !r.gone && id !in r.subs && id !in r.closed
    case Read(id) => Known(r, id) && Waiting(r, id) != []
    case Close(_) => true
    case TearDown => !r.gone
  }

  function AfterArrive(r: Routing, ev: Event): Routing {
    if ev.sub in r.subs then r.(subs := r.subs[ev.sub := Offer(EVENT_CAP, r.subs[ev.sub], ev)])
    else r.(pendEvs := r.pendEvs[ev.sub := Offer(EVENT_CAP, Stash(r, ev.sub), ev)])
  }

  /** Non-blocking sends, one after the other, into a channel. */
  function Drained(q: seq<Event>, evs: seq<Event>): seq<Event>
    decreases |evs|
  {
    if evs == [] then q else Drained(Offer(EVENT_CAP, q, evs[0]), evs[1..])
  }

  function AfterRegister(r: Routing, id: string): Routing {
    r.(subs := r.subs[id := Drained([], Stash(r, id))], pendEvs := r.pendEvs - {id})
  }

  function AfterClose(r: Routing, id: string): Routing {
    if id in r.subs then r.(subs := r.subs - {id}, closed := r.closed[id := r.subs[id]]) else r
  }

  function AfterTearDown(r: Routing): Routing {
    Routing(map[], map[], r.closed + r.subs, true)
  }

  function Step(r: Routing, a: Act): Routing
    requires Enabled(r, a)
  {
    match a
    case Arrive(ev) => AfterArrive(r, ev)
    case Register(id) => AfterRegister(r, id)
    case Read(id) =>
      if id in r.subs then r.(subs := r.subs[id := Waiting(r, id)[1..]]) else r.(closed := r.closed[id := Waiting(r, id)[1..]])
    case Close(id) => AfterClose(r, id)
    case TearDown => AfterTearDown(r)
  }

  // ---------------------------------------------------------------- one queue instead

  /** A queue that exists from the start and drops what does not fit. */
  datatype Fifo = Fifo(q: seq<Event>, open: bool)

  predicate FifoEnabled(f: Fifo, a: Act, id: string) {
    a == Read(id) ==> f.q != []
  }

  function FifoStep(f: Fifo, a: Act, id: string, known: bool): Fifo
    requires FifoEnabled(f, a, id)
  {
    match a
    case Arrive(ev) => if ev.sub == id && f.open then f.(q := Offer(EVENT_CAP, f.q, ev)) else f
    case Read(x) => if x == id then f.(q := f.q[1..]) else f
    case Close(x) => if x == id && known then f.(open := false) else f
    case TearDown => f.(open := false)
    case Register(_) => f
  }

  /** The queue of sub id, as long as its subscriber can still come or has come. */
  ghost predicate Same(r: Routing, f: Fifo, id: string) {
    && (forall x :: x in r.pendEvs ==> |r.pendEvs[x]| <= EVENT_CAP)
    && (forall x :: x in r.subs ==> x !in r.closed)
    && (f.open <==> !r.gone && id !in r.closed)
    && (r.gone ==> r.subs == map[])
    && (!r.gone || Known(r, id) ==> f.q == Waiting(r, id) && |f.q| <= EVENT_CAP)
  }

  lemma {:induction false} DrainKeepsAll(q: seq<Event>, evs: seq<Event>)
    requires |q| + |evs| <= EVENT_CAP
    ensures Drained(q, evs) == q + evs
    decreases |evs|
  {
    if evs != [] {
      DrainKeepsAll(q + [evs[0]], evs[1..]);
    }
  }

  lemma SameStep(r: Routing, f: Fifo, id: string, a: Act)
    requires Same(r, f, id) && Enabled(r, a)
    ensures FifoEnabled(f, a, id) && Same(Step(r, a), FifoStep(f, a, id, id in r.subs), id)
  {
    match a
    case Register(x) => DrainKeepsAll([], Stash(r, x));
    case _ =>
  }

  predicate Legal(r: Routing, acts: seq<Act>)
    decreases |acts|
  {
    acts == [] || (Enabled(r, acts[0]) && Legal(Step(r, acts[0]), acts[1..]))
  }

  /** The events a subscriber reads in a run. */
  function Seen(r: Routing, acts: seq<Act>, id: string): seq<Event>
    requires Legal(r, acts)
    decreases |acts|
  {
    if acts == [] then []
    else (if acts[0] == Read(id) then [Waiting(r, id)[0]] else []) + Seen(Step(r, acts[0]), acts[1..], id)
  }

  /** The events the single queue would hand out, with the same arrivals and reads. */
  function FifoSeen(r: Routing, f: Fifo, acts: seq<Act>, id: string): seq<Event>
    requires Legal(r, acts)
    decreases |acts|
  {
    if acts == [] then []
    else if !FifoEnabled(f, acts[0], id) then []
    else
      (if acts[0] == Read(id) then [f.q[0]] else [])
      + FifoSeen(Step(r, acts[0]), FifoStep(f, acts[0], id, id in r.subs), acts[1..], id)
  }

  lemma {:induction false} RunsAreSame(r: Routing, f: Fifo, acts: seq<Act>, id: string)
    requires Same(r, f, id) && Legal(r, acts)
    ensures Seen(r, acts, id) == FifoSeen(r, f, acts, id)
    decreases |acts|
  {
    if acts != [] {
      SameStep(r, f, id, acts[0]);
      RunsAreSame(Step(r, acts[0]), FifoStep(f, acts[0], id, id in r.subs), acts[1..], id);
    }
  }

  /**
   For every order of arrivals, registration, reads and closes, of this and of other
   subs, a subscriber sees what a single 16-slot queue that existed from the start
   would have handed out.
   */
  lemma RaceIsInvisible(acts: seq<Act>, id: string)
    requires Legal(START, acts)
    ensures Seen(START, acts, id) == FifoSeen(START, Fifo([], true), acts, id)
  {
    RunsAreSame(START, Fifo([], true), acts, id);
  }

  // ---------------------------------------------------------------- what is kept

  function After(r: Routing, acts: seq<Act>): Routing
    requires Legal(r, acts)
    decreases |acts|
  {
    if acts == [] then r else After(Step(r, acts[0]), acts[1..])
  }

  function Arrivals(evs: seq<Event>): seq<Act> {
    if evs == [] then [] else [Arrive(evs[0])] + Arrivals(evs[1..])
  }

  /** The events of evs for sub id. */
  function OfSub(evs: seq<Event>, id: string): seq<Event> {
    if evs == [] then [] else (if evs[0].sub == id then [evs[0]] else []) + OfSub(evs[1..], id)
  }

  /** The first sixteen, or all there are. */
  function FirstSixteen(s: seq<Event>): seq<Event> {
    if |s| <= 16 then s else s[..16]
  }

  lemma FirstTwice(w: seq<Event>, x: seq<Event>, rest: seq<Event>)
    ensures FirstSixteen(FirstSixteen(w + x) + rest) == FirstSixteen(w + (x + rest))
  {
    assert (w + x) + rest == w + (x + rest);
  }

  /** While nothing is read, the first sixteen events wait, in order, and no other;
      whether the subscriber has its channel yet makes no difference. */
  lemma {:induction false} FirstAreKept(r: Routing, evs: seq<Event>, id: string)
    requires !r.gone && id !in r.closed && |Waiting(r, id)| <= 16
    ensures Legal(r, Arrivals(evs))
    ensures Waiting(After(r, Arrivals(evs)), id) == FirstSixteen(Waiting(r, id) + OfSub(evs, id))
    ensures id in After(r, Arrivals(evs)).subs <==> id in r.subs
    decreases |evs|
  {
    if evs == [] {
      assert Waiting(r, id) + [] == Waiting(r, id);
    } else {
      var s, acts := Step(r, Arrive(evs[0])), Arrivals(evs);
      assert acts[0] == Arrive(evs[0]) && acts[1..] == Arrivals(evs[1..]);
      ArriveKeeps(r, evs[0], id, s);
      FirstAreKept(s, evs[1..], id);
      FirstTwice(Waiting(r, id), if evs[0].sub == id then [evs[0]] else [], OfSub(evs[1..], id));
    }
  }

  lemma ArriveKeeps(r: Routing, ev: Event, id: string, s: Routing)
    requires !r.gone && id !in r.closed && |Waiting(r, id)| <= 16 && s == Step(r, Arrive(ev))
    ensures !s.gone && id !in s.closed && (id in s.subs <==> id in r.subs)
    ensures Waiting(s, id) == FirstSixteen(Waiting(r, id) + if ev.sub == id then [ev] else [])
  {
    if ev.sub == id {
      Offered(Waiting(r, id), ev);
    } else {
      assert Waiting(r, id) + [] == Waiting(r, id);
    }
  }

  lemma Offered(q: seq<Event>, ev: Event)
    requires |q| <= 16
    ensures Offer(EVENT_CAP, q, ev) == FirstSixteen(q + [ev])
  {
  }

  lemma Regroup(a: seq<Event>, b: seq<Event>, c: seq<Event>)
    ensures (a + b) + c == a + (b + c)
  {
  }

  /** What the subscriber read, and what waits for it. */
  function TakenIn(r: Routing, acts: seq<Act>, id: string): seq<Event>
    requires Legal(r, acts)
  {
    Seen(r, acts, id) + Waiting(After(r, acts), id)
  }

  ghost predicate Bounded(r: Routing) {
    && (forall x <- r.pendEvs :: |r.pendEvs[x]| <= EVENT_CAP)
    && (forall x <- r.subs :: x !in r.closed)
    && (r.gone ==> r.subs == map[] && r.pendEvs == map[])
  }

  lemma StepBounded(r: Routing, a: Act)
    requires Bounded(r) && Enabled(r, a)
    ensures Bounded(Step(r, a))
  {
  }

  /** One step hands out the first, or adds to the end; only the end of the connection
      drops what nobody subscribed to. */
  lemma StepGrows(r: Routing, a: Act, id: string)
    requires Bounded(r) && Enabled(r, a)
    ensures var s := Step(r, a);
            && (Known(r, id) ==> Known(s, id))
            && (a == Read(id) ==> Waiting(r, id) == [Waiting(r, id)[0]] + Waiting(s, id))
            && (a != Read(id) && (!s.gone || Known(s, id)) ==> Waiting(r, id) <= Waiting(s, id))
  {
    match a
    case Register(x) => DrainKeepsAll([], Stash(r, x));
    case _ =>
  }

  lemma {:induction false} RunGrows(r: Routing, acts: seq<Act>, id: string)
    requires Bounded(r) && Legal(r, acts) && (!After(r, acts).gone || Known(After(r, acts), id))
    ensures Waiting(r, id) <= TakenIn(r, acts, id)
    ensures !r.gone || Known(r, id)
    decreases |acts|
  {
    if acts != [] {
      var s := Step(r, acts[0]);
      StepBounded(r, acts[0]);
      RunGrows(s, acts[1..], id);
      StepGrows(r, acts[0], id);
      GrowsOn(r, acts, id, s);
    } else {
      assert TakenIn(r, acts, id) == Waiting(r, id);
    }
  }

  lemma GrowsOn(r: Routing, acts: seq<Act>, id: string, s: Routing)
    requires Legal(r, acts) && acts != [] && s == Step(r, acts[0])
    ensures TakenIn(r, acts, id) == (if acts[0] == Read(id) then [Waiting(r, id)[0]] else []) + TakenIn(s, acts[1..], id)
  {
    var first := if acts[0] == Read(id) then [Waiting(r, id)[0]] else [];
    Regroup(first, Seen(s, acts[1..], id), Waiting(After(s, acts[1..]), id));
  }

  lemma {:induction false} Splits(r: Routing, acts: seq<Act>, more: seq<Act>, id: string)
    requires Legal(r, acts + more)
    ensures Legal(r, acts) && Legal(After(r, acts), more) && After(r, acts + more) == After(After(r, acts), more)
    ensures TakenIn(r, acts + more, id) == Seen(r, acts, id) + TakenIn(After(r, acts), more, id)
    ensures Bounded(r) ==> Bounded(After(r, acts))
    decreases |acts|
  {
    if acts == [] {
      assert acts + more == more;
    } else {
      var s, all := Step(r, acts[0]), acts + more;
      assert all[0] == acts[0] && all[1..] == acts[1..] + more;
      if Bounded(r) { StepBounded(r, acts[0]); }
      Splits(s, acts[1..], more, id);
      GrowsOn(r, all, id, s);
      Regroup(if acts[0] == Read(id) then [Waiting(r, id)[0]] else [], Seen(s, acts[1..], id),
              TakenIn(After(s, acts[1..]), more, id));
    }
  }

  lemma {:induction false} UnknownReadsNothing(r: Routing, acts: seq<Act>, id: string)
    requires Bounded(r) && Legal(r, acts) && After(r, acts).gone && !Known(After(r, acts), id)
    ensures !Known(r, id) && TakenIn(r, acts, id) == []
    decreases |acts|
  {
    if acts != [] {
      StepBounded(r, acts[0]);
      UnknownReadsNothing(Step(r, acts[0]), acts[1..], id);
      StepGrows(r, acts[0], id);
      GrowsOn(r, acts, id, Step(r, acts[0]));
    }
  }

  /**
   An event once taken in, sent or put aside, is never lost and never overtaken, however
   the run goes on, exactly unless the connection ends before anybody subscribed to it.
   */
  lemma TakenInIsKeptIff(acts: seq<Act>, more: seq<Act>, id: string)
    requires Legal(START, acts + more)
    ensures Legal(START, acts)
    ensures TakenIn(START, acts, id) <= TakenIn(START, acts + more, id)
            <==> TakenIn(START, acts, id) == [] || !After(START, acts + more).gone || Known(After(START, acts + more), id)
  {
    Splits(START, acts, more, id);
    var r, z := After(START, acts), After(START, acts + more);
    if !z.gone || Known(z, id) {
      RunGrows(r, more, id);
      var seen, w, t := Seen(START, acts, id), Waiting(r, id), TakenIn(r, more, id);
      assert (seen + t)[..|seen + w|] == seen + t[..|w|] == seen + w;
    } else {
      UnknownReadsNothing(START, acts + more, id);
    }
  }
}
