/** `internal/ipc/client.go`: one connection shared by callers and subscribers. */
module IpcClients {
  import opened ByteStrings
  import opened Channels
  import opened IpcRouting

  datatype CallId = CallId(n: nat)

  datatype Message = Message(id: CallId, body: string)

  /** A line from the daemon. */
  datatype Line = Garbage | Response(msg: Message) | Notification(ev: Event)

  /** The channel on which one call waits; it has room for one message. */
  class Answer {
    var buf: seq<Message>
    var closed: bool

    constructor ()
      ensures buf == [] && !closed
    {
      buf := [];
      closed := false;
    }

    /** A send that does not block, on a channel that is open. */
    method Send(m: Message)
      requires !closed && buf == []
      modifies this`buf
      ensures buf == [m]
    {
      buf := [m];
    }

    method Close()
      requires !closed
      modifies this`closed
      ensures closed
    {
      closed := true;
    }
  }

  ghost function Buffers(chans: map<string, Chan<Event>>): Queues
    reads chans.Values`buf
  {
    map x <- chans :: chans[x].buf
  }

  lemma BuffersWith(chans: map<string, Chan<Event>>, id: string, ch: Chan<Event>)
    ensures Buffers(chans[id := ch]) == Buffers(chans)[id := ch.buf]
    ensures Buffers(chans - {id}) == Buffers(chans) - {id}
  {
  }

  lemma BuffersMerged(a: map<string, Chan<Event>>, b: map<string, Chan<Event>>)
    ensures Buffers(a + b) == Buffers(a) + Buffers(b)
  {
  }

  function RoutedOne(r: Routing, line: Line): Routing {
    if line.Notification? then AfterArrive(r, line.ev) else r
  }

  function Routed(r: Routing, lines: seq<Line>): Routing {
    if lines == [] then r else RoutedOne(Routed(r, lines[..|lines| - 1]), lines[|lines| - 1])
  }

  /** The first answer to call id. */
  function AnswerTo(lines: seq<Line>, id: CallId): (m: Option<Message>)
    ensures m.Some? ==> m.value.id == id && Response(m.value) in lines
    ensures m.None? ==> forall l <- lines :: l.Response? ==> l.msg.id != id
  {
    if lines == [] then None
    else
      var n := |lines| - 1;
      var earlier := AnswerTo(lines[..n], id);
      if earlier.Some? then earlier
      else if lines[n].Response? && lines[n].msg.id == id then Some(lines[n].msg)
      else None
  }

  lemma AnswerMore(lines: seq<Line>, line: Line)
    ensures forall id {:trigger AnswerTo(lines + [line], id)} ::
              AnswerTo(lines + [line], id) == if AnswerTo(lines, id).Some? then AnswerTo(lines, id)
                                              else if line.Response? && line.msg.id == id then Some(line.msg)
                                              else None
  {
    assert (lines + [line])[..|lines|] == lines;
  }

  lemma Subvalues(a: map<CallId, Answer>, b: map<CallId, Answer>)
    requires forall x <- a :: x in b && a[x] == b[x]
    ensures a.Values <= b.Values
  {
    forall c | c in a.Values ensures c in b.Values {
      var x :| x in a && a[x] == c;
      assert b[x] == c;
    }
  }

  class Client {
    var subs: map<string, Chan<Event>>
    var pendEvs: map<string, seq<Event>>
    var pending: map<CallId, Answer>
    var nextID: nat
    var gone: bool
    ghost var retired: map<string, Chan<Event>>

    /** Event channels belong to one subscription and are open while it is listed. */
    ghost predicate Inv()
      reads this, subs.Values
    {
      && (forall x <- subs, y <- subs :: subs[x] == subs[y] ==> x == y)
      && (forall x <- subs :: subs[x].cap == EVENT_CAP && !subs[x].closed)
      && (forall x <- subs, y <- retired :: subs[x] != retired[y])
      && (forall x <- pendEvs :: |pendEvs[x]| <= EVENT_CAP)
      && (gone ==> subs == map[] && pendEvs == map[])
    }

    /** Answer channels belong to one call, are open, and have room for the answer. */
    ghost predicate CallsInv()
      reads this, pending.Values
    {
      && (forall x <- pending, y <- pending :: pending[x] == pending[y] ==> x == y)
      && (forall x <- pending :: x.n <= nextID && !pending[x].closed && pending[x].buf == [])
    }

    ghost function View(): Routing
      reads this, subs.Values`buf, retired.Values`buf
    {
      Routing(Buffers(subs), pendEvs, Buffers(retired), gone)
    }

    constructor ()
      ensures Inv() && CallsInv() && View() == START && pending == map[]
    {
      subs, pendEvs, pending, retired := map[], map[], map[], map[];
      nextID := 0;
      gone := false;
    }

    /** An event goes to its channel if there is one, else it is put aside. */
    method Route(ev: Event)
      requires Inv() && !gone
      modifies this`pendEvs, subs.Values`buf
      ensures Inv() && View() == AfterArrive(old(View()), ev)
      ensures forall x <- subs :: subs[x].buf == old(subs[x].buf) + if x == ev.sub && old(|subs[x].buf|) < 16 then [ev] else []
      ensures ev.sub in subs ==> pendEvs == old(pendEvs)
      ensures ev.sub !in subs ==>
                var stash := if ev.sub in old(pendEvs) then old(pendEvs)[ev.sub] else [];
                pendEvs == if |stash| < 16 then old(pendEvs)[ev.sub := stash + [ev]] else old(pendEvs)
    {
      if ev.sub in subs {
        subs[ev.sub].TrySend(ev);
      } else {
        var stash := if ev.sub in pendEvs then pendEvs[ev.sub] else [];
        if |stash| < EVENT_CAP {
          pendEvs := pendEvs[ev.sub := stash + [ev]];
        } else {
          assert pendEvs == pendEvs[ev.sub := stash];
        }
      }
    }

    /** The locked part of Subscribe: a new channel takes over what was put aside, and
        there is always room for it. */
    method Register(id: string) returns (ch: Option<Chan<Event>>)
      requires Inv() && id !in subs && id !in retired
      modifies this`subs, this`pendEvs
      ensures Inv() && ch.None? == gone
      ensures ch.None? ==> View() == old(View())
      ensures ch.Some? ==> fresh(ch.value) && ch.value.cap == 16 && subs == old(subs)[id := ch.value] && View() == AfterRegister(old(View()), id)
      ensures ch.Some? ==> pendEvs == old(pendEvs) - {id} && ch.value.buf == if id in old(pendEvs) then old(pendEvs)[id] else []
    {
      if gone {
        return None;
      }
      var events := new Chan<Event>(EVENT_CAP);
      var buffered := if id in pendEvs then pendEvs[id] else [];
      Fill(events, buffered);
      DrainKeepsAll([], buffered);
      assert [] + buffered == buffered;
      Enlist(id, events);
      return Some(events);
    }

    method Enlist(id: string, events: Chan<Event>)
      requires Inv() && !gone && id !in subs && id !in retired
      requires events.cap == EVENT_CAP && !events.closed && (forall x <- subs :: subs[x] != events)
      requires forall x <- retired :: retired[x] != events
      modifies this`subs, this`pendEvs
      ensures Inv() && subs == old(subs)[id := events] && pendEvs == old(pendEvs) - {id}
      ensures View() == old(View()).(subs := old(View()).subs[id := events.buf], pendEvs := old(View()).pendEvs - {id})
    {
      BuffersWith(subs, id, events);
      subs := subs[id := events];
      pendEvs := pendEvs - {id};
    }

    /** Non-blocking sends into a new channel: none is dropped. */
    method Fill(events: Chan<Event>, buffered: seq<Event>)
      requires !events.closed && events.cap == EVENT_CAP && events.buf == [] && |buffered| <= EVENT_CAP
      modifies events`buf
      ensures events.buf == buffered
    {
      var i := 0;
      while i < |buffered|
        invariant 0 <= i <= |buffered| && events.buf == buffered[..i]
      {
        assert |events.buf| < EVENT_CAP;
        events.TrySend(buffered[i]);
        i := i + 1;
      }
    }

    method Retire(id: string)
      requires Inv() && id in subs && id !in retired
      modifies this`subs, this`retired
      ensures Inv() && subs == old(subs) - {id} && retired == old(retired)[id := old(subs)[id]]
      ensures View() == AfterClose(old(View()), id)
    {
      BuffersWith(subs, id, subs[id]);
      BuffersWith(retired, id, subs[id]);
      retired := retired[id := subs[id]];
      subs := subs - {id};
    }

    /** Subscription.Close: the channel stays readable, later events are no longer its. */
    method CloseSub(id: string)
      requires Inv() && id !in retired
      modifies this`subs, this`retired, (if id in subs then {subs[id]} else {})`closed
      ensures Inv() && View() == AfterClose(old(View()), id)
      ensures id in old(subs) ==> old(subs)[id].closed && old(subs)[id].buf == old(subs[id].buf)
      ensures subs == old(subs) - {id} && pendEvs == old(pendEvs)
    {
      if id in subs {
        var ch := subs[id];
        Retire(id);
        ch.Close();
      }
    }

    // ------------------------------------------------------------ calls

    /** The locked part of Call, before the request is written. */
    method Begin() returns (r: Option<(CallId, Answer)>)
      requires CallsInv() && (gone ==> pending == map[])
      modifies this`pending, this`nextID
      ensures CallsInv() && r.None? == gone && nextID == old(nextID) + 1
      ensures r.None? ==> pending == old(pending)
      ensures r.Some? ==> fresh(r.value.1) && r.value.0 == CallId(nextID) && r.value.0 !in old(pending)
                          && pending == old(pending)[r.value.0 := r.value.1]
    {
      nextID := nextID + 1;
      if gone {
        return None;
      }
      var ch := new Answer();
      var id := CallId(nextID);
      pending := pending[id := ch];
      return Some((id, ch));
    }

    /** A caller that gave up, or could not write. */
    method Abandon(id: CallId)
      requires CallsInv()
      modifies this`pending
      ensures CallsInv() && pending == old(pending) - {id}
    {
      pending := pending - {id};
    }

    /** An answer is taken off the list, then sent: it neither blocks nor meets a closed
        channel, and answers nobody waits for are dropped. */
    method Respond(msg: Message)
      requires CallsInv()
      modifies this`pending, (if msg.id in pending then {pending[msg.id]} else {})`buf
      ensures CallsInv() && pending == old(pending) - {msg.id}
      ensures msg.id in old(pending) ==> old(pending)[msg.id].buf == [msg]
      ensures forall x <- old(pending) :: x != msg.id ==> old(pending)[x].buf == []
    {
      if msg.id in pending {
        var ch := pending[msg.id];
        pending := pending - {msg.id};
        ch.Send(msg);
      }
    }

    method EndCalls()
      requires CallsInv()
      modifies this`pending, pending.Values`closed
      ensures pending == map[]
      ensures forall x <- old(pending) :: old(pending)[x].closed && old(pending)[x].buf == []
    {
      CloseCalls();
      pending := map[];
    }

    method RetireAll()
      modifies this`subs, this`pendEvs, this`retired, this`gone
      ensures subs == map[] && pendEvs == map[] && gone
      ensures Buffers(subs) == map[] && Buffers(retired) == old(Buffers(retired)) + old(Buffers(subs))
    {
      BuffersMerged(retired, subs);
      retired := retired + subs;
      subs := map[];
      pendEvs := map[];
      gone := true;
    }

    method EndSubs()
      requires Inv() && !gone
      modifies this`subs, this`pendEvs, this`retired, this`gone, subs.Values`closed
      ensures Inv() && gone && View() == AfterTearDown(old(View()))
      ensures forall x <- old(subs) :: old(subs)[x].closed
    {
      CloseSubs();
      RetireAll();
    }

    /** The end of the read loop: whoever waits is told. */
    method TearDown()
      requires Inv() && CallsInv() && !gone
      modifies this`subs, this`pendEvs, this`retired, this`gone, this`pending, subs.Values`closed, pending.Values`closed
      ensures Inv() && CallsInv() && View() == AfterTearDown(old(View())) && pending == map[]
      ensures subs == map[] && pendEvs == map[] && gone
      ensures forall x <- old(pending) :: old(pending)[x].closed && old(pending)[x].buf == []
      ensures forall x <- old(subs) :: old(subs)[x].closed
    {
      EndCalls();
      assert Inv() && View() == old(View());
      EndSubs();
    }

    method CloseCalls()
      requires CallsInv()
      modifies pending.Values`closed
      ensures forall x <- pending :: pending[x].closed
    {
      var rest := pending.Keys;
      while rest != {}
        invariant rest <= pending.Keys
        invariant forall x <- pending :: pending[x].closed == (x !in rest)
        decreases rest
      {
        var x :| x in rest;
        pending[x].Close();
        rest := rest - {x};
      }
    }

    method CloseSubs()
      requires Inv()
      modifies subs.Values`closed
      ensures forall x <- subs :: subs[x].closed
    {
      var rest := subs.Keys;
      while rest != {}
        invariant rest <= subs.Keys
        invariant forall x <- subs :: subs[x].closed == (x !in rest)
        decreases rest
      {
        var x :| x in rest;
        subs[x].Close();
        rest := rest - {x};
      }
    }

    /** What the channels of `calls`, pending at first, hold after the given lines. */
    ghost predicate Served(calls: map<CallId, Answer>, lines: seq<Line>)
      reads this, calls.Values
    {
      && (forall x <- pending :: x in calls && pending[x] == calls[x])
      && (forall x <- calls, y <- calls :: calls[x] == calls[y] ==> x == y)
      && forall x <- calls ::
           match AnswerTo(lines, x)
           case Some(m) => x !in pending && calls[x].buf == [m] && !calls[x].closed
           case None => x in pending
    }

    /** One line: answers and events find their channels, anything else is skipped. */
    method Dispatch(line: Line)
      requires Inv() && CallsInv() && !gone
      modifies this`pendEvs, this`pending, subs.Values`buf, pending.Values`buf
      ensures Inv() && CallsInv() && View() == RoutedOne(old(View()), line)
      ensures pending == if line.Response? then old(pending) - {line.msg.id} else old(pending)
      ensures forall x <- old(pending) :: old(pending)[x].buf == if line.Response? && line.msg.id == x then [line.msg] else []
    {
      match line
      case Garbage =>
      case Response(msg) => Respond(msg);
      case Notification(ev) => Route(ev);
    }

    method Turn(ghost calls: map<CallId, Answer>, ghost before: seq<Line>, line: Line)
      requires Inv() && CallsInv() && !gone && Served(calls, before)
      modifies this`pendEvs, this`pending, subs.Values`buf, pending.Values`buf
      ensures Inv() && CallsInv() && View() == RoutedOne(old(View()), line)
      ensures Served(calls, before + [line])
    {
      AnswerMore(before, line);
      assert forall x <- calls :: x !in pending ==> calls[x] !in pending.Values;
      Dispatch(line);
      forall x <- calls
        ensures match AnswerTo(before + [line], x)
                case Some(m) => x !in pending && calls[x].buf == [m] && !calls[x].closed
                case None => x in pending
      {
      }
    }

    /** The read loop from here to the end of the connection. */
    method ReadLoop(lines: seq<Line>)
      requires Inv() && CallsInv() && !gone
      modifies this`subs, this`pendEvs, this`retired, this`gone, this`pending, subs.Values, pending.Values
      ensures Inv() && CallsInv() && pending == map[]
      ensures View() == AfterTearDown(Routed(old(View()), lines))
      ensures forall x <- old(pending) ::
                match AnswerTo(lines, x)
                case Some(m) => old(pending)[x].buf == [m] && !old(pending)[x].closed
                case None => old(pending)[x].buf == [] && old(pending)[x].closed
    {
      var i := 0;
      assert lines[..0] == [];
      while i < |lines|
        invariant 0 <= i <= |lines| && Inv() && CallsInv() && !gone
        invariant subs == old(subs) && View() == Routed(old(View()), lines[..i])
        invariant Served(old(pending), lines[..i])
      {
        assert lines[..i + 1] == lines[..i] + [lines[i]];
        Subvalues(pending, old(pending));
        Turn(old(pending), lines[..i], lines[i]);
        i := i + 1;
      }
      assert lines[..i] == lines;
      TearDownServed(old(pending), lines);
    }

    /** The end of the connection, for calls of which some were answered. */
    method TearDownServed(ghost calls: map<CallId, Answer>, ghost lines: seq<Line>)
      requires Inv() && CallsInv() && !gone && Served(calls, lines)
      modifies this`subs, this`pendEvs, this`retired, this`gone, this`pending, subs.Values`closed, pending.Values`closed
      ensures Inv() && CallsInv() && View() == AfterTearDown(old(View())) && pending == map[]
      ensures forall x <- calls ::
                match AnswerTo(lines, x)
                case Some(m) => calls[x].buf == [m] && !calls[x].closed
                case None => calls[x].buf == [] && calls[x].closed
    {
      Subvalues(pending, calls);
      TearDown();
    }
  }
}
