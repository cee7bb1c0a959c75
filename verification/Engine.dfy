/** `internal/call/streams.go`: the engine that binds sessions to control streams. */
module Engines {
  import opened ByteStrings
  import opened CallState
  import opened Channels
  import opened Sessions
  import opened CallManagers
  import opened EngineSpec
  import P = CallProtocol

  /** Our end of a control stream.  `down` says that the network refuses what we write,
      `inbox` holds the lines that arrive, `pos` counts those Scan has delivered,
      `err` is what Err reports after the last. */
  class Link {
    var out: seq<Line>
    const inbox: seq<Line>
    const err: Option<string>
    var pos: nat
    var down: bool
    var closed: bool
    var reset: bool

    constructor (inbox: seq<Line>, err: Option<string>, down: bool)
      ensures out == [] && this.inbox == inbox && this.err == err && this.down == down && !closed && !reset && pos == 0
    {
      out := [];
      this.inbox := inbox;
      this.err := err;
      pos := 0;
      this.down := down;
      closed := false;
      reset := false;
    }

    method Encode(l: Line) returns (ok: bool)
      modifies this`out
      ensures ok == !(closed || down)
      ensures out == if ok then old(out) + [l] else old(out)
    {
      ok := !(closed || down);
      if ok {
        out := out + [l];
      }
    }

    method Close()
      modifies this`closed
      ensures closed
    {
      closed := true;
    }

    method Reset()
      modifies this`closed, this`reset
      ensures closed && reset
    {
      closed := true;
      reset := true;
    }

    /** One line, or None when Scan returns false. */
    method Scan() returns (l: Option<Line>)
      modifies this`pos
      ensures old(Unread()) == [] ==> l.None? && pos == old(pos)
      ensures old(Unread()) != [] ==> l == Some(old(Unread())[0]) && pos == old(pos) + 1 && Unread() == old(Unread())[1..]
    {
      if pos >= |inbox| {
        return None;
      }
      l := Some(inbox[pos]);
      pos := pos + 1;
    }

    /** What Scan will still deliver. */
    function Unread(): seq<Line>
      reads this
    {
      if pos <= |inbox| then inbox[pos..] else []
    }
  }

  function EndText(err: Option<string>): string {
    if err.Some? then "stream error: " + err.value else "remote disconnected"
  }

  class Engine {
    const self: string
    const manager: Manager
    var streams: map<string, Link>
    var encs: map<string, Link>

    /** A call has an encoder exactly when it has a stream, and it writes to it. */
    ghost predicate Inv()
      reads this
    {
      streams == encs
    }

    constructor (self: string, manager: Manager)
      ensures Inv() && this.self == self && this.manager == manager && streams == map[]
    {
      this.self := self;
      this.manager := manager;
      streams := map[];
      encs := map[];
    }

    /** The call of s over its stream. */
    ghost function ViewOn(s: Session, link: Link): View
      reads this, manager, s, link
    {
      View(s.state, s.reason, s.id in streams, s.id in manager.sessions, link.closed)
    }

    /** link is the stream of s, if it is still bound to one. */
    ghost predicate On(s: Session, link: Link)
      reads this
    {
      s.id in streams ==> streams[s.id] == link
    }

    /** Other calls keep their streams and their registration. */
    twostate predicate OthersKept(id: string)
      reads this, manager
    {
      streams - {id} == old(streams) - {id} && manager.sessions - {id} == old(manager.sessions) - {id}
    }

    method Bind(s: Session, link: Link)
      requires Inv()
      modifies this`streams, this`encs
      ensures Inv() && streams == old(streams)[s.id := link]
    {
      streams := streams[s.id := link];
      encs := encs[s.id := link];
    }

    method StreamFor(id: string) returns (link: Option<Link>)
      ensures link == if id in streams then Some(streams[id]) else None
    {
      link := if id in streams then Some(streams[id]) else None;
    }

    method UnbindAndClose(id: string)
      requires Inv()
      modifies this`streams, this`encs, if id in streams then {streams[id]} else {}
      ensures Inv() && streams == old(streams) - {id}
      ensures id in old(streams) ==> var l := old(streams)[id];
                l.closed && l.out == old(l.out) && l.pos == old(l.pos) && l.reset == old(l.reset)
    {
      var link := StreamFor(id);
      streams := streams - {id};
      encs := encs - {id};
      if link.Some? {
        link.value.Close();
      }
    }

    method Write(s: Session, caller: string, m: P.Msg) returns (ok: bool)
      requires Inv()
      modifies if s.id in encs then {encs[s.id]} else {}
      ensures ok <==> s.id in streams && !streams[s.id].closed && !streams[s.id].down
      ensures s.id in streams ==> var l := streams[s.id];
                && l.out == (if ok then old(l.out) + [Line(s.id, caller, m)] else old(l.out))
                && l.pos == old(l.pos) && l.closed == old(l.closed) && l.reset == old(l.reset) && l.down == old(l.down)
    {
      if s.id !in encs {
        return false;
      }
      ok := encs[s.id].Encode(Line(s.id, caller, m));
    }

    /** Refused before anything is written for outbound sessions. */
    method Accept(s: Session, ghost link: Link) returns (ok: bool)
      requires Inv() && s.Inv() && On(s, link)
      modifies s`state, s.subs.Values`buf, if s.id in encs then {encs[s.id]} else {}
      ensures Inv() && s.Inv()
      ensures s.direction == Inbound ==>
                var v := old(ViewOn(s, link));
                && ViewOn(s, link) == AcceptView(v, link.down)
                && link.out == (if Sends(v, link.down) then old(link.out) + [Line(s.id, "", P.Accept)] else old(link.out))
                && (ok <==> Sends(v, link.down) && v.phase == Ringing)
      ensures s.direction == Outbound ==> !ok && ViewOn(s, link) == old(ViewOn(s, link)) && link.out == old(link.out)
    {
      if s.direction != Inbound {
        return false;
      }
      ok := Write(s, "", P.Accept);
      if !ok {
        return false;
      }
      ok := s.Transition(Connecting);
      if !ok {
        return false;
      }
      ok := s.Transition(Connected);
    }

    /** unbindAndClose and Remove. */
    method CleanUp(s: Session, ghost link: Link)
      requires Inv() && On(s, link)
      modifies this`streams, this`encs, manager`sessions, if s.id in streams then {streams[s.id]} else {}
      ensures Inv() && OthersKept(s.id) && ViewOn(s, link) == Cleaned(old(ViewOn(s, link)))
      ensures link.out == old(link.out) && link.pos == old(link.pos) && link.reset == old(link.reset)
    {
      UnbindAndClose(s.id);
      manager.Remove(s.id);
    }

    /** End, unbindAndClose and Remove. */
    method Finish(s: Session, ghost link: Link, why: string)
      requires Inv() && s.Inv() && On(s, link)
      modifies this`streams, this`encs, manager`sessions, s`state, s`reason, s.subs.Values`buf,
               if s.id in streams then {streams[s.id]} else {}
      ensures Inv() && s.Inv() && OthersKept(s.id) && ViewOn(s, link) == HangupView(old(ViewOn(s, link)), why)
      ensures link.out == old(link.out) && link.pos == old(link.pos) && link.reset == old(link.reset)
    {
      s.End(why);
      CleanUp(s, link);
    }

    method Hangup(s: Session, ghost link: Link, why: string)
      requires Inv() && s.Inv() && On(s, link)
      modifies this`streams, this`encs, manager`sessions, s`state, s`reason, s.subs.Values`buf,
               if s.id in streams then {streams[s.id]} else {}
      ensures Inv() && s.Inv() && OthersKept(s.id)
      ensures var v := old(ViewOn(s, link));
              && ViewOn(s, link) == HangupView(v, why)
              && link.out == (if Sends(v, old(link.down)) then old(link.out) + [Line(s.id, "", P.Hangup(why))] else old(link.out))
    {
      ghost var v := ViewOn(s, link);
      var sent := Write(s, "", P.Hangup(why));
      assert sent == Sends(v, old(link.down)) && ViewOn(s, link) == v;
      Finish(s, link, why);
    }

    /** One turn of the loop, for a line that does not end the call. */
    method Take(s: Session, l: Line)
      requires s.Inv()
      modifies s`state, s.subs.Values`buf
      ensures s.Inv() && s.state == Affected(s.id, old(s.state), l)
    {
      if Accepting(s.id, l) {
        var connecting := s.Transition(Connecting);
        var connected := s.Transition(Connected);
      }
    }

    /** Lines up to the one that ends the call, if any; says why the call ends. */
    method ReadLines(s: Session, link: Link) returns (text: string)
      requires s.Inv()
      modifies s`state, s.subs.Values`buf, link`pos
      ensures s.Inv()
      ensures var r := Serve(s.id, old(s.state), old(link.Unread()), EndText(link.err));
              s.state == r.phase && text == r.text && link.pos == old(link.pos) + r.read
    {
      ghost var r := Serve(s.id, s.state, link.Unread(), EndText(link.err));
      ghost var cur, rest, n := r, link.Unread(), 0;
      text := EndText(link.err);
      var line := link.Scan();
      while line.Some?
        invariant s.Inv() && text == EndText(link.err)
        invariant cur == Serve(s.id, s.state, rest, text)
        invariant r.phase == cur.phase && r.text == cur.text && r.read == n + cur.read
        invariant line.Some? ==> rest != [] && line.value == rest[0] && link.Unread() == rest[1..] && link.pos == old(link.pos) + n + 1
        invariant line.None? ==> rest == [] && link.pos == old(link.pos) + n
        decreases |rest|
      {
        var l := line.value;
        ServeOne(s.id, s.state, rest, text, cur);
        if Closing(s.id, l) {
          return ClosingText(l);
        }
        Take(s, l);
        rest, n := link.Unread(), n + 1;
        cur := Serve(s.id, s.state, rest, text);
        line := link.Scan();
      }
    }

    /** Serves the stream until it names an end or ends itself, then cleans up. */
    method RunScanner(s: Session, link: Link)
      requires Inv() && s.Inv() && On(s, link)
      modifies this`streams, this`encs, manager`sessions, s`state, s`reason, s.subs.Values`buf, link,
               if s.id in streams then {streams[s.id]} else {}
      ensures Inv() && s.Inv()
      ensures var r := Serve(s.id, old(s.state), old(link.Unread()), EndText(link.err));
              ViewOn(s, link) == HangupView(old(ViewOn(s, link)).(phase := r.phase), r.text) && link.pos == old(link.pos) + r.read
      ensures old(s.state) != Ended
              && (forall l <- old(link.Unread()) :: Harmless(s.id, l))
              ==> s.reason == match link.err
                              case None => "remote disconnected"
                              case Some(e) => "stream error: " + e
      ensures OthersKept(s.id) && link.out == old(link.out) && link.reset == old(link.reset)
    {
      ghost var lines := link.Unread();
      var text := ReadLines(s, link);
      ServeRunsOut(s.id, old(s.state), lines, EndText(link.err), Serve(s.id, old(s.state), lines, EndText(link.err)));
      Finish(s, link, text);
    }

    /** Nothing is left to read for a call that was unbound meanwhile. */
    method ReadLoop(s: Session, ghost link: Link)
      requires Inv() && s.Inv() && On(s, link)
      modifies this`streams, this`encs, manager`sessions, s`state, s`reason, s.subs.Values`buf,
               if s.id in streams then {streams[s.id]} else {}
      ensures Inv() && s.Inv() && OthersKept(s.id)
      ensures s.id !in old(streams) ==> ViewOn(s, link) == old(ViewOn(s, link)) && link.pos == old(link.pos)
      ensures s.id in old(streams) ==>
                var r := Serve(s.id, old(s.state), old(link.Unread()), EndText(link.err));
                ViewOn(s, link) == HangupView(old(ViewOn(s, link)).(phase := r.phase), r.text) && link.pos == old(link.pos) + r.read
    {
      var l := StreamFor(s.id);
      if l.Some? {
        RunScanner(s, l.value);
      }
    }

    /** A new session, bound and then registered. */
    method Open(id: string, remote: string, direction: Direction, link: Link) returns (s: Session)
      requires Inv() && manager.Inv()
      modifies this`streams, this`encs, manager`sessions, manager.inbound`buf
      ensures Inv() && manager.Inv() && OthersKept(id)
      ensures fresh(s) && s.Inv() && fresh(s.subs.Values) && s.id == id && s.remote == remote && s.direction == direction
      ensures streams == old(streams)[id := link] && id in manager.sessions
      ensures id !in old(manager.sessions) ==> manager.sessions == old(manager.sessions)[id := s]
      ensures ViewOn(s, link) == View(Idle, "", true, true, link.closed)
      ensures manager.inbound.buf == if direction == Inbound && id !in old(manager.sessions)
                                     then Offer(INBOUND_CAP, old(manager.inbound.buf), s) else old(manager.inbound.buf)
    {
      s := new Session(id, remote, direction);
      Bind(s, link);
      var forwarder := manager.Register(s);
    }

    /** A new outbound session, and its INVITE if the stream takes it. */
    method Dial(id: string, remote: string, link: Link) returns (s: Session, ok: bool)
      requires Inv() && manager.Inv() && id !in streams && id !in manager.sessions
      modifies this`streams, this`encs, manager`sessions, manager.inbound`buf, link
      ensures Inv() && manager.Inv() && manager.inbound.buf == old(manager.inbound.buf)
      ensures fresh(s) && s.Inv() && fresh(s.subs.Values) && s.id == id && s.remote == remote && s.direction == Outbound
      ensures streams == old(streams)[id := link] && manager.sessions == old(manager.sessions)[id := s]
      ensures ok <==> !old(link.closed) && !old(link.down)
      ensures ViewOn(s, link) == View(Idle, "", true, true, old(link.closed))
      ensures link.out == if ok then old(link.out) + [Line(id, self, P.Invite)] else old(link.out)
    {
      s := Open(id, remote, Outbound, link);
      ok := Write(s, self, P.Invite);
    }

    /** Opens a call on a fresh stream: a ringing session, or none when the INVITE cannot
        be written.  The read loop is left to a thread of its own. */
    method Place(id: string, remote: string, link: Link, failure: string) returns (r: Option<Session>)
      requires Inv() && manager.Inv()
      requires id !in streams && id !in manager.sessions
      modifies this`streams, this`encs, manager`sessions, manager.inbound`buf, link
      ensures Inv() && manager.Inv() && OthersKept(id) && manager.inbound.buf == old(manager.inbound.buf)
      ensures r.Some? <==> !old(link.closed) && !old(link.down)
      ensures r.Some? ==> var s := r.value;
                && fresh(s) && s.Inv() && s.id == id && s.remote == remote && s.direction == Outbound
                && streams == old(streams)[id := link] && manager.sessions == old(manager.sessions)[id := s]
                && ViewOn(s, link) == View(Ringing, "", true, true, false)
                && link.out == old(link.out) + [Line(id, self, P.Invite)]
      ensures r.None? ==> id !in streams && id !in manager.sessions && link.closed && link.out == old(link.out)
    {
      var s, ok := Dial(id, remote, link);
      if !ok {
        Finish(s, link, "failed to send INVITE: " + failure);
        return None;
      }
      var rings := s.Transition(Ringing);
      return Some(s);
    }

    /** The INVITE that must come first, from whom it claims to come, for some call. */
    static predicate GoodFirst(l: Line, remote: string) {
      l.Line? && l.msg == P.Invite && l.callId != "" && (l.caller == "" || l.caller == remote)
    }

    /** The inbound call id, from its first line on. */
    method ServeCall(id: string, remote: string, link: Link) returns (s: Session)
      requires Inv() && manager.Inv()
      modifies this`streams, this`encs, manager`sessions, manager.inbound`buf, link
      ensures Inv() && fresh(s) && s.id == id && s.remote == remote && s.direction == Inbound
      ensures var served := Serve(id, Ringing, old(link.Unread()), EndText(link.err));
              ViewOn(s, link) == View(Ended, served.text, false, false, true) && link.pos == old(link.pos) + served.read
      ensures OthersKept(id) && link.out == old(link.out) && link.reset == old(link.reset)
      ensures manager.inbound.buf == if id in old(manager.sessions) then old(manager.inbound.buf)
                                     else Offer(INBOUND_CAP, old(manager.inbound.buf), s)
    {
      s := Open(id, remote, Inbound, link);
      var rings := s.Transition(Ringing);
      ghost var served := Serve(id, Ringing, link.Unread(), EndText(link.err));
      ServeStays(id, Ringing, link.Unread(), EndText(link.err), served);
      RunScanner(s, link);
    }

    /** Serves an incoming stream to its end, or resets it. */
    method HandleStream(link: Link, remote: string) returns (r: Option<Session>)
      requires Inv() && manager.Inv()
      modifies this`streams, this`encs, manager`sessions, manager.inbound`buf, link
      ensures Inv()
      ensures var lines := old(link.Unread());
              r.Some? <==> && lines != [] && lines[0].Line? && lines[0].msg == P.Invite && lines[0].callId != ""
                           && (lines[0].caller == "" || lines[0].caller == remote)
      ensures r.None? ==> link.closed && link.reset && streams == old(streams) && manager.sessions == old(manager.sessions)
                          && link.out == old(link.out) && manager.inbound.buf == old(manager.inbound.buf)
      ensures r.Some? ==>
                var s, lines := r.value, old(link.Unread());
                var served := Serve(lines[0].callId, Ringing, lines[1..], EndText(link.err));
                && fresh(s) && s.id == lines[0].callId && s.remote == remote && s.direction == Inbound
                && ViewOn(s, link) == View(Ended, served.text, false, false, true)
                && OthersKept(s.id) && link.pos == old(link.pos) + 1 + served.read && link.reset == old(link.reset)
                && manager.inbound.buf == if s.id in old(manager.sessions) then old(manager.inbound.buf)
                                          else Offer(INBOUND_CAP, old(manager.inbound.buf), s)
    {
      var first := link.Scan();
      if first.None? || !GoodFirst(first.value, remote) {
        link.Reset();
        return None;
      }
      var s := ServeCall(first.value.callId, remote, link);
      return Some(s);
    }
  }

  /** Two daemons: what Place writes at one end is served at the other as a call from the
      first, to its end, whatever else the caller writes before the stream closes.  `more`
      are those lines, `self` of the callee is whom the caller dials. */
  method Call(caller: Engine, callee: Engine, id: string, out: Link, more: seq<Line>, failure: string)
    returns (placed: Option<Session>, served: Option<Session>)
    requires caller.Inv() && caller.manager.Inv() && callee.Inv() && callee.manager.Inv()
    requires caller != callee && caller.manager != callee.manager && caller.manager.inbound != callee.manager.inbound
    requires id !in caller.streams && id !in caller.manager.sessions && out.out == []
    modifies caller`streams, caller`encs, caller.manager`sessions, caller.manager.inbound`buf, out
    modifies callee`streams, callee`encs, callee.manager`sessions, callee.manager.inbound`buf
    ensures placed.Some? <==> !old(out.closed) && !old(out.down)
    ensures placed.Some? ==> placed.value.id == id && placed.value.state == Ringing
    ensures served.Some? <==> placed.Some? && id != ""
    ensures served.Some? ==> served.value.id == id && served.value.remote == caller.self && served.value.direction == Inbound
    ensures served.Some? && more == [] ==> served.value.state == Ended && served.value.reason == "remote disconnected"
    ensures served.Some? && more != [] && more[0].Line? && more[0].callId == id && more[0].msg.Hangup? ==>
              served.value.state == Ended && served.value.reason == more[0].msg.reason
  {
    placed := caller.Place(id, callee.self, out, failure);
    var sent := out.out + if placed.Some? then more else [];
    var back := new Link(sent, None, false);
    served := callee.HandleStream(back, caller.self);
    if placed.Some? {
      assert sent == [Line(id, caller.self, P.Invite)] + more && sent[1..] == more;
    }
  }
}
