/** `internal/call/manager.go`: the registry of sessions and the fan-out of their events. */
module CallManagers {
  import opened ByteStrings
  import opened CallState
  import opened Channels
  import opened Sessions

  const MANAGER_CAP := 32
  const INBOUND_CAP := 16

  class Manager {
    var sessions: map<string, Session>
    const inbound: Chan<Session>
    var subs: seq<Chan<StateChange>>

    /** Listed channels are open and listed once. */
    ghost predicate Inv()
      reads this, subs, inbound
    {
      && inbound.cap == INBOUND_CAP && !inbound.closed
      && (forall c <- subs :: c.cap == MANAGER_CAP && !c.closed)
      && (forall i, j :: 0 <= i < j < |subs| ==> subs[i] != subs[j])
    }

    constructor ()
      ensures Inv() && sessions == map[] && subs == [] && fresh(inbound) && inbound.buf == [] && inbound.cap == 16
    {
      sessions := map[];
      inbound := new Chan<Session>(INBOUND_CAP);
      subs := [];
    }

    /** Adds s once, subscribes its forwarder, and announces inbound sessions. */
    method Register(s: Session) returns (fwd: Option<Forwarder>)
      requires Inv() && s.Inv()
      requires forall c <- subs :: c !in s.subs.Values
      modifies this`sessions, inbound`buf, s`subs, s`nextID
      ensures Inv() && s.Inv()
      ensures fwd.Some? <==> s.id !in old(sessions)
      ensures sessions == if s.id in old(sessions) then old(sessions) else old(sessions)[s.id := s]
      ensures fwd.None? ==> s.subs == old(s.subs) && inbound.buf == old(inbound.buf)
      ensures fwd.Some? ==>
                && fresh(fwd.value) && fwd.value.m == this && fwd.value.s == s && !fwd.value.done && fwd.value.Inv()
                && s.subs == old(s.subs)[fwd.value.sub := fwd.value.ch] && fwd.value.sub !in old(s.subs)
                && fresh(fwd.value.ch) && fwd.value.ch.buf == []
                && inbound.buf == if s.direction == Inbound then Offer(INBOUND_CAP, old(inbound.buf), s) else old(inbound.buf)
    {
      if s.id in sessions {
        return None;
      }
      sessions := sessions[s.id := s];
      var sub, ch := s.Subscribe();
      var f := new Forwarder(this, s, sub, ch);
      if s.direction == Inbound {
        inbound.TrySend(s);
      }
      return Some(f);
    }

    method Remove(id: string)
      modifies this`sessions
      ensures sessions == old(sessions) - {id}
    {
      sessions := sessions - {id};
    }

    method SubscribeStateChanges() returns (ch: Chan<StateChange>)
      requires Inv()
      modifies this`subs
      ensures Inv() && fresh(ch) && ch.buf == [] && ch.cap == 32 && subs == old(subs) + [ch]
    {
      ch := new Chan<StateChange>(MANAGER_CAP);
      subs := subs + [ch];
    }

    /** Unlists and closes ch; unknown channels are left alone. */
    method UnsubscribeStateChanges(ch: Chan<StateChange>)
      requires Inv()
      modifies this`subs, ch`closed
      ensures Inv()
      ensures ch !in old(subs) ==> subs == old(subs) && ch.closed == old(ch.closed)
      ensures ch in old(subs) ==>
                && ch.closed && ch !in subs
                && exists i :: 0 <= i < |old(subs)| && old(subs)[i] == ch && subs == old(subs)[..i] + old(subs)[i + 1..]
    {
      var i := 0;
      while i < |subs|
        invariant 0 <= i <= |subs| && subs == old(subs)
        invariant ch !in subs[..i]
      {
        if subs[i] == ch {
          ch.Close();
          subs := subs[..i] + subs[i + 1..];
          return;
        }
        i := i + 1;
      }
    }

    /** Every listed channel gets ev unless it is full. */
    method Fanout(ev: StateChange)
      requires Inv()
      modifies subs`buf
      ensures Inv()
      ensures forall i :: 0 <= i < |subs| ==> subs[i].buf == Offer(MANAGER_CAP, old(subs[i].buf), ev)
      ensures forall i :: 0 <= i < |subs| ==> subs[i].closed == old(subs[i].closed)
    {
      var i := 0;
      while i < |subs|
        invariant 0 <= i <= |subs| && Inv()
        invariant forall j :: 0 <= j < i ==> subs[j].buf == Offer(MANAGER_CAP, old(subs[j].buf), ev)
        invariant forall j :: i <= j < |subs| ==> subs[j].buf == old(subs[j].buf)
      {
        subs[i].TrySend(ev);
        i := i + 1;
      }
    }
  }

  /** The goroutine that Register starts for one session. */
  class Forwarder {
    const m: Manager
    const s: Session
    const sub: nat
    const ch: Chan<StateChange>
    var done: bool

    ghost predicate Inv()
      reads this, m, m.subs, m.inbound, s, s.subs.Values, ch
    {
      && m.Inv() && s.Inv()
      && (forall c <- m.subs :: c !in s.subs.Values && c != ch)
      && (!done ==> sub in s.subs && s.subs[sub] == ch)
    }

    constructor (m: Manager, s: Session, sub: nat, ch: Chan<StateChange>)
      requires m.Inv() && s.Inv() && sub in s.subs && s.subs[sub] == ch
      requires forall c <- m.subs :: c !in s.subs.Values
      ensures Inv() && !done && this.m == m && this.s == s && this.sub == sub && this.ch == ch
    {
      this.m := m;
      this.s := s;
      this.sub := sub;
      this.ch := ch;
      done := false;
    }

    /** The next event, if there is one: it is of the session that was registered. */
    method Take() returns (ev: Option<StateChange>)
      requires Inv() && !done
      modifies ch`buf
      ensures Inv() && ev == if old(ch.buf) == [] then None else Some(old(ch.buf)[0])
      ensures ch.buf == if old(ch.buf) == [] then [] else old(ch.buf)[1..]
      ensures ev.Some? ==> ev.value.sessionId == s.id && ev.value.remote == s.remote && ev.value.direction == s.direction
    {
      assert s.AllOurs(ch.buf);
      ev := ch.TryRecv();
    }

    /** One turn of the loop: forwards one event, and stops after "ended". */
    method Step()
      requires Inv() && !done
      modifies this`done, ch, m.subs, s`subs
      ensures Inv()
      ensures old(ch.buf) == [] ==> !done && s.subs == old(s.subs) && forall c <- m.subs :: c.buf == old(c.buf)
      ensures old(ch.buf) != [] ==>
                && ch.buf == old(ch.buf)[1..]
                && (forall c <- m.subs :: c.buf == Offer(32, old(c.buf), old(ch.buf)[0]))
                && old(ch.buf)[0].sessionId == s.id && old(ch.buf)[0].remote == s.remote && old(ch.buf)[0].direction == s.direction
                && done == (old(ch.buf)[0].state == Ended)
                && s.subs == (if done then old(s.subs) - {sub} else old(s.subs))
                && ch.closed == done
    {
      var ev := Take();
      if ev.None? {
        return;
      }
      Hand(ev.value);
      if ev.value.state == Ended {
        Leave();
      }
    }

    method Hand(ev: StateChange)
      requires Inv() && !done
      modifies m.subs`buf
      ensures Inv() && forall c <- m.subs :: c.buf == Offer(32, old(c.buf), ev)
    {
      m.Fanout(ev);
    }

    /** The deferred Unsubscribe. */
    method Leave()
      requires Inv() && !done
      modifies this`done, ch, s`subs
      ensures Inv() && done && ch.closed && ch.buf == old(ch.buf) && s.subs == old(s.subs) - {sub}
    {
      s.Unsubscribe(sub);
      done := true;
    }
  }
}
