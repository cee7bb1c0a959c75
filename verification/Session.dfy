/** `internal/call/session.go`: the state machine of one call and its subscribers. */
module Sessions {
  import opened CallState
  import opened Channels

  const SESSION_CAP := 16

  datatype StateChange = StateChange(sessionId: string, state: State, direction: Direction, remote: string, reason: string)

  class Session {
    const id: string
    const remote: string
    const direction: Direction
    var state: State
    var reason: string
    var subs: map<nat, Chan<StateChange>>
    var nextID: nat

    /** Subscribed channels are open and distinct, and hold events of this session. */
    ghost predicate Inv()
      reads this, subs.Values
    {
      && (forall k <- subs :: k < nextID && subs[k].cap == SESSION_CAP && !subs[k].closed && AllOurs(subs[k].buf))
      && (forall j, k :: j in subs && k in subs && subs[j] == subs[k] ==> j == k)
    }

    ghost predicate AllOurs(evs: seq<StateChange>) {
      forall i :: 0 <= i < |evs| ==> evs[i].sessionId == id && evs[i].remote == remote && evs[i].direction == direction
    }

    constructor (id: string, remote: string, direction: Direction)
      ensures this.id == id && this.remote == remote && this.direction == direction
      ensures state == Idle && reason == "" && subs == map[] && Inv()
    {
      this.id := id;
      this.remote := remote;
      this.direction := direction;
      state := Idle;
      reason := "";
      subs := map[];
      nextID := 0;
    }

    function Event(s: State, why: string): StateChange {
      StateChange(id, s, direction, remote, why)
    }

    /** Every subscriber gets ev unless its buffer is full. */
    method Broadcast(ev: StateChange)
      requires Inv() && AllOurs([ev])
      modifies subs.Values`buf
      ensures Inv()
      ensures forall k <- subs :: subs[k].buf == Offer(SESSION_CAP, old(subs[k].buf), ev)
    {
      var rest := subs.Keys;
      while rest != {}
        invariant rest <= subs.Keys
        invariant Inv()
        invariant forall k <- subs :: subs[k].buf
                                      == if k in rest then old(subs[k].buf) else Offer(SESSION_CAP, old(subs[k].buf), ev)
        decreases rest
      {
        var k :| k in rest;
        subs[k].TrySend(ev);
        rest := rest - {k};
      }
    }

    /** One step up or an error; subscribers hear of a step that was taken. */
    method Transition(target: State) returns (ok: bool)
      requires Inv()
      modifies this`state, subs.Values`buf
      ensures Inv()
      ensures ok <==> CanEnter(old(state), target)
      ensures state == Entered(old(state), target)
      ensures forall k <- subs :: subs[k].buf
                                  == if ok then Offer(16, old(subs[k].buf), StateChange(
                                       sessionId := id, state := target, direction := direction, remote := remote, reason := ""))
                                     else old(subs[k].buf)
    {
      if state == Ended {
        return false;
      }
      if Rank(target) != Rank(state) + 1 {
        return false;
      }
      state := target;
      Broadcast(Event(target, ""));
      return true;
    }

    /** Ends the call once; the first reason stays and is announced once. */
    method End(why: string)
      requires Inv()
      modifies this`state, this`reason, subs.Values`buf
      ensures Inv() && state == Ended
      ensures reason == if old(state) == Ended then old(reason) else why
      ensures forall k <- subs :: subs[k].buf
                                  == if old(state) == Ended then old(subs[k].buf)
                                     else Offer(16, old(subs[k].buf), StateChange(
                                       sessionId := id, state := Ended, direction := direction, remote := remote, reason := why))
    {
      if state == Ended {
        return;
      }
      state := Ended;
      reason := why;
      Broadcast(Event(Ended, why));
    }

    method Subscribe() returns (sub: nat, ch: Chan<StateChange>)
      requires Inv()
      modifies this`subs, this`nextID
      ensures Inv() && fresh(ch) && ch.buf == [] && ch.cap == 16
      ensures sub == old(nextID) && sub !in old(subs) && nextID == sub + 1
      ensures subs == old(subs)[sub := ch]
    {
      ch := new Chan<StateChange>(SESSION_CAP);
      sub := nextID;
      nextID := nextID + 1;
      subs := subs[sub := ch];
    }

    method Unsubscribe(sub: nat)
      requires Inv()
      modifies this`subs, if sub in subs then {subs[sub]} else {}
      ensures Inv() && subs == old(subs) - {sub}
      ensures sub in old(subs) ==> old(subs)[sub].closed && old(subs)[sub].buf == old(subs[sub].buf)
      ensures forall k <- subs :: subs[k].buf == old(subs[k].buf)
    {
      if sub in subs {
        var ch := subs[sub];
        subs := subs - {sub};
        ch.Close();
      }
    }
  }
}
