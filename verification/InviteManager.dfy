/** `internal/invite/manager.go`: handing out invites, and both ends of a handshake. */
module InviteManagers {
  import opened ByteStrings
  import opened Channels
  import opened InviteStores
  import opened Redemption
  import opened Handshakes
  import F = Friends

  const MAX_TTL := 30 * 60
  const REDEEM_CAP := 4

  datatype RedemptionEvent = RedemptionEvent(code: Code, redeemedBy: string, redeemedAt: int)

  class Manager {
    const store: Store
    const friends: F.Store
    var redeemSubs: map<Code, seq<Chan<RedemptionEvent>>>

    constructor (store: Store, friends: F.Store)
      ensures this.store == store && this.friends == friends && redeemSubs == map[]
    {
      this.store := store;
      this.friends := friends;
      redeemSubs := map[];
    }

    function Subscribers(code: Code): seq<Chan<RedemptionEvent>>
      reads this
    {
      if code in redeemSubs then redeemSubs[code] else []
    }

    /** A channel is subscribed once, to one code. */
    ghost predicate Inv()
      reads this, Listed()
    {
      && (forall c <- redeemSubs, d <- redeemSubs, i, j :: 0 <= i < |redeemSubs[c]| && 0 <= j < |redeemSubs[d]| ==>
            redeemSubs[c][i] == redeemSubs[d][j] ==> c == d && i == j)
      && forall ch <- Listed() :: ch.cap == REDEEM_CAP && !ch.closed
    }

    ghost function Listed(): set<Chan<RedemptionEvent>>
      reads this
    {
      set c, i | c in redeemSubs && 0 <= i < |redeemSubs[c]| :: redeemSubs[c][i]
    }

    /** The invite lives for ttl, but never longer than the maximum. */
    method Create(code: Code, ttl: int, now: int)
      modifies store
      ensures var life := if 0 < ttl <= MAX_TTL then ttl else MAX_TTL;
              store.entries == old(store.entries)[code := Entry(code, now + life, false, "", now)]
      ensures Redeemable(store.entries, code, now) && !Redeemable(store.entries, code, now + 1801)
      ensures 0 < ttl <= 1800 ==> Redeemable(store.entries, code, now + ttl) && !Redeemable(store.entries, code, now + ttl + 1)
    {
      var life := ttl;
      if ttl <= 0 || ttl > MAX_TTL {
        life := MAX_TTL;
      }
      store.Add(Entry(code, now + life, false, "", now));
    }

    method Revoke(code: Code) returns (existed: bool)
      modifies store
      ensures existed == (code in old(store.entries)) && store.entries == old(store.entries) - {code}
    {
      existed := store.Remove(code);
    }

    method SubscribeRedemption(code: Code) returns (ch: Chan<RedemptionEvent>)
      requires Inv()
      modifies this
      ensures Inv() && fresh(ch) && ch.buf == [] && ch.cap == 4
      ensures Subscribers(code) == old(Subscribers(code)) + [ch]
      ensures forall c :: c != code ==> Subscribers(c) == old(Subscribers(c))
    {
      ch := new Chan<RedemptionEvent>(REDEEM_CAP);
      redeemSubs := redeemSubs[code := Subscribers(code) + [ch]];
    }

    method UnsubscribeRedemption(code: Code, ch: Chan<RedemptionEvent>)
      requires Inv()
      modifies this
      ensures Inv() && ch !in Subscribers(code)
      ensures forall c :: c != code ==> Subscribers(c) == old(Subscribers(c))
      ensures ch !in old(Subscribers(code)) ==> Subscribers(code) == old(Subscribers(code))
      ensures ch in old(Subscribers(code)) ==>
                exists i :: 0 <= i < |old(Subscribers(code))| && old(Subscribers(code))[i] == ch
                         && Subscribers(code) == old(Subscribers(code))[..i] + old(Subscribers(code))[i + 1..]
    {
      var subs := Subscribers(code);
      var i := 0;
      while i < |subs|
        invariant 0 <= i <= |subs| && ch !in subs[..i] && redeemSubs == old(redeemSubs)
      {
        if subs[i] == ch {
          redeemSubs := redeemSubs[code := subs[..i] + subs[i + 1..]];
          return;
        }
        i := i + 1;
      }
    }

    /** Every subscriber of the code gets ev unless its buffer is full. */
    method FanoutRedemption(ev: RedemptionEvent)
      requires Inv()
      modifies Subscribers(ev.code)`buf
      ensures Inv()
      ensures forall ch <- Subscribers(ev.code) :: ch.buf == Offer(REDEEM_CAP, old(ch.buf), ev)
    {
      var subs := Subscribers(ev.code);
      var i := 0;
      while i < |subs|
        invariant 0 <= i <= |subs|
        invariant forall j :: 0 <= j < i ==> subs[j].buf == Offer(REDEEM_CAP, old(subs[j].buf), ev)
        invariant forall j :: i <= j < |subs| ==> subs[j].buf == old(subs[j].buf)
      {
        subs[i].TrySend(ev);
        i := i + 1;
      }
    }

    /**
     The inviter's end.  The stores are left as by `Handshake`, a stream without a hello
     is reset, and subscribers of the code hear of it exactly when the reply is an accept.
     */
    method HandleStream(first: Option<Hello>, remote: string, t0: int, t1: int, fault: bool) returns (reply: Option<Response>)
      requires Inv()
      modifies store, friends, Listed()`buf
      ensures Inv()
      ensures first.None? ==> reply.None? && store.entries == old(store.entries) && friends.friends == old(friends.friends)
      ensures first.Some? ==>
                var r := Handshake(old(store.entries), old(friends.friends), remote, first.value, t0, t1, fault);
                reply == Some(r.response) && store.entries == r.entries && friends.friends == r.friends
      ensures reply == Some(Accept) <==>
                && first.Some? && first.value.redeem && first.value.keyFault.None? && !fault
                && first.value.code in old(store.entries)
                && (var e := old(store.entries)[first.value.code]; !e.consumed && t0 <= e.expiresAt && t1 <= e.expiresAt)
                && forall g <- old(friends.friends) :: g.name != first.value.name && g.peerId != remote
      ensures forall ch <- Listed() :: ch.buf ==
                if reply == Some(Accept) && ch in Subscribers(first.value.code)
                then Offer(REDEEM_CAP, old(ch.buf), RedemptionEvent(first.value.code, remote, t1)) else old(ch.buf)
    {
      if first.None? {
        return None;
      }
      var hello := first.value;
      AcceptIff(store.entries, friends.friends, remote, hello, t0, t1, fault);
      if !hello.redeem {
        return Some(Reject("unexpected hello type"));
      }
      var e := store.Get(hello.code);
      if e.None? {
        return Some(Reject("unknown code"));
      }
      if e.value.consumed {
        return Some(Reject("code already consumed"));
      }
      if t0 > e.value.expiresAt {
        return Some(Reject("code expired"));
      }
      if hello.keyFault.Some? {
        return Some(Reject(hello.keyFault.value));
      }
      var response := Settle(hello, remote, t1, fault);
      return Some(response);
    }

    /** From the mark on. */
    method Settle(hello: Hello, remote: string, t1: int, fault: bool) returns (response: Response)
      requires Inv()
      modifies store, friends, Listed()`buf
      ensures Inv()
      ensures var r := Settling(old(store.entries), old(friends.friends), remote, hello, t1, fault);
              response == r.response && store.entries == r.entries && friends.friends == r.friends
      ensures forall ch <- Listed() :: ch.buf ==
                if response == Accept && ch in Subscribers(hello.code)
                then Offer(REDEEM_CAP, old(ch.buf), RedemptionEvent(hello.code, remote, t1)) else old(ch.buf)
    {
      var marked := store.MarkConsumed(hello.code, remote, t1);
      if !marked {
        return Reject("code already consumed");
      }
      var err := friends.Add(Invitee(remote, hello));
      if err.Some? {
        store.UnmarkConsumed(hello.code);
        return Reject("failed to add invitee");
      }
      if fault {
        return Reject("internal error");
      }
      FanoutRedemption(RedemptionEvent(hello.code, remote, t1));
      return Accept;
    }

    /** The redeemer's end, once the hello is sent: the inviter becomes a friend exactly
        when it accepted and there is room for it. */
    method FinishHandshake(reply: Option<Response>, name: string, inviter: string, publicKey: string)
      returns (added: Option<F.Friend>)
      modifies friends
      ensures added.Some? <==> reply == Some(Accept) && Addable(old(friends.friends), F.Friend(name, inviter, publicKey, ""))
      ensures added.Some? ==> added.value == F.Friend(name, inviter, publicKey, "")
                              && friends.friends == old(friends.friends) + [added.value]
      ensures added.None? ==> friends.friends == old(friends.friends)
    {
      if reply != Some(Accept) {
        return None;
      }
      var f := F.Friend(name, inviter, publicKey, "");
      var err := friends.Add(f);
      added := if err.None? then Some(f) else None;
    }
  }

  /** A handshake end to end: afterwards both are friends, or only the inviter counts the
      redeemer as one, or nothing was used up. */
  method Redeem(inviter: Manager, redeemer: Manager, hello: Hello, inviterId: string, redeemerId: string, name: string,
                publicKey: string, t0: int, t1: int, fault: bool) returns (added: Option<F.Friend>)
    requires inviter.Inv() && inviter.friends != redeemer.friends && Tidy(inviter.store.entries)
    modifies inviter.store, inviter.friends, redeemer.friends, inviter.Listed()`buf
    ensures added.Some? ==> added.value in redeemer.friends.friends && Invitee(redeemerId, hello) in inviter.friends.friends
    ensures added.None? ==> redeemer.friends.friends == old(redeemer.friends.friends)
    ensures inviter.store.entries == old(inviter.store.entries) ==>
              added.None? && inviter.friends.friends == old(inviter.friends.friends)
    ensures inviter.store.entries != old(inviter.store.entries) ==>
              !exists t :: Redeemable(inviter.store.entries, hello.code, t)
  {
    HandshakeMeans(inviter.store.entries, inviter.friends.friends, redeemerId, hello, t0, t1, fault,
                   Handshake(inviter.store.entries, inviter.friends.friends, redeemerId, hello, t0, t1, fault));
    var reply := inviter.HandleStream(Some(hello), redeemerId, t0, t1, fault);
    added := redeemer.FinishHandshake(reply, name, inviterId, publicKey);
  }
}
