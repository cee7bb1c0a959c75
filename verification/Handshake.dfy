/** One handshake from end to end, when nobody else is at work. */
module Handshakes {
  import opened ByteStrings
  import opened InviteStores
  import opened Redemption
  import F = Friends

  /** What a handshake leaves behind: the stores, the reply, and whether it is announced. */
  datatype Outcome = Outcome(entries: Entries, friends: seq<F.Friend>, response: Response, announced: bool)

  /** The first look at time t0, the mark at time t1, with nobody else at work. */
  function Handshake(es: Entries, fs: seq<F.Friend>, peer: string, hello: Hello, t0: int, t1: int, fault: bool): Outcome {
    if Look(es, t0, hello).Refusing? then Outcome(es, fs, Reject(Look(es, t0, hello).why), false)
    else Settling(es, fs, peer, hello, t1, fault)
  }

  /** From the mark on. */
  function Settling(es: Entries, fs: seq<F.Friend>, peer: string, hello: Hello, t1: int, fault: bool): Outcome {
    if !Redeemable(es, hello.code, t1) then Outcome(es, fs, Reject("code already consumed"), false)
    else if !Addable(fs, Invitee(peer, hello)) then
      Outcome(Unmarked(Marked(es, hello.code, peer), hello.code), fs, Reject("failed to add invitee"), false)
    else
      Outcome(Marked(es, hello.code, peer), fs + [Invitee(peer, hello)],
              if fault then Reject("internal error") else Accept, !fault)
  }

  /** The store changes only with the friends list, and then by the mark; the accept is
      what is announced, and only then. */
  lemma HandshakeMeans(es: Entries, fs: seq<F.Friend>, peer: string, hello: Hello, t0: int, t1: int, fault: bool, r: Outcome)
    requires Tidy(es) && r == Handshake(es, fs, peer, hello, t0, t1, fault)
    ensures r.entries != es <==> r.friends != fs
    ensures r.entries != es ==>
              && r.friends == fs + [Invitee(peer, hello)] && Addable(fs, Invitee(peer, hello))
              && Redeemable(es, hello.code, t1) && r.entries == Marked(es, hello.code, peer)
    ensures r.response == Accept <==> r.announced
    ensures r.announced ==> r.entries != es
  {
    if Redeemable(es, hello.code, t1) {
      MarkUnmark(es, hello.code, peer, t1);
    }
  }

  /** Who is accepted: a redeemer with a key that is its own, a code that is good at the
      look and at the mark, and a name and a peer ID that are new. */
  lemma AcceptIff(es: Entries, fs: seq<F.Friend>, peer: string, hello: Hello, t0: int, t1: int, fault: bool)
    ensures Handshake(es, fs, peer, hello, t0, t1, fault).response == Accept
            <==> && hello.redeem && hello.keyFault.None? && hello.code in es && !es[hello.code].consumed
                 && t0 <= es[hello.code].expiresAt && t1 <= es[hello.code].expiresAt
                 && (forall i :: 0 <= i < |fs| ==> fs[i].name != hello.name && fs[i].peerId != peer)
                 && !fault
  {
  }

  /** Why the others are refused: the first check that fails gives the reason. */
  lemma RefusalReasons(es: Entries, fs: seq<F.Friend>, peer: string, hello: Hello, t0: int, t1: int, fault: bool, why: string)
    requires Handshake(es, fs, peer, hello, t0, t1, fault).response == Reject(why)
    ensures !hello.redeem ==> why == "unexpected hello type"
    ensures hello.redeem && hello.code !in es ==> why == "unknown code"
    ensures hello.redeem && hello.code in es ==>
              && (es[hello.code].consumed ==> why == "code already consumed")
              && (!es[hello.code].consumed && t0 > es[hello.code].expiresAt ==> why == "code expired")
              && (!es[hello.code].consumed && t0 <= es[hello.code].expiresAt ==>
                    && (hello.keyFault.Some? ==> why == hello.keyFault.value)
                    && (hello.keyFault.None? && t1 > es[hello.code].expiresAt ==> why == "code already consumed")
                    && (hello.keyFault.None? && t1 <= es[hello.code].expiresAt ==>
                          if exists i :: 0 <= i < |fs| && (fs[i].name == hello.name || fs[i].peerId == peer)
                          then why == "failed to add invitee"
                          else why == "internal error" && fault))
  {
  }

  /** Up to n steps of handler i. */
  function Works(w: World, i: nat, fault: bool, n: nat): World
    decreases n
  {
    if n == 0 || !(i < |w.handlers| && w.handlers[i].pc != Finished) then w
    else Works(WorkStep(w, i, fault), i, fault, n - 1)
  }

  predicate Settled(w: World, v: World, i: nat, r: Outcome) {
    && i < |v.handlers| && v.handlers[i].pc == Finished && v.handlers[i].response == Some(r.response)
    && v.entries == r.entries && v.friends == r.friends
    && (v.events != w.events <==> r.announced)
  }

  /** Run to its end without interference, the steps of a handler do what Handshake says. */
  lemma SoloHandshake(w: World, i: nat, fault: bool)
    requires i < |w.handlers| && w.handlers[i].pc == Looking
    ensures var h := w.handlers[i];
            Settled(w, Works(w, i, fault, 6), i, Handshake(w.entries, w.friends, h.peer, h.hello, w.now, w.now, fault))
  {
    var h := w.handlers[i];
    var w1 := WorkStep(w, i, fault);
    assert Works(w, i, fault, 6) == Works(w1, i, fault, 5);
    if w1.handlers[i].pc.Refusing? {
      SoloRefusal(w1, i, fault, 5);
    } else {
      var w2 := WorkStep(w1, i, fault);
      assert Works(w1, i, fault, 5) == Works(w2, i, fault, 4);
      assert w2.handlers[i].pc == Adding;
      SoloAdd(w2, i, fault);
    }
  }

  lemma SoloRefusal(w: World, i: nat, fault: bool, n: nat)
    requires i < |w.handlers| && w.handlers[i].pc.Refusing? && n > 0
    ensures Settled(w, Works(w, i, fault, n), i, Outcome(w.entries, w.friends, Reject(w.handlers[i].pc.why), false))
  {
    assert Works(w, i, fault, n) == Works(WorkStep(w, i, fault), i, fault, n - 1);
  }

  lemma SoloAdd(w: World, i: nat, fault: bool)
    requires i < |w.handlers| && w.handlers[i].pc == Adding
    ensures var h := w.handlers[i];
            Settled(w, Works(w, i, fault, 4), i,
                    if Addable(w.friends, Invitee(h.peer, h.hello))
                    then Outcome(w.entries, w.friends + [Invitee(h.peer, h.hello)], if fault then Reject("internal error") else Accept, !fault)
                    else Outcome(Unmarked(w.entries, h.hello.code), w.friends, Reject("failed to add invitee"), false))
  {
    var w1 := WorkStep(w, i, fault);
    assert Works(w, i, fault, 4) == Works(w1, i, fault, 3);
    if w1.handlers[i].pc.Refusing? {
      SoloRefusal(w1, i, fault, 3);
    } else if w1.handlers[i].pc == RollingBack {
      var w2 := WorkStep(w1, i, fault);
      assert Works(w1, i, fault, 3) == Works(w2, i, fault, 2);
      SoloRefusal(w2, i, fault, 2);
    } else {
      var w2 := WorkStep(w1, i, fault);
      assert Works(w1, i, fault, 3) == Works(w2, i, fault, 2);
      var w3 := WorkStep(w2, i, fault);
      assert Works(w2, i, fault, 2) == Works(w3, i, fault, 1);
    }
  }
}
