/** What holds over every run of concurrent redemptions. */
module RedemptionTheorems {
  import opened ByteStrings
  import opened InviteStores
  import opened Redemption
  import F = Friends

  /**
   Over any run from a start: each code adds at most one friend and is announced at
   most once, every announcement is of a friend that was added, and only codes in
   circulation are ever used.
   */
  lemma SingleUse(w: World, acts: seq<Act>)
    requires Start(w) && Legal(w, acts)
    ensures var v := After(w, acts);
            && (forall j, k :: 0 <= j < k < |v.commits| ==> v.commits[j].code != v.commits[k].code)
            && (forall j, k :: 0 <= j < k < |v.events| ==> v.events[j].code != v.events[k].code)
            && (forall k :: 0 <= k < |v.events| ==> v.events[k] in v.commits)
            && (forall k :: 0 <= k < |v.commits| ==> v.commits[k].code in v.issued)
  {
    RunKeeps(w, acts);
    var v := After(w, acts);
    forall k: nat | k < |v.commits| ensures v.commits[k].code in v.issued {
      assert CommitInv(v, k);
    }
    forall k: nat | k < |v.events| ensures v.events[k] in v.commits {
      assert EventInv(v, k);
    }
    forall j: nat, k: nat | j < k < |v.events| ensures v.events[j].code != v.events[k].code {
      var m :| 0 <= m < |v.commits| && v.commits[m] == v.events[j];
      var n :| 0 <= n < |v.commits| && v.commits[n] == v.events[k];
      assert m != n;
    }
  }

  /** A redeemer records the inviter only after the inviter recorded the redeemer, with
      a code that had not expired when it was taken. */
  lemma RecordedBothWays(w: World, acts: seq<Act>, i: nat)
    requires Start(w) && Legal(w, acts) && i < |After(w, acts).handlers|
    ensures var v := After(w, acts);
            var h := v.handlers[i];
            h.redeemer == Recorded ==> Commit(h.hello.code, h.peer, i) in v.commits && h.markedAt <= h.prior.expiresAt
  {
    RunKeeps(w, acts);
    assert HandlerInv(After(w, acts), i);
  }

  /** A friend is added in the very step that commits, from a mark of the same handler. */
  lemma CommitsAreFriends(w: World, a: Act)
    requires Enabled(w, a) && Step(w, a).commits != w.commits
    ensures a.Work? && w.handlers[a.i].pc == Adding
    ensures var h, v := w.handlers[a.i], Step(w, a);
            && v.commits == w.commits + [Commit(h.hello.code, h.peer, a.i)]
            && v.friends == w.friends + [F.Friend(h.hello.name, h.peer, h.hello.publicKey, "")]
            && !F.HasName(w.friends, h.hello.name) && !F.HasPeer(w.friends, h.peer)
  {
  }

  /** A rollback puts back what its own handler had found, if the invite was not revoked
      meanwhile, and touches no other entry. */
  lemma RollbackRestores(w: World, acts: seq<Act>, i: nat, fault: bool)
    requires Start(w) && Legal(w, acts)
    requires i < |After(w, acts).handlers| && After(w, acts).handlers[i].pc == RollingBack
    ensures var v := After(w, acts);
            var h, u := v.handlers[i], WorkStep(v, i, fault);
            && u.entries.Keys == v.entries.Keys
            && (forall c <- v.entries :: u.entries[c] == if c == h.hello.code then h.prior else v.entries[c])
            && h.prior.code == h.hello.code && !h.prior.consumed
            && (h.hello.code in v.entries ==> v.entries[h.hello.code].consumedBy == h.peer)
  {
    RunKeeps(w, acts);
    var v := After(w, acts);
    assert HandlerInv(v, i);
    RollbackKeeps(v, i, v.handlers[i], Refusing("failed to add invitee"), WorkStep(v, i, fault));
  }

  /** The mark itself: what `prior` stands for. */
  lemma MarkRemembers(w: World, i: nat, fault: bool)
    requires i < |w.handlers| && !Holds(w.handlers[i]) && w.handlers[i].pc != Finished && Holds(WorkStep(w, i, fault).handlers[i])
    ensures var h, v := w.handlers[i], WorkStep(w, i, fault);
            && Redeemable(w.entries, h.hello.code, w.now) && v.handlers[i].prior == w.entries[h.hello.code]
            && v.entries == Marked(w.entries, h.hello.code, h.peer) && v.handlers[i].markedAt == w.now
  {
  }

  // ---------------------------------------------------------------- whose handshake commits

  /** A redeemer whose key decodes to the peer that sent it. */
  predicate Vouched(hello: Hello) {
    hello.redeem && hello.keyFault.None?
  }

  /** Past the checks: at a position that only a handler that took them reaches. */
  predicate Past(h: Handler) {
    h.pc == Marking || Holds(h) || h.pc == Replying || h.pc == Announcing || h.response == Some(Accept)
  }

  ghost predicate Checked(w: World) {
    && (forall i :: 0 <= i < |w.handlers| && Past(w.handlers[i]) ==> Vouched(w.handlers[i].hello))
    && (forall k :: 0 <= k < |w.commits| ==>
          w.commits[k].handler < |w.handlers| && Vouched(w.handlers[w.commits[k].handler].hello))
  }

  lemma WorkChecks(w: World, i: nat, fault: bool)
    requires Checked(w) && i < |w.handlers| && w.handlers[i].pc != Finished
    ensures Checked(WorkStep(w, i, fault))
  {
    var h, v := w.handlers[i], WorkStep(w, i, fault);
    assert v.handlers[i].hello == h.hello && (Past(v.handlers[i]) ==> Vouched(h.hello));
    assert forall j :: 0 <= j < |w.handlers| && j != i ==> v.handlers[j] == w.handlers[j];
  }

  lemma StepChecks(w: World, a: Act)
    requires Checked(w) && Enabled(w, a)
    ensures Checked(Step(w, a))
  {
    if a.Work? {
      WorkChecks(w, a.i, a.fault);
    }
  }

  lemma {:induction false} RunChecks(w: World, acts: seq<Act>)
    requires Checked(w) && Legal(w, acts)
    ensures Checked(After(w, acts))
    decreases |acts|
  {
    if acts != [] {
      StepChecks(w, acts[0]);
      RunChecks(Step(w, acts[0]), acts[1..]);
    }
  }

  /** In every run: whoever is added by a redemption, or told that it was, sent a redeem
      message with a key that decodes to its own peer ID. */
  lemma CommitsAreVouched(w: World, acts: seq<Act>)
    requires Start(w) && Legal(w, acts)
    ensures var v := After(w, acts);
            && (forall k :: 0 <= k < |v.commits| ==>
                  && v.commits[k].handler < |v.handlers|
                  && var hello := v.handlers[v.commits[k].handler].hello;
                     hello.redeem && hello.keyFault.None? && hello.code == v.commits[k].code)
            && (forall i :: 0 <= i < |v.handlers| && v.handlers[i].response == Some(Accept) ==>
                  v.handlers[i].hello.redeem && v.handlers[i].hello.keyFault.None?)
  {
    RunChecks(w, acts);
    RunKeeps(w, acts);
    var v := After(w, acts);
    forall k: nat | k < |v.commits|
      ensures v.commits[k].handler < |v.handlers| && v.handlers[v.commits[k].handler].hello.code == v.commits[k].code
    {
      assert CommitInv(v, k);
    }
  }
}
