/**
 Invite codes are redeemed once.  Any number of handshakes run on the inviter at the
 same time, each with a redeemer at the other end, while invites are created and
 revoked, the friends list is changed by others and time passes.  Every call on a
 store is one step.
 */
module Redemption {
  import opened ByteStrings
  import opened InviteStores
  import F = Friends

  datatype Response = Accept | Reject(reason: string)

  /** The redeemer's message, and whether its key decodes to the peer that sent it. */
  datatype Hello = Hello(redeem: bool, code: Code, name: string, publicKey: string, keyFault: Option<string>)

  /** Positions in handleStream. */
  datatype Pc = Looking | Marking | Adding | RollingBack | Refusing(why: string) | Replying | Announcing | Finished

  /** Positions in dialAndHandshake, after the hello was sent. */
  datatype RPc = Awaiting | Befriending | Recorded | Failed

  /** `prior` is the entry as it was when this handler marked it, at time `markedAt`. */
  datatype Handler = Handler(
    peer: string, hello: Hello, pc: Pc, prior: Entry, markedAt: int, response: Option<Response>, redeemer: RPc)

  datatype Commit = Commit(code: Code, peer: string, handler: nat)

  /** `issued` are the codes in circulation so far; `commits` and `events` what was
      added to the friends list by a redemption, and what was announced. */
  datatype World = World(
    entries: Entries, friends: seq<F.Friend>, handlers: seq<Handler>, now: int, issued: set<Code>,
    commits: seq<Commit>, events: seq<Commit>)

  datatype Act =
    | Create(code: Code, ttl: nat)
    | Revoke(code: Code)
    | Tick(seconds: nat)
    | Befriend(friends: seq<F.Friend>)
    | Connect(peer: string, hello: Hello)
    | Work(i: nat, fault: bool)
    | Receive(i: nat, added: bool)

  const NO_ENTRY := Entry("", 0, false, "", 0)

  predicate Enabled(w: World, a: Act) {
    match a
    case Create(c, _) => c !in w.issued
    case Work(i, _) => i < |w.handlers| && w.handlers[i].pc != Finished
    case Receive(i, _) =>
      i < |w.handlers| && (w.handlers[i].redeemer == Befriending || (w.handlers[i].redeemer == Awaiting && w.handlers[i].response.Some?))
    case _ => true
  }

  /** The checks before anything is changed. */
  function Look(es: Entries, now: int, hello: Hello): Pc {
    if !hello.redeem then Refusing("unexpected hello type")
    else if hello.code !in es then Refusing("unknown code")
    else if es[hello.code].consumed then Refusing("code already consumed")
    else if now > es[hello.code].expiresAt then Refusing("code expired")
    else if hello.keyFault.Some? then Refusing(hello.keyFault.value)
    else Marking
  }

  function Invitee(peer: string, hello: Hello): F.Friend {
    F.Friend(hello.name, peer, hello.publicKey, "")
  }

  predicate Addable(fs: seq<F.Friend>, f: F.Friend) {
    !F.HasName(fs, f.name) && !F.HasPeer(fs, f.peerId)
  }

  /** One step of handleStream.  `fault` lets the encoding of our own key fail. */
  function WorkStep(w: World, i: nat, fault: bool): World
    requires i < |w.handlers| && w.handlers[i].pc != Finished
  {
    var h := w.handlers[i];
    var c := h.hello.code;
    match h.pc
    case Looking => w.(handlers := w.handlers[i := h.(pc := Look(w.entries, w.now, h.hello))])
    case Marking =>
      if Redeemable(w.entries, c, w.now) then
        w.(entries := Marked(w.entries, c, h.peer),
           handlers := w.handlers[i := h.(pc := Adding, prior := w.entries[c], markedAt := w.now)])
      else w.(handlers := w.handlers[i := h.(pc := Refusing("code already consumed"))])
    case Adding =>
      if Addable(w.friends, Invitee(h.peer, h.hello)) then
        w.(friends := w.friends + [Invitee(h.peer, h.hello)], commits := w.commits + [Commit(c, h.peer, i)],
           handlers := w.handlers[i := h.(pc := if fault then Refusing("internal error") else Replying)])
      else w.(handlers := w.handlers[i := h.(pc := RollingBack)])
    case RollingBack =>
      w.(entries := Unmarked(w.entries, c), handlers := w.handlers[i := h.(pc := Refusing("failed to add invitee"))])
    case Refusing(why) => w.(handlers := w.handlers[i := h.(pc := Finished, response := Some(Reject(why)))])
    case Replying => w.(handlers := w.handlers[i := h.(pc := Announcing, response := Some(Accept))])
    case Announcing => w.(events := w.events + [Commit(c, h.peer, i)], handlers := w.handlers[i := h.(pc := Finished)])
  }

  /** One step of the redeemer at the other end; adding the inviter may fail. */
  function ReceiveStep(h: Handler, added: bool): Handler
    requires h.redeemer == Befriending || (h.redeemer == Awaiting && h.response.Some?)
  {
    if h.redeemer == Befriending then h.(redeemer := if added then Recorded else Failed)
    else h.(redeemer := if h.response.value == Accept then Befriending else Failed)
  }

  function Step(w: World, a: Act): World
    requires Enabled(w, a)
  {
    match a
    case Create(c, ttl) =>
      w.(entries := w.entries[c := Entry(c, w.now + ttl, false, "", w.now)], issued := w.issued + {c})
    case Revoke(c) => w.(entries := w.entries - {c})
    case Tick(n) => w.(now := w.now + n)
    case Befriend(fs) => w.(friends := fs)
    case Connect(p, hello) =>
      w.(handlers := w.handlers + [Handler(p, hello, Looking, NO_ENTRY, 0, None, Awaiting)])
    case Work(i, fault) => WorkStep(w, i, fault)
    case Receive(i, added) => w.(handlers := w.handlers[i := ReceiveStep(w.handlers[i], added)])
  }

  predicate Legal(w: World, acts: seq<Act>)
    decreases |acts|
  {
    acts == [] || (Enabled(w, acts[0]) && Legal(Step(w, acts[0]), acts[1..]))
  }

  function After(w: World, acts: seq<Act>): World
    requires Legal(w, acts)
    decreases |acts|
  {
    if acts == [] then w else After(Step(w, acts[0]), acts[1..])
  }

  /** As the daemon starts: invites from disk, no handshake yet. */
  ghost predicate Start(w: World) {
    w.handlers == [] && w.commits == [] && w.events == [] && Tidy(w.entries) && w.entries.Keys <= w.issued
  }

  // ---------------------------------------------------------------- invariant

  /** Between its mark and what settles it. */
  predicate Holds(h: Handler) {
    h.pc == Adding || h.pc == RollingBack
  }

  predicate HasCommit(w: World, c: Code) {
    exists k :: 0 <= k < |w.commits| && w.commits[k].code == c
  }

  predicate CommittedBy(w: World, i: nat) {
    i < |w.handlers| && Commit(w.handlers[i].hello.code, w.handlers[i].peer, i) in w.commits
  }

  predicate Announced(w: World, i: nat) {
    exists k :: 0 <= k < |w.events| && w.events[k].handler == i
  }

  /** A code that is held or used is issued, and consumed if it is still in the store. */
  ghost predicate Taken(w: World, c: Code) {
    c in w.issued && (c in w.entries ==> w.entries[c].consumed)
  }

  /** What handler i did so far. */
  ghost predicate HandlerInv(w: World, i: nat)
    requires i < |w.handlers|
  {
    var h := w.handlers[i];
    && (Holds(h) ==>
          && Taken(w, h.hello.code) && !HasCommit(w, h.hello.code)
          && h.prior.code == h.hello.code && !h.prior.consumed && h.prior.consumedBy == "" && h.markedAt <= h.prior.expiresAt
          && (h.hello.code in w.entries ==> w.entries[h.hello.code] == h.prior.(consumed := true, consumedBy := h.peer)))
    && (h.pc == Replying || h.pc == Announcing || h.response == Some(Accept) ==> CommittedBy(w, i) && h.markedAt <= h.prior.expiresAt)
    && (h.pc != Finished ==> !Announced(w, i))
    && (h.pc == Announcing ==> h.response == Some(Accept))
    && (h.pc != Finished && h.pc != Announcing ==> h.response.None?)
    && (h.redeemer == Befriending || h.redeemer == Recorded ==> h.response == Some(Accept))
  }

  ghost predicate CommitInv(w: World, k: nat)
    requires k < |w.commits|
  {
    var m := w.commits[k];
    && Taken(w, m.code)
    && m.handler < |w.handlers| && w.handlers[m.handler].hello.code == m.code && w.handlers[m.handler].peer == m.peer
    && !Holds(w.handlers[m.handler])
  }

  ghost predicate EventInv(w: World, k: nat)
    requires k < |w.events|
  {
    var m := w.events[k];
    m in w.commits && m.handler < |w.handlers| && w.handlers[m.handler].pc == Finished && w.handlers[m.handler].response == Some(Accept)
  }

  ghost predicate StoreInv(w: World) {
    Tidy(w.entries) && w.entries.Keys <= w.issued
  }

  ghost predicate OneHolder(w: World) {
    forall i, j :: 0 <= i < j < |w.handlers| && Holds(w.handlers[i]) && Holds(w.handlers[j])
                   ==> w.handlers[i].hello.code != w.handlers[j].hello.code
  }

  ghost predicate Distinct(w: World) {
    && (forall j, k :: 0 <= j < k < |w.commits| ==> w.commits[j].code != w.commits[k].code)
    && (forall j, k :: 0 <= j < k < |w.events| ==> w.events[j].handler != w.events[k].handler)
  }

  ghost predicate Inv(w: World) {
    && StoreInv(w) && OneHolder(w) && Distinct(w)
    && (forall i: nat :: i < |w.handlers| ==> HandlerInv(w, i))
    && (forall k: nat :: k < |w.commits| ==> CommitInv(w, k))
    && (forall k: nat :: k < |w.events| ==> EventInv(w, k))
  }

  lemma CommitTaken(w: World, c: Code)
    requires Inv(w)
    ensures HasCommit(w, c) ==> Taken(w, c)
  {
    if k: nat :| k < |w.commits| && w.commits[k].code == c {
      assert CommitInv(w, k);
    }
  }

  lemma AnnouncedExists(w: World, i: nat)
    requires Inv(w)
    ensures Announced(w, i) ==> i < |w.handlers|
  {
    if k: nat :| k < |w.events| && w.events[k].handler == i {
      assert EventInv(w, k);
    }
  }

  /** Only entries change, and taken codes stay taken. */
  lemma EntriesChange(w: World, v: World)
    requires Inv(w) && StoreInv(v) && v == w.(entries := v.entries, issued := v.issued, now := v.now, friends := v.friends)
    requires w.issued <= v.issued
    requires forall c <- w.issued :: c in v.entries ==> c in w.entries && v.entries[c] == w.entries[c]
    ensures Inv(v)
  {
    assert forall i: nat :: i < |w.handlers| ==> HandlerInv(w, i);
    forall i: nat | i < |v.handlers| ensures HandlerInv(v, i) {
      assert HandlerInv(w, i) && CommittedBy(v, i) == CommittedBy(w, i) && Announced(v, i) == Announced(w, i);
      assert HasCommit(v, v.handlers[i].hello.code) == HasCommit(w, v.handlers[i].hello.code);
    }
    forall k: nat | k < |v.commits| ensures CommitInv(v, k) {
      assert CommitInv(w, k);
    }
    forall k: nat | k < |v.events| ensures EventInv(v, k) {
      assert EventInv(w, k);
    }
  }

  /** Handler i moves on without touching the stores or settling anything. */
  lemma HandlerMoves(w: World, v: World, i: nat, h: Handler)
    requires Inv(w) && i < |w.handlers| && v == w.(handlers := w.handlers[i := h])
    requires h.peer == w.handlers[i].peer && h.hello == w.handlers[i].hello
    requires Holds(h) ==> Holds(w.handlers[i])
    requires w.handlers[i].pc == Finished && w.handlers[i].response == Some(Accept) ==> h.pc == Finished && h.response == Some(Accept)
    requires HandlerInv(v, i)
    ensures Inv(v)
  {
    forall j: nat | j < |v.handlers| ensures HandlerInv(v, j) {
      assert HandlerInv(w, j);
      assert j != i ==> v.handlers[j] == w.handlers[j];
    }
    forall k: nat | k < |v.commits| ensures CommitInv(v, k) {
      assert CommitInv(w, k);
    }
    forall k: nat | k < |v.events| ensures EventInv(v, k) {
      assert EventInv(w, k);
    }
  }

  lemma ConnectKeeps(w: World, h: Handler, v: World)
    requires Inv(w) && h.pc == Looking && h.response.None? && h.redeemer == Awaiting && v == w.(handlers := w.handlers + [h])
    ensures Inv(v)
  {
    forall j: nat | j < |v.handlers| ensures HandlerInv(v, j) {
      if j < |w.handlers| {
        assert HandlerInv(w, j) && v.handlers[j] == w.handlers[j];
      } else {
        assert v.handlers[j] == h;
        AnnouncedExists(w, j);
      }
    }
    forall k: nat | k < |v.commits| ensures CommitInv(v, k) {
      assert CommitInv(w, k);
    }
    forall k: nat | k < |v.events| ensures EventInv(v, k) {
      assert EventInv(w, k);
    }
  }

  lemma MarkKeeps(w: World, i: nat, h: Handler, v: World)
    requires Inv(w) && i < |w.handlers| && h == w.handlers[i] && h.pc == Marking && Redeemable(w.entries, h.hello.code, w.now)
    requires v == w.(entries := Marked(w.entries, h.hello.code, h.peer),
                     handlers := w.handlers[i := h.(pc := Adding, prior := w.entries[h.hello.code], markedAt := w.now)])
    ensures Inv(v)
  {
    var c := h.hello.code;
    assert HandlerInv(w, i);
    CommitTaken(w, c);
    forall j: nat | j < |v.handlers| ensures HandlerInv(v, j) {
      assert HandlerInv(w, j);
      if j != i {
        assert v.handlers[j] == w.handlers[j];
        assert Holds(w.handlers[j]) ==> w.handlers[j].hello.code != c;
      }
    }
    forall k: nat | k < |v.commits| ensures CommitInv(v, k) {
      assert CommitInv(w, k);
      assert w.commits[k].code != c;
    }
    forall k: nat | k < |v.events| ensures EventInv(v, k) {
      assert EventInv(w, k);
    }
    forall j: nat | j < |w.handlers| && Holds(w.handlers[j]) ensures w.handlers[j].hello.code != c {
      assert HandlerInv(w, j);
    }
  }

  lemma AddKeeps(w: World, i: nat, h: Handler, pc: Pc, v: World)
    requires Inv(w) && i < |w.handlers| && h == w.handlers[i] && h.pc == Adding && (pc == Replying || pc.Refusing?)
    requires v == w.(friends := v.friends, commits := w.commits + [Commit(h.hello.code, h.peer, i)],
                     handlers := w.handlers[i := h.(pc := pc)])
    ensures Inv(v)
  {
    var c := h.hello.code;
    assert HandlerInv(w, i);
    forall j: nat | j < |v.handlers| ensures HandlerInv(v, j) {
      assert HandlerInv(w, j);
      if j != i {
        assert v.handlers[j] == w.handlers[j];
        assert Holds(w.handlers[j]) ==> w.handlers[j].hello.code != c;
        assert CommittedBy(w, j) ==> CommittedBy(v, j);
      } else {
        assert v.commits[|w.commits|] == Commit(c, h.peer, i);
      }
    }
    forall k: nat | k < |v.commits| ensures CommitInv(v, k) {
      assert k < |w.commits| ==> CommitInv(w, k) && w.commits[k] == v.commits[k];
    }
    forall k: nat | k < |v.events| ensures EventInv(v, k) {
      assert EventInv(w, k);
    }
    assert forall k :: 0 <= k < |w.commits| ==> w.commits[k].code != c;
  }

  lemma RollbackKeeps(w: World, i: nat, h: Handler, pc: Pc, v: World)
    requires Inv(w) && i < |w.handlers| && h == w.handlers[i] && h.pc == RollingBack && pc.Refusing?
    requires v == w.(entries := Unmarked(w.entries, h.hello.code), handlers := w.handlers[i := h.(pc := pc)])
    ensures Inv(v)
    ensures forall c <- w.entries :: v.entries[c] == if c == h.hello.code then h.prior else w.entries[c]
    ensures v.entries.Keys == w.entries.Keys
  {
    var c := h.hello.code;
    assert HandlerInv(w, i);
    forall j: nat | j < |v.handlers| ensures HandlerInv(v, j) {
      assert HandlerInv(w, j);
      if j != i {
        assert v.handlers[j] == w.handlers[j];
        assert Holds(w.handlers[j]) ==> w.handlers[j].hello.code != c;
      }
    }
    forall k: nat | k < |v.commits| ensures CommitInv(v, k) {
      assert CommitInv(w, k);
      assert w.commits[k].code != c;
    }
    forall k: nat | k < |v.events| ensures EventInv(v, k) {
      assert EventInv(w, k);
    }
  }

  lemma AnnounceKeeps(w: World, i: nat, h: Handler, v: World)
    requires Inv(w) && i < |w.handlers| && h == w.handlers[i] && h.pc == Announcing
    requires v == w.(events := w.events + [Commit(h.hello.code, h.peer, i)], handlers := w.handlers[i := h.(pc := Finished)])
    ensures Inv(v)
  {
    assert HandlerInv(w, i);
    forall j: nat | j < |v.handlers| ensures HandlerInv(v, j) {
      assert HandlerInv(w, j);
      if j != i {
        assert v.handlers[j] == w.handlers[j];
        assert Announced(v, j) ==> Announced(w, j) by {
          if Announced(v, j) {
            var k :| 0 <= k < |v.events| && v.events[k].handler == j;
            assert w.events[k].handler == j;
          }
        }
      }
    }
    forall k: nat | k < |v.commits| ensures CommitInv(v, k) {
      assert CommitInv(w, k);
    }
    forall k: nat | k < |v.events| ensures EventInv(v, k) {
      assert k < |w.events| ==> EventInv(w, k) && v.events[k] == w.events[k];
    }
    assert forall k :: 0 <= k < |w.events| ==> w.events[k].handler != i;
  }

  lemma WorkKeeps(w: World, i: nat, fault: bool)
    requires Inv(w) && i < |w.handlers| && w.handlers[i].pc != Finished
    ensures Inv(WorkStep(w, i, fault))
  {
    var h, v := w.handlers[i], WorkStep(w, i, fault);
    var c := h.hello.code;
    assert HandlerInv(w, i);
    if h.pc == Marking && Redeemable(w.entries, c, w.now) {
      MarkKeeps(w, i, h, v);
    } else if h.pc == Adding && Addable(w.friends, Invitee(h.peer, h.hello)) {
      AddKeeps(w, i, h, v.handlers[i].pc, v);
    } else if h.pc == RollingBack {
      RollbackKeeps(w, i, h, v.handlers[i].pc, v);
    } else if h.pc == Announcing {
      AnnounceKeeps(w, i, h, v);
    } else {
      MoveKeeps(w, i, h, fault, v);
    }
  }

  lemma MoveKeeps(w: World, i: nat, h: Handler, fault: bool, v: World)
    requires Inv(w) && i < |w.handlers| && h == w.handlers[i] && h.pc != Finished && v == WorkStep(w, i, fault)
    requires !(h.pc == Marking && Redeemable(w.entries, h.hello.code, w.now)) && !(h.pc == Adding && Addable(w.friends, Invitee(h.peer, h.hello)))
    requires h.pc != RollingBack && h.pc != Announcing
    ensures Inv(v)
  {
    var g := v.handlers[i];
    assert v == w.(handlers := w.handlers[i := g]);
    assert HandlerInv(w, i) && Announced(v, i) == Announced(w, i) && CommittedBy(v, i) == CommittedBy(w, i);
    assert HasCommit(v, h.hello.code) == HasCommit(w, h.hello.code);
    HandlerMoves(w, v, i, g);
  }

  lemma ReceiveKeeps(w: World, i: nat, added: bool)
    requires Inv(w) && Enabled(w, Receive(i, added))
    ensures Inv(Step(w, Receive(i, added)))
  {
    var v := Step(w, Receive(i, added));
    assert HandlerInv(w, i) && Announced(v, i) == Announced(w, i) && CommittedBy(v, i) == CommittedBy(w, i);
    assert HasCommit(v, w.handlers[i].hello.code) == HasCommit(w, w.handlers[i].hello.code);
    HandlerMoves(w, v, i, ReceiveStep(w.handlers[i], added));
  }

  lemma StepKeeps(w: World, a: Act)
    requires Inv(w) && Enabled(w, a)
    ensures Inv(Step(w, a))
  {
    match a
    case Connect(p, hello) => ConnectKeeps(w, Handler(p, hello, Looking, NO_ENTRY, 0, None, Awaiting), Step(w, a));
    case Work(i, fault) => WorkKeeps(w, i, fault);
    case Receive(i, added) => ReceiveKeeps(w, i, added);
    case _ => EntriesChange(w, Step(w, a));
  }

  lemma {:induction false} RunKeeps(w: World, acts: seq<Act>)
    requires Inv(w) && Legal(w, acts)
    ensures Inv(After(w, acts))
    decreases |acts|
  {
    if acts != [] {
      StepKeeps(w, acts[0]);
      RunKeeps(Step(w, acts[0]), acts[1..]);
    }
  }
}
