/**
 One session under any interleaving of its callers.  A state change commits under
 the state lock; its broadcast is a separate, later step under the subscriber
 lock, so broadcasts may overtake each other.
 */
module SessionEvents {
  import opened CallState
  import opened Channels

  const SUB_CAP := 16

  /** A subscription: its buffer, what was read from it, when it began (and, once
      closed, ended) in the broadcast order, and how many events it dropped. */
  datatype Sub = Sub(open: bool, q: seq<State>, got: seq<State>, from: nat, upto: nat, missed: nat)

  /** The committed state, the changes not yet broadcast, and the broadcasts so far. */
  datatype Sess = Sess(st: State, pend: set<State>, log: seq<State>, subs: seq<Sub>)

  const FRESH := Sess(Idle, {}, [], [])

  datatype Act =
    | Enter(to: State)
    | EndCall
    | Cast(s: State)
    | Subscribe
    | Unsubscribe(i: nat)
    | Read(i: nat)

  predicate Enabled(x: Sess, a: Act) {
    match a
    case Enter(to) => CanEnter(x.st, to)
    case EndCall => x.st != Ended
    case Cast(s) => s in x.pend
    case Subscribe => true
    case Unsubscribe(i) => i < |x.subs|
    case Read(i) => i < |x.subs| && x.subs[i].q != []
  }

  function Hear(u: Sub, s: State, n: nat): Sub {
    if !u.open then u
    else u.(q := Offer(SUB_CAP, u.q, s), upto := n + 1, missed := u.missed + if |u.q| < SUB_CAP then 0 else 1)
  }

  function Step(x: Sess, a: Act): Sess
    requires Enabled(x, a)
  {
    match a
    case Enter(to) => x.(st := to, pend := x.pend + {to})
    case EndCall => x.(st := Ended, pend := x.pend + {Ended})
    case Cast(s) =>
      x.(pend := x.pend - {s}, log := x.log + [s],
         subs := seq(|x.subs|, i requires 0 <= i < |x.subs| => Hear(x.subs[i], s, |x.log|)))
    case Subscribe => x.(subs := x.subs + [Sub(true, [], [], |x.log|, |x.log|, 0)])
    case Unsubscribe(i) => x.(subs := x.subs[i := x.subs[i].(open := false)])
    case Read(i) =>
      var u := x.subs[i];
      x.(subs := x.subs[i := u.(q := u.q[1..], got := u.got + [u.q[0]])])
  }

  predicate Legal(x: Sess, acts: seq<Act>)
    decreases |acts|
  {
    acts == [] || (Enabled(x, acts[0]) && Legal(Step(x, acts[0]), acts[1..]))
  }

  function After(x: Sess, acts: seq<Act>): Sess
    requires Legal(x, acts)
    decreases |acts|
  {
    if acts == [] then x else After(Step(x, acts[0]), acts[1..])
  }

  /** Each state is committed once, then broadcast once. */
  ghost predicate Once(x: Sess) {
    && (forall s :: s in x.pend ==> s != Idle && Rank(s) <= Rank(x.st) && s !in x.log)
    && (forall s :: s in x.log ==> s != Idle && Rank(s) <= Rank(x.st))
    && (forall i, j :: 0 <= i < j < |x.log| ==> x.log[i] != x.log[j])
    && (x.st != Idle ==> x.st in x.pend || x.st in x.log)
  }

  /** A subscriber has, read or still buffered, the broadcasts since it subscribed. */
  ghost predicate Faithful(u: Sub, log: seq<State>) {
    && u.from <= u.upto <= |log|
    && u.got + u.q == log[u.from..u.upto]
    && u.missed == 0
    && (u.open ==> u.upto == |log|)
  }

  ghost predicate Inv(x: Sess) {
    && Once(x)
    && forall i :: 0 <= i < |x.subs| ==> Faithful(x.subs[i], x.log)
  }

  /** Four states are all there is to announce. */
  lemma LogBound(log: seq<State>)
    requires forall i, j :: 0 <= i < j < |log| ==> log[i] != log[j]
    requires Idle !in log
    ensures |log| <= 4
  {
    if |log| > 4 {
      forall i | 0 <= i < 5 ensures log[i] in log && 1 <= Rank(log[i]) {}
      FiveOfFour(log[0], log[1], log[2], log[3], log[4]);
    }
  }

  lemma FiveOfFour(a: State, b: State, c: State, d: State, e: State)
    ensures Idle in {a, b, c, d, e} || |{a, b, c, d, e}| < 5
  {
  }

  lemma HearFaithful(u: Sub, log: seq<State>, s: State)
    requires Faithful(u, log) && |log| <= 4
    ensures Faithful(Hear(u, s, |log|), log + [s])
  {
    assert (log + [s])[u.from..u.upto] == log[u.from..u.upto];
    if u.open {
      assert (log + [s])[u.from..] == log[u.from..] + [s];
      assert |u.got + u.q| == |log[u.from..u.upto]|;
    }
  }

  lemma StepInv(x: Sess, a: Act)
    requires Inv(x) && Enabled(x, a)
    ensures Inv(Step(x, a))
  {
    match a
    case Enter(_) =>
    case EndCall =>
    case Cast(s) =>
      LogBound(x.log);
      CastInv(x, s);
    case Subscribe =>
      assert x.log[|x.log|..] == [];
    case Unsubscribe(i) =>
    case Read(i) =>
      var u := x.subs[i];
      assert u.got + [u.q[0]] + u.q[1..] == u.got + u.q;
  }

  lemma CastInv(x: Sess, s: State)
    requires Inv(x) && s in x.pend && |x.log| <= 4
    ensures Inv(Step(x, Cast(s)))
  {
    var y := Step(x, Cast(s));
    forall i | 0 <= i < |y.subs| ensures Faithful(y.subs[i], y.log) {
      HearFaithful(x.subs[i], x.log, s);
    }
  }

  lemma {:induction false} RunInv(x: Sess, acts: seq<Act>)
    requires Inv(x) && Legal(x, acts)
    ensures Inv(After(x, acts))
    decreases |acts|
  {
    if acts != [] {
      StepInv(x, acts[0]);
      RunInv(Step(x, acts[0]), acts[1..]);
    }
  }

  /** What a subscriber read is what was broadcast since it subscribed, from the start. */
  lemma GotIsLog(u: Sub, log: seq<State>)
    requires Faithful(u, log)
    ensures forall k :: 0 <= k < |u.got| ==> u.from + k < |log| && u.got[k] == log[u.from + k]
  {
    forall k | 0 <= k < |u.got| ensures u.from + k < |log| && u.got[k] == log[u.from + k] {
      assert u.got[k] == (u.got + u.q)[k] == log[u.from..u.upto][k];
    }
  }

  /** No subscriber reads a change twice. */
  lemma GotDistinct(x: Sess, i: nat)
    requires Inv(x) && i < |x.subs|
    ensures forall j, k :: 0 <= j < k < |x.subs[i].got| ==> x.subs[i].got[j] != x.subs[i].got[k]
  {
    GotIsLog(x.subs[i], x.log);
  }

  /** Whatever the interleaving: at most four broadcasts, all different; no
      subscriber ever drops one; each reads exactly the broadcasts that followed its
      subscription, in broadcast order. */
  lemma BoundedEvents(acts: seq<Act>)
    requires Legal(FRESH, acts)
    ensures var x := After(FRESH, acts);
            && |x.log| <= 4
            && (forall i, j :: 0 <= i < j < |x.log| ==> x.log[i] != x.log[j])
            && forall i :: 0 <= i < |x.subs| ==>
                 var u := x.subs[i];
                 u.missed == 0 && u.from <= |x.log| && u.got <= x.log[u.from..] && |u.q| <= 4
  {
    RunInv(FRESH, acts);
    var x := After(FRESH, acts);
    LogBound(x.log);
    forall i | 0 <= i < |x.subs|
      ensures x.subs[i].got <= x.log[x.subs[i].from..] && |x.subs[i].q| <= 4
    {
      var u := x.subs[i];
      assert |u.got + u.q| <= 4;
      assert u.got == (u.got + u.q)[..|u.got|] == x.log[u.from..][..|u.got|];
    }
  }

  /** The state never leaves Ended and never goes back. */
  lemma {:induction false} Monotone(x: Sess, acts: seq<Act>)
    requires Legal(x, acts)
    ensures Rank(x.st) <= Rank(After(x, acts).st)
    ensures x.log <= After(x, acts).log
    decreases |acts|
  {
    if acts != [] {
      Monotone(Step(x, acts[0]), acts[1..]);
    }
  }
}
