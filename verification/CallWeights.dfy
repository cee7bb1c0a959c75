/** A measure that every step of a running thread lowers, and what a step never undoes. */
module CallWeights {
  import opened CallState
  import opened CallProtocol

  /** Steps left to the main thread at most, counting a message it writes as four. */
  function MainWeight(m: Main): nat {
    match m
    case PBind => 24 case PRegister => 23 case PLookup => 22 case PEncode => 21 case PRing => 16 case PSpawn => 15
    case PFailEnd => 9 case PFailUnbind => 8 case PFailClose => 7 case PFailRemove => 6
    case HFirst => 20 case HBind => 19 case HRegister => 18 case HRing => 17 case HAbort => 5
    case RAccept1 => 12 case RAccept2 => 11 case RScan => 10
    case REnd(_) => 9 case RUnbind => 8 case RClose => 7 case RRemove => 6
    case Done => 0
  }

  function OpWeight(op: Op): nat {
    match op
    case AccLookup => 8 case AccEncode => 7 case AccConnecting => 2 case AccConnected => 1
    case HangLookup(_) => 10 case HangEncode(_) => 9 case HangEnd(_) => 4
    case HangUnbind => 3 case HangClose => 2 case HangRemove => 1
    case Finished => 0
  }

  function OpsWeight(ops: seq<Op>): nat {
    if ops == [] then 0 else OpsWeight(ops[..|ops| - 1]) + OpWeight(ops[|ops| - 1])
  }

  lemma {:induction false} OpsUpdate(ops: seq<Op>, i: nat, op: Op)
    requires i < |ops|
    ensures OpsWeight(ops[i := op]) == OpsWeight(ops) - OpWeight(ops[i]) + OpWeight(op)
  {
    var n := |ops| - 1;
    if i < n {
      OpsUpdate(ops[..n], i, op);
      assert ops[i := op][..n] == ops[..n][i := op];
    } else {
      assert ops[i := op][..n] == ops[..n];
    }
  }

  function SideWeight(s: Side): nat {
    MainWeight(s.main) + OpsWeight(s.ops)
  }

  /** A message on its way counts as four steps. */
  function Weight(x: Sys): int {
    SideWeight(x.a) + SideWeight(x.b) + 4 * (|x.a.out| - x.b.inp) + 4 * (|x.b.out| - x.a.inp)
  }

  /** The phase only rises, and the reason for the end stays. */
  predicate Onward(s: Side, t: Side) {
    Rank(t.phase) >= Rank(s.phase) && (s.phase == Ended ==> t.reason == s.reason)
  }

  /** A step gives up more weight than what it writes adds. */
  predicate Spends(s: Side, t: Side) {
    SideWeight(t) + 4 * (|t.out| - |s.out|) - 4 * (t.inp - s.inp) < SideWeight(s)
  }

  /** A step writes at most one message. */
  predicate AtMostOne(before: seq<Msg>, after: seq<Msg>) {
    after == before || (|after| == |before| + 1 && after[..|before|] == before)
  }

  predicate Accepting(s: Side, i: int) {
    0 <= i < |s.ops| && InAccept(s.ops[i])
  }

  /** No call of Accept is added, and one that meets an idle session was running before. */
  ghost predicate AcceptsOnward(s: Side, t: Side) {
    && (forall i {:trigger Accepting(t, i)} :: Accepting(t, i) ==> Accepting(s, i))
    && (t.log.idleAcc && !s.log.idleAcc ==> s.phase == Idle && exists i :: Accepting(s, i))
  }

  ghost predicate Advances(s: Side, t: Side) {
    Onward(s, t) && Spends(s, t) && AtMostOne(s.out, t.out) && AcceptsOnward(s, t)
  }
}
