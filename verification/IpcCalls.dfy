/**
 Answers race with callers that give up and with the end of the connection.  An answer
 is taken off the list under the lock but sent after it is released; everything else
 may come in between.
 */
module IpcCalls {
  /** One call: still on the list, given up by its caller, the messages sent into its
      channel (which has room for one), and whether that was closed. */
  datatype Wait = Wait(listed: bool, gaveUp: bool, sent: nat, closed: bool)

  /** Calls by their IDs, in order; `hand` is a call taken off the list by the read loop,
      whose answer is about to be sent, or -1; `gone` once the read loop left. */
  datatype Calls = Calls(waits: seq<Wait>, hand: int, gone: bool)

  const START := Calls([], -1, false)

  datatype Act = Begin | GiveUp(id: nat) | Take(id: nat) | Send | TearDown

  predicate Enabled(c: Calls, a: Act) {
    match a
    case Begin => true
    case GiveUp(id) => id < |c.waits|
    case Take(_) => !c.gone && c.hand == -1
    case Send => 0 <= c.hand < |c.waits|
    case TearDown => !c.gone && c.hand == -1
  }

  function CloseListed(ws: seq<Wait>): (r: seq<Wait>)
    ensures |r| == |ws|
    ensures forall i :: 0 <= i < |ws| ==> r[i] == if ws[i].listed then ws[i].(listed := false, closed := true) else ws[i]
  {
    if ws == [] then []
    else
      var n := |ws| - 1;
      CloseListed(ws[..n]) + [if ws[n].listed then ws[n].(listed := false, closed := true) else ws[n]]
  }

  function Step(c: Calls, a: Act): Calls
    requires Enabled(c, a)
  {
    match a
    case Begin => if c.gone then c else c.(waits := c.waits + [Wait(true, false, 0, false)])
    case GiveUp(id) => c.(waits := c.waits[id := c.waits[id].(listed := false, gaveUp := true)])
    case Take(id) =>
      if id < |c.waits| && c.waits[id].listed then c.(waits := c.waits[id := c.waits[id].(listed := false)], hand := id)
      else c
    case Send => c.(waits := c.waits[c.hand := c.waits[c.hand].(sent := c.waits[c.hand].sent + 1)], hand := -1)
    case TearDown => c.(waits := CloseListed(c.waits), gone := true)
  }

  /** Exactly one thing happens to a call: it waits, or is about to be answered, or was
      answered, or was closed, or its caller gave up before any of that. */
  predicate WaitInv(c: Calls, i: nat)
    requires i < |c.waits|
  {
    var w := c.waits[i];
    var inHand := c.hand == i;
    && w.sent <= 1
    && !(w.listed && (inHand || w.sent == 1 || w.closed || c.gone || w.gaveUp))
    && !(inHand && (w.sent == 1 || w.closed))
    && !(w.sent == 1 && w.closed)
    && (w.listed || inHand || w.sent == 1 || w.closed || w.gaveUp)
  }

  ghost predicate Inv(c: Calls) {
    -1 <= c.hand < |c.waits| && (c.gone ==> c.hand == -1) && forall i: nat :: i < |c.waits| ==> WaitInv(c, i)
  }

  lemma StepKeeps(c: Calls, a: Act)
    requires Inv(c) && Enabled(c, a)
    ensures Inv(Step(c, a))
  {
    var d := Step(c, a);
    forall i: nat | i < |d.waits| ensures WaitInv(d, i) {
      assert i < |c.waits| ==> WaitInv(c, i);
    }
  }

  predicate Legal(c: Calls, acts: seq<Act>)
    decreases |acts|
  {
    acts == [] || (Enabled(c, acts[0]) && Legal(Step(c, acts[0]), acts[1..]))
  }

  function After(c: Calls, acts: seq<Act>): Calls
    requires Legal(c, acts)
    decreases |acts|
  {
    if acts == [] then c else After(Step(c, acts[0]), acts[1..])
  }

  lemma {:induction false} RunKeeps(c: Calls, acts: seq<Act>)
    requires Inv(c) && Legal(c, acts)
    ensures Inv(After(c, acts))
    decreases |acts|
  {
    if acts != [] {
      StepKeeps(c, acts[0]);
      RunKeeps(Step(c, acts[0]), acts[1..]);
    }
  }

  /** In every run: a send finds its channel open and empty, so it neither panics nor
      blocks; no call gets two answers, or an answer and a closed channel; and when the
      connection ends, every caller that did not give up has one or the other. */
  lemma CallsAreTold(acts: seq<Act>)
    requires Legal(START, acts)
    ensures var c := After(START, acts);
            && (Enabled(c, Send) ==> !c.waits[c.hand].closed && c.waits[c.hand].sent == 0)
            && (forall i :: 0 <= i < |c.waits| ==> c.waits[i].sent <= 1 && (c.waits[i].sent == 1 ==> !c.waits[i].closed))
            && (forall i :: 0 <= i < |c.waits| && c.gone && !c.waits[i].gaveUp ==> c.waits[i].sent == 1 || c.waits[i].closed)
  {
    RunKeeps(START, acts);
    var c := After(START, acts);
    forall i | 0 <= i < |c.waits|
      ensures c.waits[i].sent <= 1 && !(c.waits[i].sent == 1 && c.waits[i].closed)
      ensures c.gone && !c.waits[i].gaveUp ==> c.waits[i].sent == 1 || c.waits[i].closed
    {
      var id: nat := i;
      assert WaitInv(c, id);
    }
    assert Enabled(c, Send) ==> WaitInv(c, c.hand);
  }
}
