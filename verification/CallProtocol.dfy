/**
 One call between two peers that both run this code.  Each side has its session,
 its entries in `streams`/`encs` and in the registry, its end of the stream, the
 thread that places or serves the call, and any number of callers of Accept and
 Hangup.  Every lock region and every channel operation is one step; the steps
 interleave arbitrarily.
 */
module CallProtocol {
  import opened CallState

  datatype Msg = Invite | Accept | Decline(reason: string) | Hangup(reason: string)

  datatype Role = Caller | Callee

  /** Where the main thread of a side is: in Place (P), in handleStream (H) or in
      runScanner (R). */
  datatype Main =
    | PBind | PRegister | PLookup | PEncode | PRing | PSpawn
    | PFailEnd | PFailUnbind | PFailClose | PFailRemove
    | HFirst | HBind | HRegister | HRing | HAbort
    | RScan | RAccept1 | RAccept2 | REnd(why: string) | RUnbind | RClose | RRemove
    | Done

  /** Where a caller of Accept or Hangup is. */
  datatype Op =
    | AccLookup | AccEncode | AccConnecting | AccConnected
    | HangLookup(why: string) | HangEncode(why: string) | HangEnd(why: string) | HangUnbind | HangClose | HangRemove
    | Finished

  /** `hung` says that Hangup was called here; `idleAcc` and `rungAcc` that some
      Accept reached its transition while the session was idle, or later.  The
      others name the thread (-1 for main, else an index into `ops`) that ended the
      session, took the stream out of the map, wrote a HANGUP, wrote the last
      ACCEPT, and entered Connecting. */
  datatype Log = Log(
    hung: bool, idleAcc: bool, rungAcc: bool, ender: int, closer: int, hanger: int, accer: int, stepper: int)

  /** `out` is everything written, `inp` how much of the peer's output was read. */
  datatype Side = Side(
    exists_: bool, phase: State, reason: string, bound: bool, reg: bool, known: bool, closed: bool, reset: bool,
    out: seq<Msg>, inp: nat, main: Main, ops: seq<Op>, log: Log)

  const NO_LOG := Log(false, false, false, -1, -1, -1, -1, -1)
  const NEW_CALLER := Side(true, Idle, "", false, false, false, false, false, [], 0, PBind, [], NO_LOG)
  const NEW_CALLEE := Side(false, Idle, "", false, false, false, false, false, [], 0, HFirst, [], NO_LOG)

  // ---------------------------------------------------------------- steps of one side

  function EndBy(s: Side, why: string, who: int): Side {
    if s.phase == Ended then s else s.(phase := Ended, reason := why, log := s.log.(ender := who))
  }

  /** The scanner can return: a message, the end of the peer's output, or a stream
      closed at this end or reset by the peer. */
  predicate Readable(s: Side, p: Side) {
    s.inp < |p.out| || p.closed || s.closed
  }

  /** The positions in Place. */
  predicate InPlace(m: Main) {
    (m.PBind? || m.PRegister? || m.PLookup? || m.PEncode? || m.PRing? || m.PSpawn?)
  }

  /** The positions in Place after the INVITE could not be written. */
  predicate InPlaceError(m: Main) {
    (m.PFailEnd? || m.PFailUnbind? || m.PFailClose? || m.PFailRemove?)
  }

  /** The positions in handleStream. */
  predicate InHandle(m: Main) {
    (m.HFirst? || m.HBind? || m.HRegister? || m.HRing? || m.HAbort?)
  }

  /** The positions in runScanner between two calls of Scan, and after the last. */
  predicate InScanner(m: Main) {
    (m.RAccept1? || m.RAccept2? || m.REnd? || m.RUnbind? || m.RClose? || m.RRemove?)
  }

  predicate MainEnabled(s: Side, p: Side) {
    && (s.main == HFirst ==> p.out != [] || p.closed)
    && (s.main == RScan ==> Readable(s, p))
    && s.main != Done
  }

  /** A write fails on a stream closed at this end; once the peer has closed, it may. */
  predicate WriteFails(s: Side, p: Side, fail: bool) {
    s.closed || (p.closed && fail)
  }

  /** One message, or what Scan returning false leads to. */
  function Scan(s: Side, p: Side, fail: bool, text: string): Side
    requires Readable(s, p)
  {
    if (s.closed || p.reset) && fail then s.(main := REnd(text))
    else if s.inp < |p.out| then
      var s1 := s.(inp := s.inp + 1);
      match p.out[s.inp]
      case Accept => s1.(main := RAccept1)
      case Hangup(r) => s1.(main := REnd(r))
      case Decline(r) => s1.(main := REnd("declined: " + r))
      case Invite => s1
    else if s.closed || p.reset then s.(main := REnd(text))
    else s.(main := REnd("remote disconnected"))
  }

  /** A step of Place.  `fail` resolves the choice of the environment. */
  function PlaceStep(s: Side, p: Side, fail: bool): Side
    requires InPlace(s.main)
  {
    match s.main
    case PBind => s.(bound := true, main := PRegister)
    case PRegister => s.(reg := true, known := true, main := PLookup)
    case PLookup => s.(main := if s.bound then PEncode else PFailEnd)
    case PEncode => if WriteFails(s, p, fail) then s.(main := PFailEnd) else s.(out := s.out + [Invite], main := PRing)
    case PRing => if CanEnter(s.phase, Ringing) then s.(phase := Ringing, main := PSpawn) else s.(main := Done)
    case PSpawn => s.(main := if s.bound then RScan else Done)
  }

  function PlaceErrorStep(s: Side, text: string): Side
    requires InPlaceError(s.main)
  {
    match s.main
    case PFailEnd => EndBy(s, text, -1).(main := PFailUnbind)
    case PFailUnbind => if s.bound then s.(bound := false, main := PFailClose, log := s.log.(closer := -1)) else s.(main := PFailRemove)
    case PFailClose => s.(closed := true, main := PFailRemove)
    case PFailRemove => s.(reg := false, main := Done)
  }

  /** A step of handleStream up to the scanner. */
  function HandleStep(s: Side, p: Side): Side
    requires InHandle(s.main) && MainEnabled(s, p)
  {
    match s.main
    case HFirst =>
      if p.out != [] && p.out[0] == Invite then s.(inp := 1, exists_ := true, main := HBind)
      else s.(inp := if p.out != [] then 1 else 0, closed := true, reset := true, main := Done)
    case HBind => s.(bound := true, main := HRegister)
    case HRegister => s.(reg := true, known := true, main := HRing)
    case HRing => if CanEnter(s.phase, Ringing) then s.(phase := Ringing, main := RScan) else s.(main := HAbort)
    case HAbort => s.(closed := true, main := Done)
  }

  /** A step of runScanner after Scan has returned. */
  function ServeStep(s: Side): Side
    requires InScanner(s.main)
  {
    match s.main
    case RAccept1 => s.(phase := Entered(s.phase, Connecting), main := RAccept2)
    case RAccept2 => s.(phase := Entered(s.phase, Connected), main := RScan)
    case REnd(r) => EndBy(s, r, -1).(main := RUnbind)
    case RUnbind => if s.bound then s.(bound := false, main := RClose, log := s.log.(closer := -1)) else s.(main := RRemove)
    case RClose => s.(closed := true, main := RRemove)
    case RRemove => s.(reg := false, main := Done)
  }

  /** `text` is the error message the environment produces, if it does. */
  function MainStep(s: Side, p: Side, fail: bool, text: string): Side
    requires MainEnabled(s, p)
  {
    if InPlace(s.main) then PlaceStep(s, p, fail)
    else if InPlaceError(s.main) then PlaceErrorStep(s, text)
    else if InHandle(s.main) then HandleStep(s, p)
    else if s.main == RScan then Scan(s, p, fail, text)
    else ServeStep(s)
  }

  function Goto(s: Side, i: nat, op: Op): Side
    requires i < |s.ops|
  {
    s.(ops := s.ops[i := op])
  }

  predicate InAccept(op: Op) {
    (op.AccLookup? || op.AccEncode? || op.AccConnecting? || op.AccConnected?)
  }

  predicate InHangup(op: Op) {
    (op.HangLookup? || op.HangEncode? || op.HangEnd?)
  }

  predicate InCleanup(op: Op) {
    (op.HangUnbind? || op.HangClose? || op.HangRemove?)
  }

  predicate OpEnabled(s: Side, i: nat) {
    i < |s.ops| && s.ops[i] != Finished
  }

  /** A step of Accept. */
  function AcceptStep(s: Side, p: Side, i: nat, fail: bool): Side
    requires OpEnabled(s, i) && InAccept(s.ops[i])
  {
    match s.ops[i]
    case AccLookup => Goto(s, i, if s.bound then AccEncode else Finished)
    case AccEncode =>
      if WriteFails(s, p, fail) then Goto(s, i, Finished)
      else Goto(s, i, AccConnecting).(out := s.out + [Accept], log := s.log.(accer := i))
    case AccConnecting =>
      if CanEnter(s.phase, Connecting) then
        Goto(s, i, AccConnected).(phase := Connecting, log := s.log.(rungAcc := true, stepper := i))
      else if s.phase == Idle then Goto(s, i, Finished).(log := s.log.(idleAcc := true))
      else Goto(s, i, Finished).(log := s.log.(rungAcc := true))
    case AccConnected => Goto(s, i, Finished).(phase := Entered(s.phase, Connected))
  }

  /** A step of Hangup up to End. */
  function HangupStep(s: Side, p: Side, i: nat, fail: bool): Side
    requires OpEnabled(s, i) && InHangup(s.ops[i])
  {
    match s.ops[i]
    case HangLookup(r) => Goto(s, i, if s.bound then HangEncode(r) else HangEnd(r))
    case HangEncode(r) =>
      if WriteFails(s, p, fail) then Goto(s, i, HangEnd(r))
      else Goto(s, i, HangEnd(r)).(out := s.out + [Hangup(r)], log := s.log.(hanger := i))
    case HangEnd(r) => EndBy(Goto(s, i, HangUnbind), r, i)
  }

  /** A step of Hangup after End. */
  function CleanStep(s: Side, i: nat): Side
    requires OpEnabled(s, i) && InCleanup(s.ops[i])
  {
    match s.ops[i]
    case HangUnbind =>
      if s.bound then Goto(s, i, HangClose).(bound := false, log := s.log.(closer := i)) else Goto(s, i, HangRemove)
    case HangClose => Goto(s, i, HangRemove).(closed := true)
    case HangRemove => Goto(s, i, Finished).(reg := false)
  }

  function OpStep(s: Side, p: Side, i: nat, fail: bool): Side
    requires OpEnabled(s, i)
  {
    if InAccept(s.ops[i]) then AcceptStep(s, p, i, fail)
    else if InHangup(s.ops[i]) then HangupStep(s, p, i, fail)
    else CleanStep(s, i)
  }

  datatype Act =
    | MainAct(fail: bool, text: string)
    | OpAct(i: nat, fail: bool)
    | CallAccept
    | CallHangup(why: string)

  /** Sessions are found through the registry, so only after registration. */
  predicate Enabled(s: Side, p: Side, a: Act) {
    match a
    case MainAct(_, _) => MainEnabled(s, p)
    case OpAct(i, _) => OpEnabled(s, i)
    case CallAccept => s.known
    case CallHangup(_) => s.known
  }

  /** Accept is refused on an outbound session before it writes anything. */
  function SideStep(r: Role, s: Side, p: Side, a: Act): Side
    requires Enabled(s, p, a)
  {
    match a
    case MainAct(fail, text) => MainStep(s, p, fail, text)
    case OpAct(i, fail) => OpStep(s, p, i, fail)
    case CallAccept => s.(ops := s.ops + [if r == Callee then AccLookup else Finished])
    case CallHangup(why) => s.(ops := s.ops + [HangLookup(why)], log := s.log.(hung := true))
  }

  // ---------------------------------------------------------------- the two-party system

  datatype Sys = Sys(a: Side, b: Side)

  const INIT := Sys(NEW_CALLER, NEW_CALLEE)

  datatype Move = ByCaller(act: Act) | ByCallee(act: Act)

  predicate CanMove(x: Sys, m: Move) {
    match m
    case ByCaller(act) => Enabled(x.a, x.b, act)
    case ByCallee(act) => Enabled(x.b, x.a, act)
  }

  function Step(x: Sys, m: Move): Sys
    requires CanMove(x, m)
  {
    match m
    case ByCaller(act) => x.(a := SideStep(Caller, x.a, x.b, act))
    case ByCallee(act) => x.(b := SideStep(Callee, x.b, x.a, act))
  }

  predicate Legal(x: Sys, ms: seq<Move>)
    decreases |ms|
  {
    ms == [] || (CanMove(x, ms[0]) && Legal(Step(x, ms[0]), ms[1..]))
  }

  function After(x: Sys, ms: seq<Move>): Sys
    requires Legal(x, ms)
    decreases |ms|
  {
    if ms == [] then x else After(Step(x, ms[0]), ms[1..])
  }
}
