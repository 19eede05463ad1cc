/** The shared broker connection: the reconnect loop, Channel calls and one Close, all taking turns
    on a read/write lock, while connections drop at any moment. One step per shared access. */
module ConnectionProtocol {
  import opened Wrappers
  import Runs

  // Connections are numbered in the order they are dialled.
  type Conn = nat

  datatype Who = TheLoop | TheCloser | Caller(id: nat)

  // The goroutine that runs New and then reconnectLoop. A result of reading `closed` is carried
  // until the read lock is released.
  datatype LoopPc =
    | NewDial
    | NewSet(newConn: Conn)
    | NewDeclare(newConn: Conn)
    | NewFailed
    | StartRLock
    | StartRead
    | StartRUnlock(seen: bool)
    | Wait
    | OuterRLock
    | OuterRead
    | OuterRUnlock(seen: bool)
    | InnerRLock
    | InnerRead
    | InnerRUnlock(seen: bool)
    | Dial
    | Delay
    | SetLock(newConn: Conn)
    | SetWrite(newConn: Conn)
    | SetUnlock(newConn: Conn)
    | Declare(newConn: Conn)
    | Exited

  // `local` is the loop's own variable conn.
  datatype Loop = Loop(local: Option<Conn>, pc: LoopPc)

  datatype CloserPc = NotCalled | SetClosed | ReadConn | CloseUnlock | CloseDone | CloseConn | Finished

  datatype Closer = Closer(conn: Option<Conn>, pc: CloserPc)

  datatype CallPc = CallRLock | CallRead | CallRUnlock | CallOpen | CallDone(channel: Option<Conn>)

  datatype Call = Call(conn: Option<Conn>, pc: CallPc)

  // `declared` says for each connection on which declareTopology ran whether it succeeded; `dialled`
  // counts the dials that succeeded; `down` holds the connections that are closed.
  datatype State = State(
    conn: Option<Conn>, closed: bool, done: bool, readers: set<Who>, writer: Option<Who>,
    loop: Loop, closer: Closer, calls: map<nat, Call>,
    dialled: nat, down: set<Conn>, declared: map<Conn, bool>)

  function Init(): State {
    State(None, false, false, {}, None, Loop(None, NewDial), Closer(None, NotCalled), map[], 0, {}, map[])
  }

  /* `ok` is how an outside operation of the step ends: a dial or a declaration succeeds, the delay's
     timer (rather than the done channel) is taken. */
  datatype Event = LoopStep(ok: bool) | CloserStep | StartCall(id: nat) | CallStep(id: nat, ok: bool) | Drop(conn: Conn)

  predicate CanRead(s: State) {
    s.writer.None?
  }

  predicate CanWrite(s: State) {
    s.writer.None? && s.readers == {}
  }

  // Nobody but New has the connection object before New returns it.
  predicate Published(s: State) {
    !InNew(s.loop.pc) && !s.loop.pc.NewFailed?
  }

  function Goto(s: State, pc: LoopPc): State {
    s.(loop := s.loop.(pc := pc))
  }

  function TakeRead(s: State, pc: LoopPc): State {
    if CanRead(s) then Goto(s, pc).(readers := s.readers + {TheLoop}) else s
  }

  function DropRead(s: State, pc: LoopPc): State {
    Goto(s, pc).(readers := s.readers - {TheLoop})
  }

  // What the loop's own steps never change.
  predicate LoopFrame(s: State, t: State) {
    t.closer == s.closer && t.closed == s.closed && t.done == s.done && t.calls == s.calls && t.down == s.down
  }

  function StepNew(s: State, ok: bool): (t: State)
    ensures LoopFrame(s, t)
  {
    match s.loop.pc
    case NewDial => if ok then Goto(s, NewSet(s.dialled)).(dialled := s.dialled + 1) else Goto(s, NewFailed)
    case NewSet(n) => Goto(s, NewDeclare(n)).(conn := Some(n))
    case NewDeclare(n) => Goto(s, if ok then StartRLock else NewFailed).(declared := s.declared[n := ok])
    case _ => s
  }

  // Reading conn and closed before the loop.
  function StepStart(s: State): (t: State)
    ensures LoopFrame(s, t)
  {
    match s.loop.pc
    case StartRLock => TakeRead(s, StartRead)
    case StartRead => s.(loop := Loop(s.conn, StartRUnlock(s.closed)))
    case StartRUnlock(seen) => DropRead(s, if seen then Exited else Wait)
    case _ => s
  }

  // The wait for a close notification, and the check of closed that follows.
  function StepOuter(s: State): (t: State)
    ensures LoopFrame(s, t)
  {
    match s.loop.pc
    case Wait => if s.loop.local.Some? && s.loop.local.value in s.down then Goto(s, OuterRLock) else s
    case OuterRLock => TakeRead(s, OuterRead)
    case OuterRead => Goto(s, OuterRUnlock(s.closed))
    case OuterRUnlock(seen) => DropRead(s, if seen then Exited else InnerRLock)
    case _ => s
  }

  function StepInner(s: State, ok: bool): (t: State)
    ensures LoopFrame(s, t)
  {
    match s.loop.pc
    case InnerRLock => TakeRead(s, InnerRead)
    case InnerRead => Goto(s, InnerRUnlock(s.closed))
    case InnerRUnlock(seen) => DropRead(s, if seen then Exited else Dial)
    case Dial => if ok then Goto(s, SetLock(s.dialled)).(dialled := s.dialled + 1) else Goto(s, Delay)
    case Delay => if ok then Goto(s, InnerRLock) else if s.done then Goto(s, Exited) else s
    case _ => s
  }

  // setConn, declareTopology and the update of the loop's own variable.
  function StepInstall(s: State, ok: bool): (t: State)
    ensures LoopFrame(s, t)
  {
    match s.loop.pc
    case SetLock(n) => if CanWrite(s) then Goto(s, SetWrite(n)).(writer := Some(TheLoop)) else s
    case SetWrite(n) => Goto(s, SetUnlock(n)).(conn := Some(n))
    case SetUnlock(n) => Goto(s, Declare(n)).(writer := None)
    case Declare(n) => s.(loop := Loop(Some(n), Wait), declared := s.declared[n := ok])
    case _ => s
  }

  predicate InNew(pc: LoopPc) { pc.NewDial? || pc.NewSet? || pc.NewDeclare? }

  predicate InStart(pc: LoopPc) { pc.StartRLock? || pc.StartRead? || pc.StartRUnlock? }

  predicate InOuter(pc: LoopPc) { pc.Wait? || pc.OuterRLock? || pc.OuterRead? || pc.OuterRUnlock? }

  predicate InInner(pc: LoopPc) { pc.InnerRLock? || pc.InnerRead? || pc.InnerRUnlock? || pc.Dial? || pc.Delay? }

  predicate InInstall(pc: LoopPc) { pc.SetLock? || pc.SetWrite? || pc.SetUnlock? || pc.Declare? }

  function StepLoop(s: State, ok: bool): (t: State)
    ensures LoopFrame(s, t)
  {
    if InStart(s.loop.pc) then StepStart(s)
    else if InOuter(s.loop.pc) then StepOuter(s)
    else if InInner(s.loop.pc) then StepInner(s, ok)
    else if InInstall(s.loop.pc) then StepInstall(s, ok)
    else if InNew(s.loop.pc) then StepNew(s, ok)
    else s
  }

  function CloserGoto(s: State, pc: CloserPc): State {
    s.(closer := s.closer.(pc := pc))
  }

  function StepCloser(s: State): State {
    match s.closer.pc
    case NotCalled => if Published(s) && CanWrite(s) then CloserGoto(s, SetClosed).(writer := Some(TheCloser)) else s
    case SetClosed => CloserGoto(s, ReadConn).(closed := true)
    case ReadConn => s.(closer := Closer(s.conn, CloseUnlock))
    case CloseUnlock => CloserGoto(s, CloseDone).(writer := None)
    case CloseDone => CloserGoto(s, CloseConn).(done := true)
    case CloseConn =>
      CloserGoto(s, Finished).(down := if s.closer.conn.Some? then s.down + {s.closer.conn.value} else s.down)
    case Finished => s
  }

  function PutCall(s: State, id: nat, call: Call): State {
    s.(calls := s.calls[id := call])
  }

  function StepCall(s: State, id: nat, call: Call, ok: bool): State {
    match call.pc
    case CallRLock =>
      if CanRead(s) then PutCall(s, id, call.(pc := CallRead)).(readers := s.readers + {Caller(id)}) else s
    case CallRead => PutCall(s, id, Call(s.conn, CallRUnlock))
    case CallRUnlock => PutCall(s, id, call.(pc := CallOpen)).(readers := s.readers - {Caller(id)})
    case CallOpen =>
      PutCall(s, id,
          call.(pc := CallDone(if call.conn.Some? && call.conn.value !in s.down && ok then call.conn else None)))
    case CallDone(_) => s
  }

  // A dropped connection stays closed; only connections that exist can drop.
  function Next(s: State, e: Event): State {
    match e
    case LoopStep(ok) => StepLoop(s, ok)
    case CloserStep => StepCloser(s)
    case StartCall(id) => if id in s.calls || !Published(s) then s else PutCall(s, id, Call(None, CallRLock))
    case CallStep(id, ok) => if id in s.calls then StepCall(s, id, s.calls[id], ok) else s
    case Drop(c) => if c < s.dialled then s.(down := s.down + {c}) else s
  }

  function Run(s: State, events: seq<Event>): State {
    Runs.Run(Next, s, events)
  }

  function After(s: State, events: seq<Event>, k: nat): State
    requires k <= |events|
  {
    Run(s, events[..k])
  }

  // ---- The lock ----

  predicate LoopReads(pc: LoopPc) {
    pc.StartRead? || pc.StartRUnlock? || pc.OuterRead? || pc.OuterRUnlock? || pc.InnerRead? || pc.InnerRUnlock?
  }

  predicate LoopWrites(pc: LoopPc) {
    pc.SetWrite? || pc.SetUnlock?
  }

  predicate CloserWrites(pc: CloserPc) {
    pc.SetClosed? || pc.ReadConn? || pc.CloseUnlock?
  }

  predicate CallReads(pc: CallPc) {
    pc.CallRead? || pc.CallRUnlock?
  }

  ghost predicate LockInv(s: State) {
    && (TheLoop in s.readers <==> LoopReads(s.loop.pc))
    && TheCloser !in s.readers
    && (forall id: nat :: Caller(id) in s.readers <==> id in s.calls && CallReads(s.calls[id].pc))
    && (s.writer == Some(TheLoop) <==> LoopWrites(s.loop.pc))
    && (s.writer == Some(TheCloser) <==> CloserWrites(s.closer.pc))
    && (s.writer.Some? ==> !s.writer.value.Caller? && s.readers == {})
  }

  lemma NewKeepsLock(s: State, ok: bool)
    requires LockInv(s)
    requires InNew(s.loop.pc)
    ensures LockInv(StepNew(s, ok))
  {
  }

  lemma StartKeepsLock(s: State, ok: bool)
    requires LockInv(s)
    requires InStart(s.loop.pc)
    ensures LockInv(StepStart(s))
  {
  }

  lemma OuterKeepsLock(s: State, ok: bool)
    requires LockInv(s)
    requires InOuter(s.loop.pc)
    ensures LockInv(StepOuter(s))
  {
  }

  lemma InnerKeepsLock(s: State, ok: bool)
    requires LockInv(s)
    requires InInner(s.loop.pc)
    ensures LockInv(StepInner(s, ok))
  {
  }

  lemma InstallKeepsLock(s: State, ok: bool)
    requires LockInv(s)
    requires InInstall(s.loop.pc)
    ensures LockInv(StepInstall(s, ok))
  {
  }

  lemma LoopKeepsLock(s: State, ok: bool)
    requires LockInv(s)
    ensures LockInv(StepLoop(s, ok))
  {
    if InStart(s.loop.pc) { StartKeepsLock(s, ok); }
    else if InOuter(s.loop.pc) { OuterKeepsLock(s, ok); }
    else if InInner(s.loop.pc) { InnerKeepsLock(s, ok); }
    else if InInstall(s.loop.pc) { InstallKeepsLock(s, ok); }
    else if InNew(s.loop.pc) { NewKeepsLock(s, ok); }
  }

  lemma CloserKeepsLock(s: State)
    requires LockInv(s)
    ensures LockInv(StepCloser(s))
  {
  }

  lemma CallKeepsLock(s: State, id: nat, ok: bool)
    requires LockInv(s) && id in s.calls
    ensures LockInv(StepCall(s, id, s.calls[id], ok))
  {
  }

  lemma NextLock(s: State, e: Event)
    requires LockInv(s)
    ensures LockInv(Next(s, e))
  {
    match e
    case LoopStep(ok) => LoopKeepsLock(s, ok);
    case CloserStep => CloserKeepsLock(s);
    case CallStep(id, ok) => if id in s.calls { CallKeepsLock(s, id, ok); }
    case StartCall(_) =>
    case Drop(_) =>
  }

  // ---- Which connection is which ----

  // The connection just dialled and not yet waited on.
  function Fresh(pc: LoopPc): Option<Conn> {
    match pc
    case NewSet(n) => Some(n)
    case NewDeclare(n) => Some(n)
    case SetLock(n) => Some(n)
    case SetWrite(n) => Some(n)
    case SetUnlock(n) => Some(n)
    case Declare(n) => Some(n)
    case _ => None
  }

  // The loop knows its connection is lost and has not installed another one yet.
  predicate Lost(pc: LoopPc) {
    pc.OuterRLock? || pc.OuterRead? || pc.OuterRUnlock? || pc.InnerRLock? || pc.InnerRead? || pc.InnerRUnlock?
    || pc.Dial? || pc.Delay? || pc.SetLock? || pc.SetWrite?
  }

  predicate Installed(pc: LoopPc) {
    pc.SetUnlock? || pc.Declare? || pc.NewDeclare?
  }

  // c.conn is the loop's own connection, except right after a new one has been installed.
  predicate ConnInv(s: State) {
    && (s.loop.pc.NewDial? ==> s.conn.None? && s.dialled == 0)
    && (s.loop.pc.NewSet? ==> s.conn.None?)
    && (Installed(s.loop.pc) ==> s.conn == Fresh(s.loop.pc))
    && (Published(s) ==> s.conn.Some?)
    && (Published(s) && !Installed(s.loop.pc) && !s.loop.pc.StartRLock? && !s.loop.pc.StartRead? ==>
        s.loop.local == s.conn)
    && (s.loop.pc.SetUnlock? || s.loop.pc.Declare? ==> s.loop.local.Some?)
    && (s.conn.Some? ==> s.conn.value < s.dialled && (Installed(s.loop.pc) || s.conn.value in s.declared))
    && (Fresh(s.loop.pc).Some? ==> Fresh(s.loop.pc).value < s.dialled)
    && (Lost(s.loop.pc) ==> s.loop.local.Some? && s.loop.local.value in s.down)
  }

  // A connection that is neither installed nor about to be is closed.
  ghost predicate StrayInv(s: State) {
    && (forall c: Conn :: c in s.down ==> c < s.dialled)
    && (forall c: Conn :: c < s.dialled && c !in s.down ==> Some(c) == s.conn || Some(c) == Fresh(s.loop.pc))
  }

  // What the loop carries under the read lock is still true, and Close has done what its position says.
  predicate FlagInv(s: State) {
    && (s.loop.pc.StartRUnlock? || s.loop.pc.OuterRUnlock? || s.loop.pc.InnerRUnlock? ==> s.loop.pc.seen == s.closed)
    && (s.closed <==> !s.closer.pc.NotCalled? && !s.closer.pc.SetClosed?)
    && (s.done <==> s.closer.pc.CloseConn? || s.closer.pc.Finished?)
    && (s.closer.pc.Finished? && s.closer.conn.Some? ==> s.closer.conn.value in s.down)
    && (s.closer.conn.Some? ==> s.closer.conn.value < s.dialled)
    && (!s.closer.pc.NotCalled? ==> Published(s))
    && (s.closer.pc.CloseUnlock? ==> s.closer.conn == s.conn)
  }

  // A loop that never began to wait, or has exited, leaves its connection to Close or lost it.
  predicate ExitInv(s: State) {
    var hasRead := s.closer.pc.CloseUnlock? || s.closer.pc.CloseDone? || s.closer.pc.CloseConn? ||
        s.closer.pc.Finished?;
    hasRead && (InStart(s.loop.pc) || s.loop.pc.Exited?) && s.conn.Some? ==>
        s.conn.value in s.down || s.closer.conn == s.conn
  }

  ghost predicate Inv(s: State) {
    LockInv(s) && ConnInv(s) && StrayInv(s) && FlagInv(s) && ExitInv(s)
  }

  lemma LoopKeepsExit(s: State, ok: bool)
    requires ConnInv(s) && FlagInv(s) && ExitInv(s)
    ensures ExitInv(StepLoop(s, ok))
  {
  }

  lemma OthersKeepExit(s: State, e: Event)
    requires ExitInv(s) && !e.LoopStep?
    ensures ExitInv(Next(s, e))
  {
    OthersLeaveLoop(s, e);
  }

  lemma NewKeepsConn(s: State, ok: bool)
    requires ConnInv(s)
    requires InNew(s.loop.pc)
    ensures ConnInv(StepNew(s, ok))
  {
  }

  lemma StartKeepsConn(s: State, ok: bool)
    requires ConnInv(s)
    requires InStart(s.loop.pc)
    ensures ConnInv(StepStart(s))
  {
  }

  lemma OuterKeepsConn(s: State, ok: bool)
    requires ConnInv(s)
    requires InOuter(s.loop.pc)
    ensures ConnInv(StepOuter(s))
  {
  }

  lemma InnerKeepsConn(s: State, ok: bool)
    requires ConnInv(s)
    requires InInner(s.loop.pc)
    ensures ConnInv(StepInner(s, ok))
  {
  }

  lemma InstallKeepsConn(s: State, ok: bool)
    requires ConnInv(s)
    requires InInstall(s.loop.pc)
    ensures ConnInv(StepInstall(s, ok))
  {
  }

  lemma LoopKeepsConn(s: State, ok: bool)
    requires ConnInv(s)
    ensures ConnInv(StepLoop(s, ok))
  {
    if InStart(s.loop.pc) { StartKeepsConn(s, ok); }
    else if InOuter(s.loop.pc) { OuterKeepsConn(s, ok); }
    else if InInner(s.loop.pc) { InnerKeepsConn(s, ok); }
    else if InInstall(s.loop.pc) { InstallKeepsConn(s, ok); }
    else if InNew(s.loop.pc) { NewKeepsConn(s, ok); }
  }

  // Nothing but the loop touches what this is about; a dropped connection only adds to `down`.
  lemma OthersKeepConn(s: State, e: Event)
    requires ConnInv(s) && !e.LoopStep?
    ensures ConnInv(Next(s, e))
  {
    OthersLeaveLoop(s, e);
  }

  predicate LoopUntouched(s: State, t: State) {
    t.loop == s.loop && t.conn == s.conn && t.dialled == s.dialled && t.declared == s.declared && s.down <= t.down
  }

  lemma CloserLeavesLoop(s: State)
    ensures LoopUntouched(s, StepCloser(s))
  {
  }

  lemma CallLeavesLoop(s: State, id: nat, call: Call, ok: bool)
    ensures LoopUntouched(s, StepCall(s, id, call, ok))
  {
  }

  lemma OthersLeaveLoop(s: State, e: Event)
    requires !e.LoopStep?
    ensures LoopUntouched(s, Next(s, e))
  {
    match e
    case CloserStep => CloserLeavesLoop(s);
    case CallStep(id, ok) => if id in s.calls { CallLeavesLoop(s, id, s.calls[id], ok); }
    case StartCall(_) =>
    case Drop(_) =>
  }

  lemma InstallKeepsStray(s: State, ok: bool)
    requires ConnInv(s) && StrayInv(s) && InInstall(s.loop.pc)
    ensures StrayInv(StepInstall(s, ok))
  {
  }

  lemma NewKeepsStray(s: State, ok: bool)
    requires ConnInv(s) && StrayInv(s) && InNew(s.loop.pc)
    ensures StrayInv(StepNew(s, ok))
  {
  }

  lemma LoopKeepsStray(s: State, ok: bool)
    requires ConnInv(s) && StrayInv(s)
    ensures StrayInv(StepLoop(s, ok))
  {
    if InNew(s.loop.pc) { NewKeepsStray(s, ok); }
    else if InInstall(s.loop.pc) { InstallKeepsStray(s, ok); }
  }

  lemma OthersKeepStray(s: State, e: Event)
    requires ConnInv(s) && StrayInv(s) && FlagInv(s) && !e.LoopStep?
    ensures StrayInv(Next(s, e))
  {
    OthersLeaveLoop(s, e);
  }

  lemma NewKeepsFlag(s: State, ok: bool)
    requires LockInv(s) && ConnInv(s) && FlagInv(s)
    requires InNew(s.loop.pc)
    ensures FlagInv(StepNew(s, ok))
  {
  }

  lemma StartKeepsFlag(s: State, ok: bool)
    requires LockInv(s) && ConnInv(s) && FlagInv(s)
    requires InStart(s.loop.pc)
    ensures FlagInv(StepStart(s))
  {
  }

  lemma OuterKeepsFlag(s: State, ok: bool)
    requires LockInv(s) && ConnInv(s) && FlagInv(s)
    requires InOuter(s.loop.pc)
    ensures FlagInv(StepOuter(s))
  {
  }

  lemma InnerKeepsFlag(s: State, ok: bool)
    requires LockInv(s) && ConnInv(s) && FlagInv(s)
    requires InInner(s.loop.pc)
    ensures FlagInv(StepInner(s, ok))
  {
  }

  lemma InstallKeepsFlag(s: State, ok: bool)
    requires LockInv(s) && ConnInv(s) && FlagInv(s)
    requires InInstall(s.loop.pc)
    ensures FlagInv(StepInstall(s, ok))
  {
  }

  lemma LoopKeepsFlag(s: State, ok: bool)
    requires LockInv(s) && ConnInv(s) && FlagInv(s)
    ensures FlagInv(StepLoop(s, ok))
  {
    if InStart(s.loop.pc) { StartKeepsFlag(s, ok); }
    else if InOuter(s.loop.pc) { OuterKeepsFlag(s, ok); }
    else if InInner(s.loop.pc) { InnerKeepsFlag(s, ok); }
    else if InInstall(s.loop.pc) { InstallKeepsFlag(s, ok); }
    else if InNew(s.loop.pc) { NewKeepsFlag(s, ok); }
  }

  lemma CloserKeepsFlag(s: State)
    requires LockInv(s) && ConnInv(s) && FlagInv(s)
    ensures FlagInv(StepCloser(s))
  {
  }

  lemma OthersKeepFlag(s: State, e: Event)
    requires FlagInv(s) && !e.LoopStep? && !e.CloserStep?
    ensures FlagInv(Next(s, e))
  {
    OthersLeaveLoop(s, e);
  }

  lemma NextInv(s: State, e: Event)
    requires Inv(s)
    ensures Inv(Next(s, e))
  {
    NextLock(s, e);
    match e
    case LoopStep(ok) =>
      LoopKeepsConn(s, ok);
      LoopKeepsStray(s, ok);
      LoopKeepsFlag(s, ok);
      LoopKeepsExit(s, ok);
    case CloserStep =>
      OthersKeepConn(s, e);
      OthersKeepStray(s, e);
      OthersKeepExit(s, e);
      CloserKeepsFlag(s);
    case _ =>
      OthersKeepConn(s, e);
      OthersKeepStray(s, e);
      OthersKeepExit(s, e);
      OthersKeepFlag(s, e);
  }

  lemma {:induction false} RunKeepsInv(s: State, events: seq<Event>)
    requires Inv(s)
    ensures Inv(Run(s, events))
  {
    if events != [] {
      RunKeepsInv(s, events[..|events| - 1]);
      NextInv(Run(s, events[..|events| - 1]), events[|events| - 1]);
    }
  }

  lemma RunInv(events: seq<Event>)
    ensures Inv(Run(Init(), events))
  {
    RunKeepsInv(Init(), events);
  }
}
