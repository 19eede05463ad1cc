/** What holds on every interleaving of the reconnect loop, Channel calls and one Close. */
module ConnectionTheorems {
  import opened Wrappers
  import opened ConnectionProtocol
  import Runs

  // ---- Which connection the loop watches ----

  /** Whenever the loop waits for a close notification it waits on the shared connection, and
      declareTopology has run on it. */
  lemma WaitsOnTheSharedConnection(events: seq<Event>)
    requires Run(Init(), events).loop.pc.Wait?
    ensures var s := Run(Init(), events); s.loop.local.Some? && s.loop.local == s.conn && s.conn.value in s.declared
  {
    RunInv(events);
  }

  predicate Open(s: State, c: Conn) {
    c < s.dialled && c !in s.down
  }

  /** Redialling leaks nothing: at most the shared connection and the one being installed are open,
      and once the loop has lost the shared one, only the latter. */
  lemma NoStrayConnections(events: seq<Event>, c: Conn)
    requires Open(Run(Init(), events), c)
    ensures var s := Run(Init(), events); Some(c) == s.conn || Some(c) == Fresh(s.loop.pc)
    ensures var s := Run(Init(), events); Lost(s.loop.pc) ==> Some(c) != s.conn
  {
    RunInv(events);
  }

  // ---- Deadlock freedom ----

  /** Nobody holds the lock while dialling, waiting, delaying, declaring, closing or opening a channel. */
  lemma NoLockAcrossSlowCalls(events: seq<Event>)
    ensures var s, pc := Run(Init(), events), Run(Init(), events).loop.pc;
            pc.NewDial? || pc.NewDeclare? || pc.Wait? || pc.Dial? || pc.Delay? || pc.Declare? ==>
              TheLoop !in s.readers && s.writer != Some(TheLoop)
    ensures var s := Run(Init(), events);
            s.closer.pc.CloseDone? || s.closer.pc.CloseConn? ==> TheCloser !in s.readers && s.writer != Some(TheCloser)
    ensures var s := Run(Init(), events);
            forall id: nat :: id in s.calls && s.calls[id].pc.CallOpen? ==>
                Caller(id) !in s.readers && s.writer != Some(Caller(id))
  {
    RunInv(events);
  }

  // A step of this thread.
  predicate StepOf(e: Event, who: Who) {
    match who
    case TheLoop => e.LoopStep?
    case TheCloser => e.CloserStep?
    case Caller(id) => e.CallStep? && e.id == id
  }

  lemma ReaderMoves(s: State, who: Who)
    requires LockInv(s) && who in s.readers
    ensures exists e :: StepOf(e, who) && Next(s, e) != s
  {
    match who
    case TheLoop =>
      assert StepOf(LoopStep(true), who) && Next(s, LoopStep(true)).loop.pc != s.loop.pc;
    case Caller(id) =>
      assert StepOf(CallStep(id, true), who) && Next(s, CallStep(id, true)).calls[id].pc != s.calls[id].pc;
    case TheCloser =>
  }

  lemma WriterMoves(s: State)
    requires LockInv(s) && s.writer.Some?
    ensures exists e :: StepOf(e, s.writer.value) && Next(s, e) != s
  {
    if s.writer == Some(TheLoop) {
      assert StepOf(LoopStep(true), TheLoop) && Next(s, LoopStep(true)).loop.pc != s.loop.pc;
    } else {
      assert StepOf(CloserStep, TheCloser) && Next(s, CloserStep).closer.pc != s.closer.pc;
    }
  }

  /** Whoever holds the lock can step, in every reachable state. */
  lemma LockHoldersCanStep(events: seq<Event>, who: Who)
    requires var s := Run(Init(), events); s.writer == Some(who) || who in s.readers
    ensures var s := Run(Init(), events); exists e :: StepOf(e, who) && Next(s, e) != s
  {
    RunInv(events);
    var s := Run(Init(), events);
    if who in s.readers { ReaderMoves(s, who); } else { WriterMoves(s); }
  }

  // Nothing more to do, or nothing to do until the broker closes the connection waited on.
  predicate LoopRests(s: State) {
    s.loop.pc.Exited? || s.loop.pc.NewFailed? ||
        (s.loop.pc.Wait? && s.loop.local.Some? && s.loop.local.value !in s.down)
  }

  lemma FreeLoopMoves(s: State)
    requires ConnInv(s) && CanWrite(s) && !LoopRests(s)
    ensures Next(s, LoopStep(true)) != s
  {
    assert Next(s, LoopStep(true)).loop.pc != s.loop.pc;
  }

  lemma FreeOthersMove(s: State)
    requires CanWrite(s)
    ensures Published(s) && !s.closer.pc.Finished? ==> Next(s, CloserStep) != s
    ensures forall id: nat :: id in s.calls && !s.calls[id].pc.CallDone? ==> Next(s, CallStep(id, true)) != s
  {
    if Published(s) && !s.closer.pc.Finished? { assert Next(s, CloserStep).closer.pc != s.closer.pc; }
    forall id: nat | id in s.calls && !s.calls[id].pc.CallDone? ensures Next(s, CallStep(id, true)) != s {
      assert Next(s, CallStep(id, true)).calls[id].pc != s.calls[id].pc;
    }
  }

  /** No deadlock: if no thread can step, every Channel call and Close have returned, and the loop has
      ended or waits on a live connection. */
  lemma NoDeadlock(events: seq<Event>)
    requires var s := Run(Init(), events); forall e, who :: StepOf(e, who) ==> Next(s, e) == s
    ensures var s := Run(Init(), events); LoopRests(s) && (Published(s) ==> s.closer.pc.Finished?)
    ensures var s := Run(Init(), events); forall id: nat :: id in s.calls ==> s.calls[id].pc.CallDone?
  {
    RunInv(events);
    var s := Run(Init(), events);
    assert StepOf(LoopStep(true), TheLoop) && StepOf(CloserStep, TheCloser);
    assert forall id: nat :: StepOf(CallStep(id, true), Caller(id));
    if s.writer.Some? { WriterMoves(s); }
    if who :| who in s.readers { ReaderMoves(s, who); }
    FreeOthersMove(s);
    if !LoopRests(s) { FreeLoopMoves(s); }
  }

  // ---- Channel ----

  /** A call for a channel gets one: with the lock free, the installed connection open and a broker that
      agrees, it ends with a channel on that connection. */
  lemma ChannelWorks(events: seq<Event>, id: nat)
    requires var s := Run(Init(), events);
             && Published(s) && id !in s.calls && CanRead(s) && s.conn.Some? && s.conn.value !in s.down
    ensures var s, e := Run(Init(), events), CallStep(id, true);
            var t := Run(s, [StartCall(id)] + [e, e, e, e]);
            id in t.calls && t.calls[id].pc == CallDone(s.conn)
  {
    var s, e := Run(Init(), events), CallStep(id, true);
    Runs.RunOne(Next, s, StartCall(id));
    Runs.RunConcat(Next, s, [StartCall(id)], [e, e, e, e]);
    var s1 := Next(s, StartCall(id));
    Runs.RunFour(Next, s1, e, e, e, e);
    var s2 := Next(s1, e);
    assert s2.calls[id] == Call(None, CallRead) && s2.conn == s.conn && s2.down == s.down;
    var s3 := Next(s2, e);
    assert s3.calls[id] == Call(s.conn, CallRUnlock) && s3.down == s.down;
    assert Next(s3, e).calls[id] == Call(s.conn, CallOpen);
  }

  // ---- Reconnecting ----

  // The loop ends for no other reason than Close.
  predicate NotGivenUp(s: State) {
    s.loop.pc.Exited? ==> s.closed
  }

  lemma NextNotGivenUp(s: State, e: Event)
    requires FlagInv(s) && NotGivenUp(s)
    ensures NotGivenUp(Next(s, e))
  {
    if e.LoopStep? { LoopNotGivenUp(s, e.ok); } else { OthersLeaveLoop(s, e); CloserKeepsClosed(s, e); }
  }

  lemma LoopNotGivenUp(s: State, ok: bool)
    requires FlagInv(s) && NotGivenUp(s)
    ensures NotGivenUp(StepLoop(s, ok))
  {
  }

  lemma CloserKeepsClosed(s: State, e: Event)
    requires !e.LoopStep?
    ensures s.closed ==> Next(s, e).closed
  {
  }

  /** The loop never gives up by itself: wherever it has exited, closed is set. */
  lemma {:induction false} LoopExitsOnlyIfClosed(events: seq<Event>)
    ensures NotGivenUp(Run(Init(), events))
  {
    if events != [] {
      LoopExitsOnlyIfClosed(events[..|events| - 1]);
      RunInv(events[..|events| - 1]);
      NextNotGivenUp(Run(Init(), events[..|events| - 1]), events[|events| - 1]);
    }
  }

  // Nothing but the loop's own record and, after a success, the new connection differs.
  function Redialled(s: State, local: Conn, pc: LoopPc): State {
    s.(loop := Loop(Some(local), pc))
  }

  lemma CheckPasses(s: State, local: Conn)
    requires !s.closed && s.writer.None? && TheLoop !in s.readers
    ensures var go := LoopStep(true);
            Run(Redialled(s, local, InnerRLock), [go, go, go]) == Redialled(s, local, Dial)
  {
    var go, s0 := LoopStep(true), Redialled(s, local, InnerRLock);
    Runs.RunThree(Next, s0, go, go, go);
    assert s.readers + {TheLoop} - {TheLoop} == s.readers;
    assert Next(s0, go) == Redialled(s, local, InnerRead).(readers := s.readers + {TheLoop});
  }

  function FailedDial(): seq<Event> {
    var go := LoopStep(true);
    [go, go, go] + [LoopStep(false)] + [go]
  }

  // A dial that fails costs a delay, and then the loop checks and dials again.
  lemma FailedDialRetries(s: State, local: Conn)
    requires !s.closed && s.writer.None? && TheLoop !in s.readers
    ensures Run(Redialled(s, local, InnerRLock), FailedDial()) == Redialled(s, local, InnerRLock)
  {
    var go, s0 := LoopStep(true), Redialled(s, local, InnerRLock);
    CheckPasses(s, local);
    Runs.RunSnoc(Next, s0, [go, go, go], LoopStep(false));
    Runs.RunSnoc(Next, s0, [go, go, go] + [LoopStep(false)], go);
    assert Next(Redialled(s, local, Dial), LoopStep(false)) == Redialled(s, local, Delay);
  }

  function Failures(n: nat): seq<Event> {
    if n == 0 then [] else Failures(n - 1) + FailedDial()
  }

  lemma {:induction false} FailuresRetry(s: State, local: Conn, n: nat)
    requires !s.closed && s.writer.None? && TheLoop !in s.readers
    ensures Run(Redialled(s, local, InnerRLock), Failures(n)) == Redialled(s, local, InnerRLock)
  {
    if n > 0 {
      FailuresRetry(s, local, n - 1);
      FailedDialRetries(s, local);
      Runs.RunConcat(Next, Redialled(s, local, InnerRLock), Failures(n - 1), FailedDial());
    }
  }

  function Success(declared: bool): seq<Event> {
    var go := LoopStep(true);
    ([go, go, go] + [go]) + ([go, go, go] + [LoopStep(declared)])
  }

  lemma DialWorks(s: State, local: Conn)
    requires !s.closed && s.writer.None? && TheLoop !in s.readers
    ensures var go := LoopStep(true);
            Run(Redialled(s, local, InnerRLock), [go, go, go] + [go])
            == Redialled(s, local, SetLock(s.dialled)).(dialled := s.dialled + 1)
  {
    var go := LoopStep(true);
    CheckPasses(s, local);
    Runs.RunSnoc(Next, Redialled(s, local, InnerRLock), [go, go, go], go);
  }

  // The new connection is installed, declared, adopted and waited on.
  lemma InstallWorks(s: State, n: Conn, declared: bool)
    requires CanWrite(s) && s.loop.pc == SetLock(n)
    ensures var go := LoopStep(true);
            Run(s, [go, go, go] + [LoopStep(declared)])
            == s.(conn := Some(n), loop := Loop(Some(n), Wait), declared := s.declared[n := declared])
  {
    var go := LoopStep(true);
    SetConnRuns(s, n);
    Runs.RunSnoc(Next, s, [go, go, go], LoopStep(declared));
  }

  lemma SuccessfulDial(s: State, local: Conn, declared: bool)
    requires !s.closed && CanWrite(s)
    ensures var t := Run(Redialled(s, local, InnerRLock), Success(declared));
            && t.loop == Loop(Some(s.dialled), Wait) && t.conn == Some(s.dialled) && t.dialled == s.dialled + 1
            && s.dialled in t.declared && t.declared[s.dialled] == declared && t.down == s.down
  {
    var go := LoopStep(true);
    DialWorks(s, local);
    InstallWorks(Redialled(s, local, SetLock(s.dialled)).(dialled := s.dialled + 1), s.dialled, declared);
    Runs.RunConcat(
      Next, Redialled(s, local, InnerRLock), [go, go, go] + [go], [go, go, go] + [LoopStep(declared)]);
  }

  lemma SetConnRuns(s: State, n: Conn)
    requires CanWrite(s) && s.loop.pc == SetLock(n)
    ensures var go := LoopStep(true); Run(s, [go, go, go]) == s.(conn := Some(n), loop := s.loop.(pc := Declare(n)))
  {
    var go := LoopStep(true);
    Runs.RunThree(Next, s, go, go, go);
    assert Next(s, go) == s.(writer := Some(TheLoop), loop := s.loop.(pc := SetWrite(n)));
  }

  lemma DropNoticed(s: State)
    requires !s.closed && s.writer.None? && TheLoop !in s.readers
    requires s.loop.pc.Wait? && s.loop.local.Some? && s.loop.local.value in s.down
    ensures var go := LoopStep(true);
            Run(s, [go] + [go, go, go]) == Redialled(s, s.loop.local.value, InnerRLock)
  {
    var go, s1 := LoopStep(true), s.(loop := s.loop.(pc := OuterRLock));
    Runs.RunOne(Next, s, go);
    Runs.RunConcat(Next, s, [go], [go, go, go]);
    Runs.RunThree(Next, s1, go, go, go);
    assert s.readers + {TheLoop} - {TheLoop} == s.readers;
    assert Next(s1, go) == s.(loop := s.loop.(pc := OuterRead), readers := s.readers + {TheLoop});
  }

  /** The loop reconnects: when the connection it waits on has dropped, closed is not set and the lock is
      free, any number of failed dials, each with its delay, is followed by a dial that works, and the loop
      waits on that new connection, which is the shared one now and was sent the declarations, whether or
      not they worked. */
  lemma LoopReconnects(events: seq<Event>, failures: nat, declared: bool)
    requires var s := Run(Init(), events);
             !s.closed && CanWrite(s) && s.loop.pc.Wait? && s.loop.local.Some? && s.loop.local.value in s.down
    ensures var s, go := Run(Init(), events), LoopStep(true);
            var t := Run(s, ([go] + [go, go, go]) + Failures(failures) + Success(declared));
            && t.loop == Loop(Some(s.dialled), Wait) && t.conn == Some(s.dialled) && t.conn.value !in t.down
            && s.dialled in t.declared && t.declared[s.dialled] == declared
  {
    var s, go := Run(Init(), events), LoopStep(true);
    var notice := [go] + [go, go, go];
    RunInv(events);
    assert s.dialled !in s.down;
    DropNoticed(s);
    FailuresRetry(s, s.loop.local.value, failures);
    SuccessfulDial(s, s.loop.local.value, declared);
    Runs.RunConcat(Next, s, notice, Failures(failures));
    Runs.RunConcat(Next, s, notice + Failures(failures), Success(declared));
  }

  // Close need not wait for the delay to end.
  lemma DelayIsInterrupted(events: seq<Event>)
    requires var s := Run(Init(), events); s.loop.pc.Delay? && (s.closer.pc.CloseConn? || s.closer.pc.Finished?)
    ensures Next(Run(Init(), events), LoopStep(false)).loop.pc.Exited?
  {
    RunInv(events);
  }

  // ---- After closed is set ----

  // How many more steps the loop can take at most, once closed is set.
  function Left(pc: LoopPc): nat {
    match pc
    case Exited => 0
    case StartRUnlock(_) => 1
    case OuterRUnlock(_) => 1
    case InnerRUnlock(_) => 1
    case StartRead => 2
    case OuterRead => 2
    case InnerRead => 2
    case StartRLock => 3
    case OuterRLock => 3
    case InnerRLock => 3
    case Wait => 4
    case Delay => 4
    case Declare(_) => 5
    case SetUnlock(_) => 6
    case SetWrite(_) => 7
    case SetLock(_) => 8
    case Dial => 9
    case _ => 10
  }

  lemma ClosedCheckStep(s: State, ok: bool)
    requires FlagInv(s) && s.closed && (InStart(s.loop.pc) || InOuter(s.loop.pc))
    ensures var t := StepLoop(s, ok); t.loop == s.loop || Left(t.loop.pc) < Left(s.loop.pc)
  {
  }

  lemma ClosedInnerStep(s: State, ok: bool)
    requires FlagInv(s) && s.closed && InInner(s.loop.pc)
    ensures var t := StepInner(s, ok); t.loop == s.loop || Left(t.loop.pc) < Left(s.loop.pc)
  {
  }

  lemma ClosedInstallStep(s: State, ok: bool)
    requires InInstall(s.loop.pc)
    ensures var t := StepInstall(s, ok); t.loop == s.loop || Left(t.loop.pc) < Left(s.loop.pc)
  {
  }

  lemma ClosedLoopStep(s: State, ok: bool)
    requires FlagInv(s) && s.closed
    ensures var t := StepLoop(s, ok); t.closed && (t.loop == s.loop || Left(t.loop.pc) < Left(s.loop.pc))
  {
    if InStart(s.loop.pc) || InOuter(s.loop.pc) {
      ClosedCheckStep(s, ok);
    } else if InInner(s.loop.pc) {
      ClosedInnerStep(s, ok);
    } else if InInstall(s.loop.pc) {
      ClosedInstallStep(s, ok);
    }
  }

  lemma ClosedLoopDials(s: State, ok: bool)
    requires FlagInv(s) && s.closed
    ensures var t := StepLoop(s, ok);
            t.dialled == s.dialled || (s.loop.pc.Dial? && !t.loop.pc.Dial? && t.dialled == s.dialled + 1)
  {
  }

  lemma ClosedOthers(s: State, e: Event)
    requires !e.LoopStep? && s.closed
    ensures Next(s, e).loop == s.loop && Next(s, e).closed && Next(s, e).dialled == s.dialled
  {
    OthersLeaveLoop(s, e);
  }

  lemma ClosedStep(s: State, e: Event)
    requires Inv(s) && s.closed
    ensures var t := Next(s, e); t.closed && (t.loop == s.loop || Left(t.loop.pc) < Left(s.loop.pc))
    ensures var t := Next(s, e);
            t.dialled == s.dialled || (s.loop.pc.Dial? && !t.loop.pc.Dial? && t.dialled == s.dialled + 1)
  {
    if e.LoopStep? {
      ClosedLoopStep(s, e.ok);
      ClosedLoopDials(s, e.ok);
    } else {
      ClosedOthers(s, e);
    }
  }

  // The steps of these events in which the loop moves.
  function LoopMoves(s: State, events: seq<Event>): nat {
    if events == [] then 0
    else
      var t := Run(s, events[..|events| - 1]);
      LoopMoves(s, events[..|events| - 1]) + if Next(t, events[|events| - 1]).loop != t.loop then 1 else 0
  }

  /** Once closed is set the loop winds down by a decreasing measure: it takes at most nine more
      steps, whatever else happens. */
  lemma {:induction false} ClosedLoopWindsDown(s: State, events: seq<Event>)
    requires Inv(s) && s.closed
    ensures Run(s, events).closed && LoopMoves(s, events) + Left(Run(s, events).loop.pc) <= Left(s.loop.pc) <= 9
  {
    if events != [] {
      var front, e := events[..|events| - 1], events[|events| - 1];
      ClosedLoopWindsDown(s, front);
      RunKeepsInv(s, front);
      ClosedStep(Run(s, front), e);
    }
  }

  predicate DialsFrom(s: State, t: State) {
    && s.dialled <= t.dialled <= s.dialled + (if s.loop.pc.Dial? then 1 else 0)
    && (t.loop.pc.Dial? ==> s.loop.pc.Dial? && t.dialled == s.dialled)
  }

  lemma DialsStep(s: State, t: State, e: Event)
    requires DialsFrom(s, t) && Inv(t) && t.closed
    ensures DialsFrom(s, Next(t, e))
  {
    ClosedStep(t, e);
  }

  /** After closed is set at most one more dial completes; none is even attempted unless the loop
      was already past its check, about to dial. */
  lemma {:induction false} AtMostOneDialAfterClose(s: State, events: seq<Event>)
    requires Inv(s) && s.closed
    ensures var t := Run(s, events); s.dialled <= t.dialled <= s.dialled + if s.loop.pc.Dial? then 1 else 0
    ensures var t := Run(s, events); t.loop.pc.Dial? ==> s.loop.pc.Dial? && t.dialled == s.dialled
    ensures DialsFrom(s, Run(s, events))
  {
    if events != [] {
      var front := events[..|events| - 1];
      AtMostOneDialAfterClose(s, front);
      ClosedLoopWindsDown(s, front);
      RunKeepsInv(s, front);
      DialsStep(s, Run(s, front), events[|events| - 1]);
    }
  }

  // The loop is at the wait or between it and its exit.
  predicate Leaving(s: State) {
    s.closed && (InOuter(s.loop.pc) || s.loop.pc.Exited?)
  }

  lemma LeavingStep(s: State, e: Event)
    requires Inv(s) && Leaving(s)
    ensures Leaving(Next(s, e)) && Next(s, e).dialled == s.dialled && Next(s, e).conn == s.conn
  {
    if !e.LoopStep? {
      ClosedOthers(s, e);
      OthersLeaveLoop(s, e);
    }
  }

  /** From the wait, a closed loop goes nowhere but out: no redial, no new connection. */
  lemma {:induction false} ClosedWaitOnlyExits(s: State, events: seq<Event>)
    requires Inv(s) && Leaving(s)
    ensures var t := Run(s, events); Leaving(t) && t.dialled == s.dialled && t.conn == s.conn
  {
    if events != [] {
      ClosedWaitOnlyExits(s, events[..|events| - 1]);
      RunKeepsInv(s, events[..|events| - 1]);
      LeavingStep(Run(s, events[..|events| - 1]), events[|events| - 1]);
    }
  }

  /** And it does get out: unless it waits on a connection that is still open, a closed loop's next
      step, given the lock, brings it closer to its exit. So it exits at the next drop. */
  lemma ClosedLoopAdvances(s: State)
    requires Inv(s) && s.closed && CanWrite(s) && !s.loop.pc.Exited?
    ensures Left(Next(s, LoopStep(true)).loop.pc) < Left(s.loop.pc) <==>
        !(s.loop.pc.Wait? && s.loop.local.value !in s.down)
  {
  }

  // No thread can take a step: nothing more happens unless the broker closes a connection or somebody
  // asks for a channel.
  ghost predicate AtRest(s: State) {
    forall e, who :: StepOf(e, who) ==> Next(s, e) == s
  }

  lemma {:induction false} DownGrows(s: State, events: seq<Event>)
    ensures s.down <= Run(s, events).down
  {
    if events != [] {
      DownGrows(s, events[..|events| - 1]);
      DownStep(Run(s, events[..|events| - 1]), events[|events| - 1]);
    }
  }

  lemma DownStep(s: State, e: Event)
    ensures s.down <= Next(s, e).down
  {
    if !e.LoopStep? { OthersLeaveLoop(s, e); }
  }

  lemma {:induction false} LeavingKeepsLocal(s: State, events: seq<Event>)
    requires Inv(s) && Leaving(s)
    ensures Run(s, events).loop.local == s.loop.local
  {
    if events != [] {
      LeavingKeepsLocal(s, events[..|events| - 1]);
      ClosedWaitOnlyExits(s, events[..|events| - 1]);
      if !events[|events| - 1].LoopStep? { ClosedOthers(Run(s, events[..|events| - 1]), events[|events| - 1]); }
    }
  }

  /** A closed loop whose connection has dropped exits, however the rest of the program interleaves: it
      takes at most four more steps, and any run that goes on until nothing can step ends with the loop
      exited, no dial made and the connection left alone. */
  lemma WaitThenDropExits(before: seq<Event>, events: seq<Event>)
    requires var s := Run(Init(), before);
             s.closed && s.loop.pc.Wait? && s.loop.local.Some? && s.loop.local.value in s.down
    ensures var s, t := Run(Init(), before), Run(Init(), before + events);
            && LoopMoves(s, events) <= 4 && t.dialled == s.dialled && t.conn == s.conn
            && (AtRest(t) ==> t.loop.pc.Exited?)
  {
    var s, t := Run(Init(), before), Run(Init(), before + events);
    RunInv(before);
    Runs.RunConcat(Next, Init(), before, events);
    ClosedWaitOnlyExits(s, events);
    ClosedLoopWindsDown(s, events);
    DownGrows(s, events);
    LeavingKeepsLocal(s, events);
    if AtRest(t) { NoDeadlock(before + events); }
  }

  // Undisturbed, it takes four steps.
  lemma DroppedLoopExits(s: State)
    requires Inv(s) && s.closed && CanRead(s) && s.loop.pc.Wait? && s.loop.local.value in s.down
    ensures var step := LoopStep(true); Run(s, [step, step, step, step]).loop.pc.Exited?
  {
    var e := LoopStep(true);
    Runs.RunFour(Next, s, e, e, e, e);
    var s1 := Next(s, e);
    assert s1.loop.pc.OuterRLock? && s1.writer.None? && s1.closed;
    var s2 := Next(s1, e);
    assert s2.loop.pc.OuterRead? && s2.closed;
    assert Next(s2, e).loop.pc == OuterRUnlock(true);
  }

  // ---- What Close may leave behind ----

  predicate Pending(s: State) {
    s.loop.pc.Dial? || (s.loop.pc.SetLock? && s.loop.pc.newConn !in s.down)
  }

  // Close has returned and a connection is open.
  ghost predicate LeftOpen(s: State) {
    s.closer.pc.Finished? && exists c: Conn :: Open(s, c)
  }

  // What can still be open is x, and x is what Close closes.
  ghost predicate Covered(s: State, x: Option<Conn>) {
    && s.closed && !s.loop.pc.Dial?
    && (forall c: Conn :: Open(s, c) ==> Some(c) == x)
    && (if s.closer.pc.ReadConn? then s.conn == x else s.closer.conn == x)
  }

  lemma CoveredLoopStep(s: State, ok: bool, x: Option<Conn>)
    requires Inv(s) && Covered(s, x)
    ensures Covered(StepLoop(s, ok), x)
  {
    ClosedLoopStep(s, ok);
    ClosedLoopDials(s, ok);
    if s.closer.pc.ReadConn? { WriterKeepsConn(s, ok); }
  }

  lemma WriterKeepsConn(s: State, ok: bool)
    requires LockInv(s) && s.writer == Some(TheCloser) && Published(s)
    ensures StepLoop(s, ok).conn == s.conn
  {
  }

  lemma CoveredOthers(s: State, e: Event, x: Option<Conn>)
    requires Inv(s) && Covered(s, x) && !e.LoopStep?
    ensures Covered(Next(s, e), x)
  {
    OthersLeaveLoop(s, e);
    ClosedOthers(s, e);
  }

  lemma {:induction false} StaysCovered(s: State, events: seq<Event>, x: Option<Conn>)
    requires Inv(s) && Covered(s, x)
    ensures Covered(Run(s, events), x)
  {
    if events != [] {
      var front, e := events[..|events| - 1], events[|events| - 1];
      StaysCovered(s, front, x);
      RunKeepsInv(s, front);
      if e.LoopStep? { CoveredLoopStep(Run(s, front), e.ok, x); } else { CoveredOthers(Run(s, front), e, x); }
    }
  }

  const CLOSER_RETURNS := [CloserStep, CloserStep, CloserStep, CloserStep]

  lemma CloserRunsOut(s: State)
    requires s.closer.pc.ReadConn?
    ensures var t := Run(s, CLOSER_RETURNS);
            t.closer.pc.Finished? && t.dialled == s.dialled
            && t.down == if s.conn.Some? then s.down + {s.conn.value} else s.down
  {
    Runs.RunFour(Next, s, CloserStep, CloserStep, CloserStep, CloserStep);
    var s1 := Next(s, CloserStep);
    assert s1.closer == Closer(s.conn, CloseUnlock) && s1.down == s.down && s1.dialled == s.dialled;
    var s2 := Next(s1, CloserStep);
    assert s2.closer == Closer(s.conn, CloseDone) && s2.down == s.down && s2.dialled == s.dialled;
  }

  lemma DialThenClose(s: State)
    requires Inv(s) && s.closer.pc.ReadConn? && s.loop.pc.Dial?
    ensures exists events :: LeftOpen(Run(s, events))
  {
    var first := [LoopStep(true)];
    assert first[..0] == [] && Run(s, first) == Next(s, LoopStep(true));
    Runs.RunConcat(Next, s, first, CLOSER_RETURNS);
    CloserRunsOut(Run(s, first));
    assert Open(Run(s, first + CLOSER_RETURNS), s.dialled);
  }

  lemma SetThenClose(s: State)
    requires Inv(s) && s.closer.pc.ReadConn? && s.loop.pc.SetLock? && s.loop.pc.newConn !in s.down
    ensures exists events :: LeftOpen(Run(s, events))
  {
    CloserRunsOut(s);
    assert Open(Run(s, CLOSER_RETURNS), s.loop.pc.newConn);
  }

  /** At the moment closed is set: a connection can be left open after Close has returned if and
      only if the loop is past its check with a dial to make or a live new connection to install. */
  lemma CloseLeavesAConnectionOpenIff(before: seq<Event>)
    requires Run(Init(), before).closer.pc.ReadConn?
    ensures var s := Run(Init(), before); (exists events :: LeftOpen(Run(s, events))) <==> Pending(s)
  {
    RunInv(before);
    var s := Run(Init(), before);
    if Pending(s) {
      if s.loop.pc.Dial? { DialThenClose(s); } else { SetThenClose(s); }
    } else {
      forall events ensures !LeftOpen(Run(s, events)) {
        StaysCovered(s, events, s.conn);
        RunKeepsInv(s, events);
      }
    }
  }

  /** Without a pending dial or installation at the moment closed is set, no further dial is made, and
      once Close has returned the loop never waits on an open connection: given the lock, each step
      brings it closer to its exit, and a run that goes on until nothing can step ends with it exited. */
  lemma CloseStopsTheLoop(before: seq<Event>, events: seq<Event>)
    requires var s := Run(Init(), before); s.closer.pc.ReadConn? && !Pending(s)
    requires Run(Init(), before + events).closer.pc.Finished?
    ensures var s, t := Run(Init(), before), Run(Init(), before + events);
            && t.dialled == s.dialled && LoopMoves(s, events) + Left(t.loop.pc) <= 8
            && !(t.loop.pc.Wait? && t.loop.local.Some? && t.loop.local.value !in t.down)
            && (!t.loop.pc.Exited? && CanWrite(t) ==> Left(Next(t, LoopStep(true)).loop.pc) < Left(t.loop.pc))
            && (AtRest(t) ==> t.loop.pc.Exited?)
  {
    var s, t := Run(Init(), before), Run(Init(), before + events);
    RunInv(before);
    RunInv(before + events);
    Runs.RunConcat(Next, Init(), before, events);
    StaysCovered(s, events, s.conn);
    AtMostOneDialAfterClose(s, events);
    ClosedLoopWindsDown(s, events);
    NotOnOpen(t, s.conn);
    if !t.loop.pc.Exited? && CanWrite(t) { ClosedLoopAdvances(t); }
    if AtRest(t) { NoDeadlock(before + events); }
  }

  lemma NotOnOpen(t: State, x: Option<Conn>)
    requires Inv(t) && Covered(t, x) && t.closer.pc.Finished?
    ensures !(t.loop.pc.Wait? && t.loop.local.Some? && t.loop.local.value !in t.down)
  {
    if t.loop.pc.Wait? && t.loop.local.Some? && t.loop.local.value !in t.down { assert Open(t, t.loop.local.value); }
  }

  // ---- The failing half is reachable ----

  const GO := LoopStep(true)

  // The first connection is installed, and the loop stands here.
  function Running(pc: LoopPc, local: Option<Conn>, down: set<Conn>): State {
    Init().(conn := Some(0), loop := Loop(local, pc), dialled := 1, down := down, declared := map[0 := true])
  }

  lemma NewRuns()
    ensures Run(Init(), [GO, GO, GO]) == Running(StartRLock, None, {})
  {
    Runs.RunThree(Next, Init(), GO, GO, GO);
    assert Next(Init(), GO) == Init().(loop := Loop(None, NewSet(0)), dialled := 1);
    assert Next(Next(Init(), GO), GO) == Init().(conn := Some(0), loop := Loop(None, NewDeclare(0)), dialled := 1);
  }

  lemma LoopBegins()
    ensures Run(Running(StartRLock, None, {}), [GO, GO, GO]) == Running(Wait, Some(0), {})
  {
    var s := Running(StartRLock, None, {});
    Runs.RunThree(Next, s, GO, GO, GO);
    assert Next(s, GO) == Running(StartRead, None, {}).(readers := {TheLoop});
    assert {TheLoop} - {TheLoop} == {};
  }

  lemma LoopLoses()
    ensures Run(Running(Wait, Some(0), {}), [Drop(0)]) == Running(Wait, Some(0), {0})
    ensures Run(Running(Wait, Some(0), {0}), [GO]) == Running(OuterRLock, Some(0), {0})
  {
    Runs.RunOne(Next, Running(Wait, Some(0), {}), Drop(0));
    assert var none: set<Conn> := {}; none + {0} == {0};
    Runs.RunOne(Next, Running(Wait, Some(0), {0}), GO);
  }

  // A check of closed that finds it unset.
  lemma OuterCheck()
    ensures Run(Running(OuterRLock, Some(0), {0}), [GO, GO, GO]) == Running(InnerRLock, Some(0), {0})
  {
    var s := Running(OuterRLock, Some(0), {0});
    Runs.RunThree(Next, s, GO, GO, GO);
    assert Next(s, GO) == Running(OuterRead, Some(0), {0}).(readers := {TheLoop});
    assert {TheLoop} - {TheLoop} == {};
  }

  lemma InnerCheck()
    ensures Run(Running(InnerRLock, Some(0), {0}), [GO, GO, GO]) == Running(Dial, Some(0), {0})
  {
    var s := Running(InnerRLock, Some(0), {0});
    Runs.RunThree(Next, s, GO, GO, GO);
    assert Next(s, GO) == Running(InnerRead, Some(0), {0}).(readers := {TheLoop});
    assert {TheLoop} - {TheLoop} == {};
  }

  lemma CloserComes(s: State)
    requires s == Running(Dial, Some(0), {0})
    ensures var t := Run(s, [CloserStep, CloserStep]); t.closer.pc.ReadConn? && t.loop.pc.Dial?
  {
    Runs.RunOne(Next, s, CloserStep);
    Runs.RunSnoc(Next, s, [CloserStep], CloserStep);
    assert [CloserStep] + [CloserStep] == [CloserStep, CloserStep];
  }

  lemma Along(front: seq<Event>, s: State, piece: seq<Event>, t: State)
    requires Run(Init(), front) == s && Run(s, piece) == t
    ensures Run(Init(), front + piece) == t
  {
    Runs.RunConcat(Next, Init(), front, piece);
  }

  // New succeeds, connection 0 drops, and the loop finds closed unset twice.
  function ToDial(): seq<Event> {
    [GO, GO, GO] + [GO, GO, GO] + [Drop(0)] + [GO] + [GO, GO, GO] + [GO, GO, GO]
  }

  // Close comes before the dial.
  function CloseBeforeDial(): seq<Event> {
    ToDial() + [CloserStep, CloserStep]
  }

  lemma ReachesDial()
    ensures Run(Init(), ToDial()) == Running(Dial, Some(0), {0})
  {
    var a := [GO, GO, GO];
    NewRuns();
    LoopBegins();
    LoopLoses();
    OuterCheck();
    InnerCheck();
    Along(a, Running(StartRLock, None, {}), a, Running(Wait, Some(0), {}));
    Along(a + a, Running(Wait, Some(0), {}), [Drop(0)], Running(Wait, Some(0), {0}));
    Along(a + a + [Drop(0)], Running(Wait, Some(0), {0}), [GO], Running(OuterRLock, Some(0), {0}));
    Along(a + a + [Drop(0)] + [GO], Running(OuterRLock, Some(0), {0}), a, Running(InnerRLock, Some(0), {0}));
    Along(a + a + [Drop(0)] + [GO] + a, Running(InnerRLock, Some(0), {0}), a, Running(Dial, Some(0), {0}));
  }

  lemma LeftOpenLater(before: seq<Event>)
    requires exists events :: LeftOpen(Run(Run(Init(), before), events))
    ensures exists events :: LeftOpen(Run(Init(), events))
  {
    var events :| LeftOpen(Run(Run(Init(), before), events));
    Runs.RunConcat(Next, Init(), before, events);
    assert LeftOpen(Run(Init(), before + events));
  }

  /** A concrete run to the window: closed has just been set, the loop is about to dial, and some
      continuation leaves a connection open after Close has returned. */
  lemma CloseCanLeaveAConnectionOpen()
    ensures var s := Run(Init(), CloseBeforeDial()); s.closer.pc.ReadConn? && Pending(s)
    ensures exists events :: LeftOpen(Run(Init(), events))
  {
    ReachesDial();
    Runs.RunConcat(Next, Init(), ToDial(), [CloserStep, CloserStep]);
    CloserComes(Running(Dial, Some(0), {0}));
    CloseLeavesAConnectionOpenIff(CloseBeforeDial());
    LeftOpenLater(CloseBeforeDial());
  }

  // ---- And what then becomes of it ----

  // The loop installs or watches this open connection, and Close has returned.
  predicate Watching(s: State, c: Conn) {
    && s.closer.pc.Finished? && Open(s, c)
    && (Fresh(s.loop.pc) == Some(c) || (s.loop.pc.Wait? && s.loop.local == Some(c)))
  }

  lemma WatchingStep(s: State, e: Event, c: Conn)
    requires Inv(s) && Watching(s, c) && e != Drop(c)
    ensures Watching(Next(s, e), c)
  {
    if !e.LoopStep? { OthersLeaveLoop(s, e); }
  }

  /** Until the broker drops it, such a connection stays open and the loop does not exit. */
  lemma {:induction false} LeftOpenUntilDropped(s: State, events: seq<Event>, c: Conn)
    requires Inv(s) && Watching(s, c) && Drop(c) !in events
    ensures Watching(Run(s, events), c) && !Run(s, events).loop.pc.Exited?
  {
    if events != [] {
      LeftOpenUntilDropped(s, events[..|events| - 1], c);
      RunKeepsInv(s, events[..|events| - 1]);
      WatchingStep(Run(s, events[..|events| - 1]), events[|events| - 1], c);
    }
  }

  /** In every reachable state, a connection open after Close has returned is one the loop watches so. */
  lemma LeftOpenIsWatched(events: seq<Event>, c: Conn)
    requires Run(Init(), events).closer.pc.Finished? && Open(Run(Init(), events), c)
    ensures Watching(Run(Init(), events), c)
  {
    RunInv(events);
  }

  // ---- When New fails ----

  lemma FailedNewStep(s: State, e: Event, c: Conn)
    requires Inv(s) && s.loop.pc.NewFailed? && Open(s, c) && e != Drop(c)
    ensures var t := Next(s, e); t.loop == s.loop && t.conn == s.conn && Open(t, c)
  {
    if !e.LoopStep? { OthersLeaveLoop(s, e); }
  }

  /** If New fails after its dial, because the topology could not be declared, the connection it dialled
      stays open until the broker drops it: nobody holds the object that could close it. */
  lemma {:induction false} FailedNewLeavesItOpen(s: State, events: seq<Event>, c: Conn)
    requires Inv(s) && s.loop.pc.NewFailed? && Open(s, c) && Drop(c) !in events
    ensures var t := Run(s, events); t.loop == s.loop && t.conn == s.conn == Some(c) && Open(t, c)
  {
    if events != [] {
      FailedNewLeavesItOpen(s, events[..|events| - 1], c);
      RunKeepsInv(s, events[..|events| - 1]);
      FailedNewStep(Run(s, events[..|events| - 1]), events[|events| - 1], c);
    }
  }

  lemma NewCanFailAfterItsDial()
    ensures var s := Run(Init(), [GO, GO, LoopStep(false)]); s.loop.pc.NewFailed? && Open(s, 0)
  {
    Runs.RunOne(Next, Init(), GO);
    Runs.RunSnoc(Next, Init(), [GO], GO);
    Runs.RunSnoc(Next, Init(), [GO, GO], LoopStep(false));
    assert [GO] + [GO] == [GO, GO] && [GO, GO] + [LoopStep(false)] == [GO, GO, LoopStep(false)];
    assert Next(Next(Init(), GO), GO) == Init().(conn := Some(0), loop := Loop(None, NewDeclare(0)), dialled := 1);
  }
}
