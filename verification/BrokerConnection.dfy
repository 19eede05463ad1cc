/** The connection object as the code writes it: New, Channel, Close, setConn and the nested
    reconnect loop. Every method is proved to take exactly the steps of ConnectionProtocol. */
module BrokerConnection {
  import opened Wrappers
  import opened ConnectionProtocol
  import Turns

  // What happens around one step: first the others' events, then the thread's own.
  type Turn = Turns.Turn<Event, bool>

  function StepOf(who: Who, ok: bool): Event {
    match who
    case TheLoop => LoopStep(ok)
    case TheCloser => CloserStep
    case Caller(id) => CallStep(id, ok)
  }

  function Own(who: Who): bool -> Event {
    ok => StepOf(who, ok)
  }

  predicate NotAbout(e: Event, who: Who) {
    match e
    case LoopStep(_) => !who.TheLoop?
    case CloserStep => !who.TheCloser?
    case StartCall(id) => who != Caller(id)
    case CallStep(id, _) => who != Caller(id)
    case Drop(_) => true
  }

  predicate Quiet(turn: Turn, who: Who) {
    forall j :: 0 <= j < |turn.others| ==> NotAbout(turn.others[j], who)
  }

  predicate AllQuiet(turns: seq<Turn>, who: Who) {
    forall i :: 0 <= i < |turns| ==> Quiet(turns[i], who)
  }

  function RunTurns(s: State, who: Who, turns: seq<Turn>): State {
    Turns.RunTurns(Next, Own(who), s, turns)
  }

  function Events(who: Who, turns: seq<Turn>): seq<Event> {
    Turns.Script(Own(who), turns)
  }

  /** Taking turns is a run of the step system. */
  lemma TurnsAreARun(s: State, who: Who, turns: seq<Turn>)
    ensures RunTurns(s, who, turns) == Run(s, Events(who, turns))
  {
    Turns.AreARun(Next, Own(who), s, turns);
  }

  // t is where these turns lead from s.
  ghost predicate Took(s: State, t: State, who: Who, turns: seq<Turn>) {
    Turns.Took(Next, Own(who), s, t, turns)
  }

  predicate Ended(s: State, who: Who) {
    match who
    case TheLoop => s.loop.pc.Exited? || s.loop.pc.NewFailed?
    case TheCloser => s.closer.pc.Finished?
    case Caller(id) => id in s.calls && s.calls[id].pc.CallDone?
  }

  // Waiting is letting others run, so no turn falls while the thread's own step would change nothing.
  ghost predicate NeverBlocked(s: State, who: Who, turns: seq<Turn>) {
    forall i, mid {:trigger Took(s, mid, who, turns[..i])} ::
      0 <= i < |turns| && Took(s, mid, who, turns[..i]) ==>
        var now := Run(mid, turns[i].others);
        Ended(now, who) || Next(now, StepOf(who, turns[i].own)) != now
  }

  lemma OthersOneEvent(s: State, e: Event, who: Who)
    requires NotAbout(e, who)
    ensures who.TheLoop? ==> LoopUntouched(s, Next(s, e))
    ensures who.TheCloser? ==> Next(s, e).closer == s.closer
    ensures who.Caller? && who.id in s.calls ==>
        who.id in Next(s, e).calls && Next(s, e).calls[who.id] == s.calls[who.id]
  {
    if !e.LoopStep? { OthersLeaveLoop(s, e); }
  }

  lemma {:induction false} OthersKeepRecord(s: State, events: seq<Event>, who: Who)
    requires forall j :: 0 <= j < |events| ==> NotAbout(events[j], who)
    ensures who.TheLoop? ==> LoopUntouched(s, Run(s, events))
    ensures who.TheCloser? ==> Run(s, events).closer == s.closer
    ensures who.Caller? && who.id in s.calls ==>
              who.id in Run(s, events).calls && Run(s, events).calls[who.id] == s.calls[who.id]
  {
    if events != [] {
      OthersKeepRecord(s, events[..|events| - 1], who);
      OthersOneEvent(Run(s, events[..|events| - 1]), events[|events| - 1], who);
    }
  }

  // What a Channel call reads at its second turn, and the state it finds at its fourth.
  function ConnAt(s0: State, id: nat, turns: seq<Turn>): Option<Conn>
    requires |turns| == 4
  {
    Run(RunTurns(s0, Caller(id), turns[..1]), turns[1].others).conn
  }

  function OpensAt(s0: State, id: nat, turns: seq<Turn>): State
    requires |turns| == 4
  {
    Run(RunTurns(s0, Caller(id), turns[..3]), turns[3].others)
  }

  class Connection {
    var conn: Option<Conn>
    var closed: bool
    var done: bool
    var readers: set<Who>
    var writer: Option<Who>
    var loop: Loop
    var closer: Closer
    var calls: map<nat, Call>
    var dialled: nat
    var down: set<Conn>
    var declared: map<Conn, bool>

    constructor ()
      ensures View() == Init()
    {
      conn, closed, done := None, false, false;
      readers, writer := {}, None;
      loop, closer, calls := Loop(None, NewDial), Closer(None, NotCalled), map[];
      dialled, down, declared := 0, {}, map[];
    }

    function View(): State
      reads this
    {
      State(conn, closed, done, readers, writer, loop, closer, calls, dialled, down, declared)
    }

    // After k turns of this thread, before the next one.
    ghost predicate Ready(who: Who, turns: seq<Turn>, k: nat, s0: State)
      reads this
    {
      k < |turns| && AllQuiet(turns, who) && Took(s0, View(), who, turns[..k])
    }

    // The rest of the program, and the broker, run for a while.
    method Others(who: Who, events: seq<Event>)
      requires forall j :: 0 <= j < |events| ==> NotAbout(events[j], who)
      modifies this
      ensures View() == Run(old(View()), events)
      ensures who.TheLoop? ==> LoopUntouched(old(View()), View())
      ensures who.TheCloser? ==> closer == old(closer)
      ensures who.Caller? && who.id in old(calls) ==> who.id in calls && calls[who.id] == old(calls)[who.id]
    {
      OthersKeepRecord(View(), events, who);
      var s := Run(View(), events);
      conn, closed, done, readers, writer := s.conn, s.closed, s.done, s.readers, s.writer;
      loop, closer, calls, dialled, down, declared := s.loop, s.closer, s.calls, s.dialled, s.down, s.declared;
    }

    // ---- New ----

    /** Dials, installs and declares; on failure the caller gets no connection object. */
    method New(turns: seq<Turn>) returns (ok: bool, k: nat)
      requires |turns| == 3 && AllQuiet(turns, TheLoop) && View() == Init()
      modifies this
      ensures k <= 3 && Took(Init(), View(), TheLoop, turns[..k])
      ensures loop.pc == if ok then StartRLock else NewFailed
      ensures ok ==> k == 3 && conn.Some? && conn.value in declared && declared[conn.value]
      // a dial that failed leaves nothing; a declaration that failed leaves the new connection installed
      ensures !ok && k == 1 ==> conn.None? && dialled == 0
      ensures !ok && k != 1 ==> k == 3 && conn.Some? && conn.value in declared && !declared[conn.value]
      ensures !ok && k != 1 ==> conn.value < dialled
    {
      ghost var s0 := View();
      Turns.TookNone(Next, Own(TheLoop), s0, turns);
      var newConn := DialFirst(turns, s0);
      if newConn.None? {
        return false, 1;
      }
      InstallFirst(newConn.value, turns, s0);
      ok := DeclareFirst(newConn.value, turns, s0);
      k := 3;
    }

    method DialFirst(turns: seq<Turn>, ghost s0: State) returns (newConn: Option<Conn>)
      requires Ready(TheLoop, turns, 0, s0) && loop.pc == NewDial
      modifies this
      ensures Took(s0, View(), TheLoop, turns[..1])
      ensures loop.pc == if newConn.Some? then NewSet(newConn.value) else NewFailed
      ensures conn == old(conn) && dialled == old(dialled) + (if newConn.Some? then 1 else 0)
      ensures newConn.Some? ==> newConn.value == old(dialled)
    {
      ghost var s := View();
      Others(TheLoop, turns[0].others);
      newConn := None;
      if turns[0].own { newConn, dialled := Some(dialled), dialled + 1; }
      loop := loop.(pc := if newConn.Some? then NewSet(newConn.value) else NewFailed);
      Turns.TookNext(Next, Own(TheLoop), s0, s, View(), turns, 0);
    }

    method InstallFirst(n: Conn, turns: seq<Turn>, ghost s0: State)
      requires Ready(TheLoop, turns, 1, s0) && loop.pc == NewSet(n)
      modifies this
      ensures Took(s0, View(), TheLoop, turns[..2]) && loop.pc == NewDeclare(n) && conn == Some(n)
      ensures dialled == old(dialled)
    {
      ghost var s := View();
      Others(TheLoop, turns[1].others);
      conn := Some(n);
      loop := loop.(pc := NewDeclare(n));
      Turns.TookNext(Next, Own(TheLoop), s0, s, View(), turns, 1);
    }

    method DeclareFirst(n: Conn, turns: seq<Turn>, ghost s0: State) returns (ok: bool)
      requires Ready(TheLoop, turns, 2, s0) && loop.pc == NewDeclare(n) && conn == Some(n)
      modifies this
      ensures Took(s0, View(), TheLoop, turns[..3]) && loop.pc == if ok then StartRLock else NewFailed
      ensures conn == Some(n) && n in declared && declared[n] == ok && dialled == old(dialled)
    {
      ghost var s := View();
      Others(TheLoop, turns[2].others);
      ok := turns[2].own;
      declared := declared[n := ok];
      loop := loop.(pc := if ok then StartRLock else NewFailed);
      Turns.TookNext(Next, Own(TheLoop), s0, s, View(), turns, 2);
    }

    // ---- The reconnect loop ----

    // c.mu.RLock(), before the loop, after a notification or before a dial
    method LoopRLock(pc: LoopPc, next: LoopPc, turns: seq<Turn>, k: nat, ghost s0: State)
      requires Ready(TheLoop, turns, k, s0) && NeverBlocked(s0, TheLoop, turns) && loop.pc == pc
      requires (pc.StartRLock? && next.StartRead?) || (pc.OuterRLock? && next.OuterRead?) ||
          (pc.InnerRLock? && next.InnerRead?)
      modifies this
      ensures Took(s0, View(), TheLoop, turns[..k + 1]) && loop == old(loop).(pc := next)
    {
      ghost var s := View();
      Others(TheLoop, turns[k].others);
      assert writer.None?;
      readers := readers + {TheLoop};
      loop := loop.(pc := next);
      Turns.TookNext(Next, Own(TheLoop), s0, s, View(), turns, k);
    }

    // c.mu.RUnlock(), with the decision on what was read
    method LoopRUnlock(next: LoopPc, turns: seq<Turn>, k: nat, ghost s0: State)
      requires Ready(TheLoop, turns, k, s0)
      requires loop.pc.StartRUnlock? || loop.pc.OuterRUnlock? || loop.pc.InnerRUnlock?
      requires next == if loop.pc.seen then Exited
                       else if loop.pc.StartRUnlock? then Wait
                       else if loop.pc.OuterRUnlock? then InnerRLock
                       else Dial
      modifies this
      ensures Took(s0, View(), TheLoop, turns[..k + 1]) && loop == old(loop).(pc := next)
    {
      ghost var s := View();
      Others(TheLoop, turns[k].others);
      readers := readers - {TheLoop};
      loop := loop.(pc := next);
      assert View() == Next(Run(s, turns[k].others), LoopStep(turns[k].own));
      Turns.TookNext(Next, Own(TheLoop), s0, s, View(), turns, k);
    }

    method ReadClosed(turns: seq<Turn>, k: nat, ghost s0: State) returns (isClosed: bool)
      requires Ready(TheLoop, turns, k, s0) && (loop.pc.OuterRead? || loop.pc.InnerRead?)
      modifies this
      ensures Took(s0, View(), TheLoop, turns[..k + 1]) && isClosed == closed
      ensures loop == old(loop).(pc :=
                if old(loop.pc.OuterRead?) then OuterRUnlock(isClosed) else InnerRUnlock(isClosed))
    {
      ghost var s := View();
      Others(TheLoop, turns[k].others);
      isClosed := closed;
      loop := loop.(pc := if loop.pc.OuterRead? then OuterRUnlock(isClosed) else InnerRUnlock(isClosed));
      Turns.TookNext(Next, Own(TheLoop), s0, s, View(), turns, k);
    }

    // isClosed under the read lock, in the outer or the inner loop
    method CheckClosed(outer: bool, turns: seq<Turn>, k: nat, ghost s0: State) returns (isClosed: bool)
      requires k + 2 < |turns| && Ready(TheLoop, turns, k, s0) && NeverBlocked(s0, TheLoop, turns)
      requires loop.pc == if outer then OuterRLock else InnerRLock
      modifies this
      ensures Took(s0, View(), TheLoop, turns[..k + 3])
      ensures loop == old(loop).(pc := if isClosed then Exited else if outer then InnerRLock else Dial)
    {
      LoopRLock(if outer then OuterRLock else InnerRLock, if outer then OuterRead else InnerRead, turns, k, s0);
      isClosed := ReadClosed(turns, k + 1, s0);
      LoopRUnlock(if isClosed then Exited else if outer then InnerRLock else Dial, turns, k + 2, s0);
    }

    // conn and isClosed before the loop
    method ReadStart(turns: seq<Turn>, ghost s0: State) returns (isClosed: bool)
      requires Ready(TheLoop, turns, 1, s0) && loop.pc == StartRead
      modifies this
      ensures Took(s0, View(), TheLoop, turns[..2]) && loop == Loop(conn, StartRUnlock(isClosed))
    {
      ghost var s := View();
      Others(TheLoop, turns[1].others);
      isClosed := closed;
      loop := Loop(conn, StartRUnlock(isClosed));
      Turns.TookNext(Next, Own(TheLoop), s0, s, View(), turns, 1);
    }

    // <-notify
    method AwaitDrop(turns: seq<Turn>, k: nat, ghost s0: State)
      requires Ready(TheLoop, turns, k, s0) && NeverBlocked(s0, TheLoop, turns) && loop.pc == Wait
      modifies this
      ensures Took(s0, View(), TheLoop, turns[..k + 1]) && loop == old(loop).(pc := OuterRLock)
      ensures loop.local.Some? && loop.local.value in down
    {
      ghost var s := View();
      Others(TheLoop, turns[k].others);
      assert loop.local.Some? && loop.local.value in down;
      loop := loop.(pc := OuterRLock);
      Turns.TookNext(Next, Own(TheLoop), s0, s, View(), turns, k);
    }

    method DialBroker(turns: seq<Turn>, k: nat, ghost s0: State) returns (newConn: Option<Conn>)
      requires Ready(TheLoop, turns, k, s0) && loop.pc == Dial
      modifies this
      ensures Took(s0, View(), TheLoop, turns[..k + 1])
      ensures loop == old(loop).(pc := if newConn.Some? then SetLock(newConn.value) else Delay)
    {
      ghost var s := View();
      Others(TheLoop, turns[k].others);
      newConn := None;
      if turns[k].own { newConn, dialled := Some(dialled), dialled + 1; }
      loop := loop.(pc := if newConn.Some? then SetLock(newConn.value) else Delay);
      Turns.TookNext(Next, Own(TheLoop), s0, s, View(), turns, k);
    }

    // select { case <-time.After(reconnectDelay): case <-c.done: }
    method DelayOrDone(turns: seq<Turn>, k: nat, ghost s0: State) returns (again: bool)
      requires Ready(TheLoop, turns, k, s0) && NeverBlocked(s0, TheLoop, turns) && loop.pc == Delay
      modifies this
      ensures Took(s0, View(), TheLoop, turns[..k + 1])
      ensures loop == old(loop).(pc := if again then InnerRLock else Exited)
      ensures !again ==> done
    {
      ghost var s := View();
      Others(TheLoop, turns[k].others);
      again := turns[k].own;
      assert again || done;
      loop := loop.(pc := if again then InnerRLock else Exited);
      Turns.TookNext(Next, Own(TheLoop), s0, s, View(), turns, k);
    }

    // c.mu.Lock() of setConn
    method SetConnLock(newConn: Conn, turns: seq<Turn>, k: nat, ghost s0: State)
      requires Ready(TheLoop, turns, k, s0) && NeverBlocked(s0, TheLoop, turns) && loop.pc == SetLock(newConn)
      modifies this
      ensures Took(s0, View(), TheLoop, turns[..k + 1]) && loop == old(loop).(pc := SetWrite(newConn))
    {
      ghost var s := View();
      Others(TheLoop, turns[k].others);
      assert writer.None? && readers == {};
      writer := Some(TheLoop);
      loop := loop.(pc := SetWrite(newConn));
      Turns.TookNext(Next, Own(TheLoop), s0, s, View(), turns, k);
    }

    method SetConnWrite(newConn: Conn, turns: seq<Turn>, k: nat, ghost s0: State)
      requires Ready(TheLoop, turns, k, s0) && loop.pc == SetWrite(newConn)
      modifies this
      ensures Took(s0, View(), TheLoop, turns[..k + 1]) && loop == old(loop).(pc := SetUnlock(newConn))
      ensures conn == Some(newConn)
    {
      ghost var s := View();
      Others(TheLoop, turns[k].others);
      conn := Some(newConn);
      loop := loop.(pc := SetUnlock(newConn));
      Turns.TookNext(Next, Own(TheLoop), s0, s, View(), turns, k);
    }

    method SetConnUnlock(newConn: Conn, turns: seq<Turn>, k: nat, ghost s0: State)
      requires Ready(TheLoop, turns, k, s0) && loop.pc == SetUnlock(newConn) && conn == Some(newConn)
      modifies this
      ensures Took(s0, View(), TheLoop, turns[..k + 1]) && loop == old(loop).(pc := Declare(newConn))
      ensures conn == Some(newConn)
    {
      ghost var s := View();
      Others(TheLoop, turns[k].others);
      writer := None;
      loop := loop.(pc := Declare(newConn));
      Turns.TookNext(Next, Own(TheLoop), s0, s, View(), turns, k);
    }

    method SetConn(newConn: Conn, turns: seq<Turn>, k: nat, ghost s0: State)
      requires k + 2 < |turns| && Ready(TheLoop, turns, k, s0) && NeverBlocked(s0, TheLoop, turns)
      requires loop.pc == SetLock(newConn)
      modifies this
      ensures Took(s0, View(), TheLoop, turns[..k + 3]) && loop == old(loop).(pc := Declare(newConn))
      ensures conn == Some(newConn)
    {
      SetConnLock(newConn, turns, k, s0);
      SetConnWrite(newConn, turns, k + 1, s0);
      SetConnUnlock(newConn, turns, k + 2, s0);
    }

    // declareTopology, whose failure is only logged, and conn = newConn
    method DeclareAndAdopt(newConn: Conn, turns: seq<Turn>, k: nat, ghost s0: State)
      requires Ready(TheLoop, turns, k, s0) && loop.pc == Declare(newConn) && conn == Some(newConn)
      modifies this
      ensures Took(s0, View(), TheLoop, turns[..k + 1]) && loop == Loop(Some(newConn), Wait) && conn == loop.local
      ensures newConn in declared
    {
      ghost var s := View();
      Others(TheLoop, turns[k].others);
      declared := declared[newConn := turns[k].own];
      loop := Loop(Some(newConn), Wait);
      Turns.TookNext(Next, Own(TheLoop), s0, s, View(), turns, k);
    }

    // One attempt of the inner loop: the loop has reconnected, is to try again, or has exited.
    method Attempt(turns: seq<Turn>, k: nat, ghost s0: State) returns (next: nat)
      requires k + 8 <= |turns| && Ready(TheLoop, turns, k, s0) && NeverBlocked(s0, TheLoop, turns)
      requires loop.pc == InnerRLock
      modifies this
      ensures k < next <= k + 8 && Took(s0, View(), TheLoop, turns[..next])
      ensures loop.pc == Exited || loop.pc == InnerRLock || (loop.pc == Wait && loop.local == conn && conn != None)
    {
      var isClosed := CheckClosed(false, turns, k, s0);
      if isClosed {
        return k + 3;
      }
      var newConn := DialBroker(turns, k + 3, s0);
      if newConn.None? {
        var again := DelayOrDone(turns, k + 4, s0);
        return k + 5;
      }
      SetConn(newConn.value, turns, k + 4, s0);
      DeclareAndAdopt(newConn.value, turns, k + 7, s0);
      return k + 8;
    }

    // Retries until a dial succeeds, the loop exits or the turns run out.
    method Redial(turns: seq<Turn>, k: nat, ghost s0: State) returns (next: nat)
      requires k <= |turns| && AllQuiet(turns, TheLoop) && Took(s0, View(), TheLoop, turns[..k])
      requires NeverBlocked(s0, TheLoop, turns) && loop.pc == InnerRLock
      modifies this
      ensures k <= next <= |turns| && Took(s0, View(), TheLoop, turns[..next])
      ensures loop.pc == Exited || loop.pc == Wait || (loop.pc == InnerRLock && |turns| < next + 8)
    {
      next := k;
      while next + 8 <= |turns| && loop.pc == InnerRLock
        invariant k <= next <= |turns| && Took(s0, View(), TheLoop, turns[..next])
        invariant loop.pc == Exited || loop.pc == InnerRLock || loop.pc == Wait
        decreases |turns| - next
      {
        next := Attempt(turns, next, s0);
      }
    }

    // Reads the connection to watch; isClosed ends the loop before it begins.
    method Begin(turns: seq<Turn>, ghost s0: State) returns (isClosed: bool)
      requires |turns| >= 3 && Ready(TheLoop, turns, 0, s0) && NeverBlocked(s0, TheLoop, turns) && loop.pc == StartRLock
      modifies this
      ensures Took(s0, View(), TheLoop, turns[..3]) && loop.pc == if isClosed then Exited else Wait
    {
      LoopRLock(StartRLock, StartRead, turns, 0, s0);
      isClosed := ReadStart(turns, s0);
      LoopRUnlock(if isClosed then Exited else Wait, turns, 2, s0);
    }

    /** The background loop, for as many turns as it is given: it ends only by exiting or, between
        two rounds, when fewer turns are left than a round may need. */
    method ReconnectLoop(turns: seq<Turn>) returns (k: nat)
      requires |turns| >= 3 && AllQuiet(turns, TheLoop) && NeverBlocked(View(), TheLoop, turns) && loop.pc == StartRLock
      modifies this
      ensures k <= |turns| && Took(old(View()), View(), TheLoop, turns[..k])
      ensures loop.pc == Exited || ((loop.pc == Wait || loop.pc == InnerRLock) && |turns| < k + 8)
    {
      ghost var s0 := View();
      Turns.TookNone(Next, Own(TheLoop), s0, turns);
      var isClosed := Begin(turns, s0);
      k := 3;
      while k + 8 <= |turns| && loop.pc == Wait
        invariant 3 <= k <= |turns| && Took(s0, View(), TheLoop, turns[..k])
        invariant loop.pc == Exited || loop.pc == Wait || (loop.pc == InnerRLock && |turns| < k + 8)
        decreases |turns| - k
      {
        AwaitDrop(turns, k, s0);
        isClosed := CheckClosed(true, turns, k + 1, s0);
        k := k + 4;
        if !isClosed {
          k := Redial(turns, k, s0);
        }
      }
    }

    // ---- Close ----

    method CloserLock(turns: seq<Turn>, ghost s0: State)
      requires Ready(TheCloser, turns, 0, s0) && NeverBlocked(s0, TheCloser, turns) && closer.pc == NotCalled
      modifies this
      ensures Took(s0, View(), TheCloser, turns[..1]) && closer == old(closer).(pc := SetClosed)
    {
      ghost var s := View();
      Others(TheCloser, turns[0].others);
      assert Published(View()) && CanWrite(View());
      writer := Some(TheCloser);
      closer := closer.(pc := SetClosed);
      Turns.TookNext(Next, Own(TheCloser), s0, s, View(), turns, 0);
    }

    method CloserSet(turns: seq<Turn>, ghost s0: State)
      requires Ready(TheCloser, turns, 1, s0) && closer.pc == SetClosed
      modifies this
      ensures Took(s0, View(), TheCloser, turns[..2]) && closer.pc == ReadConn && closed
    {
      ghost var s := View();
      Others(TheCloser, turns[1].others);
      closed := true;
      closer := closer.(pc := ReadConn);
      Turns.TookNext(Next, Own(TheCloser), s0, s, View(), turns, 1);
    }

    method CloserRead(turns: seq<Turn>, ghost s0: State)
      requires Ready(TheCloser, turns, 2, s0) && closer.pc == ReadConn
      modifies this
      ensures Took(s0, View(), TheCloser, turns[..3]) && closer == Closer(conn, CloseUnlock)
    {
      ghost var s := View();
      Others(TheCloser, turns[2].others);
      closer := Closer(conn, CloseUnlock);
      Turns.TookNext(Next, Own(TheCloser), s0, s, View(), turns, 2);
    }

    method CloserUnlock(turns: seq<Turn>, ghost s0: State)
      requires Ready(TheCloser, turns, 3, s0) && closer.pc == CloseUnlock
      modifies this
      ensures Took(s0, View(), TheCloser, turns[..4]) && closer == old(closer).(pc := CloseDone)
    {
      ghost var s := View();
      Others(TheCloser, turns[3].others);
      writer := None;
      closer := closer.(pc := CloseDone);
      Turns.TookNext(Next, Own(TheCloser), s0, s, View(), turns, 3);
    }

    method CloserDone(turns: seq<Turn>, ghost s0: State)
      requires Ready(TheCloser, turns, 4, s0) && closer.pc == CloseDone
      modifies this
      ensures Took(s0, View(), TheCloser, turns[..5]) && closer == old(closer).(pc := CloseConn) && done
    {
      ghost var s := View();
      Others(TheCloser, turns[4].others);
      done := true;
      closer := closer.(pc := CloseConn);
      Turns.TookNext(Next, Own(TheCloser), s0, s, View(), turns, 4);
    }

    method CloserClose(turns: seq<Turn>, ghost s0: State)
      requires Ready(TheCloser, turns, 5, s0) && closer.pc == CloseConn
      modifies this
      ensures Took(s0, View(), TheCloser, turns[..6]) && closer == old(closer).(pc := Finished)
      ensures closer.conn.Some? ==> closer.conn.value in down
    {
      ghost var s := View();
      Others(TheCloser, turns[5].others);
      if closer.conn.Some? && closer.conn.value !in down { down := down + {closer.conn.value}; }
      closer := closer.(pc := Finished);
      ghost var was := Run(s, turns[5].others).down;
      assert down == if closer.conn.Some? then was + {closer.conn.value} else was;
      Turns.TookNext(Next, Own(TheCloser), s0, s, View(), turns, 5);
    }

    /** Called once: sets closed, closes done, and closes the connection it found installed. */
    method Close(turns: seq<Turn>)
      requires |turns| == 6 && AllQuiet(turns, TheCloser) && NeverBlocked(View(), TheCloser, turns)
      requires closer.pc == NotCalled
      modifies this
      ensures Took(old(View()), View(), TheCloser, turns) && closer.pc == Finished
      ensures closer.conn.Some? ==> closer.conn.value in down
    {
      ghost var s0 := View();
      Turns.TookNone(Next, Own(TheCloser), s0, turns);
      CloserLock(turns, s0);
      CloserSet(turns, s0);
      CloserRead(turns, s0);
      CloserUnlock(turns, s0);
      CloserDone(turns, s0);
      CloserClose(turns, s0);
      assert turns[..6] == turns;
    }

    // ---- Channel ----

    method CallerLock(id: nat, turns: seq<Turn>, ghost s0: State)
      requires Ready(Caller(id), turns, 0, s0) && NeverBlocked(s0, Caller(id), turns)
      requires id in calls && calls[id] == Call(None, CallRLock)
      modifies this
      ensures Took(s0, View(), Caller(id), turns[..1]) && id in calls && calls[id] == Call(None, CallRead)
    {
      ghost var s := View();
      Others(Caller(id), turns[0].others);
      assert writer.None?;
      readers := readers + {Caller(id)};
      calls := calls[id := Call(None, CallRead)];
      Turns.TookNext(Next, Own(Caller(id)), s0, s, View(), turns, 0);
    }

    method CallerRead(id: nat, turns: seq<Turn>, ghost s0: State) returns (current: Option<Conn>)
      requires |turns| == 4 && Ready(Caller(id), turns, 1, s0) && id in calls && calls[id].pc == CallRead
      modifies this
      ensures Took(s0, View(), Caller(id), turns[..2]) && id in calls && calls[id] == Call(current, CallRUnlock)
      ensures current == ConnAt(s0, id, turns)
    {
      ghost var s := View();
      Turns.TookMeans(Next, Own(Caller(id)), s0, s, turns[..1]);
      Others(Caller(id), turns[1].others);
      current := conn;
      calls := calls[id := Call(current, CallRUnlock)];
      Turns.TookNext(Next, Own(Caller(id)), s0, s, View(), turns, 1);
    }

    method CallerUnlock(id: nat, current: Option<Conn>, turns: seq<Turn>, ghost s0: State)
      requires Ready(Caller(id), turns, 2, s0) && id in calls && calls[id] == Call(current, CallRUnlock)
      modifies this
      ensures Took(s0, View(), Caller(id), turns[..3]) && id in calls && calls[id] == Call(current, CallOpen)
    {
      ghost var s := View();
      Others(Caller(id), turns[2].others);
      readers := readers - {Caller(id)};
      calls := calls[id := Call(current, CallOpen)];
      Turns.TookNext(Next, Own(Caller(id)), s0, s, View(), turns, 2);
    }

    method CallerOpen(id: nat, current: Option<Conn>, turns: seq<Turn>, ghost s0: State) returns (channel: Option<Conn>)
      requires |turns| == 4 && Ready(Caller(id), turns, 3, s0) && id in calls && calls[id] == Call(current, CallOpen)
      modifies this
      ensures Took(s0, View(), Caller(id), turns[..4]) && id in calls && calls[id] == Call(current, CallDone(channel))
      ensures channel.Some? <==> current.Some? && current.value !in OpensAt(s0, id, turns).down && turns[3].own
      ensures channel.Some? ==> channel == current && channel.value !in down
    {
      ghost var s := View();
      Turns.TookMeans(Next, Own(Caller(id)), s0, s, turns[..3]);
      Others(Caller(id), turns[3].others);
      channel := None;
      if current.Some? && current.value !in down && turns[3].own { channel := current; }
      calls := calls[id := Call(current, CallDone(channel))];
      Turns.TookNext(Next, Own(Caller(id)), s0, s, View(), turns, 3);
    }

    /** A new channel, on the connection that was installed when it was read; None is an error. */
    method Channel(id: nat, turns: seq<Turn>) returns (channel: Option<Conn>)
      requires id !in calls && Published(View()) && |turns| == 4 && AllQuiet(turns, Caller(id))
      requires NeverBlocked(Next(View(), StartCall(id)), Caller(id), turns)
      modifies this
      ensures Took(Next(old(View()), StartCall(id)), View(), Caller(id), turns)
      ensures id in calls && calls[id].pc == CallDone(channel) && (channel.Some? ==> channel.value !in down)
      // the connection installed at the second turn, if it is open at the fourth and the broker opens the channel
      ensures var s0 := Next(old(View()), StartCall(id));
              var current := ConnAt(s0, id, turns);
              && (channel.Some? <==> current.Some? && current.value !in OpensAt(s0, id, turns).down && turns[3].own)
              && (channel.Some? ==> channel == current)
    {
      calls := calls[id := Call(None, CallRLock)];
      ghost var s0 := View();
      Turns.TookNone(Next, Own(Caller(id)), s0, turns);
      CallerLock(id, turns, s0);
      var current := CallerRead(id, turns, s0);
      CallerUnlock(id, current, turns, s0);
      channel := CallerOpen(id, current, turns, s0);
      assert turns[..4] == turns;
    }
  }
}
