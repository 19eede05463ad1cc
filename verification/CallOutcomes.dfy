/** How the calls of a request decide its outcome: an error is final, and a live token is exchanged. */
module CallOutcomes {
  import opened Wrappers
  import opened Uuids
  import opened RedisKeys
  import opened AuthProtocol
  import opened RefreshSlots
  import opened TokenIntervals
  import opened LoginTheorems
  import Hex
  import Runs

  // ---- Errors ----

  predicate Doomed(w: World, rid: nat) {
    rid in w.requests && (w.requests[rid].pc == RollbackTx || w.requests[rid].pc == Done(Failed))
  }

  lemma TxErrorDooms(w: World, rid: nat, r: Request, c: Choice)
    requires rid in w.requests && r == w.requests[rid] && TxPc(r.pc) && !c.io.Good?
    ensures Doomed(StepRequest(w, rid, r, c), rid)
  {
  }

  lemma OtherErrorDooms(w: World, rid: nat, r: Request, c: Choice)
    requires rid in w.requests && r == w.requests[rid] && !TxPc(r.pc) && !r.pc.Done? && !c.io.Good?
    ensures Doomed(StepRequest(w, rid, r, c), rid)
  {
  }

  lemma StaysDoomed(w: World, e: Event, rid: nat)
    requires Doomed(w, rid)
    ensures Doomed(Next(w, e), rid)
  {
    if e.Step? && e.rid in w.requests { StepFollows(w, e.rid, w.requests[e.rid], e.choice); }
  }

  lemma {:induction false} DoomedThroughout(w: World, events: seq<Event>, rid: nat)
    requires Doomed(w, rid)
    ensures Doomed(Run(w, events), rid)
  {
    if events != [] {
      DoomedThroughout(w, events[..|events| - 1], rid);
      StaysDoomed(Run(w, events[..|events| - 1]), events[|events| - 1], rid);
    }
  }

  /** The first call that reports an error, whether or not it took effect, decides the request: only the
      rollback and the error answer are left, whatever follows. So a request succeeds only if every call
      it made worked. */
  lemma ErrorIsFinal(w: World, events: seq<Event>, rid: nat, k: nat)
    requires k < |events| && events[k].Step? && events[k].rid == rid && !events[k].choice.io.Good?
    requires rid in After(w, events, k).requests && !After(w, events, k).requests[rid].pc.Done?
    ensures Doomed(Run(w, events), rid)
  {
    var mid, c := After(w, events, k), events[k].choice;
    if TxPc(mid.requests[rid].pc) {
      TxErrorDooms(mid, rid, mid.requests[rid], c);
    } else {
      OtherErrorDooms(mid, rid, mid.requests[rid], c);
    }
    Runs.AfterStep(Next, w, events, k);
    DoomedThroughout(After(w, events, k + 1), events[k + 1..], rid);
    Runs.RunConcat(Next, w, events[..k + 1], events[k + 1..]);
    assert events[..k + 1] + events[k + 1..] == events;
  }

  // ---- The exchange ----

  function RefreshScript(rid: nat, user: Uuid, token: string, draw: Draw): seq<Event> {
    var e := CallWorks(rid, 0, draw);
    [Start(rid, Flow.Refresh(user, token)), e, e] + [e, e]
  }

  // Accepted and deleted.
  lemma TokenIsTaken(w: World, rid: nat, user: Uuid, token: string, draw: Draw)
    requires rid !in w.requests && Live(w, user, token) && Settled(w, token)
    ensures var e := CallWorks(rid, 0, draw);
            var w2 := Run(w, [Start(rid, Flow.Refresh(user, token)), e, e]);
            var r := Request(Flow.Refresh(user, token), None, Some(user), Mint);
            w2 == Put(w, rid, r).(slots := Erase(w.slots, RefreshKey(user))) && Settled(w2, token)
  {
    var start, e := Start(rid, Flow.Refresh(user, token)), CallWorks(rid, 0, draw);
    var r := NewRequest(Flow.Refresh(user, token));
    var w1, w2 := Put(w, rid, r), Put(w, rid, r.(pc := DelToken));
    Runs.RunThree(Next, w, start, e, e);
    NextSettled(w, start, token);
    GoodGet(w1, rid, r, e.choice);
    PutTwice(w, rid, r, r.(pc := DelToken));
    NextSettled(w1, e, token);
    GoodDel(w2, rid, r.(pc := DelToken), e.choice);
    PutTwice(w, rid, r.(pc := DelToken), r.(pc := Mint));
    NextSettled(w2, e, token);
  }

  /** A live token is exchanged: with working calls and an unused draw the request ends with a new pair for
      the same user, the new token is live, the old one is not, and no row changes. */
  lemma LiveTokenIsExchanged(
      cfg: Config, now: int, events: seq<Event>, rid: nat, user: Uuid, token: string, draw: Draw)
    requires var w := Run(Init(cfg, now), events); rid !in w.requests && Live(w, user, token) && draw !in w.drawn
    ensures var w := Run(Init(cfg, now), events);
            var w2 := Run(w, RefreshScript(rid, user, token, draw));
            LoggedIn(w2, rid, user, draw) && !Live(w2, user, token) && w2.db == w.db
  {
    var w, e := Run(Init(cfg, now), events), CallWorks(rid, 0, draw);
    RunTokens(cfg, now, events);
    LiveIsSettled(w, user, token);
    TokenIsTaken(w, rid, user, token, draw);
    var taking, rest := [Start(rid, Flow.Refresh(user, token)), e, e], [e, e];
    var mid := Run(w, taking);
    Runs.RunConcat(Next, w, taking, rest);
    MintAndSet(mid, rid, user, 0, draw);
    assert rest[..0] == [] && rest[..2] == rest;
    StaysDead(mid, rest, 0, 2, user, token);
  }

  /** The token of a pair is its draw in 64 hexadecimal digits, most significant first. */
  lemma TokenText(draw: Draw, i: nat)
    requires i < 64
    ensures |OpaqueToken(draw)| == 64
    ensures OpaqueToken(draw)[i] == "0123456789abcdef"[draw / Hex.Pow16(63 - i) % 16]
  {
    Hex.PrintAt(draw, 64, i);
  }
}
