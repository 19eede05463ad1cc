/** When a refresh token can be used, for any interleaving of any number of requests. */
module TokenIntervals {
  import opened Wrappers
  import opened Uuids
  import opened RedisKeys
  import opened AuthProtocol
  import opened Accounts
  import opened RefreshSlots
  import Runs

  ghost predicate Live(w: World, user: Uuid, token: string) {
    Read(w.slots, w.now, RefreshKey(user)) == Some(token)
  }

  // The token's one SET has been sent, landed or not: no request holds it any more.
  ghost predicate Settled(w: World, token: string) {
    Drawn(w, token) && forall rid :: !Pending(w, rid, token)
  }

  lemma LiveIsSettled(w: World, user: Uuid, token: string)
    requires Tokens(w) && Live(w, user, token)
    ensures Settled(w, token)
  {
  }

  lemma NextSettled(w: World, e: Event, token: string)
    requires Settled(w, token)
    ensures Settled(Next(w, e), token)
  {
    if e.Step? && e.rid in w.requests {
      StepFollows(w, e.rid, w.requests[e.rid], e.choice);
    }
    forall rid ensures !Pending(Next(w, e), rid, token) {
      assert !Pending(w, rid, token);
    }
  }

  lemma DeadFollows(w: World, w2: World, rid: nat, move: TokenMove, user: Uuid, token: string)
    requires Settled(w, token) && !Live(w, user, token) && Follows(w, w2, rid, move) && w2.now == w.now
    ensures !Live(w2, user, token)
  {
  }

  /** A token that is out of its slot never comes back to it. */
  lemma NextDead(w: World, e: Event, user: Uuid, token: string)
    requires Settled(w, token) && !Live(w, user, token)
    ensures Settled(Next(w, e), token) && !Live(Next(w, e), user, token)
  {
    NextSettled(w, e, token);
    if e.Step? && e.rid in w.requests {
      var r := w.requests[e.rid];
      StepFollows(w, e.rid, r, e.choice);
      StepKeepsConfig(w, e.rid, r, e.choice);
      DeadFollows(w, Next(w, e), e.rid, MoveOf(r, e.choice, w), user, token);
    }
  }

  lemma {:induction false} StaysDead(w0: World, events: seq<Event>, i: nat, j: nat, user: Uuid, token: string)
    requires i <= j <= |events|
    requires Settled(After(w0, events, i), token) && !Live(After(w0, events, i), user, token)
    ensures Settled(After(w0, events, j), token) && !Live(After(w0, events, j), user, token)
    decreases j
  {
    if i < j {
      StaysDead(w0, events, i, j - 1, user, token);
      Runs.AfterStep(Next, w0, events, j - 1);
      NextDead(After(w0, events, j - 1), events[j - 1], user, token);
    }
  }

  lemma {:induction false} StaysSettled(w0: World, events: seq<Event>, i: nat, j: nat, token: string)
    requires i <= j <= |events| && Settled(After(w0, events, i), token)
    ensures Settled(After(w0, events, j), token)
    decreases j
  {
    if i < j {
      StaysSettled(w0, events, i, j - 1, token);
      Runs.AfterStep(Next, w0, events, j - 1);
      NextSettled(After(w0, events, j - 1), events[j - 1], token);
    }
  }

  /** A token occupies its slot during one contiguous interval: deleted, overwritten or
      expired, it never returns. */
  lemma OneInterval(cfg: Config, now: int, events: seq<Event>, i: nat, j: nat, k: nat, user: Uuid, token: string)
    requires i <= j <= k <= |events|
    requires Live(After(Init(cfg, now), events, i), user, token) && Live(After(Init(cfg, now), events, k), user, token)
    ensures Live(After(Init(cfg, now), events, j), user, token)
  {
    var w0 := Init(cfg, now);
    if !Live(After(w0, events, j), user, token) {
      RunTokens(cfg, now, events[..i]);
      LiveIsSettled(After(w0, events, i), user, token);
      StaysSettled(w0, events, i, j, token);
      StaysDead(w0, events, j, k, user, token);
    }
  }

  /** A token is only ever in one user's slot, over the whole run. */
  lemma OneOwner(cfg: Config, now: int, events: seq<Event>, i: nat, j: nat, u: Uuid, v: Uuid, token: string)
    requires i <= j <= |events|
    requires Live(After(Init(cfg, now), events, i), u, token) && Live(After(Init(cfg, now), events, j), v, token)
    ensures u == v
  {
    var w := After(Init(cfg, now), events, i);
    RunTokens(cfg, now, events[..i]);
    LiveIsSettled(w, u, token);
    RefreshKeyInjective(u, v);
    if u != v {
      StaysDead(Init(cfg, now), events, i, j, v, token);
    }
  }

  // If nothing but time passes after a token was stored, it is live exactly until its time to live
  // is over; with none it stays.
  lemma LiveUntilExpiry(w: World, rid: nat, c: Choice, d: nat)
    requires rid in w.requests && w.requests[rid].pc.SetToken? && !c.io.Lost?
    ensures var token, user := w.requests[rid].pc.pair.refresh, UserOf(w.requests[rid]);
            Live(Next(Next(w, Step(rid, c)), Tick(d)), user, token) <==> w.cfg.refreshTTL == 0 || d < w.cfg.refreshTTL
  {
    var set_ := Next(w, Step(rid, c));
    var ttl := w.cfg.refreshTTL;
    var entry := Entry(w.requests[rid].pc.pair.refresh, if ttl == 0 then None else Some(w.now + ttl));
    assert set_.slots[KeyOf(w.requests[rid])] == entry && set_.now == w.now;
  }

  // ---- What a Refresh needs ----

  ghost predicate IsRefresh(w: World, rid: nat, user: Uuid, token: string) {
    rid in w.requests && w.requests[rid].flow == Flow.Refresh(user, token)
  }

  // The request got past the comparison with the stored token.
  predicate Accepted(pc: Pc) {
    pc.DelToken? || pc.Mint? || pc.SetToken? || (pc.Done? && pc.outcome.Issued?)
  }

  ghost predicate ServedAt(w0: World, events: seq<Event>, rid: nat, user: Uuid, token: string, k: nat) {
    && k < |events| && events[k].Step? && events[k].rid == rid
    && var w := After(w0, events, k);
       (IsRefresh(w, rid, user, token) && w.requests[rid].pc.GetToken? && Live(w, user, token))
  }

  ghost predicate RefreshPc(pc: Pc) {
    pc.GetToken? || pc.DelToken? || pc.Mint? || pc.SetToken? || (pc.Done? && !pc.outcome.LoggedOut?)
  }

  lemma RefreshStep(w: World, rid: nat, r: Request, c: Choice)
    requires rid in w.requests && r == w.requests[rid] && r.flow.Refresh? && RefreshPc(r.pc)
    requires r.user == Some(r.flow.user)
    ensures var w2 := StepRequest(w, rid, r, c);
            && rid in w2.requests && w2.requests[rid].flow == r.flow && w2.requests[rid].user == r.user
            && RefreshPc(w2.requests[rid].pc) && (w2.requests[rid].pc.GetToken? ==> r.pc.GetToken?)
            && (Accepted(w2.requests[rid].pc) ==>
                Accepted(r.pc) || (r.pc.GetToken? && Live(w, r.flow.user, r.flow.provided)))
            && (!Accepted(w2.requests[rid].pc) ==> w2.requests[rid].pc.GetToken? || w2.requests[rid].pc == Done(Failed))
  {
  }

  lemma NextRefresh(w: World, e: Event, rid: nat)
    requires rid in w.requests ==>
               var r := w.requests[rid]; r.flow.Refresh? ==> RefreshPc(r.pc) && r.user == Some(r.flow.user)
    ensures var w2 := Next(w, e); rid in w2.requests ==>
              var r := w2.requests[rid]; r.flow.Refresh? ==> RefreshPc(r.pc) && r.user == Some(r.flow.user)
    ensures rid in w.requests ==> rid in Next(w, e).requests && Next(w, e).requests[rid].flow == w.requests[rid].flow
    ensures rid in w.requests && !(e.Step? && e.rid == rid) ==> Next(w, e).requests[rid] == w.requests[rid]
    ensures rid !in w.requests && rid in Next(w, e).requests ==>
        Next(w, e).requests[rid].pc == FirstPc(Next(w, e).requests[rid].flow)
  {
    if e.Step? && e.rid in w.requests {
      StepFollows(w, e.rid, w.requests[e.rid], e.choice);
      StepFlow(w, e.rid, w.requests[e.rid], e.choice);
      if e.rid == rid && w.requests[rid].flow.Refresh? { RefreshStep(w, rid, w.requests[rid], e.choice); }
    }
  }

  lemma StepFlow(w: World, rid: nat, r: Request, c: Choice)
    requires rid in w.requests && r == w.requests[rid]
    ensures var w2 := StepRequest(w, rid, r, c); rid in w2.requests && w2.requests[rid].flow == r.flow
  {
    if StorePc(r.pc) { StoreStepSame(w, rid, r, c); }
  }

  lemma {:induction false} RefreshWellFormed(cfg: Config, now: int, events: seq<Event>, rid: nat)
    ensures var w := Run(Init(cfg, now), events); rid in w.requests ==>
              var r := w.requests[rid]; r.flow.Refresh? ==> RefreshPc(r.pc) && r.user == Some(r.flow.user)
  {
    if events != [] {
      RefreshWellFormed(cfg, now, events[..|events| - 1], rid);
      NextRefresh(Run(Init(cfg, now), events[..|events| - 1]), events[|events| - 1], rid);
    }
  }

  lemma AcceptedStep(w0: World, events: seq<Event>, rid: nat, user: Uuid, token: string)
    requires events != [] && events[|events| - 1].Step? && events[|events| - 1].rid == rid
    requires var w := Run(w0, events[..|events| - 1]);
             && IsRefresh(w, rid, user, token) && w.requests[rid].user == Some(user)
             && RefreshPc(w.requests[rid].pc) && !Accepted(w.requests[rid].pc)
    requires rid in Run(w0, events).requests && Accepted(Run(w0, events).requests[rid].pc)
    ensures ServedAt(w0, events, rid, user, token, |events| - 1)
  {
    var w := Run(w0, events[..|events| - 1]);
    RefreshStep(w, rid, w.requests[rid], events[|events| - 1].choice);
  }

  /** Every Refresh that was accepted, and so every one that succeeded, made its GET while
      the token it presented was live in its user's slot. */
  lemma {:induction false} AcceptedInsideInterval(
      cfg: Config, now: int, events: seq<Event>, rid: nat, user: Uuid, token: string)
    requires IsRefresh(Run(Init(cfg, now), events), rid, user, token)
    requires Accepted(Run(Init(cfg, now), events).requests[rid].pc)
    ensures exists k: nat :: ServedAt(Init(cfg, now), events, rid, user, token, k)
  {
    var w0 := Init(cfg, now);
    var front, e := events[..|events| - 1], events[|events| - 1];
    var w := Run(w0, front);
    RefreshWellFormed(cfg, now, front, rid);
    NextRefresh(w, e, rid);
    assert rid in w.requests && IsRefresh(w, rid, user, token);
    if e.Step? && e.rid == rid && !Accepted(w.requests[rid].pc) {
      AcceptedStep(w0, events, rid, user, token);
    } else {
      AcceptedInsideInterval(cfg, now, front, rid, user, token);
      var k: nat :| ServedAt(w0, front, rid, user, token, k);
      assert front[..k] == events[..k];
      assert ServedAt(w0, events, rid, user, token, k);
    }
  }

  // A Refresh that has not made its GET, presenting a token whose interval is over.
  ghost predicate TooLate(w: World, rid: nat, user: Uuid, token: string) {
    && Settled(w, token) && !Live(w, user, token)
    && IsRefresh(w, rid, user, token) && w.requests[rid].user == Some(user)
    && (w.requests[rid].pc.GetToken? || w.requests[rid].pc == Done(Failed))
  }

  lemma NextTooLate(w: World, e: Event, rid: nat, user: Uuid, token: string)
    requires TooLate(w, rid, user, token)
    ensures TooLate(Next(w, e), rid, user, token)
  {
    NextDead(w, e, user, token);
    NextRefresh(w, e, rid);
    if e.Step? && e.rid == rid { RefreshStep(w, rid, w.requests[rid], e.choice); }
  }

  /** Once the interval is over, a Refresh that has not made its GET yet can only fail. */
  lemma {:induction false} LateRefreshFails(w: World, more: seq<Event>, rid: nat, user: Uuid, token: string)
    requires TooLate(w, rid, user, token)
    ensures TooLate(Run(w, more), rid, user, token)
  {
    if more != [] {
      LateRefreshFails(w, more[..|more| - 1], rid, user, token);
      NextTooLate(Run(w, more[..|more| - 1]), more[|more| - 1], rid, user, token);
    }
  }

  ghost predicate Succeeded(w: World, rid: nat) {
    rid in w.requests && w.requests[rid].pc.Done? && w.requests[rid].pc.outcome.Issued?
  }

  ghost predicate CanSucceed(w: World, rid: nat) {
    exists more: seq<Event> :: Succeeded(Run(w, more), rid)
  }

  lemma SucceedsBy(w: World, rid: nat, more: seq<Event>)
    requires Succeeded(Run(w, more), rid)
    ensures CanSucceed(w, rid)
  {
  }

  // One undisturbed step of an accepted request: where it goes and what it leaves alone.
  lemma GoodGet(w: World, rid: nat, r: Request, c: Choice)
    requires rid in w.requests && r == w.requests[rid] && r.pc.GetToken? && r.flow.Refresh?
    requires r.user == Some(r.flow.user)
    requires c.io.Good? && Live(w, r.flow.user, r.flow.provided)
    ensures StepGet(w, rid, r, c) == w.(requests := w.requests[rid := r.(pc := DelToken)])
  {
  }

  lemma GoodDel(w: World, rid: nat, r: Request, c: Choice)
    requires rid in w.requests && r == w.requests[rid] && r.pc.DelToken? && c.io.Good?
    ensures StepDel(w, rid, r, c, Mint)
         == w.(requests := w.requests[rid := r.(pc := Mint)], slots := Erase(w.slots, KeyOf(r)))
  {
  }

  lemma GoodMint(w: World, rid: nat, r: Request, c: Choice)
    requires rid in w.requests && r == w.requests[rid] && r.pc.Mint? && c.io.Good? && c.draw !in w.drawn
    ensures StepMint(w, rid, r, c)
         == w.(requests := w.requests[rid := r.(pc := SetToken(Pair(w, r, c.draw)))], drawn := w.drawn + {c.draw})
  {
  }

  lemma GoodSet(w: World, rid: nat, r: Request, c: Choice)
    requires rid in w.requests && r == w.requests[rid] && r.pc.SetToken? && c.io.Good?
    ensures var w2 := StepSet(w, rid, r, c, r.pc.pair);
            w2.requests == w.requests[rid := r.(pc := Done(Issued(r.pc.pair)))] && w2.drawn == w.drawn
  {
  }

  // How many steps of its own an accepted request is from its end.
  function ToGo(pc: Pc): nat {
    if pc.DelToken? then 3 else if pc.Mint? then 2 else if pc.SetToken? then 1 else 0
  }

  // The step every request of these proofs takes: the call works, and a draw is `unused`.
  function Works(rid: nat, unused: Draw): Event {
    Step(rid, Choice(Good, "", 0, None, unused))
  }

  ghost predicate OnlyMoved(w: World, w2: World, rid: nat, unused: Draw) {
    && rid in w2.requests && w2.requests == w.requests[rid := w2.requests[rid]]
    && w2.drawn <= w.drawn + {unused}
  }

  lemma OneWorks(w: World, rid: nat, unused: Draw)
    requires rid in w.requests && Accepted(w.requests[rid].pc) && ToGo(w.requests[rid].pc) > 0
    requires w.requests[rid].pc.Mint? ==> unused !in w.drawn
    ensures var w2 := Next(w, Works(rid, unused));
            && OnlyMoved(w, w2, rid, unused) && Accepted(w2.requests[rid].pc)
            && ToGo(w2.requests[rid].pc) == ToGo(w.requests[rid].pc) - 1
            && (!w.requests[rid].pc.Mint? ==> w2.drawn == w.drawn)
  {
    var r, c := w.requests[rid], Works(rid, unused).choice;
    if r.pc.DelToken? { GoodDel(w, rid, r, c); }
    else if r.pc.Mint? { GoodMint(w, rid, r, c); }
    else { GoodSet(w, rid, r, c); }
  }

  // An accepted request can finish by itself, whatever else is going on.
  lemma {:induction false} FinishAccepted(w: World, rid: nat, unused: Draw) returns (more: seq<Event>)
    requires rid in w.requests && Accepted(w.requests[rid].pc)
    requires w.requests[rid].pc.DelToken? || w.requests[rid].pc.Mint? ==> unused !in w.drawn
    ensures Succeeded(Run(w, more), rid) && OnlyMoved(w, Run(w, more), rid, unused)
    decreases ToGo(w.requests[rid].pc)
  {
    if ToGo(w.requests[rid].pc) == 0 {
      more := [];
    } else {
      var e := Works(rid, unused);
      OneWorks(w, rid, unused);
      var rest := FinishAccepted(Next(w, e), rid, unused);
      more := [e] + rest;
      Runs.RunConcat(Next, w, [e], rest);
      Runs.RunOne(Next, w, e);
    }
  }

  // A Refresh at its GET whose token is live is accepted by a GET that works.
  lemma GetWorks(w: World, rid: nat, user: Uuid, token: string, unused: Draw)
    requires IsRefresh(w, rid, user, token) && w.requests[rid].user == Some(user) && w.requests[rid].pc.GetToken?
    requires Live(w, user, token)
    ensures var w2 := Run(w, [Works(rid, unused)]);
            && w2 == w.(requests := w.requests[rid := w.requests[rid].(pc := DelToken)])
            && Live(w2, user, token)
  {
    Runs.RunOne(Next, w, Works(rid, unused));
    GoodGet(w, rid, w.requests[rid], Works(rid, unused).choice);
  }

  /** A Refresh about to make its GET, with a token that has been issued, can still succeed if and
      only if the token is live at that moment, whoever else has already been accepted with it. */
  lemma CanSucceedIffLiveAtGet(
      cfg: Config, now: int, events: seq<Event>, rid: nat, user: Uuid, token: string, unused: Draw)
    requires var w := Run(Init(cfg, now), events);
             && IsRefresh(w, rid, user, token) && w.requests[rid].pc.GetToken?
             && Settled(w, token) && unused !in w.drawn
    ensures var w := Run(Init(cfg, now), events);
            CanSucceed(w, rid) <==> Live(w, user, token)
  {
    var w := Run(Init(cfg, now), events);
    RefreshWellFormed(cfg, now, events, rid);
    if Live(w, user, token) {
      GetWorks(w, rid, user, token, unused);
      var get := [Works(rid, unused)];
      var more := FinishAccepted(Run(w, get), rid, unused);
      Runs.RunConcat(Next, w, get, more);
      SucceedsBy(w, rid, get + more);
    } else if CanSucceed(w, rid) {
      var more: seq<Event> :| Succeeded(Run(w, more), rid);
      LateRefreshFails(w, more, rid, user, token);
    }
  }

  // ---- Two requests with one token ----

  ghost predicate BothCanSucceed(w: World, a: nat, b: nat) {
    exists more: seq<Event> :: Succeeded(Run(w, more), a) && Succeeded(Run(w, more), b)
  }

  // Once both are accepted nothing stands in the way of either.
  lemma BothFinish(w: World, a: nat, b: nat, one: Draw, other: Draw)
    requires a != b && a in w.requests && b in w.requests && one != other && one !in w.drawn && other !in w.drawn
    requires Accepted(w.requests[a].pc) && Accepted(w.requests[b].pc)
    ensures BothCanSucceed(w, a, b)
  {
    var first := FinishAccepted(w, a, one);
    var w1 := Run(w, first);
    assert w1.requests[b] == w.requests[b] && other !in w1.drawn;
    var second := FinishAccepted(w1, b, other);
    Runs.RunConcat(Next, w, first, second);
    assert Run(w1, second).requests[a] == w1.requests[a];
    assert Succeeded(Run(w, first + second), a) && Succeeded(Run(w, first + second), b);
  }

  // What b's GET decides, when a needs no GET any more.
  lemma AcceptedAndAtGet(w: World, a: nat, b: nat, user: Uuid, token: string, one: Draw, other: Draw)
    requires a != b && a in w.requests && Accepted(w.requests[a].pc)
    requires IsRefresh(w, b, user, token) && w.requests[b].user == Some(user) && w.requests[b].pc.GetToken?
    requires one != other && one !in w.drawn && other !in w.drawn && Live(w, user, token)
    ensures BothCanSucceed(w, a, b)
  {
    var get := [Works(b, other)];
    GetWorks(w, b, user, token, other);
    BothFinish(Run(w, get), a, b, one, other);
    BothAfter(w, get, a, b);
  }

  lemma BothAfter(w: World, first: seq<Event>, a: nat, b: nat)
    requires BothCanSucceed(Run(w, first), a, b)
    ensures BothCanSucceed(w, a, b)
  {
    var more: seq<Event> :| Succeeded(Run(Run(w, first), more), a) && Succeeded(Run(Run(w, first), more), b);
    Runs.RunConcat(Next, w, first, more);
    assert Succeeded(Run(w, first + more), a);
  }

  /** The exact condition behind the comment on Refresh, which promises that of two simultaneous
      attempts one fails. In every reachable world, of two requests with one token of which one is about
      to make its GET and the other is too or has been accepted: both can still succeed if and only if
      the token is live. So one must fail exactly when a DEL, a store or the clock came first. */
  lemma BothCanSucceedIffLive(
      cfg: Config, now: int, events: seq<Event>, a: nat, b: nat, user: Uuid, token: string, one: Draw, other: Draw)
    requires var w := Run(Init(cfg, now), events);
             && a != b && IsRefresh(w, a, user, token) && IsRefresh(w, b, user, token)
             && (w.requests[a].pc.GetToken? || Accepted(w.requests[a].pc)) && w.requests[b].pc.GetToken?
             && Settled(w, token) && one != other && one !in w.drawn && other !in w.drawn
    ensures var w := Run(Init(cfg, now), events); BothCanSucceed(w, a, b) <==> Live(w, user, token)
  {
    var w := Run(Init(cfg, now), events);
    RefreshWellFormed(cfg, now, events, a);
    RefreshWellFormed(cfg, now, events, b);
    if Live(w, user, token) {
      if Accepted(w.requests[a].pc) {
        AcceptedAndAtGet(w, a, b, user, token, one, other);
      } else {
        var get := [Works(a, one)];
        GetWorks(w, a, user, token, one);
        AcceptedAndAtGet(Run(w, get), a, b, user, token, one, other);
        BothAfter(w, get, a, b);
      }
    } else if BothCanSucceed(w, a, b) {
      var more: seq<Event> :| Succeeded(Run(w, more), a) && Succeeded(Run(w, more), b);
      LateRefreshFails(w, more, b, user, token);
    }
  }
}
