/** What non-overlapping schedules guarantee to a client, read off the refinement. */
module RefreshTheorems {
  import opened Uuids
  import opened RedisKeys
  import opened AuthProtocol
  import opened Accounts
  import opened RefreshSlots
  import opened TokenIntervals
  import opened OneSlotSpec
  import opened RefreshRefinement
  import Runs

  // Event i is the step with which request rid ends, and this is its outcome.
  ghost predicate EndsAt(w0: World, events: seq<Event>, i: nat, rid: nat) {
    && i < |events| && events[i].Step? && events[i].rid == rid
    && rid in After(w0, events, i).requests && !After(w0, events, i).requests[rid].pc.Done?
    && rid in After(w0, events, i + 1).requests && After(w0, events, i + 1).requests[rid].pc.Done?
  }

  // Event i answers a Refresh of `user` presenting `token` with a new pair.
  ghost predicate RefreshSucceedsAt(w0: World, events: seq<Event>, i: nat, user: Uuid, token: string) {
    && i < |events| && events[i].Step? && EndsAt(w0, events, i, events[i].rid)
    && After(w0, events, i).requests[events[i].rid].flow == Flow.Refresh(user, token)
    && After(w0, events, i + 1).requests[events[i].rid].pc.outcome.Issued?
  }

  // Event i answers a Logout of `user` with success.
  ghost predicate LogoutSucceedsAt(w0: World, events: seq<Event>, i: nat, user: Uuid) {
    && i < |events| && events[i].Step? && EndsAt(w0, events, i, events[i].rid)
    && After(w0, events, i).requests[events[i].rid].flow == Flow.Logout(user)
    && After(w0, events, i + 1).requests[events[i].rid].pc.outcome.LoggedOut?
  }

  // Event i is a SET of a refresh token for `user` that takes effect.
  ghost predicate StoresAt(w0: World, events: seq<Event>, i: nat, user: Uuid) {
    && i < |events| && events[i].Step? && events[i].rid in After(w0, events, i).requests
    && var r := After(w0, events, i).requests[events[i].rid];
       r.pc.SetToken? && UserOf(r) == user && !events[i].choice.io.Lost?
  }

  lemma EndingPc(w: World, rid: nat, r: Request, c: Choice)
    requires rid in w.requests && r == w.requests[rid] && RequestShape(r) && !r.pc.Done?
    requires var w2 := StepRequest(w, rid, r, c); rid in w2.requests && w2.requests[rid].pc.Done?
    ensures var out := StepRequest(w, rid, r, c).requests[rid].pc.outcome;
            && (out.Issued? ==> r.pc.SetToken? && c.io.Good?)
            && (out.LoggedOut? ==> r.pc.LogoutDel? && c.io.Good?)
  {
    if StorePc(r.pc) { StoreStepSame(w, rid, r, c); }
  }

  lemma RefreshIsRedeem(cfg: Config, now: int, events: seq<Event>, i: nat, user: Uuid, token: string)
    requires RefreshSucceedsAt(Init(cfg, now), events, i, user, token)
    ensures Ops(Init(cfg, now), events)[i].Redeem?
    ensures Ops(Init(cfg, now), events)[i].user == user && Ops(Init(cfg, now), events)[i].spent == token
  {
    var w0 := Init(cfg, now);
    var w := After(w0, events, i);
    var rid := events[i].rid;
    RunAccounts(cfg, now, events[..i]);
    Runs.AfterStep(Next, w0, events, i);
    OpsAt(w0, events, i);
    assert RequestShape(w.requests[rid]);
    EndingPc(w, rid, w.requests[rid], events[i].choice);
  }

  lemma LogoutIsSignOut(cfg: Config, now: int, events: seq<Event>, i: nat, user: Uuid)
    requires LogoutSucceedsAt(Init(cfg, now), events, i, user)
    ensures Ops(Init(cfg, now), events)[i] == SignOut(user)
  {
    var w0 := Init(cfg, now);
    var w := After(w0, events, i);
    var rid := events[i].rid;
    RunAccounts(cfg, now, events[..i]);
    Runs.AfterStep(Next, w0, events, i);
    OpsAt(w0, events, i);
    assert RequestShape(w.requests[rid]);
    EndingPc(w, rid, w.requests[rid], events[i].choice);
  }

  lemma FillIsStore(w0: World, events: seq<Event>, i: nat, user: Uuid)
    requires i < |events| && Fills(Ops(w0, events)[i], user)
    ensures StoresAt(w0, events, i, user)
  {
    OpsAt(w0, events, i);
  }

  /** If no user's requests overlap, no refresh token is ever redeemed twice. */
  lemma RedeemedAtMostOnce(
      cfg: Config, now: int, events: seq<Event>, i: nat, j: nat, u: Uuid, v: Uuid, token: string)
    requires NoOverlap(Init(cfg, now), events) && i < j
    requires RefreshSucceedsAt(Init(cfg, now), events, i, u, token)
    ensures !RefreshSucceedsAt(Init(cfg, now), events, j, v, token)
  {
    if RefreshSucceedsAt(Init(cfg, now), events, j, v, token) {
      RunRefines(cfg, now, events);
      RefreshIsRedeem(cfg, now, events, i, u, token);
      RefreshIsRedeem(cfg, now, events, j, v, token);
      RedeemedOnce(Ops(Init(cfg, now), events), i, j);
    }
  }

  // ---- Logout against Refresh, for any interleaving ----

  lemma LogoutEmpties(cfg: Config, now: int, events: seq<Event>, i: nat, user: Uuid)
    requires LogoutSucceedsAt(Init(cfg, now), events, i, user)
    ensures RefreshKey(user) !in After(Init(cfg, now), events, i + 1).slots
  {
    var w := After(Init(cfg, now), events, i);
    var rid := events[i].rid;
    RunAccounts(cfg, now, events[..i]);
    Runs.AfterStep(Next, Init(cfg, now), events, i);
    assert RequestShape(w.requests[rid]);
    EndingPc(w, rid, w.requests[rid], events[i].choice);
  }

  lemma EmptyStep(w: World, e: Event, user: Uuid)
    requires RefreshKey(user) !in w.slots
    requires e.Step? && e.rid in w.requests && w.requests[e.rid].pc.SetToken? ==>
               UserOf(w.requests[e.rid]) != user || e.choice.io.Lost?
    ensures RefreshKey(user) !in Next(w, e).slots
  {
    if e.Step? && e.rid in w.requests {
      StepFollows(w, e.rid, w.requests[e.rid], e.choice);
      RefreshKeyInjective(user, UserOf(w.requests[e.rid]));
    }
  }

  lemma {:induction false} EmptyUntilStored(w0: World, events: seq<Event>, i: nat, j: nat, user: Uuid)
    requires i <= j <= |events| && RefreshKey(user) !in After(w0, events, i).slots
    requires forall m :: i <= m < j ==> !StoresAt(w0, events, m, user)
    ensures RefreshKey(user) !in After(w0, events, j).slots
    decreases j
  {
    if i < j {
      EmptyUntilStored(w0, events, i, j - 1, user);
      assert !StoresAt(w0, events, j - 1, user);
      Runs.AfterStep(Next, w0, events, j - 1);
      EmptyStep(After(w0, events, j - 1), events[j - 1], user);
    }
  }

  /** In every schedule, overlapping or not: if a Refresh is served by its GET after a successful Logout
      of its user, then a token was stored for the user in between. */
  lemma ServedAfterLogoutNeedsStore(
      cfg: Config, now: int, events: seq<Event>, i: nat, k: nat, rid: nat, user: Uuid, token: string)
    requires LogoutSucceedsAt(Init(cfg, now), events, i, user) && i < k
    requires ServedAt(Init(cfg, now), events, rid, user, token, k)
    ensures exists m: nat :: i < m < k && StoresAt(Init(cfg, now), events, m, user)
  {
    var w0 := Init(cfg, now);
    LogoutEmpties(cfg, now, events, i, user);
    if forall m: nat :: i < m < k ==> !StoresAt(w0, events, m, user) {
      EmptyUntilStored(w0, events, i + 1, k, user);
    }
  }

  // ---- Logout against Refresh, without overlap ----

  // A request keeps its flow, and once it is done it stays done.
  lemma {:induction false} RecordKept(w0: World, events: seq<Event>, rid: nat, i: nat, j: nat)
    requires i <= j <= |events| && rid in After(w0, events, i).requests
    ensures rid in After(w0, events, j).requests
    ensures After(w0, events, j).requests[rid].flow == After(w0, events, i).requests[rid].flow
    ensures After(w0, events, i).requests[rid].pc.Done? ==> After(w0, events, j).requests[rid].pc.Done?
    decreases j
  {
    if i < j {
      RecordKept(w0, events, rid, i, j - 1);
      Runs.AfterStep(Next, w0, events, j - 1);
      var w, e := After(w0, events, j - 1), events[j - 1];
      if e.Step? && e.rid in w.requests {
        StepFollows(w, e.rid, w.requests[e.rid], e.choice);
        StepFlow(w, e.rid, w.requests[e.rid], e.choice);
      }
    }
  }

  // Without overlap a Refresh that is unfinished after a Logout of its user made its GET after it.
  lemma ServedAfterLogout(
      cfg: Config, now: int, events: seq<Event>, i: nat, g: nat, t: nat, rid: nat, user: Uuid, token: string)
    requires NoOverlap(Init(cfg, now), events) && LogoutSucceedsAt(Init(cfg, now), events, i, user)
    requires ServedAt(Init(cfg, now), events, rid, user, token, g) && i < t <= |events|
    requires rid in After(Init(cfg, now), events, t).requests
    requires !After(Init(cfg, now), events, t).requests[rid].pc.Done?
    ensures i < g
  {
    var w0 := Init(cfg, now);
    var w := After(w0, events, i);
    if g < i {
      RecordKept(w0, events, rid, g, i);
      RecordKept(w0, events, rid, i, t);
      RefreshWellFormed(cfg, now, events[..i], rid);
      RunAccounts(cfg, now, events[..i]);
      assert RequestShape(w.requests[events[i].rid]);
      assert Exclusive(w) && Active(w, rid, user) && Active(w, events[i].rid, user);
    }
  }

  lemma {:induction false} FirstStore(w0: World, events: seq<Event>, user: Uuid, i: nat, k: nat) returns (m: nat)
    requires i < k && StoresAt(w0, events, k, user)
    ensures i < m <= k && StoresAt(w0, events, m, user)
    ensures forall l: nat :: i < l < m ==> !StoresAt(w0, events, l, user)
    decreases k
  {
    if l: nat :| i < l < k && StoresAt(w0, events, l, user) {
      m := FirstStore(w0, events, user, i, l);
    } else {
      m := k;
    }
  }

  // The store is a login's: its request came by a new account or a verified Google identity.
  ghost predicate IssuesAt(w0: World, events: seq<Event>, m: nat, user: Uuid) {
    StoresAt(w0, events, m, user) && LoginFlow(After(w0, events, m).requests[events[m].rid].flow)
  }

  lemma FirstStoreIsLogin(cfg: Config, now: int, events: seq<Event>, i: nat, m: nat, user: Uuid)
    requires NoOverlap(Init(cfg, now), events) && LogoutSucceedsAt(Init(cfg, now), events, i, user)
    requires i < m && StoresAt(Init(cfg, now), events, m, user)
    requires forall l: nat :: i < l < m ==> !StoresAt(Init(cfg, now), events, l, user)
    ensures IssuesAt(Init(cfg, now), events, m, user)
  {
    var w0, rid, front := Init(cfg, now), events[m].rid, events[..m];
    var r := After(w0, events, m).requests[rid];
    RunAccounts(cfg, now, front);
    assert RequestShape(r);
    if r.flow.Refresh? {
      var token := r.flow.provided;
      AcceptedInsideInterval(cfg, now, front, rid, user, token);
      var g: nat :| ServedAt(w0, front, rid, user, token, g);
      assert front[..g] == events[..g];
      assert ServedAt(w0, events, rid, user, token, g);
      ServedAfterLogout(cfg, now, events, i, g, m, rid, user, token);
      ServedAfterLogoutNeedsStore(cfg, now, events, i, g, rid, user, token);
    }
  }

  /** If no user's requests overlap, then after a successful Logout no Refresh of that user succeeds
      until a login has stored a token for the user again, and no Refresh stores one before that. */
  lemma LoggedOutUntilNextIssue(cfg: Config, now: int, events: seq<Event>, i: nat, j: nat, user: Uuid, token: string)
    requires NoOverlap(Init(cfg, now), events) && i < j
    requires LogoutSucceedsAt(Init(cfg, now), events, i, user)
    requires RefreshSucceedsAt(Init(cfg, now), events, j, user, token)
    ensures exists m: nat :: i < m < j && IssuesAt(Init(cfg, now), events, m, user)
                             && forall l: nat :: i < l < m ==> !StoresAt(Init(cfg, now), events, l, user)
  {
    var ops := Ops(Init(cfg, now), events);
    RunRefines(cfg, now, events);
    LogoutIsSignOut(cfg, now, events, i, user);
    RefreshIsRedeem(cfg, now, events, j, user, token);
    LogoutHolds(ops, i, j);
    var k: nat :| i < k < j && Fills(ops[k], user);
    FillIsStore(Init(cfg, now), events, k, user);
    var m := FirstStore(Init(cfg, now), events, user, i, k);
    FirstStoreIsLogin(cfg, now, events, i, m, user);
  }
}
