/** When the requests of one user do not overlap, the separate GET, DEL and SET calls refine
    the one-slot specification, whatever calls fail and whatever tokens expire. */
module RefreshRefinement {
  import opened Wrappers
  import opened Uuids
  import opened RedisKeys
  import opened AuthProtocol
  import opened Accounts
  import opened RefreshSlots
  import opened OneSlotSpec

  // The request is bound to the user and has not finished.
  ghost predicate Active(w: World, rid: nat, user: Uuid) {
    rid in w.requests && w.requests[rid].user == Some(user) && !w.requests[rid].pc.Done?
  }

  // No two unfinished requests act for the same user.
  ghost predicate Exclusive(w: World) {
    forall a: nat, b: nat, u: Uuid :: Active(w, a, u) && Active(w, b, u) ==> a == b
  }

  // An accepted Refresh: its token is spoken for until it finishes.
  ghost predicate Reserving(w: World, rid: nat, user: Uuid) {
    rid in w.requests && w.requests[rid].flow.Refresh? && w.requests[rid].flow.user == user &&
        Issuing(w.requests[rid].pc)
  }

  function Slot(w: World, user: Uuid): Option<string> {
    Read(w.slots, w.now, RefreshKey(user))
  }

  function SpecSlot(s: Spec, user: Uuid): Option<string> {
    if user in s.slot then Some(s.slot[user]) else None
  }

  // The specification's slot is the stored token, or the one an accepted Refresh is trading in.
  ghost predicate Agrees(w: World, s: Spec, user: Uuid) {
    && (forall rid :: Reserving(w, rid, user) ==> SpecSlot(s, user) == Some(w.requests[rid].flow.provided))
    && ((forall rid :: !Reserving(w, rid, user)) ==> SpecSlot(s, user) == Slot(w, user))
  }

  // While a Refresh is past its DEL its user's slot is empty; before, it holds at most the old token.
  ghost predicate Cleared(w: World, rid: nat) {
    rid in w.requests && w.requests[rid].flow.Refresh? ==>
      var r, key := w.requests[rid], RefreshKey(w.requests[rid].flow.user);
      && (r.pc.DelToken? && key in w.slots ==> w.slots[key].token == r.flow.provided)
      && (r.pc.Mint? || r.pc.SetToken? ==> key !in w.slots)
  }

  ghost predicate UsedTokens(w: World, s: Spec) {
    forall token :: token in s.used ==> Drawn(w, token) && forall rid :: !Pending(w, rid, token)
  }

  ghost predicate Rel(w: World, s: Spec) {
    && (forall u: Uuid :: Agrees(w, s, u))
    && (forall rid :: Cleared(w, rid))
    && UsedTokens(w, s)
  }

  // ---- The operation each event stands for ----

  predicate Expires(w: World, user: Uuid, d: nat) {
    Slot(w, user).Some? && Read(w.slots, w.now + d, RefreshKey(user)).None?
  }

  ghost function ExpiryOf(w: World, d: nat): set<Uuid> {
    set row | row in w.db.committed.users && Expires(w, row.id, d) &&
        (forall rid :: !Reserving(w, rid, row.id)) :: row.id
  }

  function OpOfStep(w: World, r: Request, c: Choice): Op {
    var user := UserOf(r);
    match r.pc
    case DelToken =>
      if c.io.Good? then Skip
      else if c.io.Applied? || Slot(w, user).None? then Drop(user) else Skip
    case Mint =>
      if (c.io.Good? && c.draw !in w.drawn) || !r.flow.Refresh? then Skip else Drop(user)
    case SetToken(pair) =>
      if c.io.Applied? then SilentPut(user, pair.refresh)
      else if c.io.Good? then
        (if r.flow.Refresh? then Redeem(user, r.flow.provided, pair.refresh) else Issue(user, pair.refresh))
      else if r.flow.Refresh? then Drop(user) else Skip
    case LogoutDel =>
      if c.io.Good? then SignOut(user) else if c.io.Applied? then Drop(user) else Skip
    case _ => Skip
  }

  ghost function OpOf(w: World, e: Event): Op {
    match e
    case Tick(d) => Expire(ExpiryOf(w, d))
    case Start(_, _) => Skip
    case Step(rid, c) => if rid in w.requests then OpOfStep(w, w.requests[rid], c) else Skip
  }

  // ---- Time ----

  lemma TickRefines(w: World, s: Spec, d: nat)
    requires Rel(w, s) && Owned(w)
    ensures Rel(Next(w, Tick(d)), Apply(s, OpOf(w, Tick(d))))
  {
    var w2, s2 := Next(w, Tick(d)), Apply(s, OpOf(w, Tick(d)));
    forall u: Uuid ensures Agrees(w2, s2, u) {
      assert Agrees(w, s, u);
      assert forall rid :: Reserving(w2, rid, u) == Reserving(w, rid, u);
      if Expires(w, u, d) && (forall rid :: !Reserving(w, rid, u)) {
        OwnerOf(w.db.committed, u);
        var i :| 0 <= i < |w.db.committed.users| && w.db.committed.users[i].id == u;
        assert w.db.committed.users[i] in w.db.committed.users;
        assert u in ExpiryOf(w, d);
      } else {
        assert u !in ExpiryOf(w, d);
      }
    }
    assert UsedTokens(w2, s2) by {
      forall token | token in s2.used ensures Drawn(w2, token) && forall rid :: !Pending(w2, rid, token) {
        forall rid ensures !Pending(w2, rid, token) { assert !Pending(w, rid, token); }
      }
    }
    forall rid ensures Cleared(w2, rid) { assert Cleared(w, rid); }
  }

  // ---- Steps ----

  // Everything about users other than `user` is as it was.
  ghost predicate OnlyUser(w: World, w2: World, rid: nat, user: Uuid) {
    && rid in w.requests && w2.requests.Keys == w.requests.Keys && w2.now == w.now
    && (forall x :: x in w.requests && x != rid ==> w2.requests[x] == w.requests[x])
    && (forall u: Uuid :: u != user ==> (RefreshKey(u) in w2.slots <==> RefreshKey(u) in w.slots))
    && (forall u: Uuid :: u != user && RefreshKey(u) in w.slots ==> w2.slots[RefreshKey(u)] == w.slots[RefreshKey(u)])
    && (forall u: Uuid :: u != user ==> !Reserving(w, rid, u) && !Reserving(w2, rid, u))
  }

  lemma OthersAgree(w: World, w2: World, s: Spec, s2: Spec, rid: nat, user: Uuid, u: Uuid)
    requires OnlyUser(w, w2, rid, user) && u != user && SpecSlot(s2, u) == SpecSlot(s, u) && Agrees(w, s, u)
    ensures Agrees(w2, s2, u)
  {
    assert Slot(w2, u) == Slot(w, u);
    forall x ensures Reserving(w2, x, u) == Reserving(w, x, u) {}
  }

  lemma OthersCleared(w: World, w2: World, rid: nat, user: Uuid, x: nat)
    requires OnlyUser(w, w2, rid, user) && x != rid && Cleared(w, x)
    requires x in w.requests && w.requests[x].flow.Refresh? && Issuing(w.requests[x].pc) ==>
        w.requests[x].flow.user != user
    ensures Cleared(w2, x)
  {
  }

  ghost predicate SpecElsewhere(s: Spec, s2: Spec, user: Uuid) {
    forall u: Uuid :: u != user ==> SpecSlot(s2, u) == SpecSlot(s, u)
  }

  // What is left to show for the user a step acts on, when no other request acts for it.
  ghost predicate OwnUserOk(w: World, w2: World, s2: Spec, rid: nat, user: Uuid) {
    && (Reserving(w2, rid, user) ==> SpecSlot(s2, user) == Some(w2.requests[rid].flow.provided))
    && (!Reserving(w2, rid, user) ==> SpecSlot(s2, user) == Slot(w2, user))
    && Cleared(w2, rid)
  }

  lemma Assemble(w: World, w2: World, s: Spec, s2: Spec, rid: nat, user: Uuid)
    requires Rel(w, s) && OnlyUser(w, w2, rid, user) && SpecElsewhere(s, s2, user) && OwnUserOk(w, w2, s2, rid, user)
    requires forall x :: x != rid ==> !Reserving(w, x, user)
    ensures forall u: Uuid :: Agrees(w2, s2, u)
    ensures forall x :: Cleared(w2, x)
  {
    forall x | x != rid ensures !Reserving(w2, x, user) { assert !Reserving(w, x, user); }
    forall u: Uuid ensures Agrees(w2, s2, u) {
      if u != user {
        assert Agrees(w, s, u);
        OthersAgree(w, w2, s, s2, rid, user, u);
      }
    }
    forall x ensures Cleared(w2, x) {
      if x != rid {
        assert Cleared(w, x) && !Reserving(w, x, user);
        OthersCleared(w, w2, rid, user, x);
      }
    }
  }

  // ---- Steps of a request that is bound to a user: Redis calls and minting ----

  predicate RedisPc(pc: Pc) { pc.GetToken? || pc.DelToken? || pc.Mint? || pc.SetToken? || pc.LogoutDel? }

  lemma RedisOnlyUser(w: World, rid: nat, r: Request, c: Choice)
    requires rid in w.requests && r == w.requests[rid] && RedisPc(r.pc) && RequestShape(r) && r.user.Some?
    ensures OnlyUser(w, StepRequest(w, rid, r, c), rid, r.user.value)
  {
    var w2 := StepRequest(w, rid, r, c);
    StepFollows(w, rid, r, c);
    StoreStepSame(w, rid, r, c);
    RedisSlots(w, rid, r, c);
  }

  lemma RedisSlots(w: World, rid: nat, r: Request, c: Choice)
    requires rid in w.requests && r == w.requests[rid] && RedisPc(r.pc)
    ensures var w2 := StepRequest(w, rid, r, c);
            && w2.now == w.now
            && (forall u: Uuid :: u != UserOf(r) ==> (RefreshKey(u) in w2.slots <==> RefreshKey(u) in w.slots))
            && (forall u: Uuid :: u != UserOf(r) && RefreshKey(u) in w.slots ==>
                w2.slots[RefreshKey(u)] == w.slots[RefreshKey(u)])
  {
    forall u: Uuid | u != UserOf(r) ensures RefreshKey(u) != KeyOf(r) { RefreshKeyInjective(u, UserOf(r)); }
  }

  lemma SpecSteps(s: Spec, w: World, r: Request, c: Choice)
    ensures SpecElsewhere(s, Apply(s, OpOfStep(w, r, c)), UserOf(r))
  {
  }

  // What is known about the acting user before the step.
  ghost predicate Before(w: World, s: Spec, rid: nat, r: Request, user: Uuid) {
    && rid in w.requests && r == w.requests[rid] && r.user == Some(user) && RequestShape(r)
    && (Reserving(w, rid, user) ==> SpecSlot(s, user) == Some(r.flow.provided))
    && (!Reserving(w, rid, user) ==> SpecSlot(s, user) == Slot(w, user))
    && Cleared(w, rid)
  }

  lemma GetOwn(w: World, s: Spec, rid: nat, r: Request, c: Choice, user: Uuid)
    requires Before(w, s, rid, r, user) && r.pc.GetToken?
    ensures OwnUserOk(w, StepGet(w, rid, r, c), s, rid, user)
  {
  }

  lemma DelOwn(w: World, s: Spec, rid: nat, r: Request, c: Choice, user: Uuid)
    requires Before(w, s, rid, r, user) && r.pc.DelToken?
    ensures OwnUserOk(w, StepDel(w, rid, r, c, Mint), Apply(s, OpOfStep(w, r, c)), rid, user)
  {
  }

  lemma MintOwn(w: World, s: Spec, rid: nat, r: Request, c: Choice, user: Uuid)
    requires Before(w, s, rid, r, user) && r.pc.Mint?
    ensures OwnUserOk(w, StepMint(w, rid, r, c), Apply(s, OpOfStep(w, r, c)), rid, user)
  {
  }

  lemma SetOwn(w: World, s: Spec, rid: nat, r: Request, c: Choice, user: Uuid)
    requires Before(w, s, rid, r, user) && r.pc.SetToken?
    ensures OwnUserOk(w, StepSet(w, rid, r, c, r.pc.pair), Apply(s, OpOfStep(w, r, c)), rid, user)
  {
  }

  lemma LogoutOwn(w: World, s: Spec, rid: nat, r: Request, c: Choice, user: Uuid)
    requires Before(w, s, rid, r, user) && r.pc.LogoutDel?
    ensures OwnUserOk(w, StepDel(w, rid, r, c, Done(LoggedOut)), Apply(s, OpOfStep(w, r, c)), rid, user)
  {
  }

  lemma RedisOwn(w: World, s: Spec, rid: nat, r: Request, c: Choice, user: Uuid)
    requires Before(w, s, rid, r, user) && RedisPc(r.pc)
    ensures OwnUserOk(w, StepRequest(w, rid, r, c), Apply(s, OpOfStep(w, r, c)), rid, user)
  {
    match r.pc {
      case GetToken => GetOwn(w, s, rid, r, c, user);
      case DelToken => DelOwn(w, s, rid, r, c, user);
      case Mint => MintOwn(w, s, rid, r, c, user);
      case SetToken(_) => SetOwn(w, s, rid, r, c, user);
      case LogoutDel => LogoutOwn(w, s, rid, r, c, user);
    }
  }

  // ---- Tokens used by the specification ----

  lemma FreshForSpec(w: World, s: Spec, rid: nat, r: Request, c: Choice)
    requires UsedTokens(w, s) && rid in w.requests && r == w.requests[rid]
    requires r.pc.SetToken? && r.flow.Refresh? ==> SpecSlot(s, UserOf(r)) == Some(r.flow.provided)
    ensures Allowed(s, OpOfStep(w, r, c))
  {
    if r.pc.SetToken? {
      assert Pending(w, rid, r.pc.pair.refresh);
    }
  }

  lemma UsedAfter(s: Spec, w: World, r: Request, c: Choice, token: string)
    requires token in Apply(s, OpOfStep(w, r, c)).used
    ensures token in s.used || (r.pc.SetToken? && token == r.pc.pair.refresh && !c.io.Lost?)
  {
  }

  lemma UsedTokensStep(w: World, s: Spec, rid: nat, r: Request, c: Choice)
    requires UsedTokens(w, s) && Tokens(w) && rid in w.requests && r == w.requests[rid]
    ensures UsedTokens(StepRequest(w, rid, r, c), Apply(s, OpOfStep(w, r, c)))
  {
    var w2, s2 := StepRequest(w, rid, r, c), Apply(s, OpOfStep(w, r, c));
    StepFollows(w, rid, r, c);
    forall token | token in s2.used ensures Drawn(w2, token) && forall x :: !Pending(w2, x, token) {
      UsedAfter(s, w, r, c, token);
      forall x ensures !Pending(w2, x, token) {
        if token in s.used { assert !Pending(w, x, token); }
      }
    }
  }

  // ---- Steps that touch no slot ----

  lemma AccountStepRefines(w: World, s: Spec, rid: nat, r: Request, c: Choice)
    requires Rel(w, s) && Tokens(w) && rid in w.requests && r == w.requests[rid] && RequestShape(r) && !RedisPc(r.pc)
    ensures Rel(StepRequest(w, rid, r, c), s)
  {
    var w2 := StepRequest(w, rid, r, c);
    AccountStepFrame(w, rid, r, c);
    UsedTokensStep(w, s, rid, r, c);
    forall x, u: Uuid ensures Reserving(w2, x, u) == Reserving(w, x, u) {}
    forall u: Uuid ensures Agrees(w2, s, u) {
      assert Agrees(w, s, u) && Slot(w2, u) == Slot(w, u);
    }
    forall x ensures Cleared(w2, x) { assert Cleared(w, x); }
  }

  lemma AccountStepFrame(w: World, rid: nat, r: Request, c: Choice)
    requires rid in w.requests && r == w.requests[rid] && RequestShape(r) && !RedisPc(r.pc)
    ensures var w2 := StepRequest(w, rid, r, c);
            && w2.slots == w.slots && w2.now == w.now && w2.requests.Keys == w.requests.Keys
            && (forall x :: x in w.requests && x != rid ==> w2.requests[x] == w.requests[x])
            && w2.requests[rid].flow == r.flow
            && (r.flow.Refresh? ==> w2.requests[rid] == r)
  {
    StepFollows(w, rid, r, c);
    if StorePc(r.pc) { StoreStepSame(w, rid, r, c); }
    if r.flow.Refresh? { assert r.pc.Done?; }
  }

  // ---- Every event refines its operation ----

  lemma RedisStepRefines(w: World, s: Spec, rid: nat, r: Request, c: Choice)
    requires Rel(w, s) && Tokens(w) && Exclusive(w) && rid in w.requests && r == w.requests[rid]
    requires RequestShape(r) && RedisPc(r.pc) && r.user.Some?
    requires forall x :: x in w.requests ==> RequestShape(w.requests[x])
    ensures Allowed(s, OpOfStep(w, r, c)) && Rel(StepRequest(w, rid, r, c), Apply(s, OpOfStep(w, r, c)))
  {
    var user := r.user.value;
    var w2, s2 := StepRequest(w, rid, r, c), Apply(s, OpOfStep(w, r, c));
    assert Active(w, rid, user);
    forall x | x != rid ensures !Reserving(w, x, user) {
      if Reserving(w, x, user) {
        assert RequestShape(w.requests[x]) && Active(w, x, user);
      }
    }
    assert Agrees(w, s, user) && Cleared(w, rid);
    assert Before(w, s, rid, r, user);
    RedisOwn(w, s, rid, r, c, user);
    RedisOnlyUser(w, rid, r, c);
    SpecSteps(s, w, r, c);
    Assemble(w, w2, s, s2, rid, user);
    UsedTokensStep(w, s, rid, r, c);
    FreshForSpec(w, s, rid, r, c);
  }

  lemma StartRefines(w: World, s: Spec, rid: nat, flow: Flow)
    requires Rel(w, s) && rid !in w.requests
    ensures Rel(Next(w, Start(rid, flow)), s)
  {
    var w2 := Next(w, Start(rid, flow));
    forall x, u: Uuid ensures Reserving(w2, x, u) == Reserving(w, x, u) {}
    forall u: Uuid ensures Agrees(w2, s, u) {
      assert Agrees(w, s, u) && Slot(w2, u) == Slot(w, u);
    }
    forall x ensures Cleared(w2, x) { assert Cleared(w, x); }
    forall token | token in s.used ensures Drawn(w2, token) && forall x :: !Pending(w2, x, token) {
      forall x ensures !Pending(w2, x, token) { assert !Pending(w, x, token); }
    }
  }

  lemma NextRefines(w: World, s: Spec, e: Event)
    requires AccountInv(w) && Owned(w) && Tokens(w) && Exclusive(w) && Rel(w, s)
    ensures Allowed(s, OpOf(w, e)) && Rel(Next(w, e), Apply(s, OpOf(w, e)))
  {
    match e
    case Tick(d) => TickRefines(w, s, d);
    case Start(rid, flow) => if rid !in w.requests { StartRefines(w, s, rid, flow); }
    case Step(rid, c) =>
      if rid in w.requests {
        var r := w.requests[rid];
        assert RequestShape(r);
        if RedisPc(r.pc) {
          RedisStepRefines(w, s, rid, r, c);
        } else {
          AccountStepRefines(w, s, rid, r, c);
        }
      }
  }

  // ---- Whole runs ----

  ghost function Ops(w0: World, events: seq<Event>): (ops: seq<Op>)
    ensures |ops| == |events|
  {
    if events == [] then []
    else
      var front := events[..|events| - 1];
      Ops(w0, front) + [OpOf(Run(w0, front), events[|events| - 1])]
  }

  lemma {:induction false} OpsAt(w0: World, events: seq<Event>, i: nat)
    requires i < |events|
    ensures Ops(w0, events)[i] == OpOf(After(w0, events, i), events[i])
    ensures Ops(w0, events)[..i] == Ops(w0, events[..i])
  {
    var front := events[..|events| - 1];
    if i < |events| - 1 {
      OpsAt(w0, front, i);
      assert front[..i] == events[..i];
    }
  }

  ghost predicate NoOverlap(w0: World, events: seq<Event>) {
    forall k :: 0 <= k <= |events| ==> Exclusive(After(w0, events, k))
  }

  lemma NoOverlapPrefix(w0: World, events: seq<Event>, n: nat)
    requires n <= |events| && NoOverlap(w0, events)
    ensures NoOverlap(w0, events[..n])
  {
    forall k | 0 <= k <= n ensures Exclusive(After(w0, events[..n], k)) {
      assert events[..n][..k] == events[..k];
      assert Exclusive(After(w0, events, k));
    }
  }

  lemma InitRel(cfg: Config, now: int)
    ensures Rel(Init(cfg, now), EMPTY)
  {
  }

  /** Refinement: every run in which one user's requests do not overlap is a legal history of
      the one-slot specification, and the final slots agree with it. */
  lemma {:induction false} RunRefines(cfg: Config, now: int, events: seq<Event>)
    requires NoOverlap(Init(cfg, now), events)
    ensures Legal(Ops(Init(cfg, now), events))
    ensures Rel(Run(Init(cfg, now), events), ApplyAll(Ops(Init(cfg, now), events)))
  {
    var w0 := Init(cfg, now);
    InitRel(cfg, now);
    if events != [] {
      var n := |events| - 1;
      var front, ops := events[..n], Ops(w0, events);
      var w := Run(w0, front);
      NoOverlapPrefix(w0, events, n);
      RunRefines(cfg, now, front);
      RunAccounts(cfg, now, front);
      SlotsBelongToUsers(cfg, now, front);
      RunTokens(cfg, now, front);
      assert Exclusive(After(w0, events, n));
      NextRefines(w, ApplyAll(Ops(w0, front)), events[n]);
      LegalSnoc(Ops(w0, front), OpOf(w, events[n]));
    }
  }

  lemma LegalSnoc(ops: seq<Op>, op: Op)
    requires Legal(ops) && Allowed(ApplyAll(ops), op)
    ensures Legal(ops + [op]) && ApplyAll(ops + [op]) == Apply(ApplyAll(ops), op)
  {
    var all := ops + [op];
    assert all[..|ops|] == ops;
    forall i | 0 <= i < |all| ensures Allowed(ApplyAll(all[..i]), all[i]) {
      if i < |ops| {
        assert all[..i] == ops[..i] && all[i] == ops[i];
        assert Allowed(ApplyAll(ops[..i]), ops[i]);
      }
    }
  }
}
