/** Requests of other users cannot influence a user's refresh slot or the user's own requests. */
module NonInterference {
  import opened Wrappers
  import opened Uuids
  import opened RedisKeys
  import opened Postgres
  import opened AuthProtocol
  import opened Accounts
  import opened RefreshSlots
  import opened RefreshRefinement

  // The request is known to act for somebody else.
  predicate OthersRequest(r: Request, user: Uuid) {
    r.user.Some? && r.user.value != user
  }

  // A step of a request that acts for another user.
  predicate Foreign(w: World, e: Event, user: Uuid) {
    e.Step? && e.rid in w.requests && OthersRequest(w.requests[e.rid], user)
  }

  // The run without the other users' steps: what is left are clock ticks, arrivals, steps of
  // requests whose user is not known yet, and the user's own steps.
  ghost function Kept(w0: World, events: seq<Event>, user: Uuid): seq<Event> {
    if events == [] then []
    else
      var front, e := events[..|events| - 1], events[|events| - 1];
      if Foreign(Run(w0, front), e, user) then Kept(w0, front, user) else Kept(w0, front, user) + [e]
  }

  // Random values never repeat: no mint of the run is handed a value drawn before.
  ghost predicate DrawsNeverRepeat(w0: World, events: seq<Event>) {
    forall k :: 0 <= k < |events| ==> FreshDraw(After(w0, events, k), events[k])
  }

  ghost predicate FreshDraw(w: World, e: Event) {
    e.Step? && e.rid in w.requests && w.requests[e.rid].pc.Mint? && e.choice.io.Good? ==> e.choice.draw !in w.drawn
  }

  ghost predicate SameRequest(w: World, v: World, rid: nat, user: Uuid) {
    && (rid in w.requests <==> rid in v.requests)
    && (rid in w.requests ==>
          || w.requests[rid] == v.requests[rid]
          || (OthersRequest(w.requests[rid], user) && OthersRequest(v.requests[rid], user)))
  }

  ghost predicate SameView(w: World, v: World, user: Uuid) {
    && w.cfg == v.cfg && w.now == v.now && v.drawn <= w.drawn
    && (RefreshKey(user) in w.slots <==> RefreshKey(user) in v.slots)
    && (RefreshKey(user) in w.slots ==> w.slots[RefreshKey(user)] == v.slots[RefreshKey(user)])
  }

  // The two worlds look the same to `user`.
  ghost predicate Alike(w: World, v: World, user: Uuid) {
    SameView(w, v, user) && w.db == v.db && w.creator == v.creator && forall rid :: SameRequest(w, v, rid, user)
  }

  lemma ForeignStep(w: World, v: World, rid: nat, r: Request, c: Choice, user: Uuid)
    requires Alike(w, v, user) && rid in w.requests && r == w.requests[rid] && OthersRequest(r, user) && RequestShape(r)
    ensures Alike(StepRequest(w, rid, r, c), v, user)
  {
    var w2 := StepRequest(w, rid, r, c);
    StoreStepSame(w, rid, r, c);
    StepFollows(w, rid, r, c);
    ForeignFrame(w, rid, r, c, user);
    forall x ensures SameRequest(w2, v, x, user) { assert SameRequest(w, v, x, user); }
  }

  lemma ForeignFrame(w: World, rid: nat, r: Request, c: Choice, user: Uuid)
    requires rid in w.requests && r == w.requests[rid] && StorePc(r.pc) && OthersRequest(r, user)
    ensures var w2 := StepRequest(w, rid, r, c);
            && w2.cfg == w.cfg && w2.now == w.now
            && (RefreshKey(user) in w2.slots <==> RefreshKey(user) in w.slots)
            && (RefreshKey(user) in w.slots ==> w2.slots[RefreshKey(user)] == w.slots[RefreshKey(user)])
  {
    StepFollows(w, rid, r, c);
    StepKeepsConfig(w, rid, r, c);
    RefreshKeyInjective(user, UserOf(r));
  }

  // A step of a request both worlds agree on, not bound to somebody else.
  lemma OwnStep(w: World, v: World, rid: nat, r: Request, c: Choice, user: Uuid)
    requires Alike(w, v, user) && rid in w.requests && r == w.requests[rid] && rid in v.requests && r == v.requests[rid]
    requires !OthersRequest(r, user) && RequestShape(r) && (r.pc.Mint? && c.io.Good? ==> c.draw !in w.drawn)
    ensures Alike(StepRequest(w, rid, r, c), StepRequest(v, rid, r, c), user)
  {
    var w2, v2 := StepRequest(w, rid, r, c), StepRequest(v, rid, r, c);
    if StorePc(r.pc) {
      OwnStoreStep(w, v, rid, r, c, user);
    } else {
      OwnAccountStep(w, v, rid, r, c);
    }
    forall x ensures SameRequest(w2, v2, x, user) { assert SameRequest(w, v, x, user); }
  }

  // Both worlds take the step the same way, up to what the user cannot see; no row changes.
  ghost predicate InStep(w: World, v: World, w2: World, v2: World, rid: nat, user: Uuid) {
    && SameView(w2, v2, user)
    && w2.db == w.db && v2.db == v.db && w2.creator == w.creator && v2.creator == v.creator
    && rid in w2.requests && rid in v2.requests && w2.requests[rid] == v2.requests[rid]
    && w2.requests == w.requests[rid := w2.requests[rid]]
    && v2.requests == v.requests[rid := v2.requests[rid]]
  }

  // A step of r that both worlds are about to take.
  ghost predicate Both(w: World, v: World, rid: nat, r: Request) {
    rid in w.requests && r == w.requests[rid] && rid in v.requests && r == v.requests[rid]
  }

  lemma OwnSet(w: World, v: World, rid: nat, r: Request, c: Choice, user: Uuid)
    requires SameView(w, v, user) && Both(w, v, rid, r) && r.pc.SetToken? && r.user == Some(user)
    ensures InStep(w, v, StepSet(w, rid, r, c, r.pc.pair), StepSet(v, rid, r, c, r.pc.pair), rid, user)
  {
  }

  lemma OwnDel(w: World, v: World, rid: nat, r: Request, c: Choice, user: Uuid, pc: Pc)
    requires SameView(w, v, user) && Both(w, v, rid, r) && r.user == Some(user)
    ensures InStep(w, v, StepDel(w, rid, r, c, pc), StepDel(v, rid, r, c, pc), rid, user)
  {
    var w2, v2 := StepDel(w, rid, r, c, pc), StepDel(v, rid, r, c, pc);
    assert KeyOf(r) == RefreshKey(user);
    OwnDelRequests(w, rid, r, c, pc);
    OwnDelRequests(v, rid, r, c, pc);
    assert SameView(w2, v2, user);
  }

  lemma OwnDelRequests(w: World, rid: nat, r: Request, c: Choice, pc: Pc)
    ensures StepDel(w, rid, r, c, pc).requests == w.requests[rid := r.(pc := if c.io.Good? then pc else Done(Failed))]
  {
  }

  lemma OwnGet(w: World, v: World, rid: nat, r: Request, c: Choice, user: Uuid)
    requires SameView(w, v, user) && Both(w, v, rid, r) && r.user == Some(user)
    ensures InStep(w, v, StepGet(w, rid, r, c), StepGet(v, rid, r, c), rid, user)
  {
  }

  lemma OwnMint(w: World, v: World, rid: nat, r: Request, c: Choice, user: Uuid)
    requires SameView(w, v, user) && Both(w, v, rid, r) && (c.io.Good? ==> c.draw !in w.drawn)
    ensures InStep(w, v, StepMint(w, rid, r, c), StepMint(v, rid, r, c), rid, user)
  {
  }

  lemma OwnGoes(w: World, v: World, rid: nat, r: Request, user: Uuid, pc: Pc)
    requires SameView(w, v, user) && Both(w, v, rid, r)
    ensures InStep(w, v, At(w, rid, r, pc), At(v, rid, r, pc), rid, user)
  {
  }

  lemma OwnPickName(w: World, v: World, rid: nat, r: Request, c: Choice, user: Uuid, n: nat)
    requires SameView(w, v, user) && Both(w, v, rid, r) && w.db == v.db
    ensures InStep(w, v, StepPickName(w, rid, r, c, n), StepPickName(v, rid, r, c, n), rid, user)
  {
    var pc := if !c.io.Good? then Done(Failed)
              else if !HasUsername(w.db.committed, c.name) then BeginTx(c.name)
              else if n + 1 < MAX_ATTEMPTS then PickName(n + 1)
              else Done(Failed);
    assert StepPickName(w, rid, r, c, n) == At(w, rid, r, pc) && StepPickName(v, rid, r, c, n) == At(v, rid, r, pc);
    OwnGoes(w, v, rid, r, user, pc);
  }

  lemma OwnVerify(w: World, v: World, rid: nat, r: Request, c: Choice, user: Uuid)
    requires SameView(w, v, user) && Both(w, v, rid, r)
    ensures InStep(w, v, StepVerify(w, rid, r, c), StepVerify(v, rid, r, c), rid, user)
  {
  }

  lemma OwnStoreStep(w: World, v: World, rid: nat, r: Request, c: Choice, user: Uuid)
    requires SameView(w, v, user) && Both(w, v, rid, r) && w.db == v.db
    requires !OthersRequest(r, user) && RequestShape(r) && StorePc(r.pc)
    requires r.pc.Mint? && c.io.Good? ==> c.draw !in w.drawn
    ensures InStep(w, v, StepRequest(w, rid, r, c), StepRequest(v, rid, r, c), rid, user)
  {
    match r.pc {
      case SetToken(pair) => OwnSet(w, v, rid, r, c, user);
      case Mint => OwnMint(w, v, rid, r, c, user);
      case GetToken => OwnGet(w, v, rid, r, c, user);
      case DelToken => OwnDel(w, v, rid, r, c, user, Mint);
      case LogoutDel => OwnDel(w, v, rid, r, c, user, Done(LoggedOut));
      case PickName(n) => OwnPickName(w, v, rid, r, c, user, n);
      case Verify => OwnVerify(w, v, rid, r, c, user);
      case Done(_) =>
    }
  }

  // Both worlds change database and request alike and nothing else.
  ghost predicate SameChange(w: World, v: World, w2: World, v2: World, rid: nat) {
    && w2.db == v2.db && w2.creator == v2.creator
    && w2 == w.(db := w2.db, creator := w2.creator, requests := w2.requests)
    && v2 == v.(db := v2.db, creator := v2.creator, requests := v2.requests)
    && rid in w2.requests && rid in v2.requests && w2.requests[rid] == v2.requests[rid]
    && w2.requests == w.requests[rid := w2.requests[rid]]
    && v2.requests == v.requests[rid := v2.requests[rid]]
  }

  lemma OwnRefused(w: World, v: World, rid: nat, r: Request)
    requires Both(w, v, rid, r) && w.db == v.db && w.creator == v.creator
    ensures SameChange(w, v, At(w, rid, r, RollbackTx), At(v, rid, r, RollbackTx), rid)
  {
  }

  lemma OwnAccepted(w: World, v: World, rid: nat, r: Request, db: Database, pc: Pc)
    requires Both(w, v, rid, r) && w.creator == v.creator
    ensures SameChange(w, v, At(w, rid, r, pc).(db := db), At(v, rid, r, pc).(db := db), rid)
  {
  }

  lemma OwnInsert(w: World, v: World, rid: nat, r: Request, c: Choice, db: Option<Database>, pc: Pc)
    requires Both(w, v, rid, r) && w.db == v.db && w.creator == v.creator
    ensures SameChange(w, v, AfterInsert(w, rid, r, c, db, pc), AfterInsert(v, rid, r, c, db, pc), rid)
  {
    if c.io.Good? && db.Some? { OwnAccepted(w, v, rid, r, db.value, pc); } else { OwnRefused(w, v, rid, r); }
  }

  lemma OwnCommit(w: World, v: World, rid: nat, r: Request, c: Choice, id: Uuid)
    requires Both(w, v, rid, r) && w.db == v.db && w.creator == v.creator
    ensures SameChange(w, v, StepCommit(w, rid, r, c, id), StepCommit(v, rid, r, c, id), rid)
  {
  }

  lemma OwnLookup(w: World, v: World, rid: nat, r: Request, c: Choice, name: string)
    requires Both(w, v, rid, r) && w.db == v.db && w.creator == v.creator
    ensures SameChange(w, v, StepFindProvider(w, rid, r, c), StepFindProvider(v, rid, r, c), rid)
    ensures SameChange(w, v, StepBegin(w, rid, r, c, name), StepBegin(v, rid, r, c, name), rid)
    ensures SameChange(w, v, StepRollback(w, rid, r), StepRollback(v, rid, r), rid)
  {
  }

  lemma OwnAccountStep(w: World, v: World, rid: nat, r: Request, c: Choice)
    requires Both(w, v, rid, r) && !StorePc(r.pc) && w.db == v.db && w.creator == v.creator
    ensures SameChange(w, v, StepRequest(w, rid, r, c), StepRequest(v, rid, r, c), rid)
  {
    match r.pc {
      case InsertUser(name) =>
        OwnInsert(w, v, rid, r, c, Postgres.InsertUser(w.db, rid, UserRow(c.id, name)),
                  if r.flow.Google? then Pc.InsertProvider(c.id) else Pc.InsertWallet(c.id));
      case InsertProvider(id) =>
        OwnInsert(w, v, rid, r, c, Postgres.InsertProvider(w.db, rid, ProviderRowOf(r, c.id, id)), Pc.InsertWallet(id));
      case InsertWallet(id) =>
        OwnInsert(w, v, rid, r, c, Postgres.InsertWallet(w.db, rid, WalletRow(id, 0, 0)), CommitTx(id));
      case CommitTx(id) => OwnCommit(w, v, rid, r, c, id);
      case BeginTx(name) => OwnLookup(w, v, rid, r, c, name);
      case FindProvider => OwnLookup(w, v, rid, r, c, "");
      case RollbackTx => OwnLookup(w, v, rid, r, c, "");
    }
  }

  /** Non-interference: dropping the steps that requests take for another user once they act for that
      user leaves the user's slot, and every request not bound to another user, exactly as they were. */
  lemma {:induction false} OthersDoNotMatter(cfg: Config, now: int, events: seq<Event>, user: Uuid)
    requires DrawsNeverRepeat(Init(cfg, now), events)
    ensures Alike(Run(Init(cfg, now), events), Run(Init(cfg, now), Kept(Init(cfg, now), events, user)), user)
  {
    if events != [] {
      var w0 := Init(cfg, now);
      var n := |events| - 1;
      var front, e := events[..n], events[n];
      var w, v := Run(w0, front), Run(w0, Kept(w0, front, user));
      forall k | 0 <= k < n ensures FreshDraw(After(w0, front, k), front[k]) {
        assert FreshDraw(After(w0, events, k), events[k]) && front[..k] == events[..k];
      }
      OthersDoNotMatter(cfg, now, front, user);
      RunAccounts(cfg, now, front);
      assert FreshDraw(After(w0, events, n), e);
      if !Foreign(w, e, user) {
        var kept := Kept(w0, events, user);
        assert kept[..|kept| - 1] == Kept(w0, front, user);
      }
      NextAlike(w, v, e, user);
    }
  }

  lemma NextAlike(w: World, v: World, e: Event, user: Uuid)
    requires Alike(w, v, user) && Shapes(w) && FreshDraw(w, e)
    ensures Alike(Next(w, e), if Foreign(w, e, user) then v else Next(v, e), user)
  {
    match e
    case Tick(d) =>
      forall x ensures SameRequest(Next(w, e), Next(v, e), x, user) { assert SameRequest(w, v, x, user); }
    case Start(rid, flow) =>
      assert SameRequest(w, v, rid, user);
      forall x ensures SameRequest(Next(w, e), Next(v, e), x, user) { assert SameRequest(w, v, x, user); }
    case Step(rid, c) =>
      assert SameRequest(w, v, rid, user);
      if rid in w.requests {
        var r := w.requests[rid];
        assert RequestShape(r);
        if OthersRequest(r, user) { ForeignStep(w, v, rid, r, c, user); } else { OwnStep(w, v, rid, r, c, user); }
      }
  }

  /** The slot itself is the same with or without those steps. */
  lemma SlotUnaffected(cfg: Config, now: int, events: seq<Event>, user: Uuid)
    requires DrawsNeverRepeat(Init(cfg, now), events)
    ensures var w0 := Init(cfg, now);
            Slot(Run(w0, events), user) == Slot(Run(w0, Kept(w0, events, user)), user)
  {
    OthersDoNotMatter(cfg, now, events, user);
  }
}
