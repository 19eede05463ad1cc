/** Once a user is committed, only requests that come to act for that user matter to the user's
    refresh slot: everything all other requests do, from their arrival on, can be dropped from the run. */
module OwnRequests {
  import opened Wrappers
  import opened Uuids
  import opened RedisKeys
  import opened Postgres
  import opened AuthProtocol
  import opened Accounts
  import opened AccountTheorems
  import opened RefreshSlots
  import opened RefreshRefinement
  import opened NonInterference
  import Runs

  ghost predicate ActsFor(w: World, rid: nat, user: Uuid) {
    rid in w.requests && w.requests[rid].user == Some(user)
  }

  // The requests that act for the user in this world.
  ghost function Acting(w: World, user: Uuid): set<nat> {
    set rid | rid in w.requests && w.requests[rid].user == Some(user)
  }

  // Clock ticks, and the arrivals and steps of these requests.
  function Only(events: seq<Event>, ids: set<nat>): seq<Event> {
    if events == [] then []
    else
      var front, e := Only(events[..|events| - 1], ids), events[|events| - 1];
      match e
      case Tick(_) => front + [e]
      case Start(rid, _) => if rid in ids then front + [e] else front
      case Step(rid, _) => if rid in ids then front + [e] else front
  }

  // ---- What steps do to the rows ----

  lemma CommittedSame(w: World, rid: nat, r: Request, c: Choice)
    requires rid in w.requests && r == w.requests[rid] && !r.pc.CommitTx?
    ensures StepRequest(w, rid, r, c).db.committed == w.db.committed
  {
    if StorePc(r.pc) { StoreStepSame(w, rid, r, c); }
  }

  // Rows are only added, and none for a user who is committed already.
  ghost predicate RowsAdded(a: Tables, b: Tables, user: Uuid) {
    && a.providers <= b.providers && HasUser(b, user)
    && forall p :: p in b.providers && p.userId == user ==> p in a.providers
  }

  lemma NewUserIsAnother(w: World, rid: nat, user: Uuid)
    requires Consistent(w.db) && Shapes(w) && HasUser(w.db.committed, user)
    requires rid in w.requests && w.requests[rid].pc.CommitTx?
    ensures w.requests[rid].pc.id != user && rid in w.db.open
    ensures forall p :: p in w.db.open[rid].providers ==> p.userId != user
  {
    var t, d := w.db.committed, w.db.open[rid];
    assert TxShape(w.requests[rid], d);
    var i :| 0 <= i < |t.users| && t.users[i].id == user;
    assert !UsersClash(t.users[i], d.users[0]);
  }

  lemma CommitRows(w: World, rid: nat, r: Request, c: Choice, user: Uuid)
    requires Consistent(w.db) && Shapes(w) && HasUser(w.db.committed, user)
    requires rid in w.requests && r == w.requests[rid] && r.pc.CommitTx?
    ensures RowsAdded(w.db.committed, StepCommit(w, rid, r, c, r.pc.id).db.committed, user)
  {
    NewUserIsAnother(w, rid, user);
    HasUserPlus(w.db.committed, w.db.open[rid], user);
  }

  lemma SameRows(a: Tables, user: Uuid)
    requires HasUser(a, user)
    ensures RowsAdded(a, a, user)
  {
  }

  predicate Commits(w: World, e: Event) {
    e.Step? && e.rid in w.requests && w.requests[e.rid].pc.CommitTx?
  }

  lemma OnlyCommitsAddRows(w: World, e: Event)
    requires !Commits(w, e)
    ensures Next(w, e).db.committed == w.db.committed
  {
    if e.Step? && e.rid in w.requests { CommittedSame(w, e.rid, w.requests[e.rid], e.choice); }
  }

  lemma NextRows(w: World, e: Event, user: Uuid)
    requires Consistent(w.db) && Shapes(w) && HasUser(w.db.committed, user)
    ensures RowsAdded(w.db.committed, Next(w, e).db.committed, user)
  {
    if Commits(w, e) {
      CommitRows(w, e.rid, w.requests[e.rid], e.choice, user);
    } else {
      OnlyCommitsAddRows(w, e);
      SameRows(w.db.committed, user);
    }
  }

  // ---- Who can come to act for the user ----

  // A request that does, or that may still find the user's provider row.
  ghost predicate MayAct(w: World, rid: nat, user: Uuid) {
    rid in w.requests ==>
      w.requests[rid].user == Some(user) || (w.requests[rid].user.None? && BeforeNaming(w.requests[rid].pc))
  }

  // How one step may change whom a request acts for.
  ghost predicate UserMoves(r: Request, r2: Request, user: Uuid) {
    && (r.user.Some? ==> r2.user == r.user)
    && (r.user != Some(user) && !(r.user.None? && BeforeNaming(r.pc)) ==> r2.user != Some(user) && !BeforeNaming(r2.pc))
  }

  lemma StoreStepUser(w: World, rid: nat, r: Request, c: Choice, user: Uuid)
    requires rid in w.requests && r == w.requests[rid] && StorePc(r.pc) && RequestShape(r)
    ensures var w2 := StepRequest(w, rid, r, c); rid in w2.requests && UserMoves(r, w2.requests[rid], user)
  {
    StoreStepSame(w, rid, r, c);
  }

  lemma CommitStepUser(w: World, rid: nat, r: Request, c: Choice, user: Uuid)
    requires r.pc.CommitTx? && r.pc.id != user && r.user.None?
    ensures var w2 := StepCommit(w, rid, r, c, r.pc.id); rid in w2.requests && UserMoves(r, w2.requests[rid], user)
  {
  }

  lemma FindStepUser(w: World, rid: nat, r: Request, c: Choice, user: Uuid)
    requires r.pc.FindProvider? && r.user.None?
    ensures var w2 := StepFindProvider(w, rid, r, c); rid in w2.requests && UserMoves(r, w2.requests[rid], user)
  {
  }

  lemma TxStepUser(w: World, rid: nat, r: Request, c: Choice, user: Uuid)
    requires r.pc.BeginTx? || (InTx(r.pc) && !r.pc.CommitTx?)
    ensures var w2 := StepRequest(w, rid, r, c); rid in w2.requests && UserMoves(r, w2.requests[rid], user)
  {
  }

  lemma OwnStepUser(w: World, rid: nat, r: Request, c: Choice, user: Uuid)
    requires Consistent(w.db) && Shapes(w) && HasUser(w.db.committed, user) && rid in w.requests && r == w.requests[rid]
    ensures var w2 := StepRequest(w, rid, r, c); rid in w2.requests && UserMoves(r, w2.requests[rid], user)
  {
    assert RequestShape(r);
    if StorePc(r.pc) {
      StoreStepUser(w, rid, r, c, user);
    } else if r.pc.CommitTx? {
      NewUserIsAnother(w, rid, user);
      CommitStepUser(w, rid, r, c, user);
    } else if r.pc.FindProvider? {
      FindStepUser(w, rid, r, c, user);
    } else {
      TxStepUser(w, rid, r, c, user);
    }
  }

  // Acting for the user is for good, and so is having missed the chance.
  lemma NextUser(w: World, e: Event, rid: nat, user: Uuid)
    requires AccountInv(w) && HasUser(w.db.committed, user)
    ensures ActsFor(w, rid, user) ==> ActsFor(Next(w, e), rid, user)
    ensures !MayAct(w, rid, user) ==> !MayAct(Next(w, e), rid, user)
  {
    if e.Step? && e.rid in w.requests {
      StepFollows(w, e.rid, w.requests[e.rid], e.choice);
      if e.rid == rid { OwnStepUser(w, rid, w.requests[rid], e.choice, user); }
    }
  }

  // What the whole run says about each request at its start: those that end up acting for the user may, and
  // the others do not.
  ghost predicate Sorted(w: World, ids: set<nat>, user: Uuid) {
    && (forall rid :: rid in ids ==> MayAct(w, rid, user))
    && (forall rid :: rid !in ids ==> !ActsFor(w, rid, user))
  }

  lemma SortedBefore(w: World, e: Event, ids: set<nat>, user: Uuid)
    requires AccountInv(w) && HasUser(w.db.committed, user) && Sorted(Next(w, e), ids, user)
    ensures Sorted(w, ids, user)
  {
    forall rid ensures rid in ids ==> MayAct(w, rid, user) { NextUser(w, e, rid, user); }
    forall rid ensures rid !in ids ==> !ActsFor(w, rid, user) { NextUser(w, e, rid, user); }
  }

  // ---- The filtered run follows ----

  // What v, which only the requests of ids have moved since the rows were `rows`, shares with w.
  ghost predicate Shadows(w: World, v: World, ids: set<nat>, user: Uuid, rows: Tables) {
    && SameView(w, v, user) && v.db.committed == rows && RowsAdded(rows, w.db.committed, user)
    && forall rid :: rid in ids ==> (rid in w.requests <==> rid in v.requests)
                                    && (rid in w.requests ==> w.requests[rid] == v.requests[rid])
  }

  // A row found among more rows is found among the fewer that have it.
  lemma {:induction false} FoundEarlier(
      few: seq<ProviderRow>, many: seq<ProviderRow>, provider: string, subject: string)
    requires few <= many && Postgres.FindProvider(many, provider, subject).Some?
    requires Postgres.FindProvider(many, provider, subject).value in few
    ensures Postgres.FindProvider(few, provider, subject) == Postgres.FindProvider(many, provider, subject)
  {
    if !(many[0].provider == provider && many[0].subject == subject) {
      assert few != [] && few[0] == many[0];
      FoundEarlier(few[1..], many[1..], provider, subject);
    }
  }

  // The step of an unbound login that finds the user's row.
  lemma LookupShadows(w: World, v: World, rid: nat, r: Request, c: Choice, user: Uuid, rows: Tables)
    requires SameView(w, v, user) && Both(w, v, rid, r) && v.db.committed == rows
    requires RowsAdded(rows, w.db.committed, user)
    requires r.pc.FindProvider? && r.user.None? && MayAct(StepFindProvider(w, rid, r, c), rid, user)
    ensures InStep(w, v, StepFindProvider(w, rid, r, c), StepFindProvider(v, rid, r, c), rid, user)
  {
    FoundEarlier(rows.providers, w.db.committed.providers, GOOGLE, Who(r).subject);
  }

  lemma OwnShadows(w: World, v: World, rid: nat, r: Request, c: Choice, user: Uuid, rows: Tables)
    requires SameView(w, v, user) && Both(w, v, rid, r) && v.db.committed == rows
    requires RowsAdded(rows, w.db.committed, user)
    requires RequestShape(r) && MayAct(w, rid, user) && MayAct(StepRequest(w, rid, r, c), rid, user)
    requires r.pc.Mint? && c.io.Good? ==> c.draw !in w.drawn
    ensures InStep(w, v, StepRequest(w, rid, r, c), StepRequest(v, rid, r, c), rid, user)
  {
    match r.pc {
      case Verify => OwnVerify(w, v, rid, r, c, user);
      case FindProvider => LookupShadows(w, v, rid, r, c, user, rows);
      case SetToken(pair) => OwnSet(w, v, rid, r, c, user);
      case Mint => OwnMint(w, v, rid, r, c, user);
      case GetToken => OwnGet(w, v, rid, r, c, user);
      case DelToken => OwnDel(w, v, rid, r, c, user, Mint);
      case LogoutDel => OwnDel(w, v, rid, r, c, user, Done(LoggedOut));
      case _ =>
    }
  }

  // A step of a request that does not act for the user is invisible.
  lemma StrangerInvisible(w: World, rid: nat, r: Request, c: Choice, user: Uuid)
    requires rid in w.requests && r == w.requests[rid] && RequestShape(r) && r.user != Some(user)
    ensures var w2 := StepRequest(w, rid, r, c); SameView(w2, w, user)
  {
    StepFollows(w, rid, r, c);
    StepKeepsConfig(w, rid, r, c);
    RefreshKeyInjective(user, UserOf(r));
  }

  lemma ArrivalShadows(w: World, v: World, e: Event, ids: set<nat>, user: Uuid, rows: Tables)
    requires Shadows(w, v, ids, user, rows) && !e.Step?
    ensures Shadows(Next(w, e), if e.Tick? || e.rid in ids then Next(v, e) else v, ids, user, rows)
  {
  }

  lemma OwnStepShadows(w: World, v: World, rid: nat, c: Choice, ids: set<nat>, user: Uuid, rows: Tables)
    requires Shadows(w, v, ids, user, rows) && rid in ids && rid in w.requests && RequestShape(w.requests[rid])
    requires MayAct(w, rid, user) && MayAct(Next(w, Step(rid, c)), rid, user) && FreshDraw(w, Step(rid, c))
    requires RowsAdded(rows, Next(w, Step(rid, c)).db.committed, user)
    ensures Shadows(Next(w, Step(rid, c)), Next(v, Step(rid, c)), ids, user, rows)
  {
    OwnShadows(w, v, rid, w.requests[rid], c, user, rows);
  }

  lemma StrangerShadows(w: World, v: World, rid: nat, c: Choice, ids: set<nat>, user: Uuid, rows: Tables)
    requires Shadows(w, v, ids, user, rows) && rid !in ids && rid in w.requests && RequestShape(w.requests[rid])
    requires w.requests[rid].user != Some(user) && RowsAdded(rows, Next(w, Step(rid, c)).db.committed, user)
    ensures Shadows(Next(w, Step(rid, c)), v, ids, user, rows)
  {
    StepFollows(w, rid, w.requests[rid], c);
    StrangerInvisible(w, rid, w.requests[rid], c, user);
  }

  lemma AddedTwice(a: Tables, b: Tables, c: Tables, user: Uuid)
    requires RowsAdded(a, b, user) && RowsAdded(b, c, user)
    ensures RowsAdded(a, c, user)
  {
  }

  lemma NextShadows(w: World, v: World, e: Event, ids: set<nat>, user: Uuid, rows: Tables)
    requires Shadows(w, v, ids, user, rows) && Consistent(w.db) && Shapes(w) && FreshDraw(w, e)
    requires Sorted(w, ids, user) && Sorted(Next(w, e), ids, user)
    ensures Shadows(Next(w, e), if e.Tick? || e.rid in ids then Next(v, e) else v, ids, user, rows)
  {
    if !e.Step? {
      ArrivalShadows(w, v, e, ids, user, rows);
    } else if e.rid in w.requests {
      assert RequestShape(w.requests[e.rid]);
      NextRows(w, e, user);
      AddedTwice(rows, w.db.committed, Next(w, e).db.committed, user);
      if e.rid in ids {
        OwnStepShadows(w, v, e.rid, e.choice, ids, user, rows);
      } else {
        assert !ActsFor(w, e.rid, user);
        StrangerShadows(w, v, e.rid, e.choice, ids, user, rows);
      }
    }
  }

  lemma {:induction false} RunSorted(w: World, events: seq<Event>, ids: set<nat>, user: Uuid, k: nat)
    requires k <= |events| && AccountInv(w) && HasUser(w.db.committed, user) && Sorted(Run(w, events), ids, user)
    ensures Sorted(After(w, events, k), ids, user) && AccountInv(After(w, events, k))
    ensures HasUser(After(w, events, k).db.committed, user)
    decreases |events| - k
  {
    assert Index(k) == k;
    AccountsStart(w, events, user);
    RunKeepsAccounts(w, events, k, user);
    if k == |events| {
      Runs.AfterAll(Next, w, events);
    } else {
      RunSorted(w, events, ids, user, k + 1);
      Runs.AfterStep(Next, w, events, k);
      SortedBefore(After(w, events, k), events[k], ids, user);
    }
  }

  // In this module `Index` marks the places at which an induction over a run unfolds what it carries along.
  function Index(k: nat): nat { k }

  ghost predicate AccountsAt(w: World, events: seq<Event>, k: nat, user: Uuid) {
    forall j: nat {:trigger Index(j)} :: j == k && k <= |events| ==>
      AccountInv(After(w, events, j)) && HasUser(After(w, events, j).db.committed, user)
  }

  lemma EventKeepsAccounts(w: World, e: Event, user: Uuid)
    requires AccountInv(w) && HasUser(w.db.committed, user)
    ensures AccountInv(Next(w, e)) && HasUser(Next(w, e).db.committed, user)
  {
    NextAccounts(w, e);
    NextRows(w, e, user);
  }

  lemma AccountsStart(w: World, events: seq<Event>, user: Uuid)
    requires AccountInv(w) && HasUser(w.db.committed, user)
    ensures AccountsAt(w, events, 0, user)
  {
    assert After(w, events, 0) == w;
  }

  lemma AccountsNext(w: World, events: seq<Event>, k: nat, user: Uuid)
    requires k < |events| && AccountsAt(w, events, k, user)
    ensures AccountsAt(w, events, k + 1, user)
  {
    assert Index(k) == k && Index(k + 1) == k + 1;
    Runs.AfterStep(Next, w, events, k);
    EventKeepsAccounts(After(w, events, k), events[k], user);
  }

  lemma {:induction false} RunKeepsAccounts(w: World, events: seq<Event>, k: nat, user: Uuid)
    requires k <= |events| && AccountsAt(w, events, 0, user)
    ensures AccountsAt(w, events, k, user)
  {
    if k > 0 {
      RunKeepsAccounts(w, events, k - 1, user);
      AccountsNext(w, events, k - 1, user);
    }
  }

  lemma OnlyOneMore(w: World, events: seq<Event>, ids: set<nat>, k: nat)
    requires k < |events|
    ensures var e, v := events[k], Run(w, Only(events[..k], ids));
            Run(w, Only(events[..k + 1], ids)) == if e.Tick? || e.rid in ids then Next(v, e) else v
  {
    var front, kept := Only(events[..k], ids), Only(events[..k + 1], ids);
    assert events[..k + 1][..k] == events[..k];
    if events[k].Tick? || events[k].rid in ids {
      assert kept == front + [events[k]] && kept[..|kept| - 1] == front;
    }
  }

  // What the induction below knows of the world after k events.
  ghost predicate Fit(w: World, ids: set<nat>, user: Uuid) {
    AccountInv(w) && HasUser(w.db.committed, user) && Sorted(w, ids, user)
  }

  lemma ShadowsSelf(w: World, ids: set<nat>, user: Uuid)
    requires HasUser(w.db.committed, user)
    ensures Shadows(w, w, ids, user, w.db.committed)
  {
  }

  lemma ShadowsOneMore(w: World, events: seq<Event>, ids: set<nat>, user: Uuid, k: nat)
    requires k < |events| && FreshDraw(After(w, events, k), events[k])
    requires Fit(After(w, events, k), ids, user) && Fit(After(w, events, k + 1), ids, user)
    requires Shadows(After(w, events, k), Run(w, Only(events[..k], ids)), ids, user, w.db.committed)
    ensures Shadows(After(w, events, k + 1), Run(w, Only(events[..k + 1], ids)), ids, user, w.db.committed)
  {
    Runs.AfterStep(Next, w, events, k);
    OnlyOneMore(w, events, ids, k);
    NextShadows(After(w, events, k), Run(w, Only(events[..k], ids)), events[k], ids, user, w.db.committed);
  }

  // After k events the filtered run shadows the whole one. (Behind a quantifier, so that the induction does
  // not unfold it.)
  ghost predicate ShadowsAt(w: World, events: seq<Event>, ids: set<nat>, user: Uuid, k: nat) {
    forall j: nat {:trigger Index(j)} :: j == k && k <= |events| ==>
      Shadows(After(w, events, j), Run(w, Only(events[..j], ids)), ids, user, w.db.committed)
  }

  ghost predicate FitThroughout(w: World, events: seq<Event>, ids: set<nat>, user: Uuid) {
    forall j: nat {:trigger Index(j)} :: j <= |events| ==>
      Fit(After(w, events, j), ids, user) && (j < |events| ==> FreshDraw(After(w, events, j), events[j]))
  }

  lemma ShadowsStart(w: World, events: seq<Event>, ids: set<nat>, user: Uuid)
    requires HasUser(w.db.committed, user)
    ensures ShadowsAt(w, events, ids, user, 0)
  {
    var none: seq<Event> := [];
    assert events[..0] == none && Only(none, ids) == none && Run(w, none) == w;
    ShadowsSelf(w, ids, user);
    assert Shadows(After(w, events, 0), Run(w, Only(events[..0], ids)), ids, user, w.db.committed);
  }

  lemma ShadowsNext(w: World, events: seq<Event>, ids: set<nat>, user: Uuid, k: nat)
    requires k < |events| && FitThroughout(w, events, ids, user) && ShadowsAt(w, events, ids, user, k)
    ensures ShadowsAt(w, events, ids, user, k + 1)
  {
    assert Index(k) == k && Index(k + 1) == k + 1;
    ShadowsOneMore(w, events, ids, user, k);
  }

  lemma {:induction false} RunShadows(w: World, events: seq<Event>, ids: set<nat>, user: Uuid, k: nat)
    requires k <= |events| && HasUser(w.db.committed, user) && FitThroughout(w, events, ids, user)
    ensures ShadowsAt(w, events, ids, user, k)
  {
    if k == 0 {
      ShadowsStart(w, events, ids, user);
    } else {
      RunShadows(w, events, ids, user, k - 1);
      ShadowsNext(w, events, ids, user, k - 1);
    }
  }

  /** Non-interference from arrival on: after any history that has committed the user, the slot at the end
      of a run is the one of the run that keeps, besides the clock, only the requests that come to act for
      the user. Every other request can be dropped whole: its arrival, its verification and look-ups, its
      sign-up transaction and its traffic with Redis. */
  lemma OnlyOwnRequestsMatter(cfg: Config, now: int, before: seq<Event>, events: seq<Event>, user: Uuid)
    requires HasUser(Run(Init(cfg, now), before).db.committed, user)
    requires DrawsNeverRepeat(Run(Init(cfg, now), before), events)
    ensures var w := Run(Init(cfg, now), before);
            Slot(Run(w, events), user) == Slot(Run(w, Only(events, Acting(Run(w, events), user))), user)
  {
    RunAccounts(cfg, now, before);
    SlotOfShadow(Run(Init(cfg, now), before), events, user);
  }

  lemma RunFits(w: World, events: seq<Event>, ids: set<nat>, user: Uuid)
    requires AccountInv(w) && HasUser(w.db.committed, user) && DrawsNeverRepeat(w, events)
    requires Sorted(Run(w, events), ids, user)
    ensures FitThroughout(w, events, ids, user)
  {
    forall j: nat | j <= |events|
      ensures Fit(After(w, events, j), ids, user) && (j < |events| ==> FreshDraw(After(w, events, j), events[j]))
    {
      RunSorted(w, events, ids, user, j);
    }
  }

  lemma SlotOfShadow(w: World, events: seq<Event>, user: Uuid)
    requires AccountInv(w) && HasUser(w.db.committed, user) && DrawsNeverRepeat(w, events)
    ensures Slot(Run(w, events), user) == Slot(Run(w, Only(events, Acting(Run(w, events), user))), user)
  {
    var ids := Acting(Run(w, events), user);
    assert events[..|events|] == events && Index(|events|) == |events|;
    RunFits(w, events, ids, user);
    RunShadows(w, events, ids, user, |events|);
  }
}
