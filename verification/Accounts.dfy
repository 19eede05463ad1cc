/** What every reachable world keeps about users, wallets, Google identities and usernames. */
module Accounts {
  import opened Wrappers
  import opened Uuids
  import opened Postgres
  import opened AuthProtocol

  predicate InTx(pc: Pc) {
    pc.InsertUser? || pc.InsertProvider? || pc.InsertWallet? || pc.CommitTx? || pc.RollbackTx?
  }

  // Past the account lookup or creation: the request knows its user.
  predicate Resolved(pc: Pc) {
    pc.DelToken? || pc.Mint? || pc.SetToken? || (pc.Done? && !pc.outcome.Failed?)
  }

  predicate LoginFlow(f: Flow) { f.Guest? || f.Google? }

  ghost predicate HasWallet(t: Tables, user: Uuid) {
    exists i :: 0 <= i < |t.wallets| && t.wallets[i] == WalletRow(user, 0, 0)
  }

  ghost predicate HasGoogle(t: Tables, subject: string, user: Uuid) {
    exists i :: 0 <= i < |t.providers| && IsGoogle(t.providers[i], subject, user)
  }

  predicate IsGoogle(p: ProviderRow, subject: string, user: Uuid) {
    p.provider == GOOGLE && p.subject == subject && p.userId == user
  }

  // What is kept of the verified e-mail: nothing if Google sent none.
  predicate EmailKept(p: ProviderRow, who: GoogleId) {
    p.email == if who.email == "" then None else Some(who.email)
  }

  // The provider rows an open login transaction holds once its INSERT is done.
  ghost predicate OwnProviders(r: Request, t: Tables, user: Uuid) {
    if r.flow.Google?
    then |t.providers| == 1 && IsGoogle(t.providers[0], Who(r).subject, user) && EmailKept(t.providers[0], Who(r))
    else t.providers == []
  }

  ghost predicate OwnUser(t: Tables, user: Uuid) {
    |t.users| == 1 && t.users[0].id == user
  }

  // What a transaction holds at each point of its program.
  ghost predicate TxShape(r: Request, t: Tables) {
    match r.pc
    case InsertUser(_) => t == NO_ROWS
    case InsertProvider(id) => r.flow.Google? && OwnUser(t, id) && t.wallets == [] && t.providers == []
    case InsertWallet(id) => OwnUser(t, id) && t.wallets == [] && OwnProviders(r, t, id)
    case CommitTx(id) => OwnUser(t, id) && t.wallets == [WalletRow(id, 0, 0)] && OwnProviders(r, t, id)
    case RollbackTx => true
    case _ => false
  }

  ghost predicate RequestShape(r: Request) {
    && (r.pc.Verify? || r.pc.FindProvider? ==> r.flow.Google?)
    && (r.pc.PickName? || r.pc.BeginTx? || InTx(r.pc) ==> LoginFlow(r.flow))
    && (r.pc.GetToken? || r.pc.DelToken? ==> r.flow.Refresh?)
    && (r.pc.LogoutDel? ==> r.flow.Logout?)
    && (r.pc.Mint? || r.pc.SetToken? ==> !r.flow.Logout?)
    && (r.pc.Done? ==> (r.pc.outcome.LoggedOut? ==> r.flow.Logout?) && (r.pc.outcome.Issued? ==> !r.flow.Logout?))
    && (r.flow.Refresh? || r.flow.Logout? ==> r.user == Some(r.flow.user))
    && (Resolved(r.pc) ==> r.user.Some?)
    && (LoginFlow(r.flow) && r.user.Some? ==> Resolved(r.pc) || r.pc.Done?)
  }

  ghost predicate Shapes(w: World) {
    && (forall rid :: rid in w.requests ==> RequestShape(w.requests[rid]))
    && (forall rid :: rid in w.db.open <==> rid in w.requests && InTx(w.requests[rid].pc))
    && (forall rid :: rid in w.db.open ==> TxShape(w.requests[rid], w.db.open[rid]))
  }

  // Committed rows refer to committed users, and every committed user has its empty wallet.
  ghost predicate Whole(t: Tables) {
    && (forall i :: 0 <= i < |t.users| ==> HasWallet(t, t.users[i].id))
    && (forall i :: 0 <= i < |t.wallets| ==>
        HasUser(t, t.wallets[i].userId) && t.wallets[i].coins == 0 == t.wallets[i].gems)
    && (forall i :: 0 <= i < |t.providers| ==> HasUser(t, t.providers[i].userId))
  }

  // A request that has committed its user: it can never commit another.
  ghost predicate CreatorOf(w: World, rid: nat, user: Uuid) {
    && rid in w.requests && LoginFlow(w.requests[rid].flow)
    && (Resolved(w.requests[rid].pc) || w.requests[rid].pc.Done?)
    && (w.requests[rid].flow.Google? ==> HasGoogle(w.db.committed, Who(w.requests[rid]).subject, user))
  }

  ghost predicate Creators(w: World) {
    && (forall u: Uuid :: u in w.creator <==> HasUser(w.db.committed, u))
    && (forall u :: u in w.creator ==> CreatorOf(w, w.creator[u], u))
    && (forall u, v :: u in w.creator && v in w.creator && w.creator[u] == w.creator[v] ==> u == v)
  }

  // Each provider row was committed together with its user, by a Google login for that subject.
  ghost predicate ProviderOrigin(w: World, p: ProviderRow) {
    && p.userId in w.creator && w.creator[p.userId] in w.requests
    && p.provider == GOOGLE
    && w.requests[w.creator[p.userId]].flow.Google?
    && p.subject == Who(w.requests[w.creator[p.userId]]).subject && EmailKept(p, Who(w.requests[w.creator[p.userId]]))
  }

  ghost predicate Origins(w: World) {
    forall i :: 0 <= i < |w.db.committed.providers| ==> ProviderOrigin(w, w.db.committed.providers[i])
  }

  ghost predicate BoundOk(w: World, rid: nat, r: Request) {
    && (r.flow.Google? && r.user.Some? ==> HasGoogle(w.db.committed, Who(r).subject, r.user.value))
    && (r.flow.Guest? && r.user.Some? ==> r.user.value in w.creator && w.creator[r.user.value] == rid)
  }

  ghost predicate Bindings(w: World) {
    forall rid :: rid in w.requests ==> BoundOk(w, rid, w.requests[rid])
  }

  ghost predicate AccountInv(w: World) {
    Consistent(w.db) && Shapes(w) && Whole(w.db.committed) && Creators(w) && Origins(w) && Bindings(w)
  }

  lemma InitAccounts(cfg: Config, now: int)
    ensures AccountInv(Init(cfg, now))
  {
  }

  // ---- Steps that leave the database alone ----

  // w2 differs from w only in request rid, which stays outside any transaction.
  ghost predicate OnlyRequest(w: World, w2: World, rid: nat, r2: Request) {
    && w2.db == w.db && w2.creator == w.creator
    && w2.requests == w.requests[rid := r2]
  }

  // How a request may move without touching the database.
  ghost predicate Moves(r: Request, r2: Request) {
    && r2.flow == r.flow && !InTx(r.pc)
    && (r.pc.Done? ==> r2.pc.Done?) && (Resolved(r.pc) ==> Resolved(r2.pc) || r2.pc.Done?)
    && (r.who == r2.who || r.pc.Verify?)
  }

  ghost predicate Moved(w: World, w2: World, rid: nat, r2: Request) {
    && OnlyRequest(w, w2, rid, r2) && !InTx(r2.pc) && RequestShape(r2) && BoundOk(w, rid, r2)
    && (rid in w.requests ==> Moves(w.requests[rid], r2))
  }

  lemma MovedCreators(w: World, w2: World, rid: nat, r2: Request)
    requires Creators(w) && Moved(w, w2, rid, r2)
    ensures Creators(w2)
  {
    forall u | u in w2.creator ensures CreatorOf(w2, w2.creator[u], u) {
      assert CreatorOf(w, w.creator[u], u);
    }
  }

  lemma MovedOrigins(w: World, w2: World, rid: nat, r2: Request)
    requires Creators(w) && Origins(w) && Moved(w, w2, rid, r2)
    ensures Origins(w2)
  {
    forall i | 0 <= i < |w2.db.committed.providers| ensures ProviderOrigin(w2, w2.db.committed.providers[i]) {
      var p := w.db.committed.providers[i];
      assert ProviderOrigin(w, p) && CreatorOf(w, w.creator[p.userId], p.userId);
    }
  }

  lemma MovedBindings(w: World, w2: World, rid: nat, r2: Request)
    requires AccountInv(w) && Moved(w, w2, rid, r2)
    ensures Bindings(w2)
  {
    forall x | x in w2.requests ensures BoundOk(w2, x, w2.requests[x]) {
      if x != rid { assert BoundOk(w, x, w.requests[x]); }
    }
  }

  lemma RequestMoved(w: World, w2: World, rid: nat, r2: Request)
    requires AccountInv(w) && Moved(w, w2, rid, r2)
    ensures AccountInv(w2)
  {
    MovedCreators(w, w2, rid, r2);
    MovedOrigins(w, w2, rid, r2);
    MovedBindings(w, w2, rid, r2);
  }

  // ---- Steps inside a transaction, before it commits ----

  // Only the private rows of rid change, and rid is a login that has not committed.
  ghost predicate TxMoved(w: World, w2: World, rid: nat, r2: Request) {
    && rid in w.requests
    && (w.requests[rid].pc.BeginTx? || InTx(w.requests[rid].pc)) && (InTx(r2.pc) || r2.pc == Done(Failed))
    && r2.flow == w.requests[rid].flow && r2.who == w.requests[rid].who && r2.user == w.requests[rid].user
    && w2.requests == w.requests[rid := r2] && w2.creator == w.creator
    && w2.db.committed == w.db.committed && Consistent(w2.db)
    && (forall o :: o != rid ==> (o in w2.db.open <==> o in w.db.open))
    && (forall o :: o != rid && o in w.db.open ==> w2.db.open[o] == w.db.open[o])
    && (rid in w2.db.open <==> InTx(r2.pc))
    && (rid in w2.db.open ==> TxShape(r2, w2.db.open[rid]))
  }

  lemma TxShapes(w: World, w2: World, rid: nat, r2: Request)
    requires Shapes(w) && TxMoved(w, w2, rid, r2)
    ensures Shapes(w2)
  {
    forall x | x in w2.requests ensures RequestShape(w2.requests[x]) {
      assert RequestShape(w.requests[x]);
    }
    forall x | x in w2.db.open ensures TxShape(w2.requests[x], w2.db.open[x]) {
      if x != rid { assert TxShape(w.requests[x], w.db.open[x]); }
    }
  }

  lemma TxCreators(w: World, w2: World, rid: nat, r2: Request)
    requires Creators(w) && TxMoved(w, w2, rid, r2)
    ensures Creators(w2)
  {
    forall u | u in w2.creator ensures CreatorOf(w2, w2.creator[u], u) {
      assert CreatorOf(w, w.creator[u], u);
    }
  }

  lemma TxOrigins(w: World, w2: World, rid: nat, r2: Request)
    requires Origins(w) && TxMoved(w, w2, rid, r2)
    ensures Origins(w2)
  {
    forall i | 0 <= i < |w2.db.committed.providers| ensures ProviderOrigin(w2, w2.db.committed.providers[i]) {
      assert ProviderOrigin(w, w.db.committed.providers[i]);
    }
  }

  lemma TxBindings(w: World, w2: World, rid: nat, r2: Request)
    requires Bindings(w) && TxMoved(w, w2, rid, r2)
    ensures Bindings(w2)
  {
    forall x | x in w2.requests ensures BoundOk(w2, x, w2.requests[x]) {
      assert BoundOk(w, x, w.requests[x]);
    }
  }

  lemma TxKeeps(w: World, w2: World, rid: nat, r2: Request)
    requires AccountInv(w) && TxMoved(w, w2, rid, r2)
    ensures AccountInv(w2)
  {
    TxShapes(w, w2, rid, r2);
    TxCreators(w, w2, rid, r2);
    TxOrigins(w, w2, rid, r2);
    TxBindings(w, w2, rid, r2);
  }

  // ---- Commit ----

  lemma HasUserPlus(a: Tables, b: Tables, u: Uuid)
    ensures HasUser(Plus(a, b), u) <==> HasUser(a, u) || HasUser(b, u)
  {
    if HasUser(a, u) {
      var i :| 0 <= i < |a.users| && a.users[i].id == u;
      assert Plus(a, b).users[i].id == u;
    } else if HasUser(b, u) {
      var i :| 0 <= i < |b.users| && b.users[i].id == u;
      assert Plus(a, b).users[|a.users| + i].id == u;
    }
  }

  lemma HasWalletPlus(a: Tables, b: Tables, u: Uuid)
    requires HasWallet(a, u) || HasWallet(b, u)
    ensures HasWallet(Plus(a, b), u)
  {
    if HasWallet(a, u) {
      var i :| 0 <= i < |a.wallets| && a.wallets[i] == WalletRow(u, 0, 0);
      assert Plus(a, b).wallets[i] == WalletRow(u, 0, 0);
    } else {
      var i :| 0 <= i < |b.wallets| && b.wallets[i] == WalletRow(u, 0, 0);
      assert Plus(a, b).wallets[|a.wallets| + i] == WalletRow(u, 0, 0);
    }
  }

  lemma HasGooglePlus(a: Tables, b: Tables, subject: string, u: Uuid)
    requires HasGoogle(a, subject, u) || HasGoogle(b, subject, u)
    ensures HasGoogle(Plus(a, b), subject, u)
  {
    if HasGoogle(a, subject, u) {
      var i :| 0 <= i < |a.providers| && IsGoogle(a.providers[i], subject, u);
      assert IsGoogle(Plus(a, b).providers[i], subject, u);
    } else {
      var i :| 0 <= i < |b.providers| && IsGoogle(b.providers[i], subject, u);
      assert IsGoogle(Plus(a, b).providers[|a.providers| + i], subject, u);
    }
  }

  // What is about to be committed: one user, its empty wallet, and for Google its identity.
  ghost predicate Complete(r: Request, d: Tables, user: Uuid) {
    LoginFlow(r.flow) && OwnUser(d, user) && d.wallets == [WalletRow(user, 0, 0)] && OwnProviders(r, d, user)
  }

  lemma CompleteHas(r: Request, d: Tables, user: Uuid)
    requires Complete(r, d, user)
    ensures HasUser(d, user) && HasWallet(d, user)
    ensures forall u: Uuid :: HasUser(d, u) ==> u == user
    ensures r.flow.Google? ==> HasGoogle(d, Who(r).subject, user)
  {
    assert d.wallets[0] == WalletRow(user, 0, 0);
    if r.flow.Google? {
      assert IsGoogle(d.providers[0], Who(r).subject, user);
    }
  }

  lemma WholePlus(t: Tables, r: Request, d: Tables, user: Uuid)
    requires Whole(t) && Complete(r, d, user)
    ensures Whole(Plus(t, d))
  {
    CompleteHas(r, d, user);
    var s := Plus(t, d);
    forall i | 0 <= i < |s.users| ensures HasWallet(s, s.users[i].id) {
      HasWalletPlus(t, d, s.users[i].id);
    }
    forall i | 0 <= i < |s.wallets|
      ensures HasUser(s, s.wallets[i].userId) && s.wallets[i].coins == 0 == s.wallets[i].gems
    {
      HasUserPlus(t, d, s.wallets[i].userId);
    }
    forall i | 0 <= i < |s.providers| ensures HasUser(s, s.providers[i].userId) {
      HasUserPlus(t, d, s.providers[i].userId);
    }
  }

  lemma NewUser(t: Tables, d: Tables, user: Uuid)
    requires OwnUser(d, user) && Apart(t, d)
    ensures !HasUser(t, user)
  {
    forall i | 0 <= i < |t.users| ensures t.users[i].id != user {
      assert !UsersClash(t.users[i], d.users[0]);
    }
  }

  // The world after request rid's commit of `user` has taken effect, whatever it reported.
  ghost predicate Committed(w: World, w2: World, rid: nat, user: Uuid, r2: Request) {
    && rid in w.requests && w.requests[rid].pc == CommitTx(user) && rid in w.db.open
    && r2.flow == w.requests[rid].flow && r2.who == w.requests[rid].who
    && ((r2.pc.Mint? && r2.user == Some(user)) || (r2.pc == Done(Failed) && r2.user == w.requests[rid].user))
    && w2.requests == w.requests[rid := r2]
    && w2.db == Commit(w.db, rid)
    && w2.creator == w.creator[user := rid]
    && Complete(r2, w.db.open[rid], user) && !HasUser(w.db.committed, user)
  }

  lemma CommitShapes(w: World, w2: World, rid: nat, user: Uuid, r2: Request)
    requires Shapes(w) && Committed(w, w2, rid, user, r2)
    ensures Shapes(w2)
  {
  }

  lemma CommitCreators(w: World, w2: World, rid: nat, user: Uuid, r2: Request)
    requires Creators(w) && Committed(w, w2, rid, user, r2)
    ensures Creators(w2)
  {
    var t, d := w.db.committed, w.db.open[rid];
    CompleteHas(r2, d, user);
    forall u: Uuid ensures u in w2.creator <==> HasUser(w2.db.committed, u) {
      HasUserPlus(t, d, u);
    }
    forall u | u in w2.creator ensures CreatorOf(w2, w2.creator[u], u) {
      if u != user {
        assert CreatorOf(w, w.creator[u], u);
      }
      if w2.requests[w2.creator[u]].flow.Google? {
        HasGooglePlus(t, d, Who(w2.requests[w2.creator[u]]).subject, u);
      }
    }
    forall u | u in w.creator ensures w.creator[u] != rid {
      assert CreatorOf(w, w.creator[u], u);
    }
  }

  lemma CommitOrigins(w: World, w2: World, rid: nat, user: Uuid, r2: Request)
    requires Origins(w) && Creators(w) && Committed(w, w2, rid, user, r2)
    ensures Origins(w2)
  {
    var t, d := w.db.committed, w.db.open[rid];
    forall i | 0 <= i < |w2.db.committed.providers| ensures ProviderOrigin(w2, w2.db.committed.providers[i]) {
      var p := w2.db.committed.providers[i];
      if i < |t.providers| {
        assert ProviderOrigin(w, t.providers[i]);
      } else {
        assert p == d.providers[0];
      }
    }
  }

  lemma CommitBindings(w: World, w2: World, rid: nat, user: Uuid, r2: Request)
    requires Bindings(w) && Creators(w) && Committed(w, w2, rid, user, r2)
    ensures Bindings(w2)
  {
    var t, d := w.db.committed, w.db.open[rid];
    CompleteHas(r2, d, user);
    forall x | x in w2.requests ensures BoundOk(w2, x, w2.requests[x]) {
      assert BoundOk(w, x, w.requests[x]);
      var r := w2.requests[x];
      if r.flow.Google? && r.user.Some? {
        HasGooglePlus(t, d, Who(r).subject, r.user.value);
      }
    }
  }

  lemma CommitKeeps(w: World, w2: World, rid: nat, user: Uuid, r2: Request)
    requires AccountInv(w) && Committed(w, w2, rid, user, r2)
    ensures AccountInv(w2)
  {
    CommitConsistent(w.db, rid);
    WholePlus(w.db.committed, r2, w.db.open[rid], user);
    CommitShapes(w, w2, rid, user, r2);
    CommitCreators(w, w2, rid, user, r2);
    CommitOrigins(w, w2, rid, user, r2);
    CommitBindings(w, w2, rid, user, r2);
  }

  // ---- Every event ----

  lemma InsertRefused(w: World, rid: nat, r: Request, c: Choice, db: Option<Database>, pc: Pc)
    requires Consistent(w.db) && rid in w.requests && r == w.requests[rid] && InTx(r.pc) && rid in w.db.open
    requires !c.io.Good? || db.None?
    ensures var w2 := AfterInsert(w, rid, r, c, db, pc); TxMoved(w, w2, rid, w2.requests[rid])
  {
  }

  lemma InsertMoved(w: World, rid: nat, r: Request, c: Choice, db: Option<Database>, d: Tables, pc: Pc)
    requires Consistent(w.db) && rid in w.requests && r == w.requests[rid] && InTx(r.pc) && rid in w.db.open
    requires Unique(d) && (db.Some? ==> db == Insert(w.db, rid, d))
    requires InTx(pc) && TxShape(r.(pc := pc), Plus(w.db.open[rid], d))
    ensures var w2 := AfterInsert(w, rid, r, c, db, pc); TxMoved(w, w2, rid, w2.requests[rid])
  {
    if c.io.Good? && db.Some? {
      InsertConsistent(w.db, rid, d);
    } else {
      InsertRefused(w, rid, r, c, db, pc);
    }
  }

  lemma InsertUserMoved(w: World, rid: nat, r: Request, c: Choice)
    requires Consistent(w.db) && rid in w.requests && r == w.requests[rid] && LoginFlow(r.flow)
    requires rid in w.db.open && TxShape(r, w.db.open[rid]) && r.pc.InsertUser?
    ensures var w2 := StepInsertUser(w, rid, r, c, r.pc.name); TxMoved(w, w2, rid, w2.requests[rid])
  {
    var pc := if r.flow.Google? then Pc.InsertProvider(c.id) else Pc.InsertWallet(c.id);
    var row := UserRow(c.id, r.pc.name);
    InsertMoved(w, rid, r, c, Postgres.InsertUser(w.db, rid, row), OneUser(row), pc);
  }

  lemma InsertProviderMoved(w: World, rid: nat, r: Request, c: Choice)
    requires Consistent(w.db) && rid in w.requests && r == w.requests[rid]
    requires rid in w.db.open && TxShape(r, w.db.open[rid]) && r.pc.InsertProvider?
    ensures var w2 := StepInsertProvider(w, rid, r, c, r.pc.id); TxMoved(w, w2, rid, w2.requests[rid])
  {
    var row := ProviderRowOf(r, c.id, r.pc.id);
    InsertMoved(w, rid, r, c, Postgres.InsertProvider(w.db, rid, row), OneProvider(row), Pc.InsertWallet(r.pc.id));
  }

  lemma InsertWalletMoved(w: World, rid: nat, r: Request, c: Choice)
    requires Consistent(w.db) && rid in w.requests && r == w.requests[rid]
    requires rid in w.db.open && TxShape(r, w.db.open[rid]) && r.pc.InsertWallet?
    ensures var w2 := StepInsertWallet(w, rid, r, c, r.pc.id); TxMoved(w, w2, rid, w2.requests[rid])
  {
    var row := WalletRow(r.pc.id, 0, 0);
    InsertMoved(w, rid, r, c, Postgres.InsertWallet(w.db, rid, row), OneWallet(row), CommitTx(r.pc.id));
  }

  lemma InsertStepMoved(w: World, rid: nat, r: Request, c: Choice)
    requires Consistent(w.db) && rid in w.requests && r == w.requests[rid] && RequestShape(r)
    requires rid in w.db.open && TxShape(r, w.db.open[rid])
    requires r.pc.InsertUser? || r.pc.InsertProvider? || r.pc.InsertWallet?
    ensures var w2 := StepRequest(w, rid, r, c); TxMoved(w, w2, rid, w2.requests[rid])
  {
    match r.pc {
      case InsertUser(_) => InsertUserMoved(w, rid, r, c);
      case InsertProvider(_) => InsertProviderMoved(w, rid, r, c);
      case InsertWallet(_) => InsertWalletMoved(w, rid, r, c);
    }
  }

  lemma BeginMoved(w: World, rid: nat, r: Request, c: Choice)
    requires Consistent(w.db) && rid in w.requests && r == w.requests[rid] && r.pc.BeginTx? && rid !in w.db.open
    ensures var w2 := StepBegin(w, rid, r, c, r.pc.name); TxMoved(w, w2, rid, w2.requests[rid])
  {
    BeginConsistent(w.db, rid);
  }

  lemma RollbackMoved(w: World, rid: nat, r: Request)
    requires Consistent(w.db) && rid in w.requests && r == w.requests[rid] && InTx(r.pc)
    ensures var w2 := StepRollback(w, rid, r); TxMoved(w, w2, rid, w2.requests[rid])
  {
    RollbackConsistent(w.db, rid);
  }

  lemma TxStepKeeps(w: World, rid: nat, c: Choice)
    requires AccountInv(w) && rid in w.requests
    requires var pc := w.requests[rid].pc; (InTx(pc) && !pc.CommitTx?) || pc.BeginTx? || (pc.CommitTx? && c.io.Lost?)
    ensures AccountInv(StepRequest(w, rid, w.requests[rid], c))
  {
    var r := w.requests[rid];
    var w2 := StepRequest(w, rid, r, c);
    if r.pc.InsertUser? || r.pc.InsertProvider? || r.pc.InsertWallet? {
      InsertStepMoved(w, rid, r, c);
    } else if r.pc.BeginTx? {
      BeginMoved(w, rid, r, c);
    } else {
      RollbackMoved(w, rid, r);
    }
    TxKeeps(w, w2, rid, w2.requests[rid]);
  }

  lemma CommitStepCommits(w: World, rid: nat, r: Request, c: Choice)
    requires rid in w.requests && r == w.requests[rid] && r.pc.CommitTx? && !c.io.Lost? && rid in w.db.open
    requires LoginFlow(r.flow) && TxShape(r, w.db.open[rid]) && Apart(w.db.committed, w.db.open[rid])
    ensures var w2 := StepRequest(w, rid, r, c); Committed(w, w2, rid, r.pc.id, w2.requests[rid])
  {
    NewUser(w.db.committed, w.db.open[rid], r.pc.id);
  }

  lemma CommitStepKeeps(w: World, rid: nat, c: Choice)
    requires AccountInv(w) && rid in w.requests && w.requests[rid].pc.CommitTx? && !c.io.Lost?
    ensures AccountInv(StepRequest(w, rid, w.requests[rid], c))
  {
    var r := w.requests[rid];
    var w2 := StepRequest(w, rid, r, c);
    CommitStepCommits(w, rid, r, c);
    CommitKeeps(w, w2, rid, r.pc.id, w2.requests[rid]);
  }

  lemma FindProviderMoved(w: World, rid: nat, r: Request, c: Choice)
    requires rid in w.requests && r == w.requests[rid] && r.pc.FindProvider? && RequestShape(r)
    ensures var w2 := StepFindProvider(w, rid, r, c); Moved(w, w2, rid, w2.requests[rid])
  {
    var rows := w.db.committed.providers;
    var row := Postgres.FindProvider(rows, GOOGLE, Who(r).subject);
    if row.Some? {
      var i :| 0 <= i < |rows| && rows[i] == row.value;
      assert IsGoogle(rows[i], Who(r).subject, row.value.userId);
    }
  }

  lemma FindProviderKeeps(w: World, rid: nat, c: Choice)
    requires AccountInv(w) && rid in w.requests && w.requests[rid].pc.FindProvider?
    ensures AccountInv(StepRequest(w, rid, w.requests[rid], c))
  {
    var r := w.requests[rid];
    FindProviderMoved(w, rid, r, c);
    var w2 := StepFindProvider(w, rid, r, c);
    RequestMoved(w, w2, rid, w2.requests[rid]);
  }

  // Steps that touch neither the database nor the account a request is bound to.
  ghost predicate SameAccount(w: World, w2: World, rid: nat, r: Request) {
    && rid in w2.requests && w2.db == w.db && w2.creator == w.creator
    && w2.requests == w.requests[rid := w2.requests[rid]]
    && w2.requests[rid].flow == r.flow && w2.requests[rid].user == r.user
    && (w2.requests[rid].who == r.who || r.pc.Verify?)
    && PcAfter(r, w2.requests[rid].pc)
  }

  ghost predicate PcAfter(r: Request, pc: Pc) {
    match r.pc
    case Verify => pc.FindProvider? || pc == Done(Failed)
    case PickName(_) => pc.PickName? || pc.BeginTx? || pc == Done(Failed)
    case GetToken => (pc.DelToken? && r.flow.Refresh?) || pc == Done(Failed)
    case DelToken => pc.Mint? || pc == Done(Failed)
    case Mint => pc.SetToken? || pc == Done(Failed)
    case SetToken(pair) => pc == Done(Issued(pair)) || pc == Done(Failed)
    case LogoutDel => pc == Done(LoggedOut) || pc == Done(Failed)
    case _ => pc == r.pc
  }

  predicate StorePc(pc: Pc) { !InTx(pc) && !pc.BeginTx? && !pc.FindProvider? }

  lemma IssueStepSame(w: World, rid: nat, r: Request, c: Choice)
    requires rid in w.requests && r == w.requests[rid] && (r.pc.GetToken? || r.pc.Mint? || r.pc.SetToken?)
    ensures SameAccount(w, StepRequest(w, rid, r, c), rid, r)
  {
    match r.pc {
      case SetToken(pair) => assert SameAccount(w, StepSet(w, rid, r, c, pair), rid, r);
      case Mint => assert SameAccount(w, StepMint(w, rid, r, c), rid, r);
      case GetToken => assert SameAccount(w, StepGet(w, rid, r, c), rid, r);
    }
  }

  lemma DelStepSame(w: World, rid: nat, r: Request, c: Choice)
    requires rid in w.requests && r == w.requests[rid] && (r.pc.DelToken? || r.pc.LogoutDel?)
    ensures SameAccount(w, StepRequest(w, rid, r, c), rid, r)
  {
    if r.pc.DelToken? {
      assert SameAccount(w, StepDel(w, rid, r, c, Mint), rid, r);
    } else {
      assert SameAccount(w, StepDel(w, rid, r, c, Done(LoggedOut)), rid, r);
    }
  }

  lemma StoreStepSame(w: World, rid: nat, r: Request, c: Choice)
    requires rid in w.requests && r == w.requests[rid] && StorePc(r.pc)
    ensures SameAccount(w, StepRequest(w, rid, r, c), rid, r)
  {
    if r.pc.GetToken? || r.pc.Mint? || r.pc.SetToken? {
      IssueStepSame(w, rid, r, c);
    } else if r.pc.DelToken? || r.pc.LogoutDel? {
      DelStepSame(w, rid, r, c);
    } else {
      match r.pc {
        case PickName(n) => assert SameAccount(w, StepPickName(w, rid, r, c, n), rid, r);
        case Verify => assert SameAccount(w, StepVerify(w, rid, r, c), rid, r);
        case Done(_) =>
      }
    }
  }

  lemma SameAccountMoved(w: World, w2: World, rid: nat, r: Request)
    requires rid in w.requests && r == w.requests[rid] && StorePc(r.pc)
    requires RequestShape(r) && BoundOk(w, rid, r) && SameAccount(w, w2, rid, r)
    ensures Moved(w, w2, rid, w2.requests[rid])
  {
  }

  lemma StoreStepKeeps(w: World, rid: nat, c: Choice)
    requires AccountInv(w) && rid in w.requests && StorePc(w.requests[rid].pc)
    ensures AccountInv(StepRequest(w, rid, w.requests[rid], c))
  {
    var r := w.requests[rid];
    var w2 := StepRequest(w, rid, r, c);
    StoreStepSame(w, rid, r, c);
    SameAccountMoved(w, w2, rid, r);
    RequestMoved(w, w2, rid, w2.requests[rid]);
  }

  lemma StepAccounts(w: World, rid: nat, c: Choice)
    requires AccountInv(w) && rid in w.requests
    ensures AccountInv(StepRequest(w, rid, w.requests[rid], c))
  {
    var pc := w.requests[rid].pc;
    if pc.CommitTx? && !c.io.Lost? { CommitStepKeeps(w, rid, c); }
    else if InTx(pc) || pc.BeginTx? { TxStepKeeps(w, rid, c); }
    else if pc.FindProvider? { FindProviderKeeps(w, rid, c); }
    else { StoreStepKeeps(w, rid, c); }
  }

  lemma NextAccounts(w: World, e: Event)
    requires AccountInv(w)
    ensures AccountInv(Next(w, e))
  {
    match e
    case Tick(d) =>
    case Start(rid, flow) =>
      if rid !in w.requests { RequestMoved(w, Next(w, e), rid, NewRequest(flow)); }
    case Step(rid, c) =>
      if rid in w.requests { StepAccounts(w, rid, c); }
  }

  lemma {:induction false} RunAccounts(cfg: Config, now: int, events: seq<Event>)
    ensures AccountInv(Run(Init(cfg, now), events))
  {
    if events == [] {
      InitAccounts(cfg, now);
    } else {
      RunAccounts(cfg, now, events[..|events| - 1]);
      NextAccounts(Run(Init(cfg, now), events[..|events| - 1]), events[|events| - 1]);
    }
  }
}
