/** That logins get in: what a working login does, for returning users, new Google users and guests,
    in every reachable world. */
module LoginTheorems {
  import opened Wrappers
  import opened Uuids
  import opened Postgres
  import opened AuthProtocol
  import opened Accounts
  import opened AccountTheorems
  import opened TokenIntervals
  import Jwt
  import Runs

  // ---- The look-up ----

  // Some committed row ties the Google subject to the user, whatever its e-mail.
  ghost predicate Registered(t: Tables, subject: string, user: Uuid) {
    exists p :: p in t.providers && p.provider == "google" && p.subject == subject && p.userId == user
  }

  lemma FoundIffRegistered(t: Tables, subject: string, user: Uuid)
    requires Unique(t)
    ensures var row := Postgres.FindProvider(t.providers, "google", subject);
            && (Registered(t, subject, user) <==> row.Some? && row.value.userId == user)
            && (row.None? ==> forall u: Uuid :: !Registered(t, subject, u))
  {
    var row := Postgres.FindProvider(t.providers, "google", subject);
    if Registered(t, subject, user) {
      var p :| p in t.providers && p.provider == "google" && p.subject == subject && p.userId == user;
      var i :| 0 <= i < |t.providers| && t.providers[i] == p;
      var j :| 0 <= j < |t.providers| && t.providers[j] == row.value;
      SamePlace(t.providers, ProvidersClash, i, j);
    }
  }

  /** A look-up that works binds the login to a user if and only if the subject is registered for that
      user, and sends it on to sign up if and only if it is registered for nobody. */
  lemma LookupBindsIffRegistered(cfg: Config, now: int, events: seq<Event>, rid: nat, c: Choice, user: Uuid)
    requires var w := Run(Init(cfg, now), events);
             rid in w.requests && w.requests[rid].flow.Google? && w.requests[rid].pc.FindProvider? && c.io.Good?
    ensures var w := Run(Init(cfg, now), events);
            var r, w2 := w.requests[rid], Next(w, Step(rid, c));
            && rid in w2.requests
            && (w2.requests[rid] == r.(user := Some(user), pc := Mint) <==>
                Registered(w.db.committed, Who(r).subject, user))
            && (w2.requests[rid] == r.(pc := PickName(0)) <==>
                forall u: Uuid :: !Registered(w.db.committed, Who(r).subject, u))
  {
    var w := Run(Init(cfg, now), events);
    var t, subject := w.db.committed, Who(w.requests[rid]).subject;
    RunAccounts(cfg, now, events);
    FoundIffRegistered(t, subject, user);
    var row := Postgres.FindProvider(t.providers, "google", subject);
    if row.Some? { FoundIffRegistered(t, subject, row.value.userId); }
  }

  // ---- The pair ----

  // A call that works; each kind of step takes what it needs.
  function CallWorks(rid: nat, id: Uuid, draw: Draw): Event {
    Step(rid, Choice(Good, "", id, None, draw))
  }

  // The request has ended with a pair for this user, whose refresh token is in the user's slot.
  ghost predicate LoggedIn(w: World, rid: nat, user: Uuid, draw: Draw) {
    && rid in w.requests && w.requests[rid].user == Some(user)
    && w.requests[rid].pc.Done? && w.requests[rid].pc.outcome.Issued?
    && var pair := w.requests[rid].pc.outcome.pair;
       && pair.refresh == OpaqueToken(draw) && Live(w, user, pair.refresh)
       && pair.access == Jwt.SignJWT(Jwt.NewAccessClaims(user, "player", w.cfg.accessTTL, w.now), w.cfg.secret)
  }

  lemma MintAndSet(w: World, rid: nat, user: Uuid, id: Uuid, draw: Draw)
    requires rid in w.requests && w.requests[rid].pc.Mint? && w.requests[rid].user == Some(user) && draw !in w.drawn
    ensures var e := CallWorks(rid, id, draw);
            var w2 := Run(w, [e, e]);
            LoggedIn(w2, rid, user, draw) && w2.db == w.db && w2.requests[rid].who == w.requests[rid].who
  {
    var e := CallWorks(rid, id, draw);
    var pair := Pair(w, w.requests[rid], draw);
    GoodMint(w, rid, w.requests[rid], e.choice);
    var w1 := Next(w, e);
    GoodSet(w1, rid, w1.requests[rid], e.choice);
    SetIsLive(w1, rid, user, pair, e.choice);
    Runs.RunOne(Next, w, e);
    Runs.RunSnoc(Next, w, [e], e);
    assert [e] + [e] == [e, e];
  }

  lemma SetIsLive(w: World, rid: nat, user: Uuid, pair: TokenPair, c: Choice)
    requires rid in w.requests && w.requests[rid].pc == SetToken(pair) && w.requests[rid].user == Some(user)
    requires c.io.Good?
    ensures var w2 := Next(w, Step(rid, c));
            Live(w2, user, pair.refresh) && w2.db == w.db && w2.cfg == w.cfg && w2.now == w.now
  {
  }

  function Put(w: World, rid: nat, r: Request): World {
    w.(requests := w.requests[rid := r])
  }

  lemma PutTwice(w: World, rid: nat, r: Request, r2: Request)
    ensures Put(Put(w, rid, r), rid, r2) == Put(w, rid, r2)
  {
    assert w.requests[rid := r][rid := r2] == w.requests[rid := r2];
  }

  // Verified, and about to look up.
  lemma VerifiedRuns(w: World, rid: nat, who: GoogleId)
    requires rid !in w.requests
    ensures Run(w, [Start(rid, Google), Step(rid, Choice(Good, "", 0, Some(who), 0))])
         == Put(w, rid, Request(Google, Some(who), None, FindProvider))
  {
    var start, verify := Start(rid, Google), Step(rid, Choice(Good, "", 0, Some(who), 0));
    Runs.RunOne(Next, w, start);
    Runs.RunSnoc(Next, w, [start], verify);
    assert [start] + [verify] == [start, verify];
    PutTwice(w, rid, NewRequest(Google), Request(Google, Some(who), None, FindProvider));
  }

  lemma KnownRuns(w: World, rid: nat, who: GoogleId, user: Uuid, id: Uuid, draw: Draw)
    requires Unique(w.db.committed) && Registered(w.db.committed, who.subject, user)
    ensures Run(Put(w, rid, Request(Google, Some(who), None, FindProvider)), [CallWorks(rid, id, draw)])
         == Put(w, rid, Request(Google, Some(who), Some(user), Mint))
  {
    var r := Request(Google, Some(who), None, FindProvider);
    FoundIffRegistered(w.db.committed, who.subject, user);
    Runs.RunOne(Next, Put(w, rid, r), CallWorks(rid, id, draw));
    PutTwice(w, rid, r, Request(Google, Some(who), Some(user), Mint));
  }

  function ReturningScript(rid: nat, who: GoogleId, draw: Draw): seq<Event> {
    var e := CallWorks(rid, 0, draw);
    [Start(rid, Google), Step(rid, Choice(Good, "", 0, Some(who), 0))] + [e] + [e, e]
  }

  /** A returning Google user gets in, whatever e-mail Google sends this time: with working calls and an
      unused draw the login ends with a pair for the registered user, and no row changes. */
  lemma ReturningUserGetsIn(
      cfg: Config, now: int, events: seq<Event>, rid: nat, who: GoogleId, user: Uuid, draw: Draw)
    requires var w := Run(Init(cfg, now), events);
             rid !in w.requests && Registered(w.db.committed, who.subject, user) && draw !in w.drawn
    ensures var w := Run(Init(cfg, now), events);
            var w2 := Run(w, ReturningScript(rid, who, draw));
            LoggedIn(w2, rid, user, draw) && w2.db == w.db
  {
    RunAccounts(cfg, now, events);
    ReturningRuns(Run(Init(cfg, now), events), rid, who, user, draw);
  }

  lemma ReturningRuns(w: World, rid: nat, who: GoogleId, user: Uuid, draw: Draw)
    requires Unique(w.db.committed) && Registered(w.db.committed, who.subject, user)
    requires rid !in w.requests && draw !in w.drawn
    ensures var w2 := Run(w, ReturningScript(rid, who, draw)); LoggedIn(w2, rid, user, draw) && w2.db == w.db
  {
    var e, verified := CallWorks(rid, 0, draw), [Start(rid, Google), Step(rid, Choice(Good, "", 0, Some(who), 0))];
    VerifiedRuns(w, rid, who);
    KnownRuns(w, rid, who, user, 0, draw);
    Runs.RunConcat(Next, w, verified, [e]);
    Runs.RunConcat(Next, w, verified + [e], [e, e]);
    MintAndSet(Put(w, rid, Request(Google, Some(who), Some(user), Mint)), rid, user, 0, draw);
  }

  // ---- Names ----

  function Try(rid: nat, name: string): Event {
    Step(rid, Choice(Good, name, 0, None, 0))
  }

  function Tries(rid: nat, names: seq<string>): seq<Event> {
    if names == [] then [] else Tries(rid, names[..|names| - 1]) + [Try(rid, names[|names| - 1])]
  }

  function Taken(t: Tables, names: seq<string>): bool {
    forall i :: 0 <= i < |names| ==> HasUsername(t, names[i])
  }

  /** A name that is taken costs one attempt: after fewer than five of them the request tries again, the
      fifth ends it with an error, and nothing else changes. */
  lemma {:induction false} CollisionsAreRetried(w: World, rid: nat, names: seq<string>)
    requires rid in w.requests && w.requests[rid].pc == PickName(0) && |names| <= 5 && Taken(w.db.committed, names)
    ensures Run(w, Tries(rid, names)) ==
            Put(w, rid, w.requests[rid].(pc := if |names| < 5 then PickName(|names|) else Done(Failed)))
  {
    if names == [] {
      assert Put(w, rid, w.requests[rid].(pc := PickName(0))).requests == w.requests;
    } else {
      var n := |names| - 1;
      var front := names[..n];
      var mid := Put(w, rid, w.requests[rid].(pc := PickName(n)));
      CollisionsAreRetried(w, rid, front);
      Runs.RunSnoc(Next, w, Tries(rid, front), Try(rid, names[n]));
      assert HasUsername(mid.db.committed, names[n]);
      PutTwice(w, rid, mid.requests[rid], w.requests[rid].(pc := if n + 1 < 5 then PickName(n + 1) else Done(Failed)));
    }
  }

  // ---- Signing up ----

  // No row, committed or in any open transaction, stands in the way of this user.
  ghost predicate Unused(db: Database, name: string, id: Uuid) {
    && |name| <= 50
    && (forall x :: UserStored(db, x) ==> x.id != id && x.username != name)
    && (forall x :: WalletStored(db, x) ==> x.userId != id)
  }

  ghost predicate UnusedIdentity(db: Database, subject: string, id: Uuid) {
    && |subject| <= 255
    && forall x :: ProviderStored(db, x) ==> x.id != id && !(x.provider == "google" && x.subject == subject)
  }

  // The world with rid's record and the rows its transaction holds.
  function InTransaction(w: World, rid: nat, r: Request, t: Tables): World {
    w.(requests := w.requests[rid := r], db := w.db.(open := w.db.open[rid := t]))
  }

  lemma BeginWorks(w: World, rid: nat, r: Request, name: string, id: Uuid, draw: Draw)
    requires r.pc == BeginTx(name)
    ensures Next(Put(w, rid, r), CallWorks(rid, id, draw)) == InTransaction(w, rid, r.(pc := InsertUser(name)), NO_ROWS)
  {
    PutTwice(w, rid, r, r.(pc := InsertUser(name)));
  }

  // A step inside the transaction, given what its INSERT makes of the rows.
  lemma InsertWorks(w: World, rid: nat, r: Request, c: Choice, t: Tables, t2: Tables, pc: Pc)
    requires c.io.Good?
    ensures var w1, db := InTransaction(w, rid, r, t), w.db.(open := w.db.open[rid := t2]);
            AfterInsert(w1, rid, r, c, Some(db), pc) == InTransaction(w, rid, r.(pc := pc), t2)
  {
    assert w.requests[rid := r][rid := r.(pc := pc)] == w.requests[rid := r.(pc := pc)];
  }

  lemma OpenTwice(db: Database, rid: nat, t: Tables, t2: Tables)
    ensures db.open[rid := t][rid := t2] == db.open[rid := t2]
  {
  }

  function AccountRows(id: Uuid, name: string, providers: seq<ProviderRow>): Tables {
    Tables([UserRow(id, name)], [], providers)
  }

  lemma UserWorks(w: World, rid: nat, r: Request, name: string, id: Uuid, draw: Draw)
    requires r.pc == InsertUser(name) && Unused(w.db, name, id) && rid !in w.db.open
    ensures var pc := if r.flow.Google? then InsertProvider(id) else InsertWallet(id);
            Next(InTransaction(w, rid, r, NO_ROWS), CallWorks(rid, id, draw))
            == InTransaction(w, rid, r.(pc := pc), AccountRows(id, name, []))
  {
    var w1, row := InTransaction(w, rid, r, NO_ROWS), UserRow(id, name);
    forall x | UserStored(w1.db, x) ensures UserStored(w.db, x) {
      if x !in w.db.committed.users {
        var o :| o in w1.db.open && x in w1.db.open[o].users;
        assert o in w.db.open && x in w.db.open[o].users;
      }
    }
    InsertUserMeans(w1.db, rid, row);
    OpenTwice(w.db, rid, NO_ROWS, AccountRows(id, name, []));
    assert NO_ROWS.users + [row] == [row];
    InsertWorks(w, rid, r, CallWorks(rid, id, draw).choice, NO_ROWS, AccountRows(id, name, []),
                if r.flow.Google? then InsertProvider(id) else InsertWallet(id));
  }

  lemma ProviderWorks(w: World, rid: nat, r: Request, name: string, id: Uuid, pid: Uuid, draw: Draw)
    requires r.pc == InsertProvider(id) && UnusedIdentity(w.db, Who(r).subject, pid) && rid !in w.db.open
    ensures Next(InTransaction(w, rid, r, AccountRows(id, name, [])), CallWorks(rid, pid, draw))
         == InTransaction(w, rid, r.(pc := InsertWallet(id)), AccountRows(id, name, [ProviderRowOf(r, pid, id)]))
  {
    var t, row := AccountRows(id, name, []), ProviderRowOf(r, pid, id);
    var w1 := InTransaction(w, rid, r, t);
    forall x | ProviderStored(w1.db, x) ensures ProviderStored(w.db, x) {
      if x !in w.db.committed.providers {
        var o :| o in w1.db.open && x in w1.db.open[o].providers;
        assert o in w.db.open && x in w.db.open[o].providers;
      }
    }
    assert UserVisible(w1.db, rid, id) by { assert UserRow(id, name) in w1.db.open[rid].users; }
    InsertProviderMeans(w1.db, rid, row);
    OpenTwice(w.db, rid, t, AccountRows(id, name, [row]));
    assert t.providers + [row] == [row];
    InsertWorks(w, rid, r, CallWorks(rid, pid, draw).choice, t, AccountRows(id, name, [row]), InsertWallet(id));
  }

  // All rows of the new account.
  function FullRows(id: Uuid, name: string, providers: seq<ProviderRow>): Tables {
    Tables([UserRow(id, name)], [WalletRow(id, 0, 0)], providers)
  }

  lemma WalletWorks(
      w: World, rid: nat, r: Request, name: string, id: Uuid, providers: seq<ProviderRow>, any: Uuid, draw: Draw)
    requires r.pc == InsertWallet(id) && Unused(w.db, name, id) && rid !in w.db.open
    ensures Next(InTransaction(w, rid, r, AccountRows(id, name, providers)), CallWorks(rid, any, draw))
         == InTransaction(w, rid, r.(pc := CommitTx(id)), FullRows(id, name, providers))
  {
    var t, row := AccountRows(id, name, providers), WalletRow(id, 0, 0);
    var w1 := InTransaction(w, rid, r, t);
    forall x | WalletStored(w1.db, x) ensures WalletStored(w.db, x) {
      if x !in w.db.committed.wallets {
        var o :| o in w1.db.open && x in w1.db.open[o].wallets;
        assert o in w.db.open && x in w.db.open[o].wallets;
      }
    }
    assert UserVisible(w1.db, rid, id) by { assert UserRow(id, name) in w1.db.open[rid].users; }
    InsertWalletMeans(w1.db, rid, row);
    OpenTwice(w.db, rid, t, FullRows(id, name, providers));
    assert t.wallets + [row] == [row];
    InsertWorks(w, rid, r, CallWorks(rid, any, draw).choice, t, FullRows(id, name, providers), CommitTx(id));
  }

  // The account is committed with exactly these rows, and its request is about to draw a token.
  ghost predicate SignedUp(w: World, w2: World, rid: nat, r: Request, id: Uuid, rows: Tables) {
    && rid in w2.requests && w2.requests[rid] == r.(user := Some(id), pc := Mint)
    && w2.db.committed == Plus(w.db.committed, rows) && w2.drawn == w.drawn
  }

  lemma CommitWorks(w: World, rid: nat, r: Request, id: Uuid, rows: Tables, any: Uuid, draw: Draw)
    requires r.pc == CommitTx(id)
    ensures SignedUp(w, Next(InTransaction(w, rid, r, rows), CallWorks(rid, any, draw)), rid, r, id, rows)
  {
  }

  // From BEGIN to COMMIT, for a guest.
  lemma GuestSignsUp(w: World, rid: nat, r: Request, name: string, id: Uuid, draw: Draw)
    requires r.pc == BeginTx(name) && !r.flow.Google? && Unused(w.db, name, id) && rid !in w.db.open
    ensures var e := CallWorks(rid, id, draw);
            SignedUp(w, Run(Put(w, rid, r), [e, e, e, e]), rid, r, id, FullRows(id, name, []))
  {
    var e := CallWorks(rid, id, draw);
    BeginWorks(w, rid, r, name, id, draw);
    UserWorks(w, rid, r.(pc := InsertUser(name)), name, id, draw);
    WalletWorks(w, rid, r.(pc := InsertWallet(id)), name, id, [], id, draw);
    CommitWorks(w, rid, r.(pc := CommitTx(id)), id, FullRows(id, name, []), id, draw);
    Runs.RunFour(Next, Put(w, rid, r), e, e, e, e);
  }

  // The same for a Google user, whose identity is inserted between the user and the wallet.
  lemma GoogleSignsUp(w: World, rid: nat, r: Request, name: string, id: Uuid, pid: Uuid, draw: Draw)
    requires r.pc == BeginTx(name) && r.flow.Google? && Unused(w.db, name, id) && rid !in w.db.open
    requires UnusedIdentity(w.db, Who(r).subject, pid)
    ensures var e, p := CallWorks(rid, id, draw), CallWorks(rid, pid, draw);
            SignedUp(w, Run(Put(w, rid, r), [e, e, p, e] + [e]), rid, r, id,
                     FullRows(id, name, [ProviderRowOf(r, pid, id)]))
  {
    var e, p, row := CallWorks(rid, id, draw), CallWorks(rid, pid, draw), ProviderRowOf(r, pid, id);
    BeginWorks(w, rid, r, name, id, draw);
    UserWorks(w, rid, r.(pc := InsertUser(name)), name, id, draw);
    ProviderWorks(w, rid, r.(pc := InsertProvider(id)), name, id, pid, draw);
    WalletWorks(w, rid, r.(pc := InsertWallet(id)), name, id, [row], id, draw);
    CommitWorks(w, rid, r.(pc := CommitTx(id)), id, FullRows(id, name, [row]), id, draw);
    Runs.RunFour(Next, Put(w, rid, r), e, e, p, e);
    Runs.RunSnoc(Next, Put(w, rid, r), [e, e, p, e], e);
  }

  // ---- First logins ----

  // Up to four candidates collide, the next one is free.
  lemma NamingWorks(w: World, rid: nat, r: Request, names: seq<string>, name: string)
    requires r.pc == PickName(0) && |names| <= 4 && Taken(w.db.committed, names) && !HasUsername(w.db.committed, name)
    ensures Run(Put(w, rid, r), Tries(rid, names) + [Try(rid, name)]) == Put(w, rid, r.(pc := BeginTx(name)))
  {
    var w1, settled := Put(w, rid, r), r.(pc := PickName(|names|));
    CollisionsAreRetried(w1, rid, names);
    Runs.RunSnoc(Next, w1, Tries(rid, names), Try(rid, name));
    PutTwice(w, rid, r, settled);
    PutTwice(w, rid, settled, r.(pc := BeginTx(name)));
  }

  lemma UnusedIsAbsent(db: Database, name: string, id: Uuid)
    requires Unused(db, name, id)
    ensures !HasUsername(db.committed, name)
  {
    forall i | 0 <= i < |db.committed.users| ensures db.committed.users[i].username != name {
      assert UserStored(db, db.committed.users[i]);
    }
  }

  function GuestScript(rid: nat, names: seq<string>, name: string, id: Uuid, draw: Draw): seq<Event> {
    var e := CallWorks(rid, id, draw);
    [Start(rid, Guest)] + (Tries(rid, names) + [Try(rid, name)]) + [e, e, e, e] + [e, e]
  }

  // Nothing stands in the way of a new account of this name, tried after these.
  ghost predicate CanJoin(w: World, rid: nat, names: seq<string>, name: string, id: Uuid, draw: Draw) {
    && rid !in w.requests && |names| <= 4 && Taken(w.db.committed, names)
    && Unused(w.db, name, id) && draw !in w.drawn
  }

  /** A guest gets in: with working calls, at most four taken candidates before a free one, and an id and
      a draw that are not in use, the login ends with a pair for a new user, and exactly the user's row
      and one empty wallet have been added. */
  lemma GuestGetsIn(
      cfg: Config, now: int, events: seq<Event>, rid: nat, names: seq<string>, name: string, id: Uuid, draw: Draw)
    requires CanJoin(Run(Init(cfg, now), events), rid, names, name, id, draw)
    ensures var w := Run(Init(cfg, now), events);
            var w2 := Run(w, GuestScript(rid, names, name, id, draw));
            && LoggedIn(w2, rid, id, draw)
            && w2.db.committed == Plus(w.db.committed, Tables([UserRow(id, name)], [WalletRow(id, 0, 0)], []))
  {
    RunAccounts(cfg, now, events);
    GuestRuns(Run(Init(cfg, now), events), rid, names, name, id, draw);
  }

  lemma GuestRuns(w: World, rid: nat, names: seq<string>, name: string, id: Uuid, draw: Draw)
    requires CanJoin(w, rid, names, name, id, draw) && rid !in w.db.open
    ensures var w2 := Run(w, GuestScript(rid, names, name, id, draw));
            LoggedIn(w2, rid, id, draw) && w2.db.committed == Plus(w.db.committed, FullRows(id, name, []))
  {
    var e, r := CallWorks(rid, id, draw), NewRequest(Guest);
    var named := Put(w, rid, r.(pc := BeginTx(name)));
    UnusedIsAbsent(w.db, name, id);
    Runs.RunOne(Next, w, Start(rid, Guest));
    NamingWorks(w, rid, r, names, name);
    GuestSignsUp(w, rid, r.(pc := BeginTx(name)), name, id, draw);
    MintAndSet(Run(named, [e, e, e, e]), rid, id, id, draw);
    Runs.RunInFour(Next, w, [Start(rid, Guest)], Tries(rid, names) + [Try(rid, name)], [e, e, e, e], [e, e]);
  }

  function GoogleScript(
      rid: nat, who: GoogleId, names: seq<string>, name: string, id: Uuid, pid: Uuid, draw: Draw): seq<Event>
  {
    var e, p := CallWorks(rid, id, draw), CallWorks(rid, pid, draw);
    ([Start(rid, Google), Step(rid, Choice(Good, "", 0, Some(who), 0))] + [e])
    + (Tries(rid, names) + [Try(rid, name)]) + ([e, e, p, e] + [e]) + [e, e]
  }

  // Verified, and found nowhere.
  lemma NewcomerRuns(w: World, rid: nat, who: GoogleId, id: Uuid, pid: Uuid, draw: Draw)
    requires rid !in w.requests && UnusedIdentity(w.db, who.subject, pid)
    ensures Run(w, [Start(rid, Google), Step(rid, Choice(Good, "", 0, Some(who), 0))] + [CallWorks(rid, id, draw)])
         == Put(w, rid, Request(Google, Some(who), None, PickName(0)))
  {
    var verified := [Start(rid, Google), Step(rid, Choice(Good, "", 0, Some(who), 0))];
    var e, r := CallWorks(rid, id, draw), Request(Google, Some(who), None, FindProvider);
    forall x | x in w.db.committed.providers ensures !(x.provider == "google" && x.subject == who.subject) {
      assert ProviderStored(w.db, x);
    }
    VerifiedRuns(w, rid, who);
    Runs.RunSnoc(Next, w, verified, e);
    PutTwice(w, rid, r, r.(pc := PickName(0)));
  }

  /** So does a Google user on the first login: verified, found nowhere, named, signed up with exactly a
      user row, the verified identity and one empty wallet, and handed a pair. */
  lemma NewGoogleUserGetsIn(
      cfg: Config, now: int, events: seq<Event>, rid: nat, who: GoogleId, names: seq<string>, name: string,
      id: Uuid, pid: Uuid, draw: Draw)
    requires CanJoin(Run(Init(cfg, now), events), rid, names, name, id, draw)
    requires UnusedIdentity(Run(Init(cfg, now), events).db, who.subject, pid)
    ensures var w := Run(Init(cfg, now), events);
            var w2 := Run(w, GoogleScript(rid, who, names, name, id, pid, draw));
            var row := ProviderRow(pid, id, "google", who.subject, if who.email == "" then None else Some(who.email));
            && LoggedIn(w2, rid, id, draw)
            && w2.db.committed == Plus(w.db.committed, Tables([UserRow(id, name)], [WalletRow(id, 0, 0)], [row]))
  {
    RunAccounts(cfg, now, events);
    NewGoogleRuns(Run(Init(cfg, now), events), rid, who, names, name, id, pid, draw);
  }

  lemma NewGoogleRuns(
      w: World, rid: nat, who: GoogleId, names: seq<string>, name: string, id: Uuid, pid: Uuid, draw: Draw)
    requires CanJoin(w, rid, names, name, id, draw) && rid !in w.db.open && UnusedIdentity(w.db, who.subject, pid)
    ensures var w2 := Run(w, GoogleScript(rid, who, names, name, id, pid, draw));
            var row := ProviderRowOf(Request(Google, Some(who), None, PickName(0)), pid, id);
            LoggedIn(w2, rid, id, draw) && w2.db.committed == Plus(w.db.committed, FullRows(id, name, [row]))
  {
    var e, p := CallWorks(rid, id, draw), CallWorks(rid, pid, draw);
    var verified := [Start(rid, Google), Step(rid, Choice(Good, "", 0, Some(who), 0))];
    var r := Request(Google, Some(who), None, PickName(0));
    var named := Put(w, rid, r.(pc := BeginTx(name)));
    UnusedIsAbsent(w.db, name, id);
    NewcomerRuns(w, rid, who, id, pid, draw);
    NamingWorks(w, rid, r, names, name);
    GoogleSignsUp(w, rid, r.(pc := BeginTx(name)), name, id, pid, draw);
    MintAndSet(Run(named, [e, e, p, e] + [e]), rid, id, id, draw);
    Runs.RunInFour(
      Next, w, verified + [e], Tries(rid, names) + [Try(rid, name)], [e, e, p, e] + [e], [e, e]);
  }
}
