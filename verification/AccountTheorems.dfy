/** The promises about accounts, for every run of any number of requests with any faults. */
module AccountTheorems {
  import opened Wrappers
  import opened Uuids
  import opened Postgres
  import opened AuthProtocol
  import opened Accounts
  import opened RefreshSlots

  // Rows that clash both ways in a table under its constraints are one row.
  lemma SamePlace<R>(rows: seq<R>, clash: (R, R) -> bool, i: nat, j: nat)
    requires RowsUnique(rows, clash) && i < |rows| && j < |rows|
    requires clash(rows[i], rows[j]) && clash(rows[j], rows[i])
    ensures i == j
  {
  }

  // ---- Wallets and references ----

  ghost predicate ExactlyOneWallet(t: Tables, user: Uuid) {
    && HasWallet(t, user)
    && forall i, j ::
         0 <= i < |t.wallets| && 0 <= j < |t.wallets| && t.wallets[i].userId == user == t.wallets[j].userId ==> i == j
  }

  lemma OneWalletEach(w: World, user: Uuid)
    requires AccountInv(w) && HasUser(w.db.committed, user)
    ensures ExactlyOneWallet(w.db.committed, user)
  {
    var t := w.db.committed;
    forall i, j | 0 <= i < |t.wallets| && 0 <= j < |t.wallets| && t.wallets[i].userId == user == t.wallets[j].userId
      ensures i == j
    {
      SamePlace(t.wallets, WalletsClash, i, j);
    }
  }

  /** Every committed user has exactly one wallet, with zero balances, and every wallet and
      provider row belongs to a committed user. */
  lemma WalletsAndReferences(cfg: Config, now: int, events: seq<Event>)
    ensures var t := Run(Init(cfg, now), events).db.committed;
            && (forall user :: HasUser(t, user) ==> ExactlyOneWallet(t, user))
            && (forall i :: 0 <= i < |t.wallets| ==>
                  HasUser(t, t.wallets[i].userId) && t.wallets[i].coins == t.wallets[i].gems == 0)
            && (forall i :: 0 <= i < |t.providers| ==> HasUser(t, t.providers[i].userId))
  {
    var w := Run(Init(cfg, now), events);
    RunAccounts(cfg, now, events);
    forall user | HasUser(w.db.committed, user) ensures ExactlyOneWallet(w.db.committed, user) {
      OneWalletEach(w, user);
    }
  }

  // ---- Usernames ----

  /** Usernames and user ids are unique although the username check runs outside the transaction. */
  lemma UsernamesUnique(cfg: Config, now: int, events: seq<Event>)
    ensures var t := Run(Init(cfg, now), events).db.committed;
            forall i, j :: 0 <= i < |t.users| && 0 <= j < |t.users| && i != j ==>
              t.users[i].username != t.users[j].username && t.users[i].id != t.users[j].id
  {
    RunAccounts(cfg, now, events);
    var t := Run(Init(cfg, now), events).db.committed;
    forall i, j | 0 <= i < |t.users| && 0 <= j < |t.users| && i != j
      ensures t.users[i].username != t.users[j].username && t.users[i].id != t.users[j].id
    {
      if i < j { assert !UsersClash(t.users[i], t.users[j]); } else { assert !UsersClash(t.users[j], t.users[i]); }
    }
  }

  // The name a request is about to register, if it has settled on one.
  function ChosenName(r: Request): Option<string> {
    match r.pc
    case BeginTx(name) => Some(name)
    case InsertUser(name) => Some(name)
    case _ => None
  }

  ghost predicate SeenAbsentAt(w0: World, events: seq<Event>, rid: nat, name: string, k: nat) {
    && k < |events| && events[k].Step? && events[k].rid == rid && events[k].choice.name == name
    && var w := After(w0, events, k);
       (rid in w.requests && w.requests[rid].pc.PickName? && !HasUsername(w.db.committed, name))
  }

  lemma NameAfterStep(w: World, rid: nat, r: Request, c: Choice)
    requires rid in w.requests && r == w.requests[rid] && rid in StepRequest(w, rid, r, c).requests
    ensures var name := ChosenName(StepRequest(w, rid, r, c).requests[rid]);
            name.Some? && name != ChosenName(r) ==>
              r.pc.PickName? && name == Some(c.name) && !HasUsername(w.db.committed, c.name)
  {
    if StorePc(r.pc) {
      StoreStepSame(w, rid, r, c);
    }
  }

  lemma NameChosenByStep(w: World, rid: nat, r: Request, c: Choice)
    requires rid in w.requests && r == w.requests[rid]
    ensures var w2 := StepRequest(w, rid, r, c);
            && w2.requests.Keys == w.requests.Keys
            && (forall x :: x in w.requests && x != rid ==> w2.requests[x] == w.requests[x])
            && var name := ChosenName(w2.requests[rid]);
               (name.Some? && name != ChosenName(r) ==>
                  r.pc.PickName? && name == Some(c.name) && !HasUsername(w.db.committed, c.name))
  {
    StepFollows(w, rid, r, c);
    NameAfterStep(w, rid, r, c);
  }

  /** A name is only used after a check that saw it absent, made by the same request. */
  lemma {:induction false} ChosenNameWasAbsent(cfg: Config, now: int, events: seq<Event>, rid: nat)
    ensures var w := Run(Init(cfg, now), events);
            rid in w.requests && ChosenName(w.requests[rid]).Some? ==>
              exists k: nat :: SeenAbsentAt(Init(cfg, now), events, rid, ChosenName(w.requests[rid]).value, k)
  {
    if events != [] {
      var w0 := Init(cfg, now);
      var front, e := events[..|events| - 1], events[|events| - 1];
      var w, w2 := Run(w0, front), Run(w0, events);
      ChosenNameWasAbsent(cfg, now, front, rid);
      if e.Step? && e.rid in w.requests { NameChosenByStep(w, e.rid, w.requests[e.rid], e.choice); }
      if rid in w2.requests && ChosenName(w2.requests[rid]).Some? {
        var name := ChosenName(w2.requests[rid]).value;
        if rid in w.requests && ChosenName(w.requests[rid]) == Some(name) {
          var k: nat :| SeenAbsentAt(w0, front, rid, name, k);
          assert front[..k] == events[..k];
          assert SeenAbsentAt(w0, events, rid, name, k);
        } else {
          assert SeenAbsentAt(w0, events, rid, name, |events| - 1);
        }
      }
    }
  }

  // How many username checks request rid has made during the run.
  ghost function Checks(w0: World, events: seq<Event>, rid: nat): nat {
    if events == [] then 0
    else
      var w := Run(w0, events[..|events| - 1]);
      var e := events[|events| - 1];
      Checks(w0, events[..|events| - 1], rid) +
      if e.Step? && e.rid == rid && rid in w.requests && w.requests[rid].pc.PickName? then 1 else 0
  }

  predicate BeforeNaming(pc: Pc) { pc.Verify? || pc.FindProvider? }

  // A step from before naming checks nothing; a check either settles or counts one attempt.
  predicate NamingGoesOn(pc: Pc, next: Pc) {
    && (BeforeNaming(next) ==> BeforeNaming(pc))
    && (next.PickName? ==> if pc.PickName? then next.attempt == pc.attempt + 1 < MAX_ATTEMPTS
                           else next.attempt == 0 && BeforeNaming(pc))
  }

  lemma NamingPc(w: World, rid: nat, r: Request, c: Choice)
    requires rid in w.requests && r == w.requests[rid] && rid in StepRequest(w, rid, r, c).requests
    ensures NamingGoesOn(r.pc, StepRequest(w, rid, r, c).requests[rid].pc)
  {
    if StorePc(r.pc) && !r.pc.PickName? {
      StoreStepSame(w, rid, r, c);
    }
  }

  lemma NamingStep(w: World, rid: nat, r: Request, c: Choice)
    requires rid in w.requests && r == w.requests[rid]
    ensures var w2 := StepRequest(w, rid, r, c);
            && w2.requests.Keys == w.requests.Keys
            && (forall x :: x in w.requests && x != rid ==> w2.requests[x] == w.requests[x])
            && NamingGoesOn(r.pc, w2.requests[rid].pc)
  {
    StepFollows(w, rid, r, c);
    NamingPc(w, rid, r, c);
  }

  /** The generator loop checks at most five names. */
  lemma {:induction false} AtMostFiveChecks(cfg: Config, now: int, events: seq<Event>, rid: nat)
    ensures Checks(Init(cfg, now), events, rid) <= 5
    ensures var w := Run(Init(cfg, now), events);
            && (rid !in w.requests || BeforeNaming(w.requests[rid].pc) ==> Checks(Init(cfg, now), events, rid) == 0)
            && (rid in w.requests && w.requests[rid].pc.PickName? ==>
                  Checks(Init(cfg, now), events, rid) == w.requests[rid].pc.attempt < 5)
  {
    if events != [] {
      var front, e := events[..|events| - 1], events[|events| - 1];
      AtMostFiveChecks(cfg, now, front, rid);
      var w := Run(Init(cfg, now), front);
      if e.Step? && e.rid in w.requests { NamingStep(w, e.rid, w.requests[e.rid], e.choice); }
    }
  }

  // ---- Google identity ----

  ghost predicate BoundGoogle(w: World, rid: nat) {
    rid in w.requests && w.requests[rid].flow.Google? && w.requests[rid].user.Some?
  }

  // The subject and the user of a Google login that got as far as an account.
  function SubjectOf(w: World, rid: nat): string
    requires rid in w.requests
  {
    Who(w.requests[rid]).subject
  }

  lemma SameSubjectSameUser(t: Tables, subject: string, u: Uuid, v: Uuid)
    requires Unique(t) && HasGoogle(t, subject, u) && HasGoogle(t, subject, v)
    ensures u == v
  {
    var i :| 0 <= i < |t.providers| && IsGoogle(t.providers[i], subject, u);
    var j :| 0 <= j < |t.providers| && IsGoogle(t.providers[j], subject, v);
    SamePlace(t.providers, ProvidersClash, i, j);
  }

  lemma SameUserSameSubject(w: World, s: string, t: string, user: Uuid)
    requires Origins(w) && HasGoogle(w.db.committed, s, user) && HasGoogle(w.db.committed, t, user)
    ensures s == t
  {
    var rows := w.db.committed.providers;
    var i :| 0 <= i < |rows| && IsGoogle(rows[i], s, user);
    var j :| 0 <= j < |rows| && IsGoogle(rows[j], t, user);
    assert ProviderOrigin(w, rows[i]) && ProviderOrigin(w, rows[j]);
  }

  /** Over a whole run, two Google logins reach the same user exactly when Google named the
      same subject. The records of finished requests stay in the world, so this compares
      logins that succeeded at any two moments of the run. */
  lemma GoogleIdentityIsInjective(cfg: Config, now: int, events: seq<Event>, a: nat, b: nat)
    requires var w := Run(Init(cfg, now), events); BoundGoogle(w, a) && BoundGoogle(w, b)
    ensures var w := Run(Init(cfg, now), events);
            SubjectOf(w, a) == SubjectOf(w, b) <==> w.requests[a].user == w.requests[b].user
  {
    var w := Run(Init(cfg, now), events);
    RunAccounts(cfg, now, events);
    assert BoundOk(w, a, w.requests[a]) && BoundOk(w, b, w.requests[b]);
    if SubjectOf(w, a) == SubjectOf(w, b) {
      SameSubjectSameUser(w.db.committed, SubjectOf(w, a), w.requests[a].user.value, w.requests[b].user.value);
    }
    if w.requests[a].user == w.requests[b].user {
      SameUserSameSubject(w, SubjectOf(w, a), SubjectOf(w, b), w.requests[a].user.value);
    }
  }

  /** A guest account never gains a provider row: not the one a guest login acts for, and not one whose
      commit took effect although the login was told it failed. */
  lemma GuestsHaveNoProvider(cfg: Config, now: int, events: seq<Event>, rid: nat, user: Uuid, p: ProviderRow)
    requires var w := Run(Init(cfg, now), events);
             && rid in w.requests && w.requests[rid].flow.Guest?
             && (w.requests[rid].user == Some(user) || (user in w.creator && w.creator[user] == rid))
             && p in w.db.committed.providers
    ensures p.userId != user
  {
    var w := Run(Init(cfg, now), events);
    RunAccounts(cfg, now, events);
    var i :| 0 <= i < |w.db.committed.providers| && w.db.committed.providers[i] == p;
    assert BoundOk(w, rid, w.requests[rid]) && ProviderOrigin(w, w.db.committed.providers[i]);
  }

  /** Every provider row says what Google verified for the login that made its user: that subject,
      and that e-mail or none. */
  lemma ProviderRowsAreVerified(cfg: Config, now: int, events: seq<Event>, p: ProviderRow)
    requires p in Run(Init(cfg, now), events).db.committed.providers
    ensures var w := Run(Init(cfg, now), events);
            && MadeByGoogle(w, p.userId, p.subject) && p.provider == "google"
            && EmailKept(p, Who(w.requests[w.creator[p.userId]]))
  {
    RunAccounts(cfg, now, events);
    var w := Run(Init(cfg, now), events);
    var i :| 0 <= i < |w.db.committed.providers| && w.db.committed.providers[i] == p;
    assert ProviderOrigin(w, w.db.committed.providers[i]);
  }

  // The user was committed by a Google login for this subject.
  ghost predicate MadeByGoogle(w: World, user: Uuid, subject: string) {
    && user in w.creator && w.creator[user] in w.requests
    && w.requests[w.creator[user]].flow.Google? && SubjectOf(w, w.creator[user]) == subject
  }

  ghost predicate MadeByGuest(w: World, user: Uuid) {
    user in w.creator && w.creator[user] in w.requests && w.requests[w.creator[user]].flow.Guest?
  }

  ghost predicate ExactlyOneProvider(t: Tables, user: Uuid) {
    exists i :: 0 <= i < |t.providers| && t.providers[i].userId == user
                && forall j :: 0 <= j < |t.providers| && t.providers[j].userId == user ==> j == i
  }

  lemma OneProvider(w: World, user: Uuid, subject: string)
    requires AccountInv(w) && MadeByGoogle(w, user, subject)
    ensures ExactlyOneProvider(w.db.committed, user) && HasGoogle(w.db.committed, subject, user)
  {
    assert CreatorOf(w, w.creator[user], user);
    var rows := w.db.committed.providers;
    var i :| 0 <= i < |rows| && IsGoogle(rows[i], subject, user);
    forall j | 0 <= j < |rows| && rows[j].userId == user ensures j == i {
      assert ProviderOrigin(w, rows[j]);
      SamePlace(rows, ProvidersClash, i, j);
    }
  }

  /** First-login races leave no orphans: every committed user was made by one login; a
      Google-made user has exactly one provider row and is the only user ever made for its
      subject, however many logins raced for it; a guest-made user has none. */
  lemma NoOrphans(cfg: Config, now: int, events: seq<Event>, user: Uuid)
    requires HasUser(Run(Init(cfg, now), events).db.committed, user)
    ensures var w := Run(Init(cfg, now), events);
            || (MadeByGuest(w, user) && forall i :: 0 <= i < |w.db.committed.providers| ==>
                  w.db.committed.providers[i].userId != user)
            || (exists subject :: MadeByGoogle(w, user, subject) && ExactlyOneProvider(w.db.committed, user)
                  && forall other: Uuid :: MadeByGoogle(w, other, subject) ==> other == user)
  {
    var w := Run(Init(cfg, now), events);
    RunAccounts(cfg, now, events);
    assert user in w.creator && CreatorOf(w, w.creator[user], user);
    if w.requests[w.creator[user]].flow.Google? {
      var subject := SubjectOf(w, w.creator[user]);
      assert MadeByGoogle(w, user, subject);
      OneProvider(w, user, subject);
      forall other: Uuid | MadeByGoogle(w, other, subject) ensures other == user {
        OneProvider(w, other, subject);
        SameSubjectSameUser(w.db.committed, subject, other, user);
      }
    } else {
      forall i | 0 <= i < |w.db.committed.providers| ensures w.db.committed.providers[i].userId != user {
        assert ProviderOrigin(w, w.db.committed.providers[i]);
      }
    }
  }
}
