/** The service and its repositories as straight-line code over mutable stores. Before each of
    its own store calls a request lets any number of other events happen; each method is
    proved to take exactly the steps of its program in AuthProtocol. */
module AuthService {
  import opened Wrappers
  import opened Uuids
  import opened RedisKeys
  import opened Postgres
  import opened AuthProtocol
  import opened RefreshSlots
  import Jwt
  import Runs
  import Turns

  // What happens around one store call: first the others' events, then the call itself.
  type Turn = Turns.Turn<Event, Choice>

  function Own(rid: nat): Choice -> Event {
    c => Step(rid, c)
  }

  // An event of some other request, or the clock.
  predicate NotAbout(e: Event, rid: nat) {
    match e
    case Tick(_) => true
    case Start(r, _) => r != rid
    case Step(r, _) => r != rid
  }

  predicate OthersOnly(turns: seq<Turn>, rid: nat) {
    forall i, j :: 0 <= i < |turns| && 0 <= j < |turns[i].others| ==> NotAbout(turns[i].others[j], rid)
  }

  lemma Suffix(turns: seq<Turn>, rid: nat, k: nat)
    requires OthersOnly(turns, rid) && k <= |turns|
    ensures OthersOnly(turns[k..], rid)
  {
  }

  predicate Quiet(turn: Turn, rid: nat) {
    forall j :: 0 <= j < |turn.others| ==> NotAbout(turn.others[j], rid)
  }

  // The step program: rid takes one step per turn, after the others' events of that turn.
  function RunTurns(w: World, rid: nat, turns: seq<Turn>): World {
    Turns.RunTurns(Next, Own(rid), w, turns)
  }

  function Events(rid: nat, turns: seq<Turn>): seq<Event> {
    Turns.Script(Own(rid), turns)
  }

  /** Taking turns is a run of the step system, so everything proved about runs applies. */
  lemma TurnsAreARun(w: World, rid: nat, turns: seq<Turn>)
    ensures RunTurns(w, rid, turns) == Run(w, Events(rid, turns))
  {
    Turns.AreARun(Next, Own(rid), w, turns);
  }

  // w2 is where these turns lead from w.
  ghost predicate Took(w: World, w2: World, rid: nat, turns: seq<Turn>) {
    Turns.Took(Next, Own(rid), w, w2, turns)
  }

  /** A service call made on a reachable world ends in a reachable world: what the step system
      guarantees for all runs holds for every history of service calls. */
  lemma CallIsARun(cfg: Config, now: int, events: seq<Event>, rid: nat, flow: Flow, turns: seq<Turn>, w2: World)
    requires Took(Next(Run(Init(cfg, now), events), Start(rid, flow)), w2, rid, turns)
    ensures w2 == Run(Init(cfg, now), events + [Start(rid, flow)] + Events(rid, turns))
  {
    var w0, w := Init(cfg, now), Run(Init(cfg, now), events);
    var start := [Start(rid, flow)];
    Turns.TookMeans(Next, Own(rid), Next(w, start[0]), w2, turns);
    TurnsAreARun(Next(w, start[0]), rid, turns);
    Runs.AfterStep(Next, w, start, 0);
    Runs.AfterAll(Next, w, start);
    Runs.RunConcat(Next, w0, events, start);
    Runs.RunConcat(Next, w0, events + start, Events(rid, turns));
  }

  // The world before turn k, whether or not a turn has been taken yet.
  lemma SameStart(w0: World, w: World, rid: nat, turns: seq<Turn>, k: nat)
    requires k < |turns| && (k == 0 ==> w == w0) && (k > 0 ==> Took(w0, w, rid, turns[..k]))
    ensures w == RunTurns(w0, rid, turns[..k])
  {
    if k > 0 { Turns.TookMeans(Next, Own(rid), w0, w, turns[..k]); }
  }

  lemma OthersOneEvent(w: World, e: Event, rid: nat)
    requires NotAbout(e, rid) && rid in w.requests
    ensures rid in Next(w, e).requests && Next(w, e).requests[rid] == w.requests[rid]
  {
    if e.Step? && e.rid in w.requests { StepFollows(w, e.rid, w.requests[e.rid], e.choice); }
  }

  // Other requests never touch this request's record.
  lemma {:induction false} OthersKeepRecord(w: World, events: seq<Event>, rid: nat)
    requires rid in w.requests && forall j :: 0 <= j < |events| ==> NotAbout(events[j], rid)
    ensures rid in Run(w, events).requests && Run(w, events).requests[rid] == w.requests[rid]
  {
    if events != [] {
      OthersKeepRecord(w, events[..|events| - 1], rid);
      OthersOneEvent(Run(w, events[..|events| - 1]), events[|events| - 1], rid);
    }
  }

  /** Refresh tokens in Redis: one slot per user. */
  class AuthRepo {
    var slots: Slots

    constructor ()
      ensures slots == map[]
    {
      slots := map[];
    }

    method StoreRefreshToken(now: int, user: Uuid, token: string, ttl: nat, io: Io) returns (ok: bool)
      modifies this
      ensures slots == if io.Lost? then old(slots) else Write(old(slots), now, RefreshKey(user), token, ttl)
      ensures ok == io.Good?
    {
      if !io.Lost? {
        slots := slots[RefreshKey(user) := Entry(token, if ttl == 0 then None else Some(now + ttl))];
      }
      ok := io.Good?;
    }

    // None covers the missing key and the failed call.
    method GetRefreshToken(now: int, user: Uuid, io: Io) returns (token: Option<string>)
      ensures token == if io.Good? then Read(slots, now, RefreshKey(user)) else None
    {
      token := None;
      if io.Good? && RefreshKey(user) in slots {
        var e := slots[RefreshKey(user)];
        if Fresh(e, now) { token := Some(e.token); }
      }
    }

    method DeleteRefreshToken(user: Uuid, io: Io) returns (ok: bool)
      modifies this
      ensures slots == if io.Lost? then old(slots) else Erase(old(slots), RefreshKey(user))
      ensures ok == io.Good?
    {
      if !io.Lost? { slots := slots - {RefreshKey(user)}; }
      ok := io.Good?;
    }
  }

  datatype Lookup = LookupError | NotFound | Found(row: ProviderRow)

  /** Users, wallets and providers in PostgreSQL. */
  class UserRepo {
    var db: Database

    constructor ()
      ensures db == Database(NO_ROWS, map[])
    {
      db := Database(NO_ROWS, map[]);
    }

    // None is a failed query.
    method ExistsUsername(name: string, io: Io) returns (exists_: Option<bool>)
      ensures exists_ == if io.Good? then Some(HasUsername(db.committed, name)) else None
    {
      if !io.Good? { return None; }
      var rows, i := db.committed.users, 0;
      while i < |rows| && rows[i].username != name
        invariant 0 <= i <= |rows|
        invariant forall k :: 0 <= k < i ==> rows[k].username != name
      {
        i := i + 1;
      }
      exists_ := Some(i < |rows|);
    }

    method GetUserProviderByProvider(provider: string, subject: string, io: Io) returns (r: Lookup)
      ensures !io.Good? ==> r == LookupError
      ensures io.Good? ==>
                var row := Postgres.FindProvider(db.committed.providers, provider, subject);
                r == if row.Some? then Found(row.value) else NotFound
    {
      if !io.Good? { return LookupError; }
      var row := Postgres.FindProvider(db.committed.providers, provider, subject);
      r := if row.Some? then Found(row.value) else NotFound;
    }

    method BeginTx(tx: nat, io: Io) returns (ok: bool)
      modifies this
      ensures db == if io.Good? then Begin(old(db), tx) else old(db)
      ensures ok == io.Good?
    {
      if io.Good? { db := Begin(db, tx); }
      ok := io.Good?;
    }

    // The id and the name must be new to every committed and every open row.
    method CreateUser(tx: nat, row: UserRow, io: Io) returns (ok: bool)
      modifies this
      ensures ok <==>
              && io.Good? && tx in old(db).open && |row.username| <= 50
              && forall x :: UserStored(old(db), x) ==> x.id != row.id && x.username != row.username
      ensures ok ==> db == old(db).(open := old(db).open[tx :=
                old(db).open[tx].(users := old(db).open[tx].users + [row])])
      ensures !ok ==> db == old(db)
    {
      InsertUserMeans(db, tx, row);
      var r := Postgres.InsertUser(db, tx, row);
      ok := io.Good? && r.Some?;
      if ok { db := r.value; }
    }

    // The user must be visible to the transaction, the id and the identity new to every row.
    method CreateUserProvider(tx: nat, row: ProviderRow, io: Io) returns (ok: bool)
      modifies this
      ensures ok <==>
              && io.Good? && UserVisible(old(db), tx, row.userId) && |row.provider| <= 50 && |row.subject| <= 255
              && forall x :: ProviderStored(old(db), x) ==>
                   x.id != row.id && !(x.provider == row.provider && x.subject == row.subject)
      ensures ok ==> tx in old(db).open && db == old(db).(open := old(db).open[tx :=
                old(db).open[tx].(providers := old(db).open[tx].providers + [row])])
      ensures !ok ==> db == old(db)
    {
      InsertProviderMeans(db, tx, row);
      var r := Postgres.InsertProvider(db, tx, row);
      ok := io.Good? && r.Some?;
      if ok { db := r.value; }
    }

    // The user must be visible to the transaction and have no wallet in any row; balances begin at zero.
    method CreateWallet(tx: nat, user: Uuid, io: Io) returns (ok: bool)
      modifies this
      ensures ok <==>
              && io.Good? && UserVisible(old(db), tx, user)
              && forall x :: WalletStored(old(db), x) ==> x.userId != user
      ensures ok ==> tx in old(db).open && db == old(db).(open := old(db).open[tx :=
                old(db).open[tx].(wallets := old(db).open[tx].wallets + [WalletRow(user, 0, 0)])])
      ensures !ok ==> db == old(db)
    {
      InsertWalletMeans(db, tx, WalletRow(user, 0, 0));
      var r := Postgres.InsertWallet(db, tx, WalletRow(user, 0, 0));
      ok := io.Good? && r.Some?;
      if ok { db := r.value; }
    }

    method CommitTx(tx: nat, io: Io) returns (ok: bool)
      modifies this
      ensures db == if io.Lost? then Rollback(old(db), tx) else Commit(old(db), tx)
      ensures ok == io.Good?
    {
      db := if io.Lost? then Rollback(db, tx) else Commit(db, tx);
      ok := io.Good?;
    }

    method RollbackTx(tx: nat)
      modifies this
      ensures db == Rollback(old(db), tx)
    {
      db := Rollback(db, tx);
    }
  }

  class Service {
    const cfg: Config
    const users: UserRepo
    const tokens: AuthRepo
    var now: int
    var drawn: set<Draw>
    var requests: map<nat, Request>     // every request, this one's record included
    var creator: map<Uuid, nat>

    constructor (cfg: Config, now: int)
      ensures View() == Init(cfg, now) && fresh(users) && fresh(tokens)
    {
      this.cfg := cfg;
      this.users := new UserRepo();
      this.tokens := new AuthRepo();
      this.now := now;
      this.drawn, this.requests, this.creator := {}, map[], map[];
    }

    function View(): World
      reads this, users, tokens
    {
      World(cfg, now, tokens.slots, users.db, drawn, requests, creator)
    }

    // The rest of the server runs for a while.
    method Others(rid: nat, events: seq<Event>)
      requires rid in requests && forall j :: 0 <= j < |events| ==> NotAbout(events[j], rid)
      modifies this, users, tokens
      ensures View() == Run(old(View()), events)
      ensures rid in requests && requests[rid] == old(requests[rid])
    {
      OthersKeepRecord(View(), events, rid);
      RunKeepsConfig(View(), events);
      var w := Run(View(), events);
      now, drawn, requests, creator := w.now, w.drawn, w.requests, w.creator;
      users.db := w.db;
      tokens.slots := w.slots;
    }

    method Admit(rid: nat, flow: Flow)
      requires rid !in requests
      modifies this
      ensures View() == Next(old(View()), Start(rid, flow))
      ensures rid in requests && requests[rid] == NewRequest(flow)
    {
      requests := requests[rid := NewRequest(flow)];
    }

    // Moves this request's program counter.
    method Mark(rid: nat, pc: Pc)
      requires rid in requests
      modifies this`requests
      ensures requests == old(requests)[rid := old(requests)[rid].(pc := pc)]
    {
      requests := requests[rid := requests[rid].(pc := pc)];
    }

    // Ends this request.
    method Finish(rid: nat, out: Outcome)
      requires rid in requests
      modifies this`requests
      ensures requests == old(requests)[rid := old(requests)[rid].(pc := Done(out))]
    {
      requests := requests[rid := requests[rid].(pc := Done(out))];
    }

    // None is an entropy failure; a value drawn before counts as one.
    method GenerateOpaqueToken(c: Choice) returns (token: Option<string>)
      modifies this`drawn
      ensures var ok := c.io.Good? && c.draw !in old(drawn);
              && token == (if ok then Some(OpaqueToken(c.draw)) else None)
              && drawn == if ok then old(drawn) + {c.draw} else old(drawn)
    {
      if c.io.Good? && c.draw !in drawn {
        drawn := drawn + {c.draw};
        return Some(OpaqueToken(c.draw));
      }
      token := None;
    }

    // The token pair of issueTokenPair before it is stored; None ends the request.
    method MintPair(rid: nat, user: Uuid, turn: Turn) returns (pair: Option<TokenPair>)
      requires rid in requests && requests[rid].pc == Pc.Mint && requests[rid].user == Some(user) && Quiet(turn, rid)
      modifies this, users, tokens
      ensures Took(old(View()), View(), rid, [turn]) && rid in requests
      ensures requests[rid] == old(requests[rid]).(pc := if pair.Some? then Pc.SetToken(pair.value) else Done(Failed))
    {
      Others(rid, turn.others);
      var refreshToken := GenerateOpaqueToken(turn.own);
      if refreshToken.None? {
        Finish(rid, Failed);
        Turns.TookOne(Next, Own(rid), old(View()), View(), turn);
        return None;
      }
      var claims := Jwt.NewAccessClaims(user, ROLE, cfg.accessTTL, now);
      pair := Some(TokenPair(Jwt.SignJWT(claims, cfg.secret), refreshToken.value));
      Mark(rid, Pc.SetToken(pair.value));
      Turns.TookOne(Next, Own(rid), old(View()), View(), turn);
    }

    method StorePair(rid: nat, user: Uuid, pair: TokenPair, turn: Turn) returns (out: Outcome)
      requires rid in requests && requests[rid].pc == Pc.SetToken(pair) && requests[rid].user == Some(user)
      requires Quiet(turn, rid)
      modifies this, users, tokens
      ensures Took(old(View()), View(), rid, [turn]) && rid in requests
      ensures requests[rid].pc == Done(out) && out == if turn.own.io.Good? then Issued(pair) else Failed
    {
      Others(rid, turn.others);
      var ok := tokens.StoreRefreshToken(now, user, pair.refresh, cfg.refreshTTL, turn.own.io);
      out := if ok then Issued(pair) else Failed;
      Finish(rid, out);
      Turns.TookOne(Next, Own(rid), old(View()), View(), turn);
    }

    method IssueTokenPair(rid: nat, user: Uuid, turns: seq<Turn>) returns (out: Outcome, used: nat)
      requires rid in requests && requests[rid].pc == Pc.Mint && requests[rid].user == Some(user)
      requires |turns| >= 2 && OthersOnly(turns, rid)
      modifies this, users, tokens
      ensures used <= 2 && Took(old(View()), View(), rid, turns[..used])
      ensures rid in requests && requests[rid].pc == Done(out) && (out.Issued? || out.Failed?)
    {
      ghost var w0 := View();
      var pair := MintPair(rid, user, turns[0]);
      Turns.TookAlso(Next, Own(rid), w0, w0, View(), turns, 0);
      if pair.None? {
        return Failed, 1;
      }
      ghost var w1 := View();
      out := StorePair(rid, user, pair.value, turns[1]);
      Turns.TookAlso(Next, Own(rid), w0, w1, View(), turns, 1);
      used := 2;
    }

    // The stored token is compared with the presented one; true if they match.
    method CheckTurn(rid: nat, user: Uuid, provided: string, turn: Turn) returns (ok: bool)
      requires rid in requests && requests[rid].pc == Pc.GetToken && requests[rid].user == Some(user)
      requires requests[rid].flow == Flow.Refresh(user, provided) && Quiet(turn, rid)
      modifies this, users, tokens
      ensures Took(old(View()), View(), rid, [turn]) && rid in requests
      ensures requests[rid] == old(requests[rid]).(pc := if ok then Pc.DelToken else Done(Failed))
    {
      Others(rid, turn.others);
      var storedToken := tokens.GetRefreshToken(now, user, turn.own.io);
      if storedToken.None? {
        Finish(rid, Failed);
        Turns.TookOne(Next, Own(rid), old(View()), View(), turn);
        return false;
      }
      if provided != storedToken.value {
        Finish(rid, Failed);
        Turns.TookOne(Next, Own(rid), old(View()), View(), turn);
        return false;
      }
      Mark(rid, Pc.DelToken);
      Turns.TookOne(Next, Own(rid), old(View()), View(), turn);
      ok := true;
    }

    method DeleteTurn(rid: nat, user: Uuid, turn: Turn) returns (ok: bool)
      requires rid in requests && requests[rid].pc == Pc.DelToken && requests[rid].user == Some(user)
      requires Quiet(turn, rid)
      modifies this, users, tokens
      ensures Took(old(View()), View(), rid, [turn]) && rid in requests
      ensures requests[rid] == old(requests[rid]).(pc := if ok then Pc.Mint else Done(Failed))
    {
      Others(rid, turn.others);
      ok := tokens.DeleteRefreshToken(user, turn.own.io);
      Mark(rid, if ok then Pc.Mint else Done(Failed));
      Turns.TookOne(Next, Own(rid), old(View()), View(), turn);
    }

    method Refresh(rid: nat, user: Uuid, provided: string, turns: seq<Turn>) returns (out: Outcome, used: nat)
      requires rid !in requests && |turns| >= 4 && OthersOnly(turns, rid)
      modifies this, users, tokens
      ensures used <= 4
      ensures Took(Next(old(View()), Start(rid, Flow.Refresh(user, provided))), View(), rid, turns[..used])
      ensures rid in requests && requests[rid].pc == Done(out) && (out.Issued? || out.Failed?)
    {
      Admit(rid, Flow.Refresh(user, provided));
      ghost var w0 := View();
      var ok := CheckTurn(rid, user, provided, turns[0]);
      Turns.TookAlso(Next, Own(rid), w0, w0, View(), turns, 0);
      if !ok {
        return Failed, 1;
      }
      // the old token goes before the new one is issued
      ghost var w1 := View();
      ok := DeleteTurn(rid, user, turns[1]);
      Turns.TookAlso(Next, Own(rid), w0, w1, View(), turns, 1);
      if !ok {
        return Failed, 2;
      }
      ghost var w2 := View();
      var more;
      Suffix(turns, rid, 2);
      out, more := IssueTokenPair(rid, user, turns[2..]);
      used := 2 + more;
      Turns.TookMore(Next, Own(rid), w0, w2, View(), turns, 2, more);
    }

    // Where the check of a name leads; the request gives up after the last attempt.
    static function AfterCheck(exists_: Option<bool>, name: string, attempt: nat): Pc {
      if exists_ == Some(false) then Pc.BeginTx(name)
      else if exists_.Some? && attempt + 1 < MAX_ATTEMPTS then Pc.PickName(attempt + 1)
      else Done(Failed)
    }

    // One generated candidate and its check.
    method TryCandidate(rid: nat, attempt: nat, turn: Turn) returns (exists_: Option<bool>)
      requires rid in requests && requests[rid].pc == Pc.PickName(attempt) && attempt < MAX_ATTEMPTS && Quiet(turn, rid)
      modifies this, users, tokens
      ensures Took(old(View()), View(), rid, [turn]) && rid in requests
      ensures exists_.Some? ==> exists_.value == HasUsername(Run(old(View()), turn.others).db.committed, turn.own.name)
      ensures requests[rid] == old(requests[rid]).(pc := AfterCheck(exists_, turn.own.name, attempt))
    {
      Others(rid, turn.others);
      var candidate := turn.own.name;
      exists_ := users.ExistsUsername(candidate, turn.own.io);
      Mark(rid, AfterCheck(exists_, candidate, attempt));
      Turns.TookOne(Next, Own(rid), old(View()), View(), turn);
    }

    // One round of the loop below, as turn i of the run from w0.
    method TryTurn(rid: nat, i: nat, turns: seq<Turn>, ghost w0: World) returns (exists_: Option<bool>)
      requires i < |turns| && i < MAX_ATTEMPTS && OthersOnly(turns, rid)
      requires (i == 0 ==> View() == w0) && (i > 0 ==> Took(w0, View(), rid, turns[..i]))
      requires rid in requests && requests[rid].pc == Pc.PickName(i)
      modifies this, users, tokens
      ensures Took(w0, View(), rid, turns[..i + 1]) && rid in requests
      ensures requests[rid] == old(requests[rid]).(pc := AfterCheck(exists_, turns[i].own.name, i))
      ensures exists_ == Some(false) ==>
                !HasUsername(Run(RunTurns(w0, rid, turns[..i]), turns[i].others).db.committed, turns[i].own.name)
    {
      ghost var w := View();
      exists_ := TryCandidate(rid, i, turns[i]);
      Turns.TookAlso(Next, Own(rid), w0, w, View(), turns, i);
      SameStart(w0, w, rid, turns, i);
    }

    // username.Generate with up to five attempts.
    method GenerateUniqueUsername(rid: nat, turns: seq<Turn>) returns (name: Option<string>, used: nat)
      requires rid in requests && requests[rid].pc == Pc.PickName(0)
      requires |turns| >= MAX_ATTEMPTS && OthersOnly(turns, rid)
      modifies this, users, tokens
      ensures 1 <= used <= MAX_ATTEMPTS && Took(old(View()), View(), rid, turns[..used])
      ensures rid in requests
      ensures requests[rid] == old(requests[rid]).(pc := if name.Some? then Pc.BeginTx(name.value) else Done(Failed))
      // the name was seen absent by the last check
      ensures name.Some? ==>
                var seen := Run(RunTurns(old(View()), rid, turns[..used - 1]), turns[used - 1].others);
                name.value == turns[used - 1].own.name && !HasUsername(seen.db.committed, name.value)
    {
      ghost var w0 := View();
      var i := 0;
      while i < MAX_ATTEMPTS
        invariant 0 <= i <= MAX_ATTEMPTS && (i == 0 ==> View() == w0) && (i > 0 ==> Took(w0, View(), rid, turns[..i]))
        invariant rid in requests
        invariant requests[rid] == old(requests[rid]).(pc := if i < MAX_ATTEMPTS then Pc.PickName(i) else Done(Failed))
      {
        var exists_ := TryTurn(rid, i, turns, w0);
        i := i + 1;
        if exists_.None? {
          return None, i;
        }
        if !exists_.value {
          return Some(turns[i - 1].own.name), i;
        }
      }
      return None, MAX_ATTEMPTS;
    }

    // ---- The sign-up transaction, one statement per turn ----

    method BeginTurn(rid: nat, name: string, turn: Turn) returns (ok: bool)
      requires rid in requests && requests[rid].pc == Pc.BeginTx(name) && Quiet(turn, rid)
      modifies this, users, tokens
      ensures Took(old(View()), View(), rid, [turn]) && rid in requests
      ensures requests[rid] == old(requests[rid]).(pc := if ok then Pc.InsertUser(name) else Done(Failed))
    {
      Others(rid, turn.others);
      ok := users.BeginTx(rid, turn.own.io);
      Mark(rid, if ok then Pc.InsertUser(name) else Done(Failed));
      Turns.TookOne(Next, Own(rid), old(View()), View(), turn);
    }

    method InsertUserTurn(rid: nat, name: string, turn: Turn) returns (ok: bool)
      requires rid in requests && requests[rid].pc == Pc.InsertUser(name) && Quiet(turn, rid)
      modifies this, users, tokens
      ensures Took(old(View()), View(), rid, [turn]) && rid in requests
      ensures requests[rid] == old(requests[rid]).(pc :=
                if !ok then Pc.RollbackTx
                else if old(requests[rid]).flow.Google? then Pc.InsertProvider(turn.own.id)
                else Pc.InsertWallet(turn.own.id))
    {
      Others(rid, turn.others);
      var userID := turn.own.id;
      InsertUserMeans(users.db, rid, UserRow(userID, name));
      ok := users.CreateUser(rid, UserRow(userID, name), turn.own.io);
      Mark(rid, if !ok then Pc.RollbackTx
                else if requests[rid].flow.Google? then Pc.InsertProvider(userID) else Pc.InsertWallet(userID));
      Turns.TookOne(Next, Own(rid), old(View()), View(), turn);
    }

    method InsertProviderTurn(rid: nat, userID: Uuid, who: GoogleId, turn: Turn) returns (ok: bool)
      requires rid in requests && requests[rid].pc == Pc.InsertProvider(userID) && requests[rid].who == Some(who)
      requires Quiet(turn, rid)
      modifies this, users, tokens
      ensures Took(old(View()), View(), rid, [turn]) && rid in requests
      ensures requests[rid] == old(requests[rid]).(pc := if ok then Pc.InsertWallet(userID) else Pc.RollbackTx)
    {
      Others(rid, turn.others);
      var email := if who.email == "" then None else Some(who.email);
      var row := ProviderRow(turn.own.id, userID, GOOGLE, who.subject, email);
      InsertProviderMeans(users.db, rid, row);
      ok := users.CreateUserProvider(rid, row, turn.own.io);
      Mark(rid, if ok then Pc.InsertWallet(userID) else Pc.RollbackTx);
      Turns.TookOne(Next, Own(rid), old(View()), View(), turn);
    }

    method InsertWalletTurn(rid: nat, userID: Uuid, turn: Turn) returns (ok: bool)
      requires rid in requests && requests[rid].pc == Pc.InsertWallet(userID) && Quiet(turn, rid)
      modifies this, users, tokens
      ensures Took(old(View()), View(), rid, [turn]) && rid in requests
      ensures requests[rid] == old(requests[rid]).(pc := if ok then Pc.CommitTx(userID) else Pc.RollbackTx)
    {
      Others(rid, turn.others);
      InsertWalletMeans(users.db, rid, WalletRow(userID, 0, 0));
      ok := users.CreateWallet(rid, userID, turn.own.io);
      Mark(rid, if ok then Pc.CommitTx(userID) else Pc.RollbackTx);
      Turns.TookOne(Next, Own(rid), old(View()), View(), turn);
    }

    method CommitTurn(rid: nat, userID: Uuid, turn: Turn) returns (ok: bool)
      requires rid in requests && requests[rid].pc == Pc.CommitTx(userID) && Quiet(turn, rid)
      modifies this, users, tokens
      ensures Took(old(View()), View(), rid, [turn]) && rid in requests
      ensures requests[rid] == if ok then old(requests[rid]).(user := Some(userID), pc := Pc.Mint)
                               else old(requests[rid]).(pc := Done(Failed))
    {
      Others(rid, turn.others);
      ok := users.CommitTx(rid, turn.own.io);
      if !turn.own.io.Lost? { creator := creator[userID := rid]; }
      if ok { requests := requests[rid := requests[rid].(user := Some(userID))]; }
      Mark(rid, if ok then Pc.Mint else Done(Failed));
      assert View() == Next(Run(old(View()), turn.others), Step(rid, turn.own));
      Turns.TookOne(Next, Own(rid), old(View()), View(), turn);
    }

    // The deferred rollback after a failed statement.
    method RollbackTurn(rid: nat, turn: Turn)
      requires rid in requests && requests[rid].pc == Pc.RollbackTx && Quiet(turn, rid)
      modifies this, users, tokens
      ensures Took(old(View()), View(), rid, [turn]) && rid in requests
      ensures requests[rid] == old(requests[rid]).(pc := Done(Failed))
    {
      Others(rid, turn.others);
      users.RollbackTx(rid);
      Finish(rid, Failed);
      Turns.TookOne(Next, Own(rid), old(View()), View(), turn);
    }

    // The end of both sign-up transactions: the wallet row, then the commit.
    method InsertWalletAndCommit(rid: nat, userID: Uuid, turns: seq<Turn>) returns (user: Option<Uuid>, used: nat)
      requires rid in requests && requests[rid].pc == Pc.InsertWallet(userID)
      requires |turns| >= 2 && OthersOnly(turns, rid)
      modifies this, users, tokens
      ensures used <= 2 && Took(old(View()), View(), rid, turns[..used])
      ensures rid in requests
      ensures if user.Some?
              then requests[rid].user == user && requests[rid].pc == Pc.Mint
              else requests[rid].pc == Done(Failed)
    {
      ghost var w0 := View();
      var ok := InsertWalletTurn(rid, userID, turns[0]);
      Turns.TookAlso(Next, Own(rid), w0, w0, View(), turns, 0);
      ghost var w1 := View();
      if !ok {
        RollbackTurn(rid, turns[1]);
        Turns.TookAlso(Next, Own(rid), w0, w1, View(), turns, 1);
        return None, 2;
      }
      ok := CommitTurn(rid, userID, turns[1]);
      Turns.TookAlso(Next, Own(rid), w0, w1, View(), turns, 1);
      return if ok then Some(userID) else None, 2;
    }

    // The provider row of a Google sign-up, and what follows it.
    method InsertProviderAndRest(rid: nat, userID: Uuid, who: GoogleId, turns: seq<Turn>)
      returns (user: Option<Uuid>, used: nat)
      requires rid in requests && requests[rid].pc == Pc.InsertProvider(userID) && requests[rid].who == Some(who)
      requires |turns| >= 3 && OthersOnly(turns, rid)
      modifies this, users, tokens
      ensures used <= 3 && Took(old(View()), View(), rid, turns[..used])
      ensures rid in requests
      ensures if user.Some?
              then requests[rid].user == user && requests[rid].pc == Pc.Mint
              else requests[rid].pc == Done(Failed)
    {
      ghost var w0 := View();
      var ok := InsertProviderTurn(rid, userID, who, turns[0]);
      Turns.TookAlso(Next, Own(rid), w0, w0, View(), turns, 0);
      ghost var w1 := View();
      if !ok {
        RollbackTurn(rid, turns[1]);
        Turns.TookAlso(Next, Own(rid), w0, w1, View(), turns, 1);
        return None, 2;
      }
      var more;
      Suffix(turns, rid, 1);
      user, more := InsertWalletAndCommit(rid, userID, turns[1..]);
      Turns.TookMore(Next, Own(rid), w0, w1, View(), turns, 1, more);
      used := 1 + more;
    }

    // BEGIN and the users row; on failure the transaction is already rolled back.
    method BeginAndInsertUser(rid: nat, name: string, turns: seq<Turn>) returns (userID: Option<Uuid>, used: nat)
      requires rid in requests && requests[rid].pc == Pc.BeginTx(name) && |turns| >= 3 && OthersOnly(turns, rid)
      modifies this, users, tokens
      ensures used <= 3 && Took(old(View()), View(), rid, turns[..used])
      ensures rid in requests && (userID.Some? ==> used == 2)
      ensures requests[rid] == old(requests[rid]).(pc :=
                if userID.None? then Done(Failed)
                else if old(requests[rid]).flow.Google? then Pc.InsertProvider(userID.value)
                else Pc.InsertWallet(userID.value))
    {
      ghost var w0 := View();
      var ok := BeginTurn(rid, name, turns[0]);
      Turns.TookAlso(Next, Own(rid), w0, w0, View(), turns, 0);
      if !ok {
        return None, 1;
      }
      ghost var w1 := View();
      ok := InsertUserTurn(rid, name, turns[1]);
      Turns.TookAlso(Next, Own(rid), w0, w1, View(), turns, 1);
      if !ok {
        ghost var w2 := View();
        RollbackTurn(rid, turns[2]);
        Turns.TookAlso(Next, Own(rid), w0, w2, View(), turns, 2);
        return None, 3;
      }
      return Some(turns[1].own.id), 2;
    }

    // users and wallets rows in one transaction.
    method CreateGuestTx(rid: nat, name: string, turns: seq<Turn>) returns (user: Option<Uuid>, used: nat)
      requires rid in requests && requests[rid].pc == Pc.BeginTx(name) && requests[rid].flow.Guest?
      requires |turns| >= 4 && OthersOnly(turns, rid)
      modifies this, users, tokens
      ensures used <= 4 && Took(old(View()), View(), rid, turns[..used])
      ensures rid in requests
      ensures if user.Some?
              then requests[rid].user == user && requests[rid].pc == Pc.Mint
              else requests[rid].pc == Done(Failed)
    {
      ghost var w0 := View();
      var userID;
      userID, used := BeginAndInsertUser(rid, name, turns);
      if userID.None? {
        return None, used;
      }
      ghost var w2 := View();
      var more;
      Suffix(turns, rid, 2);
      user, more := InsertWalletAndCommit(rid, userID.value, turns[2..]);
      Turns.TookMore(Next, Own(rid), w0, w2, View(), turns, 2, more);
      used := 2 + more;
    }

    // users, user_providers and wallets rows in one transaction.
    method CreateGoogleTx(rid: nat, name: string, who: GoogleId, turns: seq<Turn>)
      returns (user: Option<Uuid>, used: nat)
      requires rid in requests && requests[rid].pc == Pc.BeginTx(name) && requests[rid].flow.Google?
      requires requests[rid].who == Some(who)
      requires |turns| >= 5 && OthersOnly(turns, rid)
      modifies this, users, tokens
      ensures used <= 5 && Took(old(View()), View(), rid, turns[..used])
      ensures rid in requests
      ensures if user.Some?
              then requests[rid].user == user && requests[rid].pc == Pc.Mint
              else requests[rid].pc == Done(Failed)
    {
      ghost var w0 := View();
      var userID;
      userID, used := BeginAndInsertUser(rid, name, turns);
      if userID.None? {
        return None, used;
      }
      ghost var w2 := View();
      var more;
      Suffix(turns, rid, 2);
      user, more := InsertProviderAndRest(rid, userID.value, who, turns[2..]);
      Turns.TookMore(Next, Own(rid), w0, w2, View(), turns, 2, more);
      used := 2 + more;
    }

    method CreateGuestUser(rid: nat, turns: seq<Turn>) returns (user: Option<Uuid>, used: nat)
      requires rid in requests && requests[rid].pc == Pc.PickName(0) && requests[rid].flow.Guest?
      requires |turns| >= MAX_ATTEMPTS + 4 && OthersOnly(turns, rid)
      modifies this, users, tokens
      ensures used <= MAX_ATTEMPTS + 4 && Took(old(View()), View(), rid, turns[..used])
      ensures rid in requests
      ensures if user.Some?
              then requests[rid].user == user && requests[rid].pc == Pc.Mint
              else requests[rid].pc == Done(Failed)
    {
      ghost var w0 := View();
      var uniqueName, n := GenerateUniqueUsername(rid, turns);
      if uniqueName.None? { return None, n; }
      ghost var w1 := View();
      var more;
      Suffix(turns, rid, n);
      user, more := CreateGuestTx(rid, uniqueName.value, turns[n..]);
      Turns.TookMore(Next, Own(rid), w0, w1, View(), turns, n, more);
      used := n + more;
    }

    method CreateGoogleUser(rid: nat, who: GoogleId, turns: seq<Turn>) returns (user: Option<Uuid>, used: nat)
      requires rid in requests && requests[rid].pc == Pc.PickName(0) && requests[rid].flow.Google?
      requires requests[rid].who == Some(who)
      requires |turns| >= MAX_ATTEMPTS + 5 && OthersOnly(turns, rid)
      modifies this, users, tokens
      ensures used <= MAX_ATTEMPTS + 5 && Took(old(View()), View(), rid, turns[..used])
      ensures rid in requests
      ensures if user.Some?
              then requests[rid].user == user && requests[rid].pc == Pc.Mint
              else requests[rid].pc == Done(Failed)
    {
      ghost var w0 := View();
      var uniqueName, n := GenerateUniqueUsername(rid, turns);
      if uniqueName.None? { return None, n; }
      ghost var w1 := View();
      var more;
      Suffix(turns, rid, n);
      user, more := CreateGoogleTx(rid, uniqueName.value, who, turns[n..]);
      Turns.TookMore(Next, Own(rid), w0, w1, View(), turns, n, more);
      used := n + more;
    }

    // ---- The login flows ----

    method GuestLogin(rid: nat, turns: seq<Turn>) returns (out: Outcome, used: nat)
      requires rid !in requests && |turns| >= MAX_ATTEMPTS + 6 && OthersOnly(turns, rid)
      modifies this, users, tokens
      ensures used <= MAX_ATTEMPTS + 6
      ensures Took(Next(old(View()), Start(rid, Guest)), View(), rid, turns[..used])
      ensures rid in requests && requests[rid].pc == Done(out) && (out.Issued? || out.Failed?)
    {
      Admit(rid, Guest);
      ghost var w0 := View();
      var user, n := CreateGuestUser(rid, turns);
      if user.None? {
        return Failed, n;
      }
      ghost var w1 := View();
      var more;
      Suffix(turns, rid, n);
      out, more := IssueTokenPair(rid, user.value, turns[n..]);
      used := n + more;
      Turns.TookMore(Next, Own(rid), w0, w1, View(), turns, n, more);
    }

    // VerifyGoogleIDToken: the key cache and the token check are outside this store protocol.
    method VerifyTurn(rid: nat, turn: Turn) returns (who: Option<GoogleId>)
      requires rid in requests && requests[rid].pc == Pc.Verify && Quiet(turn, rid)
      modifies this, users, tokens
      ensures Took(old(View()), View(), rid, [turn]) && rid in requests
      ensures requests[rid] == if who.Some? then old(requests[rid]).(who := who, pc := Pc.FindProvider)
                               else old(requests[rid]).(pc := Done(Failed))
    {
      Others(rid, turn.others);
      who := if turn.own.io.Good? then turn.own.who else None;
      if who.None? {
        Finish(rid, Failed);
      } else {
        requests := requests[rid := requests[rid].(who := who)];
        Mark(rid, Pc.FindProvider);
      }
      assert View() == Next(Run(old(View()), turn.others), Step(rid, turn.own));
      Turns.TookOne(Next, Own(rid), old(View()), View(), turn);
    }

    method LookupTurn(rid: nat, who: GoogleId, turn: Turn) returns (r: Lookup)
      requires rid in requests && requests[rid].pc == Pc.FindProvider && requests[rid].who == Some(who)
      requires Quiet(turn, rid)
      modifies this, users, tokens
      ensures Took(old(View()), View(), rid, [turn]) && rid in requests
      ensures requests[rid] ==
                match r
                case LookupError => old(requests[rid]).(pc := Done(Failed))
                case NotFound => old(requests[rid]).(pc := Pc.PickName(0))
                case Found(row) => old(requests[rid]).(user := Some(row.userId), pc := Pc.Mint)
    {
      Others(rid, turn.others);
      r := users.GetUserProviderByProvider(GOOGLE, who.subject, turn.own.io);
      match r {
        case LookupError => Finish(rid, Failed);
        case NotFound => Mark(rid, Pc.PickName(0));
        case Found(row) =>
          requests := requests[rid := requests[rid].(user := Some(row.userId))];
          Mark(rid, Pc.Mint);
      }
      assert View() == Next(Run(old(View()), turn.others), Step(rid, turn.own));
      Turns.TookOne(Next, Own(rid), old(View()), View(), turn);
    }

    // The account of a verified Google identity: the one on record, or a new one.
    method FindOrCreate(rid: nat, who: GoogleId, turns: seq<Turn>) returns (user: Option<Uuid>, used: nat)
      requires rid in requests && requests[rid].pc == Pc.FindProvider
      requires requests[rid].flow.Google? && requests[rid].who == Some(who)
      requires |turns| >= MAX_ATTEMPTS + 6 && OthersOnly(turns, rid)
      modifies this, users, tokens
      ensures used <= MAX_ATTEMPTS + 6 && Took(old(View()), View(), rid, turns[..used])
      ensures rid in requests
      ensures if user.Some?
              then requests[rid].user == user && requests[rid].pc == Pc.Mint
              else requests[rid].pc == Done(Failed)
    {
      ghost var w0 := View();
      var provider := LookupTurn(rid, who, turns[0]);
      Turns.TookAlso(Next, Own(rid), w0, w0, View(), turns, 0);
      if provider.LookupError? {
        return None, 1;
      }
      if provider.Found? {
        return Some(provider.row.userId), 1;
      }
      ghost var w1 := View();
      var more;
      Suffix(turns, rid, 1);
      user, more := CreateGoogleUser(rid, who, turns[1..]);
      Turns.TookMore(Next, Own(rid), w0, w1, View(), turns, 1, more);
      used := 1 + more;
    }

    // The login of a verified identity: its account, then a token pair.
    method LoginAs(rid: nat, who: GoogleId, turns: seq<Turn>) returns (out: Outcome, used: nat)
      requires rid in requests && requests[rid].pc == Pc.FindProvider
      requires requests[rid].flow.Google? && requests[rid].who == Some(who)
      requires |turns| >= MAX_ATTEMPTS + 8 && OthersOnly(turns, rid)
      modifies this, users, tokens
      ensures used <= MAX_ATTEMPTS + 8 && Took(old(View()), View(), rid, turns[..used])
      ensures rid in requests && requests[rid].pc == Done(out) && (out.Issued? || out.Failed?)
    {
      ghost var w0 := View();
      var user, n := FindOrCreate(rid, who, turns);
      if user.None? {
        return Failed, n;
      }
      ghost var w1 := View();
      var more;
      Suffix(turns, rid, n);
      out, more := IssueTokenPair(rid, user.value, turns[n..]);
      Turns.TookMore(Next, Own(rid), w0, w1, View(), turns, n, more);
      used := n + more;
    }

    method GoogleLogin(rid: nat, turns: seq<Turn>) returns (out: Outcome, used: nat)
      requires rid !in requests && |turns| >= MAX_ATTEMPTS + 9 && OthersOnly(turns, rid)
      modifies this, users, tokens
      ensures used <= MAX_ATTEMPTS + 9
      ensures Took(Next(old(View()), Start(rid, Google)), View(), rid, turns[..used])
      ensures rid in requests && requests[rid].pc == Done(out) && (out.Issued? || out.Failed?)
    {
      Admit(rid, Google);
      ghost var w0 := View();
      var who := VerifyTurn(rid, turns[0]);
      Turns.TookAlso(Next, Own(rid), w0, w0, View(), turns, 0);
      if who.None? {
        return Failed, 1;
      }
      ghost var w1 := View();
      var more;
      Suffix(turns, rid, 1);
      out, more := LoginAs(rid, who.value, turns[1..]);
      Turns.TookMore(Next, Own(rid), w0, w1, View(), turns, 1, more);
      used := 1 + more;
    }

    method LogoutTurn(rid: nat, user: Uuid, turn: Turn) returns (out: Outcome)
      requires rid in requests && requests[rid].pc == Pc.LogoutDel && requests[rid].user == Some(user)
      requires Quiet(turn, rid)
      modifies this, users, tokens
      ensures Took(old(View()), View(), rid, [turn]) && rid in requests
      ensures requests[rid].pc == Done(out) && out == if turn.own.io.Good? then LoggedOut else Failed
    {
      Others(rid, turn.others);
      var ok := tokens.DeleteRefreshToken(user, turn.own.io);
      out := if ok then LoggedOut else Failed;
      Finish(rid, out);
      Turns.TookOne(Next, Own(rid), old(View()), View(), turn);
    }

    method Logout(rid: nat, user: Uuid, turns: seq<Turn>) returns (out: Outcome)
      requires rid !in requests && |turns| >= 1 && OthersOnly(turns, rid)
      modifies this, users, tokens
      ensures Took(Next(old(View()), Start(rid, Flow.Logout(user))), View(), rid, turns[..1])
      ensures rid in requests && requests[rid].pc == Done(out) && (out.LoggedOut? || out.Failed?)
      ensures out.LoggedOut? <==> turns[0].own.io.Good?
    {
      Admit(rid, Flow.Logout(user));
      ghost var w0 := View();
      out := LogoutTurn(rid, user, turns[0]);
      Turns.TookAlso(Next, Own(rid), w0, w0, View(), turns, 0);
    }
  }
}
