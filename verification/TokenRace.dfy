/** The overlapping schedule in which one refresh token is redeemed twice. */
module TokenRace {
  import opened Wrappers
  import opened Uuids
  import opened RedisKeys
  import opened Postgres
  import opened AuthProtocol
  import opened TokenIntervals
  import Runs

  const ALICE: Uuid := 1

  function Login(): seq<Event> {
    var s := Step(0, Choice(Good, "SwiftKing42", ALICE, None, 0));
    [Start(0, Guest), s, s, s, s, s, s, s]
  }

  function Race(): seq<Event> {
    var s1, s2 := Step(1, Choice(Good, "", 0, None, 1)), Step(2, Choice(Good, "", 0, None, 2));
    var token := OpaqueToken(0);
    [Start(1, Flow.Refresh(ALICE, token)), Start(2, Flow.Refresh(ALICE, token)), s1, s2, s1, s2, s1, s2, s1, s2]
  }

  // The rows the sign-up transaction has inserted.
  function NewUser(): Tables { OneUser(UserRow(ALICE, "SwiftKing42")) }
  function NewAccount(): Tables { Plus(NewUser(), OneWallet(WalletRow(ALICE, 0, 0))) }

  lemma SignUp()
    ensures var one := Begin(Database(NO_ROWS, map[]), 0);
            Postgres.InsertUser(one, 0, UserRow(ALICE, "SwiftKing42")) == Some(Database(NO_ROWS, map[0 := NewUser()]))
    ensures var two := Database(NO_ROWS, map[0 := NewUser()]);
            Postgres.InsertWallet(two, 0, WalletRow(ALICE, 0, 0)) == Some(Database(NO_ROWS, map[0 := NewAccount()]))
  {
    assert NewUser().users[0].id == ALICE;
    assert Plus(NO_ROWS, NewUser()) == NewUser();
    assert Begin(Database(NO_ROWS, map[]), 0).open == map[0 := NO_ROWS];
    assert map[0 := NO_ROWS][0 := NewUser()] == map[0 := NewUser()];
    assert map[0 := NewUser()][0 := NewAccount()] == map[0 := NewAccount()];
  }

  // The login's record and the database while it signs up.
  function Joining(cfg: Config, now: int, pc: Pc, open: map<nat, Tables>): World {
    Init(cfg, now).(db := Database(NO_ROWS, open), requests := map[0 := Request(Guest, None, None, pc)])
  }

  lemma ToInsert(cfg: Config, now: int)
    ensures Run(Init(cfg, now), Login()[..3]) == Joining(cfg, now, Pc.InsertUser("SwiftKing42"), map[0 := NO_ROWS])
  {
    var w0, es := Init(cfg, now), Login();
    Runs.AfterStep(Next, w0, es, 0);
    Runs.AfterStep(Next, w0, es, 1);
    Runs.AfterStep(Next, w0, es, 2);
    assert Next(w0, es[0]) == Joining(cfg, now, PickName(0), map[]);
    assert Next(Joining(cfg, now, PickName(0), map[]), es[1]) == Joining(cfg, now, BeginTx("SwiftKing42"), map[]);
  }

  lemma InsertsUser(cfg: Config, now: int)
    ensures Next(Joining(cfg, now, Pc.InsertUser("SwiftKing42"), map[0 := NO_ROWS]), Login()[3])
         == Joining(cfg, now, Pc.InsertWallet(ALICE), map[0 := NewUser()])
  {
    SignUp();
    var w := Joining(cfg, now, Pc.InsertUser("SwiftKing42"), map[0 := NO_ROWS]);
    assert w.requests[0 := Request(Guest, None, None, Pc.InsertWallet(ALICE))]
        == map[0 := Request(Guest, None, None, Pc.InsertWallet(ALICE))];
  }

  lemma InsertsWallet(cfg: Config, now: int)
    ensures Next(Joining(cfg, now, Pc.InsertWallet(ALICE), map[0 := NewUser()]), Login()[4])
         == Joining(cfg, now, CommitTx(ALICE), map[0 := NewAccount()])
  {
    SignUp();
    var w := Joining(cfg, now, Pc.InsertWallet(ALICE), map[0 := NewUser()]);
    assert w.requests[0 := Request(Guest, None, None, CommitTx(ALICE))]
        == map[0 := Request(Guest, None, None, CommitTx(ALICE))];
  }

  lemma ToCommit(cfg: Config, now: int)
    ensures Run(Init(cfg, now), Login()[..5]) == Joining(cfg, now, CommitTx(ALICE), map[0 := NewAccount()])
  {
    var w0, es := Init(cfg, now), Login();
    ToInsert(cfg, now);
    Runs.AfterStep(Next, w0, es, 3);
    Runs.AfterStep(Next, w0, es, 4);
    InsertsUser(cfg, now);
    InsertsWallet(cfg, now);
  }

  lemma Commits(cfg: Config, now: int)
    ensures var w := Next(Joining(cfg, now, CommitTx(ALICE), map[0 := NewAccount()]), Login()[5]);
            && w.requests == map[0 := Request(Guest, None, Some(ALICE), Mint)]
            && w.slots == map[] && w.drawn == {} && w.cfg == cfg && w.now == now
  {
  }

  lemma ToMint(cfg: Config, now: int) returns (w: World)
    ensures w == Run(Init(cfg, now), Login()[..6])
    ensures w.requests == map[0 := Request(Guest, None, Some(ALICE), Mint)]
    ensures w.slots == map[] && w.drawn == {} && w.cfg == cfg && w.now == now
  {
    ToCommit(cfg, now);
    Commits(cfg, now);
    Runs.AfterStep(Next, Init(cfg, now), Login(), 5);
    w := Next(Joining(cfg, now, CommitTx(ALICE), map[0 := NewAccount()]), Login()[5]);
  }

  lemma LoginRuns(cfg: Config, now: int) returns (w: World)
    ensures w == Run(Init(cfg, now), Login())
    ensures Live(w, ALICE, OpaqueToken(0)) && w.requests.Keys == {0} && w.drawn == {0}
  {
    var w6 := ToMint(cfg, now);
    var w7, pair := LoginMints(w6);
    w := LoginStores(w7, pair);
    Runs.AfterStep(Next, Init(cfg, now), Login(), 6);
    Runs.AfterStep(Next, Init(cfg, now), Login(), 7);
    Runs.AfterAll(Next, Init(cfg, now), Login());
  }

  lemma LoginMints(w6: World) returns (w7: World, pair: TokenPair)
    requires w6.requests == map[0 := Request(Guest, None, Some(ALICE), Mint)] && w6.drawn == {}
    ensures w7 == Next(w6, Login()[6]) && w7.drawn == {0} && pair.refresh == OpaqueToken(0)
    ensures w7.requests == map[0 := Request(Guest, None, Some(ALICE), SetToken(pair))]
  {
    pair := Pair(w6, w6.requests[0], 0);
    GoodMint(w6, 0, w6.requests[0], Login()[6].choice);
    w7 := Next(w6, Login()[6]);
  }

  lemma LoginStores(w7: World, pair: TokenPair) returns (w: World)
    requires w7.requests == map[0 := Request(Guest, None, Some(ALICE), SetToken(pair))] && w7.drawn == {0}
    requires pair.refresh == OpaqueToken(0)
    ensures w == Next(w7, Login()[7])
    ensures Live(w, ALICE, OpaqueToken(0)) && w.requests.Keys == {0} && w.drawn == {0}
  {
    w := Next(w7, Login()[7]);
    GoodSet(w7, 0, w7.requests[0], Login()[7].choice);
    assert w.slots[RefreshKey(ALICE)].token == OpaqueToken(0);
  }

  ghost predicate Racing(w: World, pc1: Pc, pc2: Pc) {
    && 1 in w.requests && w.requests[1] == Request(Flow.Refresh(ALICE, OpaqueToken(0)), None, Some(ALICE), pc1)
    && 2 in w.requests && w.requests[2] == Request(Flow.Refresh(ALICE, OpaqueToken(0)), None, Some(ALICE), pc2)
  }

  lemma BothStart(w: World) returns (w2: World)
    requires w.requests.Keys == {0}
    ensures w2 == Next(Next(w, Race()[0]), Race()[1]) && Racing(w2, GetToken, GetToken)
    ensures w2.drawn == w.drawn && w2.slots == w.slots && w2.now == w.now
  {
    w2 := Next(Next(w, Race()[0]), Race()[1]);
  }

  // Both requests are accepted: the two GETs come before either DEL.
  lemma BothAccepted(w2: World) returns (w4: World)
    requires Racing(w2, GetToken, GetToken) && Live(w2, ALICE, OpaqueToken(0)) && w2.drawn == {0}
    ensures w4 == Next(Next(w2, Race()[2]), Race()[3]) && Racing(w4, DelToken, DelToken) && w4.drawn == {0}
  {
    GoodGet(w2, 1, w2.requests[1], Race()[2].choice);
    var w3 := Next(w2, Race()[2]);
    GoodGet(w3, 2, w3.requests[2], Race()[3].choice);
    w4 := Next(w3, Race()[3]);
  }

  lemma BothDelete(w4: World) returns (w6: World)
    requires Racing(w4, DelToken, DelToken) && w4.drawn == {0}
    ensures w6 == Next(Next(w4, Race()[4]), Race()[5]) && Racing(w6, Mint, Mint) && w6.drawn == {0}
  {
    var s1, s2 := Race()[4], Race()[5];
    GoodDel(w4, 1, w4.requests[1], s1.choice);
    var w5 := Next(w4, s1);
    GoodDel(w5, 2, w5.requests[2], s2.choice);
    w6 := Next(w5, s2);
  }

  lemma BothMint(w6: World) returns (w8: World)
    requires Racing(w6, Mint, Mint) && w6.drawn == {0}
    ensures w8 == Next(Next(w6, Race()[6]), Race()[7])
    ensures exists p, q :: Racing(w8, SetToken(p), SetToken(q))
  {
    var s1, s2 := Race()[6], Race()[7];
    var p := Pair(w6, w6.requests[1], 1);
    GoodMint(w6, 1, w6.requests[1], s1.choice);
    var w7 := Next(w6, s1);
    assert w7.drawn == {0, 1};
    var q := Pair(w7, w7.requests[2], 2);
    GoodMint(w7, 2, w7.requests[2], s2.choice);
    w8 := Next(w7, s2);
    assert Racing(w8, SetToken(p), SetToken(q));
  }

  lemma BothStore(w8: World, p: TokenPair, q: TokenPair) returns (w10: World)
    requires Racing(w8, SetToken(p), SetToken(q))
    ensures w10 == Next(Next(w8, Race()[8]), Race()[9]) && Racing(w10, Done(Issued(p)), Done(Issued(q)))
  {
    var s1, s2 := Race()[8], Race()[9];
    GoodSet(w8, 1, w8.requests[1], s1.choice);
    var w9 := Next(w8, s1);
    GoodSet(w9, 2, w9.requests[2], s2.choice);
    w10 := Next(w9, s2);
  }

  lemma TwoSteps(w: World, events: seq<Event>, k: nat)
    requires k + 1 < |events|
    ensures After(w, events, k + 2) == Next(Next(After(w, events, k), events[k]), events[k + 1])
  {
    Runs.AfterStep(Next, w, events, k);
    Runs.AfterStep(Next, w, events, k + 1);
  }

  lemma RaceToGet(w: World) returns (w2: World)
    requires w.requests.Keys == {0}
    ensures w2 == After(w, Race(), 2) && Racing(w2, GetToken, GetToken)
    ensures w2.drawn == w.drawn && w2.slots == w.slots && w2.now == w.now
  {
    w2 := BothStart(w);
    TwoSteps(w, Race(), 0);
  }

  lemma RaceToDel(w: World) returns (w4: World)
    requires Live(w, ALICE, OpaqueToken(0)) && w.requests.Keys == {0} && w.drawn == {0}
    ensures w4 == After(w, Race(), 4) && Racing(w4, DelToken, DelToken) && w4.drawn == {0}
  {
    var w2 := RaceToGet(w);
    w4 := BothAccepted(w2);
    TwoSteps(w, Race(), 2);
  }

  lemma RaceToMint(w: World) returns (w6: World)
    requires Live(w, ALICE, OpaqueToken(0)) && w.requests.Keys == {0} && w.drawn == {0}
    ensures w6 == After(w, Race(), 6) && Racing(w6, Mint, Mint) && w6.drawn == {0}
  {
    var w4 := RaceToDel(w);
    w6 := BothDelete(w4);
    TwoSteps(w, Race(), 4);
  }

  ghost predicate BothRedeemed(w: World) {
    exists p, q :: Racing(w, Done(Issued(p)), Done(Issued(q)))
  }

  lemma RaceFromMint(w: World, w6: World)
    requires w6 == After(w, Race(), 6) && Racing(w6, Mint, Mint) && w6.drawn == {0}
    ensures BothRedeemed(Run(w, Race()))
  {
    var w8 := BothMint(w6);
    var p, q :| Racing(w8, SetToken(p), SetToken(q));
    var w10 := BothStore(w8, p, q);
    TwoSteps(w, Race(), 6);
    TwoSteps(w, Race(), 8);
    Runs.AfterAll(Next, w, Race());
  }

  /** Two Refresh requests whose GETs both come before either DEL both succeed, although they
      presented the same token. */
  lemma RedeemedTwice(cfg: Config, now: int)
    ensures var w := Run(Init(cfg, now), Login() + Race());
            && IsRefresh(w, 1, ALICE, OpaqueToken(0)) && Succeeded(w, 1)
            && IsRefresh(w, 2, ALICE, OpaqueToken(0)) && Succeeded(w, 2)
  {
    var w := LoginRuns(cfg, now);
    var w6 := RaceToMint(w);
    RaceFromMint(w, w6);
    Runs.RunConcat(Next, Init(cfg, now), Login(), Race());
  }
}
