/** Refresh slots under arbitrary interleaving: who owns them and when a token occupies one. */
module RefreshSlots {
  import opened Wrappers
  import opened Uuids
  import opened RedisKeys
  import opened Postgres
  import opened AuthProtocol
  import opened Accounts
  import Hex

  // ---- Every slot, and every request about to write one, belongs to a committed user ----

  predicate Issuing(pc: Pc) { pc.DelToken? || pc.Mint? || pc.SetToken? }

  ghost predicate KeyHasOwner(t: Tables, key: string) {
    exists u: Uuid :: HasUser(t, u) && key == RefreshKey(u)
  }

  ghost predicate Owned(w: World) {
    && (forall key :: key in w.slots ==> KeyHasOwner(w.db.committed, key))
    && (forall rid :: rid in w.requests && Issuing(w.requests[rid].pc) ==>
        HasUser(w.db.committed, UserOf(w.requests[rid])))
  }

  lemma OwnerOf(t: Tables, u: Uuid)
    ensures KeyHasOwner(t, RefreshKey(u)) <==> HasUser(t, u)
  {
    if KeyHasOwner(t, RefreshKey(u)) {
      var v: Uuid :| HasUser(t, v) && RefreshKey(u) == RefreshKey(v);
      RefreshKeyInjective(u, v);
    }
  }

  // Users are never removed.
  ghost predicate UsersKept(a: Tables, b: Tables) {
    forall u: Uuid :: HasUser(a, u) ==> HasUser(b, u)
  }

  // Slot contents and users after one step of request rid.
  ghost predicate OwnedStep(w: World, w2: World, rid: nat) {
    && rid in w.requests && UsersKept(w.db.committed, w2.db.committed)
    && w2.requests.Keys == w.requests.Keys
    && (forall x :: x in w.requests && x != rid ==> w2.requests[x] == w.requests[x])
    && (forall key :: key in w2.slots ==>
        key in w.slots || (key == KeyOf(w.requests[rid]) && w.requests[rid].pc.SetToken?))
    && (Issuing(w2.requests[rid].pc) ==> HasUser(w2.db.committed, UserOf(w2.requests[rid])))
  }

  lemma CommitUsers(w: World, rid: nat, r: Request)
    requires Shapes(w) && rid in w.requests && r == w.requests[rid] && r.pc.CommitTx?
    ensures rid in w.db.open && UsersKept(w.db.committed, Commit(w.db, rid).committed)
    ensures HasUser(Commit(w.db, rid).committed, r.pc.id)
  {
    assert TxShape(r, w.db.open[rid]);
    var t, d := w.db.committed, w.db.open[rid];
    forall u: Uuid | HasUser(t, u) ensures HasUser(Plus(t, d), u) { HasUserPlus(t, d, u); }
    assert d.users[0].id == r.pc.id;
    HasUserPlus(t, d, r.pc.id);
  }

  lemma CommitLostOwned(w: World, rid: nat, r: Request, c: Choice)
    requires rid in w.requests && r == w.requests[rid] && r.pc.CommitTx? && c.io.Lost?
    ensures OwnedStep(w, StepCommit(w, rid, r, c, r.pc.id), rid)
  {
  }

  lemma CommitOwned(w: World, rid: nat, r: Request, c: Choice)
    requires Shapes(w) && rid in w.requests && r == w.requests[rid] && r.pc.CommitTx?
    ensures OwnedStep(w, StepCommit(w, rid, r, c, r.pc.id), rid)
  {
    if c.io.Lost? { CommitLostOwned(w, rid, r, c); } else { CommitUsers(w, rid, r); }
  }

  lemma FindProviderOwned(w: World, rid: nat, r: Request, c: Choice)
    requires Whole(w.db.committed) && rid in w.requests && r == w.requests[rid] && r.pc.FindProvider?
    ensures OwnedStep(w, StepFindProvider(w, rid, r, c), rid)
  {
  }

  lemma GetOwned(w: World, rid: nat, r: Request, c: Choice)
    requires Owned(w) && rid in w.requests && r == w.requests[rid] && r.pc.GetToken?
    ensures OwnedStep(w, StepGet(w, rid, r, c), rid)
  {
    OwnerOf(w.db.committed, UserOf(r));
  }

  lemma BeginOwned(w: World, rid: nat, r: Request, c: Choice)
    requires rid in w.requests && r == w.requests[rid] && r.pc.BeginTx?
    ensures OwnedStep(w, StepBegin(w, rid, r, c, r.pc.name), rid)
  {
  }

  lemma InsertOwned(w: World, rid: nat, r: Request, c: Choice, db: Option<Database>, pc: Pc)
    requires rid in w.requests && r == w.requests[rid] && !Issuing(pc)
    requires db.Some? ==> db.value.committed == w.db.committed
    ensures OwnedStep(w, AfterInsert(w, rid, r, c, db, pc), rid)
  {
  }

  lemma RollbackOwned(w: World, rid: nat, r: Request)
    requires rid in w.requests && r == w.requests[rid]
    ensures OwnedStep(w, StepRollback(w, rid, r), rid)
  {
  }

  lemma TxOwned(w: World, rid: nat, r: Request, c: Choice)
    requires rid in w.requests && r == w.requests[rid] && (r.pc.BeginTx? || (InTx(r.pc) && !r.pc.CommitTx?))
    ensures OwnedStep(w, StepRequest(w, rid, r, c), rid)
  {
    match r.pc {
      case BeginTx(_) => BeginOwned(w, rid, r, c);
      case InsertUser(name) =>
        InsertOwned(w, rid, r, c, Postgres.InsertUser(w.db, rid, UserRow(c.id, name)),
                    if r.flow.Google? then Pc.InsertProvider(c.id) else Pc.InsertWallet(c.id));
      case InsertProvider(id) =>
        var db := Postgres.InsertProvider(w.db, rid, ProviderRowOf(r, c.id, id));
        InsertOwned(w, rid, r, c, db, Pc.InsertWallet(id));
      case InsertWallet(id) =>
        InsertOwned(w, rid, r, c, Postgres.InsertWallet(w.db, rid, WalletRow(id, 0, 0)), CommitTx(id));
      case RollbackTx => RollbackOwned(w, rid, r);
    }
  }

  // Only a SET makes a slot appear, and only the request's own.
  lemma StoreSlots(w: World, rid: nat, r: Request, c: Choice)
    requires StorePc(r.pc)
    ensures forall key :: key in StepRequest(w, rid, r, c).slots ==>
        key in w.slots || (key == KeyOf(r) && r.pc.SetToken?)
  {
  }

  lemma StoreOwned(w: World, rid: nat, r: Request, c: Choice)
    requires Owned(w) && rid in w.requests && r == w.requests[rid] && StorePc(r.pc) && !r.pc.GetToken?
    ensures OwnedStep(w, StepRequest(w, rid, r, c), rid)
  {
    StoreStepSame(w, rid, r, c);
    StoreSlots(w, rid, r, c);
    assert Issuing(StepRequest(w, rid, r, c).requests[rid].pc) ==> Issuing(r.pc);
  }

  lemma AccountStepOwned(w: World, rid: nat, r: Request, c: Choice)
    requires Shapes(w) && Whole(w.db.committed) && rid in w.requests && r == w.requests[rid] && !StorePc(r.pc)
    ensures OwnedStep(w, StepRequest(w, rid, r, c), rid)
  {
    if r.pc.CommitTx? { CommitOwned(w, rid, r, c); }
    else if InTx(r.pc) || r.pc.BeginTx? { TxOwned(w, rid, r, c); }
    else { FindProviderOwned(w, rid, r, c); }
  }

  lemma StepOwned(w: World, rid: nat, r: Request, c: Choice)
    requires Shapes(w) && Whole(w.db.committed) && Owned(w) && rid in w.requests && r == w.requests[rid]
    ensures OwnedStep(w, StepRequest(w, rid, r, c), rid)
  {
    if !StorePc(r.pc) { AccountStepOwned(w, rid, r, c); }
    else if r.pc.GetToken? { GetOwned(w, rid, r, c); }
    else { StoreOwned(w, rid, r, c); }
  }

  lemma OwnedStepKeeps(w: World, w2: World, rid: nat)
    requires Owned(w) && rid in w.requests && OwnedStep(w, w2, rid)
    ensures Owned(w2)
  {
    forall key | key in w2.slots ensures KeyHasOwner(w2.db.committed, key) {
      if key in w.slots {
        assert KeyHasOwner(w.db.committed, key);
      } else {
        OwnerOf(w2.db.committed, UserOf(w.requests[rid]));
      }
    }
  }

  lemma NextOwned(w: World, e: Event)
    requires AccountInv(w) && Owned(w)
    ensures Owned(Next(w, e))
  {
    if e.Step? && e.rid in w.requests {
      StepOwned(w, e.rid, w.requests[e.rid], e.choice);
      OwnedStepKeeps(w, Next(w, e), e.rid);
    }
  }

  /** In every reachable world each refresh slot, expired or not, and each request that is
      about to delete, mint or store a token belongs to a committed user. */
  lemma {:induction false} SlotsBelongToUsers(cfg: Config, now: int, events: seq<Event>)
    ensures Owned(Run(Init(cfg, now), events))
  {
    if events != [] {
      var front := events[..|events| - 1];
      SlotsBelongToUsers(cfg, now, front);
      RunAccounts(cfg, now, front);
      NextOwned(Run(Init(cfg, now), front), events[|events| - 1]);
    }
  }

  // ---- Tokens are stored at most once ----

  // The random value behind a token.
  function Serial(token: string): nat { Hex.Value(token) }

  lemma SerialOfToken(draw: Draw)
    ensures Serial(OpaqueToken(draw)) == draw
  {
    Hex.Widths();
    Hex.ValueOfPrint(draw, TOKEN_DIGITS);
  }

  ghost predicate Drawn(w: World, token: string) {
    Serial(token) in w.drawn
  }

  ghost predicate Pending(w: World, rid: nat, token: string) {
    rid in w.requests && w.requests[rid].pc.SetToken? && w.requests[rid].pc.pair.refresh == token
  }

  ghost predicate Tokens(w: World) {
    && (forall rid :: rid in w.requests && w.requests[rid].pc.SetToken? ==> Drawn(w, w.requests[rid].pc.pair.refresh))
    && (forall key :: key in w.slots ==> Drawn(w, w.slots[key].token))
    && (forall a, b ::
          (a in w.requests && b in w.requests && a != b && w.requests[a].pc.SetToken? && w.requests[b].pc.SetToken?)
          ==> w.requests[a].pc.pair.refresh != w.requests[b].pc.pair.refresh)
    && (forall rid, key :: rid in w.requests && w.requests[rid].pc.SetToken? && key in w.slots
          ==> w.requests[rid].pc.pair.refresh != w.slots[key].token)
    && (forall k, l :: k in w.slots && l in w.slots && k != l ==> w.slots[k].token != w.slots[l].token)
  }

  // What one step of a request can do to slots and pending tokens.
  datatype TokenMove = Nothing | Erased(key: string) | Minted(token: string) | Stored(key: string, token: string)

  // The step of rid leaves the token-relevant state as the move says.
  ghost predicate Follows(w: World, w2: World, rid: nat, move: TokenMove) {
    && rid in w.requests && w2.requests.Keys == w.requests.Keys
    && (forall x :: x in w.requests && x != rid ==> w2.requests[x] == w.requests[x])
    && match move
       case Nothing => w2.slots == w.slots && w2.drawn == w.drawn && !w2.requests[rid].pc.SetToken?
       case Erased(key) => w2.slots == w.slots - {key} && w2.drawn == w.drawn && !w2.requests[rid].pc.SetToken?
       case Minted(token) =>
         w2.slots == w.slots && !Drawn(w, token) && w2.drawn == w.drawn + {Serial(token)}
         && w2.requests[rid].pc.SetToken? && w2.requests[rid].pc.pair.refresh == token
       case Stored(key, token) =>
         Pending(w, rid, token) && w2.drawn == w.drawn && !w2.requests[rid].pc.SetToken?
         && key in w2.slots && w2.slots[key].token == token && w2.slots == w.slots[key := w2.slots[key]]
  }

  function MoveOf(r: Request, c: Choice, w: World): TokenMove {
    match r.pc
    case DelToken => if c.io.Lost? then Nothing else Erased(KeyOf(r))
    case LogoutDel => if c.io.Lost? then Nothing else Erased(KeyOf(r))
    case Mint => if c.io.Good? && c.draw !in w.drawn then Minted(OpaqueToken(c.draw)) else Nothing
    case SetToken(pair) => if c.io.Lost? then Nothing else Stored(KeyOf(r), pair.refresh)
    case _ => Nothing
  }

  lemma MintFollows(w: World, rid: nat, r: Request, c: Choice)
    requires rid in w.requests && r == w.requests[rid] && r.pc.Mint?
    ensures Follows(w, StepMint(w, rid, r, c), rid, MoveOf(r, c, w))
  {
    SerialOfToken(c.draw);
  }

  lemma RedisFollows(w: World, rid: nat, r: Request, c: Choice)
    requires rid in w.requests && r == w.requests[rid]
    requires r.pc.GetToken? || r.pc.DelToken? || r.pc.LogoutDel?
    ensures Follows(w, StepRequest(w, rid, r, c), rid, MoveOf(r, c, w))
  {
  }

  lemma SetFollows(w: World, rid: nat, r: Request, c: Choice)
    requires rid in w.requests && r == w.requests[rid] && r.pc.SetToken?
    ensures Follows(w, StepSet(w, rid, r, c, r.pc.pair), rid, MoveOf(r, c, w))
  {
  }

  lemma TxFollows(w: World, rid: nat, r: Request, c: Choice)
    requires rid in w.requests && r == w.requests[rid] && (r.pc.BeginTx? || InTx(r.pc))
    ensures Follows(w, StepRequest(w, rid, r, c), rid, Nothing)
  {
  }

  lemma LookupFollows(w: World, rid: nat, r: Request, c: Choice)
    requires rid in w.requests && r == w.requests[rid]
    requires r.pc.Done? || r.pc.Verify? || r.pc.FindProvider? || r.pc.PickName?
    ensures Follows(w, StepRequest(w, rid, r, c), rid, Nothing)
  {
  }

  lemma StepFollows(w: World, rid: nat, r: Request, c: Choice)
    requires rid in w.requests && r == w.requests[rid]
    ensures Follows(w, StepRequest(w, rid, r, c), rid, MoveOf(r, c, w))
  {
    if r.pc.Mint? { MintFollows(w, rid, r, c); }
    else if r.pc.SetToken? { SetFollows(w, rid, r, c); }
    else if r.pc.GetToken? || r.pc.DelToken? || r.pc.LogoutDel? { RedisFollows(w, rid, r, c); }
    else if r.pc.BeginTx? || InTx(r.pc) { TxFollows(w, rid, r, c); }
    else { LookupFollows(w, rid, r, c); }
  }

  lemma FollowsKeepsTokens(w: World, w2: World, rid: nat, move: TokenMove)
    requires Tokens(w) && Follows(w, w2, rid, move)
    ensures Tokens(w2)
  {
  }

  lemma StepTokens(w: World, rid: nat, c: Choice)
    requires Tokens(w) && rid in w.requests
    ensures Tokens(StepRequest(w, rid, w.requests[rid], c))
  {
    var r := w.requests[rid];
    StepFollows(w, rid, r, c);
    FollowsKeepsTokens(w, StepRequest(w, rid, r, c), rid, MoveOf(r, c, w));
  }

  lemma ArrivalTokens(w: World, e: Event)
    requires Tokens(w) && (e.Tick? || e.Start?)
    ensures Tokens(Next(w, e))
  {
    var w2 := Next(w, e);
    assert w2.slots == w.slots && w2.drawn == w.drawn;
    forall rid | rid in w2.requests && w2.requests[rid].pc.SetToken?
      ensures rid in w.requests && w2.requests[rid] == w.requests[rid]
    {
    }
  }

  lemma NextTokens(w: World, e: Event)
    requires Tokens(w)
    ensures Tokens(Next(w, e))
  {
    if !e.Step? {
      ArrivalTokens(w, e);
    } else if e.rid in w.requests {
      StepTokens(w, e.rid, e.choice);
    }
  }

  lemma {:induction false} RunTokens(cfg: Config, now: int, events: seq<Event>)
    ensures Tokens(Run(Init(cfg, now), events))
  {
    if events != [] {
      RunTokens(cfg, now, events[..|events| - 1]);
      NextTokens(Run(Init(cfg, now), events[..|events| - 1]), events[|events| - 1]);
    }
  }
}
