/** The identity chain: from the login that minted an access token, over the wire and through
    the middleware, to the slot that Logout deletes. */
module Identity {
  import opened Wrappers
  import opened Uuids
  import opened AuthProtocol
  import opened Accounts
  import opened RefreshSlots
  import opened RefreshRefinement
  import Jwt

  const BEARER := "Bearer "

  // The compact serialization of tokens; its details are not modelled.
  datatype Wire = Wire(encode: Jwt.Token -> string, decode: string -> Option<Jwt.Token>)

  // Every token has a non-empty text that parses back to it.
  ghost predicate Lawful(wire: Wire) {
    forall t: Jwt.Token :: wire.encode(t) != "" && wire.decode(wire.encode(t)) == Some(t)
  }

  // extractBearerToken: "" when the header is missing or has another scheme.
  function ExtractBearer(header: string): string {
    if BEARER <= header then header[|BEARER|..] else ""
  }

  function ValidateText(wire: Wire, text: string, secret: string, now: int): Option<Jwt.Claims> {
    var token := wire.decode(text);
    if token.None? then None else Jwt.ValidateJWT(token.value, secret, now)
  }

  // What the middleware makes of the Authorization header; None answers 401.
  function Authenticate(wire: Wire, header: string, secret: string, now: int): Option<Jwt.Claims> {
    var text := ExtractBearer(header);
    if text == "" then None else ValidateText(wire, text, secret, now)
  }

  // ---- The pair a request ends with was minted for its user ----

  function PairOf(pc: Pc): Option<TokenPair> {
    match pc
    case SetToken(pair) => Some(pair)
    case Done(out) => if out.Issued? then Some(out.pair) else None
    case _ => None
  }

  // Event k is the mint of this pair by rid, acting for `user`.
  ghost predicate MintedAt(w0: World, events: seq<Event>, rid: nat, user: Uuid, pair: TokenPair, k: nat) {
    && k < |events| && events[k].Step? && events[k].rid == rid
    && var w := After(w0, events, k);
       rid in w.requests && w.requests[rid].pc.Mint? && w.requests[rid].user == Some(user)
       && pair == Pair(w, w.requests[rid], events[k].choice.draw)
  }

  lemma PairStep(w: World, rid: nat, r: Request, c: Choice)
    requires rid in w.requests && r == w.requests[rid] && RequestShape(r)
    ensures rid in StepRequest(w, rid, r, c).requests
    ensures var r2 := StepRequest(w, rid, r, c).requests[rid];
            PairOf(r2.pc).Some? ==>
              && r2.user == r.user && r.user.Some?
              && (PairOf(r2.pc) == PairOf(r.pc) || (r.pc.Mint? && PairOf(r2.pc).value == Pair(w, r, c.draw)))
  {
    if StorePc(r.pc) { StoreStepSame(w, rid, r, c); }
  }

  lemma PairNext(w: World, e: Event, rid: nat)
    requires AccountInv(w) && rid in Next(w, e).requests && PairOf(Next(w, e).requests[rid].pc).Some?
    ensures rid in w.requests && w.requests[rid].user.Some? && w.requests[rid].user == Next(w, e).requests[rid].user
    ensures var pair := PairOf(Next(w, e).requests[rid].pc);
            || pair == PairOf(w.requests[rid].pc)
            || (e.Step? && e.rid == rid && w.requests[rid].pc.Mint?
                && pair.value == Pair(w, w.requests[rid], e.choice.draw))
  {
    if e.Step? && e.rid in w.requests {
      assert RequestShape(w.requests[e.rid]);
      StepFollows(w, e.rid, w.requests[e.rid], e.choice);
      PairStep(w, e.rid, w.requests[e.rid], e.choice);
    }
    if rid in w.requests { assert RequestShape(w.requests[rid]); }
  }

  lemma {:induction false} PairWasMinted(cfg: Config, now: int, events: seq<Event>, rid: nat)
    requires var w := Run(Init(cfg, now), events); rid in w.requests && PairOf(w.requests[rid].pc).Some?
    ensures var w := Run(Init(cfg, now), events);
            w.requests[rid].user.Some? &&
            exists k: nat ::
              MintedAt(Init(cfg, now), events, rid, w.requests[rid].user.value, PairOf(w.requests[rid].pc).value, k)
  {
    var w0 := Init(cfg, now);
    var front, e := events[..|events| - 1], events[|events| - 1];
    var w, w2 := Run(w0, front), Run(w0, events);
    var pair := PairOf(w2.requests[rid].pc).value;
    RunAccounts(cfg, now, front);
    PairNext(w, e, rid);
    var user := w2.requests[rid].user.value;
    if PairOf(w.requests[rid].pc) == Some(pair) {
      PairWasMinted(cfg, now, front, rid);
      var k: nat :| MintedAt(w0, front, rid, user, pair, k);
      assert front[..k] == events[..k];
      assert MintedAt(w0, events, rid, user, pair, k);
    } else {
      assert MintedAt(w0, events, rid, user, pair, |events| - 1);
    }
  }

  // ---- The chain ----

  // The second at which a token minted at event k stops being accepted.
  ghost function ExpiryOfMint(cfg: Config, now: int, events: seq<Event>, k: nat): int
    requires k <= |events|
  {
    Jwt.NumericDate(After(Init(cfg, now), events, k).now + cfg.accessTTL)
  }

  lemma BearerText(text: string)
    ensures ExtractBearer(BEARER + text) == text
  {
    assert (BEARER + text)[|BEARER|..] == text;
  }

  // The token authenticates as this player before `expiry`, and not at all from then on.
  ghost predicate PassesUntil(wire: Wire, access: Jwt.Token, secret: string, user: Uuid, expiry: int, later: int) {
    var claims := Authenticate(wire, BEARER + wire.encode(access), secret, later);
    && (claims.Some? <==> later < expiry)
    && (claims.Some? ==> claims.value.sub == user && claims.value.role == "player"
                         && Parse(Text(claims.value.sub)) == Some(user))
  }

  lemma SignedTokenPasses(wire: Wire, user: Uuid, ttl: int, minted: int, secret: string, later: int)
    requires Lawful(wire)
    ensures var access := Jwt.SignJWT(Jwt.NewAccessClaims(user, ROLE, ttl, minted), secret);
            PassesUntil(wire, access, secret, user, Jwt.NumericDate(minted + ttl), later)
  {
    var access := Jwt.SignJWT(Jwt.NewAccessClaims(user, ROLE, ttl, minted), secret);
    BearerText(wire.encode(access));
    ParseOfText(user);
  }

  /** An access token handed out by any flow authenticates as the user it was issued to, with
      role "player", exactly while the clock is before its second-truncated expiry; and the
      user id the middleware passes on as text parses back to that user. */
  lemma TokenKeepsIdentity(cfg: Config, now: int, events: seq<Event>, rid: nat, pair: TokenPair, wire: Wire)
    returns (k: nat)
    requires Lawful(wire)
    requires var w := Run(Init(cfg, now), events); rid in w.requests && w.requests[rid].pc == Done(Issued(pair))
    ensures Run(Init(cfg, now), events).requests[rid].user.Some? && k < |events|
    ensures var user := Run(Init(cfg, now), events).requests[rid].user.value;
            && MintedAt(Init(cfg, now), events, rid, user, pair, k)
            && forall later ::
                 PassesUntil(wire, pair.access, cfg.secret, user, ExpiryOfMint(cfg, now, events, k), later)
  {
    PairWasMinted(cfg, now, events, rid);
    var w0, user := Init(cfg, now), Run(Init(cfg, now), events).requests[rid].user.value;
    k :| MintedAt(w0, events, rid, user, pair, k);
    RunKeepsConfig(w0, events[..k]);
    var minted := After(w0, events, k).now;
    forall later ensures PassesUntil(wire, pair.access, cfg.secret, user, ExpiryOfMint(cfg, now, events, k), later) {
      SignedTokenPasses(wire, user, cfg.accessTTL, minted, cfg.secret, later);
    }
  }

  lemma OnlyBearerHeaders(header: string, text: string)
    ensures ExtractBearer(header) == text && text != "" <==> header == "Bearer " + text && text != ""
  {
    BearerText(text);
    if BEARER <= header { assert header == BEARER + header[|BEARER|..]; }
  }

  /** Exactly which headers the middleware accepts, and as whom: the scheme "Bearer ", then a text that
      decodes to these claims signed with the service's secret, inside their time bounds. That nobody
      else can sign is built into the symbolic codes. */
  lemma OnlySignedTokensPass(wire: Wire, header: string, secret: string, now: int, claims: Jwt.Claims)
    ensures Authenticate(wire, header, secret, now) == Some(claims) <==>
            exists text ::
              && header == "Bearer " + text && text != ""
              && wire.decode(text) == Some(Jwt.SignJWT(claims, secret)) && Jwt.InTime(claims, now)
  {
    var text := ExtractBearer(header);
    OnlyBearerHeaders(header, text);
    if wire.decode(text).Some? { Jwt.ValidIffSignedAndFresh(wire.decode(text).value, secret, now); }
    if t :| header == "Bearer " + t && t != "" && wire.decode(t) == Some(Jwt.SignJWT(claims, secret))
            && Jwt.InTime(claims, now)
    {
      OnlyBearerHeaders(header, t);
    }
  }

  /** A Logout that takes effect empties the slot of the user it names and no other. */
  lemma LogoutHitsOneSlot(w: World, rid: nat, user: Uuid, c: Choice, other: Uuid)
    requires rid in w.requests && w.requests[rid].pc.LogoutDel? && w.requests[rid].user == Some(user) && !c.io.Lost?
    ensures var w2 := Next(w, Step(rid, c));
            Slot(w2, user) == None && (other != user ==> Slot(w2, other) == Slot(w, other))
  {
    RedisSlots(w, rid, w.requests[rid], c);
  }
}
