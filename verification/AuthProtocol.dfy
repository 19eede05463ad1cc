/** What the four auth flows do to the two stores, one store call per step. Any number of
    requests run at once; a run is a sequence of events in any order. */
module AuthProtocol {
  import opened Wrappers
  import opened Uuids
  import opened RedisKeys
  import opened Postgres
  import Hex
  import Jwt
  import Runs

  // ---- Redis: refresh slots with an expiry ----

  datatype Entry = Entry(token: string, expiry: Option<int>)
  type Slots = map<string, Entry>

  predicate Fresh(e: Entry, now: int) {
    e.expiry.None? || now < e.expiry.value
  }

  // GET: an expired key reads as absent.
  function Read(slots: Slots, now: int, key: string): Option<string> {
    if key in slots && Fresh(slots[key], now) then Some(slots[key].token) else None
  }

  // SET with a time to live; zero means the key does not expire.
  function Write(slots: Slots, now: int, key: string, token: string, ttl: nat): Slots {
    slots[key := Entry(token, if ttl == 0 then None else Some(now + ttl))]
  }

  // DEL: an absent key is not an error.
  function Erase(slots: Slots, key: string): Slots {
    slots - {key}
  }

  // ---- Requests ----

  datatype Config = Config(secret: string, accessTTL: int, refreshTTL: nat)

  const ROLE := "player"
  const GOOGLE := "google"
  const MAX_ATTEMPTS := 5
  const TOKEN_DIGITS := 64

  // A 32-byte draw, and the 64 hexadecimal characters handed to the client.
  type Draw = x: nat | x < 0x1_0000_0000_0000_0000_0000_0000_0000_0000_0000_0000_0000_0000_0000_0000_0000_0000

  function OpaqueToken(draw: Draw): string { Hex.Print(draw, TOKEN_DIGITS) }

  datatype TokenPair = TokenPair(access: Jwt.Token, refresh: string)

  datatype GoogleId = GoogleId(subject: string, email: string)

  datatype Flow = Guest | Google | Refresh(user: Uuid, provided: string) | Logout(user: Uuid)

  datatype Outcome = Failed | Issued(pair: TokenPair) | LoggedOut

  // The program counter: the store call a request makes next.
  datatype Pc =
    | Verify
    | FindProvider
    | PickName(attempt: nat)
    | BeginTx(name: string)
    | InsertUser(name: string)
    | InsertProvider(id: Uuid)
    | InsertWallet(id: Uuid)
    | CommitTx(id: Uuid)
    | RollbackTx
    | GetToken
    | DelToken
    | Mint
    | SetToken(pair: TokenPair)
    | LogoutDel
    | Done(outcome: Outcome)

  // `who` is the verified Google identity, `user` the account the request acts for, once known.
  datatype Request = Request(flow: Flow, who: Option<GoogleId>, user: Option<Uuid>, pc: Pc)

  function Who(r: Request): GoogleId {
    if r.who.Some? then r.who.value else GoogleId("", "")
  }

  // `drawn` holds every random value ever used; `creator` remembers which request committed a user.
  datatype World = World(
    cfg: Config, now: int, slots: Slots, db: Database, drawn: set<Draw>,
    requests: map<nat, Request>, creator: map<Uuid, nat>)

  function Init(cfg: Config, now: int): World {
    World(cfg, now, map[], Database(NO_ROWS, map[]), {}, map[], map[])
  }

  // ---- Events ----

  /* How one call ends: it worked; it took effect but reported an error; it did not take effect. */
  datatype Io = Good | Applied | Lost

  // Everything a step may draw from outside: the call's fate and the values it is handed.
  datatype Choice = Choice(io: Io, name: string, id: Uuid, who: Option<GoogleId>, draw: Draw)

  datatype Event = Tick(d: nat) | Start(rid: nat, flow: Flow) | Step(rid: nat, choice: Choice)

  function FirstPc(flow: Flow): Pc {
    match flow
    case Guest => PickName(0)
    case Google => Verify
    case Refresh(_, _) => GetToken
    case Logout(_) => LogoutDel
  }

  function NewRequest(flow: Flow): Request {
    Request(flow, None, if flow.Refresh? || flow.Logout? then Some(flow.user) else None, FirstPc(flow))
  }

  function At(w: World, rid: nat, r: Request, pc: Pc): World {
    w.(requests := w.requests[rid := r.(pc := pc)])
  }

  function Fail(w: World, rid: nat, r: Request): World {
    At(w, rid, r, Done(Failed))
  }

  function Bound(w: World, rid: nat, r: Request, user: Uuid, pc: Pc): World {
    w.(requests := w.requests[rid := r.(user := Some(user), pc := pc)])
  }

  // The account a request acts for; only read once it is known.
  function UserOf(r: Request): Uuid {
    if r.user.Some? then r.user.value else 0
  }

  function KeyOf(r: Request): string { RefreshKey(UserOf(r)) }

  function Pair(w: World, r: Request, draw: Draw): TokenPair {
    TokenPair(
      Jwt.SignJWT(Jwt.NewAccessClaims(UserOf(r), ROLE, w.cfg.accessTTL, w.now), w.cfg.secret),
      OpaqueToken(draw))
  }

  function ProviderRowOf(r: Request, id: Uuid, user: Uuid): ProviderRow {
    var who := Who(r);
    ProviderRow(id, user, GOOGLE, who.subject, if who.email == "" then None else Some(who.email))
  }

  // ---- One step of each kind ----

  function StepVerify(w: World, rid: nat, r: Request, c: Choice): World {
    if c.io.Good? && c.who.Some?
    then w.(requests := w.requests[rid := r.(who := c.who, pc := FindProvider)])
    else Fail(w, rid, r)
  }

  function StepFindProvider(w: World, rid: nat, r: Request, c: Choice): World {
    if !c.io.Good? then Fail(w, rid, r)
    else
      var row := Postgres.FindProvider(w.db.committed.providers, GOOGLE, Who(r).subject);
      if row.Some? then Bound(w, rid, r, row.value.userId, Mint) else At(w, rid, r, PickName(0))
  }

  function StepPickName(w: World, rid: nat, r: Request, c: Choice, attempt: nat): World {
    if !c.io.Good? then Fail(w, rid, r)
    else if !HasUsername(w.db.committed, c.name) then At(w, rid, r, BeginTx(c.name))
    else if attempt + 1 < MAX_ATTEMPTS then At(w, rid, r, PickName(attempt + 1))
    else Fail(w, rid, r)
  }

  function StepBegin(w: World, rid: nat, r: Request, c: Choice, name: string): World {
    if c.io.Good? then At(w, rid, r, InsertUser(name)).(db := Begin(w.db, rid)) else Fail(w, rid, r)
  }

  // The result of one INSERT: on any error the transaction is left to the deferred rollback.
  function AfterInsert(w: World, rid: nat, r: Request, c: Choice, db: Option<Database>, pc: Pc): World {
    if c.io.Good? && db.Some? then At(w, rid, r, pc).(db := db.value) else At(w, rid, r, RollbackTx)
  }

  function StepInsertUser(w: World, rid: nat, r: Request, c: Choice, name: string): World {
    AfterInsert(w, rid, r, c, Postgres.InsertUser(w.db, rid, UserRow(c.id, name)),
                if r.flow.Google? then InsertProvider(c.id) else InsertWallet(c.id))
  }

  function StepInsertProvider(w: World, rid: nat, r: Request, c: Choice, user: Uuid): World {
    AfterInsert(w, rid, r, c, Postgres.InsertProvider(w.db, rid, ProviderRowOf(r, c.id, user)), InsertWallet(user))
  }

  function StepInsertWallet(w: World, rid: nat, r: Request, c: Choice, user: Uuid): World {
    AfterInsert(w, rid, r, c, Postgres.InsertWallet(w.db, rid, WalletRow(user, 0, 0)), CommitTx(user))
  }

  function StepCommit(w: World, rid: nat, r: Request, c: Choice, user: Uuid): World {
    match c.io
    case Good => Bound(w, rid, r, user, Mint).(db := Commit(w.db, rid), creator := w.creator[user := rid])
    case Applied => Fail(w, rid, r).(db := Commit(w.db, rid), creator := w.creator[user := rid])
    case Lost => Fail(w, rid, r).(db := Rollback(w.db, rid))
  }

  function StepRollback(w: World, rid: nat, r: Request): World {
    Fail(w, rid, r).(db := Rollback(w.db, rid))
  }

  // A store error, a miss and a mismatch are the same to the caller.
  function StepGet(w: World, rid: nat, r: Request, c: Choice): World {
    if c.io.Good? && r.flow.Refresh? && Read(w.slots, w.now, KeyOf(r)) == Some(r.flow.provided)
    then At(w, rid, r, DelToken)
    else Fail(w, rid, r)
  }

  function StepDel(w: World, rid: nat, r: Request, c: Choice, pc: Pc): World {
    (if c.io.Good? then At(w, rid, r, pc) else Fail(w, rid, r))
    .(slots := if c.io.Lost? then w.slots else Erase(w.slots, KeyOf(r)))
  }

  // Random values never repeat; a draw seen before is no draw at all and the request fails.
  function StepMint(w: World, rid: nat, r: Request, c: Choice): World {
    if c.io.Good? && c.draw !in w.drawn
    then At(w, rid, r, SetToken(Pair(w, r, c.draw))).(drawn := w.drawn + {c.draw})
    else Fail(w, rid, r)
  }

  function StepSet(w: World, rid: nat, r: Request, c: Choice, pair: TokenPair): World {
    (if c.io.Good? then At(w, rid, r, Done(Issued(pair))) else Fail(w, rid, r))
    .(slots := if c.io.Lost? then w.slots else Write(w.slots, w.now, KeyOf(r), pair.refresh, w.cfg.refreshTTL))
  }

  function StepRequest(w: World, rid: nat, r: Request, c: Choice): World {
    match r.pc
    case Verify => StepVerify(w, rid, r, c)
    case FindProvider => StepFindProvider(w, rid, r, c)
    case PickName(attempt) => StepPickName(w, rid, r, c, attempt)
    case BeginTx(name) => StepBegin(w, rid, r, c, name)
    case InsertUser(name) => StepInsertUser(w, rid, r, c, name)
    case InsertProvider(id) => StepInsertProvider(w, rid, r, c, id)
    case InsertWallet(id) => StepInsertWallet(w, rid, r, c, id)
    case CommitTx(id) => StepCommit(w, rid, r, c, id)
    case RollbackTx => StepRollback(w, rid, r)
    case GetToken => StepGet(w, rid, r, c)
    case DelToken => StepDel(w, rid, r, c, Mint)
    case Mint => StepMint(w, rid, r, c)
    case SetToken(pair) => StepSet(w, rid, r, c, pair)
    case LogoutDel => StepDel(w, rid, r, c, Done(LoggedOut))
    case Done(_) => w
  }

  // Events that cannot happen (an unknown request, a name already taken) change nothing.
  function Next(w: World, e: Event): World {
    match e
    case Tick(d) => w.(now := w.now + d)
    case Start(rid, flow) => if rid in w.requests then w else w.(requests := w.requests[rid := NewRequest(flow)])
    case Step(rid, c) => if rid in w.requests then StepRequest(w, rid, w.requests[rid], c) else w
  }

  function Run(w: World, events: seq<Event>): World {
    Runs.Run(Next, w, events)
  }

  // The world after the first k events.
  function After(w: World, events: seq<Event>, k: nat): World
    requires k <= |events|
  {
    Run(w, events[..k])
  }

  lemma NextKeepsConfig(w: World, e: Event)
    ensures Next(w, e).cfg == w.cfg
  {
    if e.Step? && e.rid in w.requests {
      StepKeepsConfig(w, e.rid, w.requests[e.rid], e.choice);
    }
  }

  predicate TxPc(pc: Pc) {
    pc.BeginTx? || pc.InsertUser? || pc.InsertProvider? || pc.InsertWallet? || pc.CommitTx? || pc.RollbackTx?
  }

  lemma TxKeepsConfig(w: World, rid: nat, r: Request, c: Choice)
    requires TxPc(r.pc)
    ensures StepRequest(w, rid, r, c).cfg == w.cfg && StepRequest(w, rid, r, c).now == w.now
  {
  }

  lemma OtherStepKeepsConfig(w: World, rid: nat, r: Request, c: Choice)
    requires !TxPc(r.pc)
    ensures StepRequest(w, rid, r, c).cfg == w.cfg && StepRequest(w, rid, r, c).now == w.now
  {
  }

  lemma StepKeepsConfig(w: World, rid: nat, r: Request, c: Choice)
    ensures StepRequest(w, rid, r, c).cfg == w.cfg && StepRequest(w, rid, r, c).now == w.now
  {
    if TxPc(r.pc) {
      TxKeepsConfig(w, rid, r, c);
    } else {
      OtherStepKeepsConfig(w, rid, r, c);
    }
  }

  lemma {:induction false} RunKeepsConfig(w: World, events: seq<Event>)
    ensures Run(w, events).cfg == w.cfg
  {
    if events != [] {
      RunKeepsConfig(w, events[..|events| - 1]);
      NextKeepsConfig(Run(w, events[..|events| - 1]), events[|events| - 1]);
    }
  }
}
