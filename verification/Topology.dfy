/** Provisioning of exchanges, queues and bindings, one declaration at a time, any of which may be
    refused or fail with or without effect. */
module Topology {

  datatype ExchangeProps = ExchangeProps(kind: string, durable: bool, autoDelete: bool, internal_: bool)

  datatype QueueProps = QueueProps(durable: bool, autoDelete: bool, exclusive: bool, args: map<string, string>)

  datatype Binding = Binding(queue: string, key: string, exchange: string)

  // What a broker has, or what a client wants it to have.
  datatype Layout = Layout(exchanges: map<string, ExchangeProps>, queues: map<string, QueueProps>,
      bindings: set<Binding>)

  datatype DomainQueue = DomainQueue(name: string, routingKey: string)

  const EXCHANGE_GAME_EVENTS := "game.events"
  const EXCHANGE_DLX := "game.dlx"
  const QUEUE_DEAD := "game.dead.queue"

  const QUEUES := [
    DomainQueue("ranking.queue", "match.finished"),
    DomainQueue("wallet.queue", "match.finished"),
    DomainQueue("mission.queue", "mission.completed"),
    DomainQueue("analytics.queue", "#"),
    DomainQueue("notification.queue", "ranking.changed")]

  const TOPIC := ExchangeProps("topic", true, false, false)
  const DIRECT := ExchangeProps("direct", true, false, false)
  const TERMINAL := QueueProps(true, false, false, map[])
  const DOMAIN := QueueProps(true, false, false, map["x-dead-letter-exchange" := EXCHANGE_DLX])

  const DEAD_BINDING := Binding(QUEUE_DEAD, "", EXCHANGE_DLX)

  function BindingOf(q: DomainQueue): Binding {
    Binding(q.name, q.routingKey, EXCHANGE_GAME_EVENTS)
  }

  // What every list asks for.
  const SHARED := Layout(
    map[EXCHANGE_GAME_EVENTS := TOPIC, EXCHANGE_DLX := DIRECT], map[QUEUE_DEAD := TERMINAL], {DEAD_BINDING})

  function DomainQueues(queues: seq<DomainQueue>): map<string, QueueProps> {
    map q | q in queues :: q.name := DOMAIN
  }

  function DomainBindings(queues: seq<DomainQueue>): set<Binding> {
    set q | q in queues :: BindingOf(q)
  }

  // Everything a list of domain queues asks for, in no particular order.
  function Required(queues: seq<DomainQueue>): Layout {
    Layout(SHARED.exchanges, SHARED.queues + DomainQueues(queues), SHARED.bindings + DomainBindings(queues))
  }

  // A name of its own for each: the dead-letter queue is spoken for, and the empty name asks the
  // broker to make one up.
  predicate ProperNames(queues: seq<DomainQueue>) {
    forall q :: q in queues ==> q.name != QUEUE_DEAD && q.name != ""
  }

  lemma GameQueuesAreProper()
    ensures ProperNames(QUEUES) && forall i, j :: 0 <= i < j < |QUEUES| ==> QUEUES[i].name != QUEUES[j].name
  {
    assert forall q :: q in QUEUES ==> q.name[0] != 'g';
    assert QUEUES[0].name[0] == 'r' && QUEUES[1].name[0] == 'w' && QUEUES[2].name[0] == 'm';
    assert QUEUES[3].name[0] == 'a' && QUEUES[4].name[0] == 'n';
  }

  // Any five queues.
  lemma FiveNames(a: DomainQueue, b: DomainQueue, c: DomainQueue, d: DomainQueue, e: DomainQueue)
    ensures DomainQueues([a, b, c, d, e]).Keys == {a.name, b.name, c.name, d.name, e.name}
  {
    var queues := [a, b, c, d, e];
    assert forall q :: q in queues <==> q == a || q == b || q == c || q == d || q == e;
    assert a in queues && b in queues && c in queues && d in queues && e in queues;
  }

  lemma FiveQueues(a: DomainQueue, b: DomainQueue, c: DomainQueue, d: DomainQueue, e: DomainQueue)
    ensures DomainQueues([a, b, c, d, e]) ==
        map[a.name := DOMAIN, b.name := DOMAIN, c.name := DOMAIN, d.name := DOMAIN, e.name := DOMAIN]
  {
    FiveNames(a, b, c, d, e);
    SameDomain(DomainQueues([a, b, c, d, e]),
      map[a.name := DOMAIN, b.name := DOMAIN, c.name := DOMAIN, d.name := DOMAIN, e.name := DOMAIN]);
  }

  lemma SameDomain(m: map<string, QueueProps>, n: map<string, QueueProps>)
    requires m.Keys == n.Keys && forall k :: (k in m ==> m[k] == DOMAIN) && (k in n ==> n[k] == DOMAIN)
    ensures m == n
  {
  }

  lemma FiveBindings(a: DomainQueue, b: DomainQueue, c: DomainQueue, d: DomainQueue, e: DomainQueue)
    ensures {DEAD_BINDING} + DomainBindings([a, b, c, d, e]) ==
        {DEAD_BINDING, BindingOf(a), BindingOf(b), BindingOf(c), BindingOf(d), BindingOf(e)}
  {
    assert forall q :: q in [a, b, c, d, e] <==> q == a || q == b || q == c || q == d || q == e;
  }

  /** What provisioning the game's queues asks for, name by name. */
  lemma GameLayout()
    ensures Required(QUEUES).exchanges == map[
        "game.events" := ExchangeProps("topic", true, false, false),
        "game.dlx" := ExchangeProps("direct", true, false, false)]
    ensures Required(QUEUES).queues == map["game.dead.queue" := QueueProps(true, false, false, map[])] + map[
        "ranking.queue" := QueueProps(true, false, false, map["x-dead-letter-exchange" := "game.dlx"]),
        "wallet.queue" := QueueProps(true, false, false, map["x-dead-letter-exchange" := "game.dlx"]),
        "mission.queue" := QueueProps(true, false, false, map["x-dead-letter-exchange" := "game.dlx"]),
        "analytics.queue" := QueueProps(true, false, false, map["x-dead-letter-exchange" := "game.dlx"]),
        "notification.queue" := QueueProps(true, false, false, map["x-dead-letter-exchange" := "game.dlx"])]
    ensures Required(QUEUES).bindings == {
        Binding("game.dead.queue", "", "game.dlx"),
        Binding("ranking.queue", "match.finished", "game.events"),
        Binding("wallet.queue", "match.finished", "game.events"),
        Binding("mission.queue", "mission.completed", "game.events"),
        Binding("analytics.queue", "#", "game.events"),
        Binding("notification.queue", "ranking.changed", "game.events")}
  {
    FiveQueues(QUEUES[0], QUEUES[1], QUEUES[2], QUEUES[3], QUEUES[4]);
    FiveBindings(QUEUES[0], QUEUES[1], QUEUES[2], QUEUES[3], QUEUES[4]);
    assert QUEUES == [QUEUES[0], QUEUES[1], QUEUES[2], QUEUES[3], QUEUES[4]];
  }

  // ---- Joining layouts ----

  function Join(a: Layout, b: Layout): Layout {
    Layout(a.exchanges + b.exchanges, a.queues + b.queues, a.bindings + b.bindings)
  }

  // Keys both have have the same value.
  ghost predicate Agree<K, V>(a: map<K, V>, b: map<K, V>) {
    forall k :: k in a && k in b ==> a[k] == b[k]
  }

  ghost predicate Sub<K, V>(a: map<K, V>, b: map<K, V>) {
    forall k :: k in a ==> k in b && a[k] == b[k]
  }

  lemma AddMore<K, V>(t: map<K, V>, part: map<K, V>, item: map<K, V>, r: map<K, V>)
    requires Sub(part, r) && Sub(item, r) && Agree(t, part) && Agree(t + part, item)
    ensures Sub(part + item, r) && Agree(t, part + item) && (t + part) + item == t + (part + item)
  {
    assert forall k :: k in t ==> k in t + part && (t + part)[k] == t[k];
  }

  lemma AddAll<K, V>(t: map<K, V>, part: map<K, V>, r: map<K, V>)
    requires Sub(part, r) && Agree(t, part)
    ensures Agree(t + part, r) <==> Agree(t, r)
    ensures (t + part) + r == t + r
  {
    assert forall k :: k in t ==> k in t + part && (t + part)[k] == t[k];
  }

  // Nothing the two both name differs.
  ghost predicate Compatible(a: Layout, b: Layout) {
    Agree(a.exchanges, b.exchanges) && Agree(a.queues, b.queues)
  }

  ghost predicate Within(a: Layout, b: Layout) {
    Sub(a.exchanges, b.exchanges) && Sub(a.queues, b.queues) && a.bindings <= b.bindings
  }

  // u is t with some part of r added, and nothing of t changed.
  ghost predicate Partly(t: Layout, u: Layout, part: Layout, r: Layout) {
    Within(part, r) && Compatible(t, part) && u == Join(t, part)
  }

  // What one run of provisioning can leave behind, finished or not.
  ghost predicate Attempted(t: Layout, u: Layout, r: Layout) {
    exists part :: Partly(t, u, part, r)
  }

  const EMPTY := Layout(map[], map[], {})

  function OneExchange(name: string, props: ExchangeProps): Layout { Layout(map[name := props], map[], {}) }

  function OneQueue(name: string, props: QueueProps): Layout { Layout(map[], map[name := props], {}) }

  function OneBinding(b: Binding): Layout { Layout(map[], map[], {b}) }

  // Both ends of every binding exist.
  predicate Bindable(t: Layout, item: Layout) {
    forall b :: b in item.bindings ==> b.queue in t.queues && b.exchange in t.exchanges
  }

  lemma PartlyCompatible(t: Layout, u: Layout, part: Layout, r: Layout)
    requires Partly(t, u, part, r)
    ensures Compatible(u, r) <==> Compatible(t, r)
  {
    AddAll(t.exchanges, part.exchanges, r.exchanges);
    AddAll(t.queues, part.queues, r.queues);
  }

  /** A rerun on what a failed run left reaches the same layout, and is accepted in the same cases. */
  lemma RerunReachesTheSame(t: Layout, u: Layout, r: Layout)
    requires Attempted(t, u, r)
    ensures Compatible(u, r) <==> Compatible(t, r)
    ensures Compatible(t, r) ==> Join(u, r) == Join(t, r)
  {
    var part :| Partly(t, u, part, r);
    AddAll(t.exchanges, part.exchanges, r.exchanges);
    AddAll(t.queues, part.queues, r.queues);
    assert (t.bindings + part.bindings) + r.bindings == t.bindings + r.bindings;
  }

  /** However many runs fail, and wherever: the first that succeeds leaves the initial layout joined
      with what is required, and further runs change nothing. */
  lemma {:induction false} Converges(ts: seq<Layout>, r: Layout)
    requires |ts| > 0 && forall i :: 0 <= i < |ts| - 1 ==> Attempted(ts[i], ts[i + 1], r)
    ensures Compatible(ts[|ts| - 1], r) <==> Compatible(ts[0], r)
    ensures Compatible(ts[0], r) ==> Join(ts[|ts| - 1], r) == Join(ts[0], r)
    ensures Join(Join(ts[0], r), r) == Join(ts[0], r)
  {
    assert Join(Join(ts[0], r), r).exchanges == Join(ts[0], r).exchanges;
    assert Join(Join(ts[0], r), r).queues == Join(ts[0], r).queues;
    if |ts| > 1 {
      Converges(ts[..|ts| - 1], r);
      RerunReachesTheSame(ts[|ts| - 2], ts[|ts| - 1], r);
    }
  }

  predicate Named(queues: seq<DomainQueue>, name: string) {
    exists q :: q in queues && q.name == name
  }

  predicate Bound(queues: seq<DomainQueue>, b: Binding) {
    exists q :: q in queues && BindingOf(q) == b
  }

  // What a successful run leaves, entry by entry: the queues and exchanges that were there, unchanged, and
  // the required ones; the bindings that were there and the required ones; nothing else.
  lemma JoinedExactly(t: Layout, queues: seq<DomainQueue>, name: string, b: Binding)
    requires Compatible(t, Required(queues)) && ProperNames(queues)
    ensures var u := Join(t, Required(queues));
            && (name in u.queues <==> name in t.queues || name == QUEUE_DEAD || Named(queues, name))
            && (name in t.queues ==> u.queues[name] == t.queues[name])
            && (Named(queues, name) ==> u.queues[name] == DOMAIN)
            && (name == QUEUE_DEAD ==> u.queues[name] == TERMINAL)
            && (name in u.exchanges <==> name in t.exchanges || name == EXCHANGE_GAME_EVENTS || name == EXCHANGE_DLX)
            && (name in t.exchanges ==> u.exchanges[name] == t.exchanges[name])
            && (name == EXCHANGE_GAME_EVENTS ==> u.exchanges[name] == TOPIC)
            && (name == EXCHANGE_DLX ==> u.exchanges[name] == DIRECT)
            && (b in u.bindings <==> b in t.bindings || b == DEAD_BINDING || Bound(queues, b))
  {
  }

  /* How a call to the broker ends: done; done, but the answer was lost; not done. */
  datatype Io = Good | Applied | Lost

  // What every declaration promises: it adds its item or nothing, and an undisturbed one is refused
  // exactly on a clash or a missing end.
  ghost predicate Answered(before: Layout, after: Layout, item: Layout, io: Io, ok: bool) {
    && (ok ==> io.Good? && after == Join(before, item))
    && (io.Good? ==> (ok <==> Compatible(before, item) && Bindable(before, item)))
    && (after == before || (Compatible(before, item) && after == Join(before, item)))
  }

  /** The broker behind one channel. */
  class Broker {
    var layout: Layout

    constructor (layout: Layout)
      ensures this.layout == layout
    {
      this.layout := layout;
    }

    method ExchangeDeclare(name: string, props: ExchangeProps, io: Io) returns (ok: bool)
      modifies this
      ensures Answered(old(layout), layout, OneExchange(name, props), io, ok)
    {
      if name in layout.exchanges {
        ok := io.Good? && layout.exchanges[name] == props;
        if layout.exchanges[name] == props {
          assert Join(layout, OneExchange(name, props)).exchanges == layout.exchanges;
        }
        return;
      }
      if !io.Lost? { layout := layout.(exchanges := layout.exchanges[name := props]); }
      ok := io.Good?;
    }

    method QueueDeclare(name: string, props: QueueProps, io: Io) returns (ok: bool)
      modifies this
      ensures Answered(old(layout), layout, OneQueue(name, props), io, ok)
    {
      if name in layout.queues {
        ok := io.Good? && layout.queues[name] == props;
        if layout.queues[name] == props {
          assert Join(layout, OneQueue(name, props)).queues == layout.queues;
        }
        return;
      }
      if !io.Lost? { layout := layout.(queues := layout.queues[name := props]); }
      ok := io.Good?;
    }

    method QueueBind(b: Binding, io: Io) returns (ok: bool)
      modifies this
      ensures Answered(old(layout), layout, OneBinding(b), io, ok)
    {
      if b.queue !in layout.queues || b.exchange !in layout.exchanges {
        return false;
      }
      if !io.Lost? { layout := layout.(bindings := layout.bindings + {b}); }
      ok := io.Good?;
    }
  }

  // ---- Provisioning ----

  lemma OneMore(t: Layout, u: Layout, part: Layout, r: Layout, item: Layout)
    requires Partly(t, u, part, r) && Within(item, r) && Compatible(u, item)
    ensures Partly(t, Join(u, item), Join(part, item), r)
  {
    AddMore(t.exchanges, part.exchanges, item.exchanges, r.exchanges);
    AddMore(t.queues, part.queues, item.queues, r.queues);
    assert (t.bindings + part.bindings) + item.bindings == t.bindings + (part.bindings + item.bindings);
  }

  // One declaration on the way: it adds to what has been done, or stops the run where it was.
  lemma OneCall(t: Layout, u: Layout, v: Layout, part: Layout, r: Layout, item: Layout, io: Io, ok: bool)
    requires Partly(t, u, part, r) && Within(item, r) && Bindable(u, item) && Answered(u, v, item, io, ok)
    ensures Attempted(t, v, r)
    ensures ok ==> Partly(t, v, Join(part, item), r)
    ensures io.Good? && !ok ==> !Compatible(t, r)
  {
    if Compatible(u, item) { OneMore(t, u, part, r, item); }
    if v == u { assert Partly(t, v, part, r); }
    PartlyCompatible(t, u, part, r);
  }

  lemma Step(t: Layout, u: Layout, part: Layout, r: Layout, q: string, x: string)
    requires Partly(t, u, part, r) && q in part.queues && x in part.exchanges
    ensures q in u.queues && x in u.exchanges
  {
  }

  lemma FirstIsNone(t: Layout, r: Layout)
    ensures Partly(t, t, EMPTY, r)
  {
    assert Join(t, EMPTY) == t;
  }

  lemma LastIsAll(t: Layout, u: Layout, r: Layout)
    requires Partly(t, u, r, r)
    ensures Compatible(t, r) && u == Join(t, r)
  {
  }

  predicate AllGood(fates: seq<Io>) {
    forall i :: 0 <= i < |fates| ==> fates[i].Good?
  }

  // Where one call leaves a run that has done `part` of r so far.
  ghost predicate Left(t: Layout, u: Layout, part: Layout, item: Layout, r: Layout, io: Io, ok: bool) {
    && Attempted(t, u, r)
    && (ok ==> Partly(t, u, Join(part, item), r))
    && (io.Good? && !ok ==> !Compatible(t, r))
  }

  method TryExchange(
      ch: Broker, name: string, props: ExchangeProps, io: Io, ghost t: Layout, ghost part: Layout, ghost r: Layout)
    returns (ok: bool)
    requires Partly(t, ch.layout, part, r) && Within(OneExchange(name, props), r)
    modifies ch
    ensures Left(t, ch.layout, part, OneExchange(name, props), r, io, ok)
  {
    ghost var u := ch.layout;
    ok := ch.ExchangeDeclare(name, props, io);
    OneCall(t, u, ch.layout, part, r, OneExchange(name, props), io, ok);
  }

  method TryQueue(
      ch: Broker, name: string, props: QueueProps, io: Io, ghost t: Layout, ghost part: Layout, ghost r: Layout)
    returns (ok: bool)
    requires Partly(t, ch.layout, part, r) && Within(OneQueue(name, props), r)
    modifies ch
    ensures Left(t, ch.layout, part, OneQueue(name, props), r, io, ok)
  {
    ghost var u := ch.layout;
    ok := ch.QueueDeclare(name, props, io);
    OneCall(t, u, ch.layout, part, r, OneQueue(name, props), io, ok);
  }

  method TryBinding(ch: Broker, b: Binding, io: Io, ghost t: Layout, ghost part: Layout, ghost r: Layout)
    returns (ok: bool)
    requires Partly(t, ch.layout, part, r) && Within(OneBinding(b), r) && b.queue in part.queues
    requires b.exchange in part.exchanges
    modifies ch
    ensures Left(t, ch.layout, part, OneBinding(b), r, io, ok)
  {
    ghost var u := ch.layout;
    Step(t, u, part, r, b.queue, b.exchange);
    ok := ch.QueueBind(b, io);
    OneCall(t, u, ch.layout, part, r, OneBinding(b), io, ok);
  }

  // What has been declared after the first k of the four shared declarations.
  function SharedUpTo(k: nat): Layout
    requires k <= 4
  {
    if k == 0 then EMPTY
    else if k == 1 then Join(SharedUpTo(0), OneExchange(EXCHANGE_GAME_EVENTS, TOPIC))
    else if k == 2 then Join(SharedUpTo(1), OneExchange(EXCHANGE_DLX, DIRECT))
    else if k == 3 then Join(SharedUpTo(2), OneQueue(QUEUE_DEAD, TERMINAL))
    else Join(SharedUpTo(3), OneBinding(DEAD_BINDING))
  }

  lemma SharedParts(r: Layout)
    requires Within(SHARED, r)
    ensures Within(OneExchange(EXCHANGE_GAME_EVENTS, TOPIC), r) && Within(OneExchange(EXCHANGE_DLX, DIRECT), r)
    ensures Within(OneQueue(QUEUE_DEAD, TERMINAL), r) && Within(OneBinding(DEAD_BINDING), r)
  {
    assert EXCHANGE_GAME_EVENTS in SHARED.exchanges && SHARED.exchanges[EXCHANGE_GAME_EVENTS] == TOPIC;
    assert EXCHANGE_DLX in SHARED.exchanges && QUEUE_DEAD in SHARED.queues && DEAD_BINDING in SHARED.bindings;
  }

  lemma SharedDone()
    ensures SharedUpTo(4) == SHARED
    ensures QUEUE_DEAD in SharedUpTo(3).queues && EXCHANGE_DLX in SharedUpTo(3).exchanges
  {
    assert SharedUpTo(2).exchanges == SHARED.exchanges;
    assert SharedUpTo(3).queues == SHARED.queues;
  }

  // The two exchanges, and the dead-letter queue with its binding.
  method DeclareShared(ch: Broker, fates: seq<Io>, ghost r: Layout) returns (ok: bool)
    requires |fates| >= 4 && Within(SHARED, r)
    modifies ch
    ensures Attempted(old(ch.layout), ch.layout, r)
    ensures ok ==> Partly(old(ch.layout), ch.layout, SHARED, r)
    ensures AllGood(fates) && !ok ==> !Compatible(old(ch.layout), r)
  {
    ghost var t := ch.layout;
    FirstIsNone(t, r);
    SharedParts(r);
    SharedDone();
    ok := TryExchange(ch, EXCHANGE_GAME_EVENTS, TOPIC, fates[0], t, SharedUpTo(0), r);
    if !ok { return; }
    ok := TryExchange(ch, EXCHANGE_DLX, DIRECT, fates[1], t, SharedUpTo(1), r);
    if !ok { return; }
    ok := TryQueue(ch, QUEUE_DEAD, TERMINAL, fates[2], t, SharedUpTo(2), r);
    if !ok { return; }
    ok := TryBinding(ch, DEAD_BINDING, fates[3], t, SharedUpTo(3), r);
  }

  lemma DomainMore(queues: seq<DomainQueue>, q: DomainQueue)
    ensures DomainQueues(queues + [q]) == DomainQueues(queues) + map[q.name := DOMAIN]
    ensures DomainBindings(queues + [q]) == DomainBindings(queues) + {BindingOf(q)}
  {
  }

  lemma AddAgain<K, V>(a: map<K, V>, b: map<K, V>, c: map<K, V>)
    ensures (a + b) + c == a + (b + c) && a + map[] == a
  {
  }

  // `before` with one domain queue, and then with its binding.
  function With(before: Layout, q: DomainQueue): Layout {
    Join(Join(before, OneQueue(q.name, DOMAIN)), OneBinding(BindingOf(q)))
  }

  lemma WithParts(before: Layout, q: DomainQueue)
    ensures With(before, q).exchanges == before.exchanges
    ensures With(before, q).queues == before.queues + map[q.name := DOMAIN]
    ensures With(before, q).bindings == before.bindings + {BindingOf(q)}
  {
  }

  lemma RequiredMore(queues: seq<DomainQueue>, q: DomainQueue)
    ensures Required(queues + [q]) == With(Required(queues), q)
  {
    DomainMore(queues, q);
    WithParts(Required(queues), q);
    AddAgain(SHARED.queues, DomainQueues(queues), map[q.name := DOMAIN]);
  }

  lemma RequiredUpTo(queues: seq<DomainQueue>, i: nat)
    requires i < |queues|
    ensures Required(queues[..i + 1]) == With(Required(queues[..i]), queues[i])
  {
    assert queues[..i + 1] == queues[..i] + [queues[i]];
    RequiredMore(queues[..i], queues[i]);
  }

  lemma RequiredEnds(queues: seq<DomainQueue>)
    ensures Required(queues[..0]) == SHARED && Required(queues[..|queues|]) == Required(queues)
    ensures ProperNames(queues) ==> Within(SHARED, Required(queues))
  {
    assert queues[..|queues|] == queues;
    assert DomainQueues([]) == map[] && DomainBindings([]) == {};
    AddAgain(SHARED.queues, SHARED.queues, SHARED.queues);
  }

  lemma DomainParts(queues: seq<DomainQueue>, i: nat)
    requires i < |queues| && ProperNames(queues)
    ensures Within(OneQueue(queues[i].name, DOMAIN), Required(queues))
    ensures Within(OneBinding(BindingOf(queues[i])), Required(queues))
    ensures EXCHANGE_GAME_EVENTS in Required(queues[..i]).exchanges
  {
    assert queues[i] in queues;
    assert EXCHANGE_GAME_EVENTS in SHARED.exchanges;
  }

  method DeclareDomainQueue(
      ch: Broker, queues: seq<DomainQueue>, i: nat, fates: seq<Io>, ghost t: Layout, ghost r: Layout)
    returns (ok: bool)
    requires i < |queues| && |fates| >= 6 + 2 * i && ProperNames(queues) && r == Required(queues)
    requires Partly(t, ch.layout, Required(queues[..i]), r)
    modifies ch
    ensures Attempted(t, ch.layout, r)
    ensures ok ==> Partly(t, ch.layout, Required(queues[..i + 1]), r)
    ensures AllGood(fates) && !ok ==> !Compatible(t, r)
  {
    ghost var part := Required(queues[..i]);
    DomainParts(queues, i);
    RequiredUpTo(queues, i);
    ok := DeclareAndBind(ch, queues[i], fates[4 + 2 * i], fates[5 + 2 * i], t, part, r);
  }

  method DeclareAndBind(
      ch: Broker, q: DomainQueue, declare: Io, bind: Io, ghost t: Layout, ghost part: Layout, ghost r: Layout)
    returns (ok: bool)
    requires Partly(t, ch.layout, part, r) && EXCHANGE_GAME_EVENTS in part.exchanges
    requires Within(OneQueue(q.name, DOMAIN), r) && Within(OneBinding(BindingOf(q)), r)
    modifies ch
    ensures Attempted(t, ch.layout, r)
    ensures ok ==> Partly(t, ch.layout, With(part, q), r)
    ensures declare.Good? && bind.Good? && !ok ==> !Compatible(t, r)
  {
    ok := TryQueue(ch, q.name, DOMAIN, declare, t, part, r);
    if !ok { return; }
    ok := TryBinding(ch, BindingOf(q), bind, t, Join(part, OneQueue(q.name, DOMAIN)), r);
  }

  /** Success leaves exactly what was there joined with what is required; a failed run leaves part of
      that; undisturbed, it succeeds if and only if nothing there clashes. */
  method DeclareAll(ch: Broker, queues: seq<DomainQueue>, fates: seq<Io>) returns (ok: bool)
    requires ProperNames(queues) && |fates| == 4 + 2 * |queues|
    modifies ch
    ensures Attempted(old(ch.layout), ch.layout, Required(queues))
    ensures ok ==> Compatible(old(ch.layout), Required(queues)) && ch.layout == Join(old(ch.layout), Required(queues))
    ensures AllGood(fates) ==> (ok <==> Compatible(old(ch.layout), Required(queues)))
  {
    ghost var t, r := ch.layout, Required(queues);
    RequiredEnds(queues);
    ok := DeclareShared(ch, fates, r);
    var i := 0;
    while ok && i < |queues|
      invariant 0 <= i <= |queues| && Attempted(t, ch.layout, r)
      invariant ok ==> Partly(t, ch.layout, Required(queues[..i]), r)
      invariant AllGood(fates) && !ok ==> !Compatible(t, r)
    {
      ok := DeclareDomainQueue(ch, queues, i, fates, t, r);
      i := i + 1;
    }
    if ok { LastIsAll(t, ch.layout, r); }
  }
}
