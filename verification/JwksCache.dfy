/** The cache as the code writes it: fields guarded by a lock, a lookup that checks twice, a loop
    that fills a new map. Every method is proved to take exactly the steps of JwksProtocol. */
module JwksCache {
  import opened Wrappers
  import opened JwkSet
  import opened JwksProtocol
  import opened JwksTheorems
  import Runs
  import Turns

  // What happens around one access: first the others' events, then the call's own step.
  type Turn = Turns.Turn<Event, Answer>

  function Own(tid: nat): Answer -> Event {
    answer => Step(tid, answer)
  }

  predicate NotAbout(e: Event, tid: nat) {
    match e
    case Tick(_) => true
    case Start(t, _) => t != tid
    case Step(t, _) => t != tid
  }

  predicate Quiet(turn: Turn, tid: nat) {
    forall j :: 0 <= j < |turn.others| ==> NotAbout(turn.others[j], tid)
  }

  predicate AllQuiet(turns: seq<Turn>, tid: nat) {
    forall i :: 0 <= i < |turns| ==> Quiet(turns[i], tid)
  }

  function RunTurns(c: Cache, tid: nat, turns: seq<Turn>): Cache {
    Turns.RunTurns(Next, Own(tid), c, turns)
  }

  function Events(tid: nat, turns: seq<Turn>): seq<Event> {
    Turns.Script(Own(tid), turns)
  }

  /** Taking turns is a run of the step system. */
  lemma TurnsAreARun(c: Cache, tid: nat, turns: seq<Turn>)
    ensures RunTurns(c, tid, turns) == Run(c, Events(tid, turns))
  {
    Turns.AreARun(Next, Own(tid), c, turns);
  }

  /** A call made on a reachable cache leaves a reachable cache: what all runs guarantee holds after
      every history of calls. */
  lemma CallIsARun(ttl: int, now: int, events: seq<Event>, tid: nat, kid: string, turns: seq<Turn>, d: Cache)
    requires Took(Next(Run(Init(ttl, now), events), Start(tid, kid)), d, tid, turns)
    ensures d == Run(Init(ttl, now), events + [Start(tid, kid)] + Events(tid, turns))
  {
    var c0, c, start := Init(ttl, now), Run(Init(ttl, now), events), [Start(tid, kid)];
    Turns.TookMeans(Next, Own(tid), Next(c, start[0]), d, turns);
    TurnsAreARun(Next(c, start[0]), tid, turns);
    Runs.AfterStep(Next, c, start, 0);
    Runs.AfterAll(Next, c, start);
    Runs.RunConcat(Next, c0, events, start);
    Runs.RunConcat(Next, c0, events + start, Events(tid, turns));
  }

  // d is where these turns lead from c.
  ghost predicate Took(c: Cache, d: Cache, tid: nat, turns: seq<Turn>) {
    Turns.Took(Next, Own(tid), c, d, turns)
  }

  // The call's next step would only wait.
  predicate Blocked(c: Cache, tid: nat) {
    && tid in c.calls
    && (c.calls[tid].pc.AwaitRead? ==> c.writer.Some?)
    && (c.calls[tid].pc.AwaitWrite? ==> c.writer.Some? || c.readers != {})
    && (c.calls[tid].pc.AwaitRead? || c.calls[tid].pc.AwaitWrite?)
  }

  // Waiting for a lock is letting others run until it is free, so no turn falls while it is taken.
  ghost predicate NeverBlocked(c: Cache, tid: nat, turns: seq<Turn>) {
    forall i, mid {:trigger Took(c, mid, tid, turns[..i])} ::
      0 <= i < |turns| && Took(c, mid, tid, turns[..i]) ==> !Blocked(Run(mid, turns[i].others), tid)
  }

  lemma {:induction false} OthersKeepRecord(c: Cache, events: seq<Event>, tid: nat)
    requires tid in c.calls && forall j :: 0 <= j < |events| ==> NotAbout(events[j], tid)
    ensures tid in Run(c, events).calls && Run(c, events).calls[tid] == c.calls[tid] && Run(c, events).ttl == c.ttl
  {
    if events != [] {
      OthersKeepRecord(c, events[..|events| - 1], tid);
      KeepsRecord(Run(c, events[..|events| - 1]), events[|events| - 1], tid);
      KeepsNow(Run(c, events[..|events| - 1]), events[|events| - 1]);
    }
  }

  class JWKSCache {
    const ttl: int
    var now: int
    var keys: KeyMap
    var fetchedAt: Option<int>
    var readers: set<nat>
    var writer: Option<nat>
    var calls: map<nat, Call>
    var fetches: seq<Fetch>

    constructor (ttl: int, now: int)
      ensures View() == Init(ttl, now)
    {
      this.ttl, this.now := ttl, now;
      keys, fetchedAt := map[], None;
      readers, writer, calls, fetches := {}, None, map[], [];
    }

    function View(): Cache
      reads this
    {
      Cache(ttl, now, keys, fetchedAt, readers, writer, calls, fetches)
    }

    // The rest of the server runs for a while.
    method Others(tid: nat, events: seq<Event>)
      requires tid in calls && forall j :: 0 <= j < |events| ==> NotAbout(events[j], tid)
      modifies this
      ensures View() == Run(old(View()), events)
      ensures tid in calls && calls[tid] == old(calls[tid])
    {
      OthersKeepRecord(View(), events, tid);
      var c := Run(View(), events);
      now, keys, fetchedAt, readers, writer, calls, fetches :=
        c.now, c.keys, c.fetchedAt, c.readers, c.writer, c.calls, c.fetches;
    }

    // Where this call stands.
    predicate Stands(tid: nat, kid: string, pc: Pc)
      reads this
    {
      tid in calls && calls[tid] == Call(kid, pc)
    }

    // After k turns of this call, before the next one.
    ghost predicate Ready(tid: nat, turns: seq<Turn>, k: nat, c0: Cache)
      reads this
    {
      k < |turns| && AllQuiet(turns, tid) && Took(c0, View(), tid, turns[..k])
    }

    // Moves this call's program counter.
    method Mark(tid: nat, kid: string, pc: Pc)
      requires tid in calls && calls[tid].kid == kid
      modifies this`calls
      ensures calls == old(calls)[tid := Call(kid, pc)]
    {
      calls := calls[tid := Call(kid, pc)];
    }

    // c.mu.RLock()
    method RLock(tid: nat, kid: string, turns: seq<Turn>, k: nat, ghost c0: Cache)
      requires Ready(tid, turns, k, c0) && NeverBlocked(c0, tid, turns) && Stands(tid, kid, AwaitRead)
      modifies this
      ensures Took(c0, View(), tid, turns[..k + 1]) && Stands(tid, kid, FastAge)
    {
      ghost var c := View();
      Others(tid, turns[k].others);
      assert !Blocked(Run(c, turns[k].others), tid);
      readers := readers + {tid};
      Mark(tid, kid, FastAge);
      Turns.TookNext(Next, Own(tid), c0, c, View(), turns, k);
    }

    // c.mu.RUnlock()
    method RUnlock(tid: nat, kid: string, hit: Option<PublicKey>, turns: seq<Turn>, k: nat, ghost c0: Cache)
      requires Ready(tid, turns, k, c0) && Stands(tid, kid, FastUnlock(hit))
      modifies this
      ensures Took(c0, View(), tid, turns[..k + 1]) && Stands(tid, kid, if hit.Some? then Done(hit) else AwaitWrite)
    {
      ghost var c := View();
      Others(tid, turns[k].others);
      readers := readers - {tid};
      Mark(tid, kid, if hit.Some? then Done(hit) else AwaitWrite);
      Turns.TookNext(Next, Own(tid), c0, c, View(), turns, k);
    }

    // c.mu.Lock()
    method Lock(tid: nat, kid: string, turns: seq<Turn>, k: nat, ghost c0: Cache)
      requires Ready(tid, turns, k, c0) && NeverBlocked(c0, tid, turns) && Stands(tid, kid, AwaitWrite)
      modifies this
      ensures Took(c0, View(), tid, turns[..k + 1]) && Stands(tid, kid, SlowAge)
    {
      ghost var c := View();
      Others(tid, turns[k].others);
      assert !Blocked(Run(c, turns[k].others), tid);
      writer := Some(tid);
      Mark(tid, kid, SlowAge);
      Turns.TookNext(Next, Own(tid), c0, c, View(), turns, k);
    }

    // c.mu.Unlock()
    method Unlock(tid: nat, kid: string, result: Option<PublicKey>, turns: seq<Turn>, k: nat, ghost c0: Cache)
      requires Ready(tid, turns, k, c0) && Stands(tid, kid, SlowUnlock(result))
      modifies this
      ensures Took(c0, View(), tid, turns[..k + 1]) && Stands(tid, kid, Done(result))
    {
      ghost var c := View();
      Others(tid, turns[k].others);
      writer := None;
      Mark(tid, kid, Done(result));
      Turns.TookNext(Next, Own(tid), c0, c, View(), turns, k);
    }

    function AfterAge(fast: bool, young: bool): Pc {
      if fast then (if young then FastFind else FastUnlock(None)) else if young then SlowFind else Send
    }

    // time.Since(c.fetchedAt) < c.ttl
    method IsFresh(tid: nat, kid: string, fast: bool, turns: seq<Turn>, k: nat, ghost c0: Cache) returns (young: bool)
      requires Ready(tid, turns, k, c0) && Stands(tid, kid, if fast then FastAge else SlowAge)
      modifies this
      ensures Took(c0, View(), tid, turns[..k + 1])
      ensures Stands(tid, kid, AfterAge(fast, young))
      ensures young <==> IsYoung(View())
    {
      ghost var c := View();
      Others(tid, turns[k].others);
      young := fetchedAt.Some? && now - fetchedAt.value < ttl;
      Mark(tid, kid, AfterAge(fast, young));
      Turns.TookNext(Next, Own(tid), c0, c, View(), turns, k);
    }

    function AfterFind(pc: Pc, hit: Option<PublicKey>): Pc {
      if pc.FastFind? then FastUnlock(hit)
      else if pc.SlowFind? && hit.None? then Send
      else SlowUnlock(hit)
    }

    // c.keys[kid]
    method Find(tid: nat, kid: string, pc: Pc, turns: seq<Turn>, k: nat, ghost c0: Cache)
      returns (hit: Option<PublicKey>)
      requires Ready(tid, turns, k, c0) && Stands(tid, kid, pc) && (pc.FastFind? || pc.SlowFind? || pc.FinalFind?)
      modifies this
      ensures Took(c0, View(), tid, turns[..k + 1])
      ensures hit == Lookup(keys, kid) && Stands(tid, kid, AfterFind(pc, hit))
    {
      ghost var c := View();
      Others(tid, turns[k].others);
      hit := if kid in keys then Some(keys[kid]) else None;
      Mark(tid, kid, AfterFind(pc, hit));
      Turns.TookNext(Next, Own(tid), c0, c, View(), turns, k);
    }

    method SendRequest(tid: nat, kid: string, turns: seq<Turn>, k: nat, ghost c0: Cache) returns (began: int)
      requires Ready(tid, turns, k, c0) && Stands(tid, kid, Send)
      modifies this
      ensures Took(c0, View(), tid, turns[..k + 1]) && Stands(tid, kid, Receive(began))
    {
      ghost var c := View();
      Others(tid, turns[k].others);
      began := now;
      Mark(tid, kid, Receive(began));
      Turns.TookNext(Next, Own(tid), c0, c, View(), turns, k);
    }

    // The loop over the entries of the answer; None is its error return.
    static method BuildKeys(list: seq<Jwk>) returns (newKeys: Option<KeyMap>)
      ensures newKeys == KeySet(list)
      ensures newKeys.None? <==> Spoiled(list)
      ensures newKeys.Some? ==> ServesUsualExponent(list, newKeys.value)
    {
      var m: KeyMap := map[];
      var i := 0;
      while i < |list|
        invariant 0 <= i <= |list| && KeySet(list[..i]) == Some(m)
      {
        var key := list[i];
        KeySetNext(list, i);
        if key.kty != "RSA" {
          i := i + 1;
          continue;
        }
        var nBytes, eBytes := Base64Url.Decode(key.n), Base64Url.Decode(key.e);
        if nBytes.None? || eBytes.None? {
          KeySetPrefix(list, i + 1);
          KeySetRejects(list);
          return None;
        }
        var n, e := Base64Url.FromBytes(nBytes.value), Base64Url.FromBytes(eBytes.value);
        m := m[key.kid := PublicKey(n, Base64Url.ToInt64(e))];
        i := i + 1;
      }
      assert list[..i] == list;
      KeySetRejects(list);
      UsualExponents(list);
      newKeys := Some(m);
    }

    method ReceiveAnswer(tid: nat, kid: string, began: int, turns: seq<Turn>, k: nat, ghost c0: Cache)
      returns (newKeys: Option<KeyMap>)
      requires Ready(tid, turns, k, c0) && Stands(tid, kid, Receive(began))
      modifies this
      ensures Took(c0, View(), tid, turns[..k + 1]) && newKeys == KeySetOf(turns[k].own)
      ensures Stands(tid, kid, if newKeys.Some? then StoreKeys(newKeys.value, began) else SlowUnlock(None))
    {
      ghost var c := View();
      Others(tid, turns[k].others);
      newKeys := None;
      if turns[k].own.Some? { newKeys := BuildKeys(turns[k].own.value); }
      Mark(tid, kid, if newKeys.Some? then StoreKeys(newKeys.value, began) else SlowUnlock(None));
      Turns.TookNext(Next, Own(tid), c0, c, View(), turns, k);
    }

    // c.keys = newKeys
    method SetKeys(tid: nat, kid: string, newKeys: KeyMap, began: int, turns: seq<Turn>, k: nat, ghost c0: Cache)
      requires Ready(tid, turns, k, c0) && Stands(tid, kid, StoreKeys(newKeys, began))
      modifies this
      ensures Took(c0, View(), tid, turns[..k + 1]) && Stands(tid, kid, StoreTime(newKeys, began)) && keys == newKeys
    {
      ghost var c := View();
      Others(tid, turns[k].others);
      keys := newKeys;
      Mark(tid, kid, StoreTime(newKeys, began));
      Turns.TookNext(Next, Own(tid), c0, c, View(), turns, k);
    }

    // c.fetchedAt = time.Now()
    method SetTime(tid: nat, kid: string, newKeys: KeyMap, began: int, turns: seq<Turn>, k: nat, ghost c0: Cache)
      requires Ready(tid, turns, k, c0) && Stands(tid, kid, StoreTime(newKeys, began))
      modifies this
      ensures Took(c0, View(), tid, turns[..k + 1]) && Stands(tid, kid, FinalFind)
      ensures fetchedAt == Some(now) && fetches != [] && fetches[|fetches| - 1] == Fetch(tid, kid, began, newKeys, now)
    {
      ghost var c := View();
      Others(tid, turns[k].others);
      fetchedAt := Some(now);
      fetches := fetches + [Fetch(tid, kid, began, newKeys, now)];
      Mark(tid, kid, FinalFind);
      Turns.TookNext(Next, Own(tid), c0, c, View(), turns, k);
    }

    /** Replaces the cached keys by what the endpoint serves, or leaves them alone and reports an error. */
    method FetchLocked(tid: nat, kid: string, turns: seq<Turn>, k: nat, ghost c0: Cache) returns (ok: bool, next: nat)
      requires k + 4 <= |turns| && Ready(tid, turns, k, c0) && Stands(tid, kid, Send)
      modifies this
      ensures k <= next <= k + 4 && Took(c0, View(), tid, turns[..next])
      ensures Stands(tid, kid, if ok then FinalFind else SlowUnlock(None))
    {
      var began := SendRequest(tid, kid, turns, k, c0);
      var newKeys := ReceiveAnswer(tid, kid, began, turns, k + 1, c0);
      if newKeys.None? {
        return false, k + 2;
      }
      SetKeys(tid, kid, newKeys.value, began, turns, k + 2, c0);
      SetTime(tid, kid, newKeys.value, began, turns, k + 3, c0);
      return true, k + 4;
    }

    // What GetKey does once the second check has failed.
    method FetchAndFind(tid: nat, kid: string, turns: seq<Turn>, k: nat, ghost c0: Cache)
      returns (key: Option<PublicKey>, next: nat)
      requires k + 5 < |turns| && Ready(tid, turns, k, c0) && Stands(tid, kid, Send)
      modifies this
      ensures next <= |turns| && Took(c0, View(), tid, turns[..next]) && Stands(tid, kid, Done(key))
    {
      var ok;
      ok, next := FetchLocked(tid, kid, turns, k, c0);
      if !ok {
        Unlock(tid, kid, None, turns, next, c0);
        return None, next + 1;
      }
      key := Find(tid, kid, FinalFind, turns, next, c0);
      Unlock(tid, kid, key, turns, next + 1, c0);
      next := next + 2;
    }

    // The part of GetKey under the write lock.
    method SlowPath(tid: nat, kid: string, turns: seq<Turn>, k: nat, ghost c0: Cache)
      returns (key: Option<PublicKey>, next: nat)
      requires k + 8 < |turns| && Ready(tid, turns, k, c0) && NeverBlocked(c0, tid, turns)
      requires Stands(tid, kid, AwaitWrite)
      modifies this
      ensures next <= |turns| && Took(c0, View(), tid, turns[..next]) && Stands(tid, kid, Done(key))
    {
      Lock(tid, kid, turns, k, c0);
      var young := IsFresh(tid, kid, false, turns, k + 1, c0);
      if !young {
        key, next := FetchAndFind(tid, kid, turns, k + 2, c0);
        return;
      }
      key := Find(tid, kid, SlowFind, turns, k + 2, c0);
      if key.Some? {
        Unlock(tid, kid, key, turns, k + 3, c0);
        return key, k + 4;
      }
      key, next := FetchAndFind(tid, kid, turns, k + 3, c0);
    }

    /** The key for this kid, from the cache or from the endpoint; None is an error. */
    method GetKey(tid: nat, kid: string, turns: seq<Turn>) returns (key: Option<PublicKey>, next: nat)
      requires tid !in calls && |turns| >= 13 && AllQuiet(turns, tid)
      requires NeverBlocked(JwksProtocol.Next(View(), Start(tid, kid)), tid, turns)
      modifies this
      ensures next <= |turns| && Took(JwksProtocol.Next(old(View()), Start(tid, kid)), View(), tid, turns[..next])
      ensures Stands(tid, kid, Done(key))
    {
      calls := calls[tid := Call(kid, AwaitRead)];
      ghost var c0 := View();
      Turns.TookNone(Next, Own(tid), c0, turns);
      RLock(tid, kid, turns, 0, c0);
      var young := IsFresh(tid, kid, true, turns, 1, c0);
      key := None;
      next := 2;
      if young {
        key := Find(tid, kid, FastFind, turns, 2, c0);
        next := 3;
      }
      RUnlock(tid, kid, key, turns, next, c0);
      next := next + 1;
      if key.None? {
        key, next := SlowPath(tid, kid, turns, next, c0);
      }
    }
  }
}
