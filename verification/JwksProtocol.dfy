/** The key cache with double-checked locking: any number of getKey calls under one RWMutex, a
    clock, and an endpoint that answers anything or fails. One step per access to shared state. */
module JwksProtocol {
  import opened Wrappers
  import opened JwkSet
  import Runs

  // The program counter of one getKey call.
  datatype Pc =
    | AwaitRead
    | FastAge
    | FastFind
    | FastUnlock(hit: Option<PublicKey>)
    | AwaitWrite
    | SlowAge
    | SlowFind
    | Send
    | Receive(began: int)
    | StoreKeys(keys: KeyMap, began: int)
    | StoreTime(keys: KeyMap, began: int)
    | FinalFind
    | SlowUnlock(result: Option<PublicKey>)
    | Done(result: Option<PublicKey>)

  datatype Call = Call(kid: string, pc: Pc)

  // A successful fetch: who asked, for which kid, when the request left, what came back and when
  // it was recorded.
  datatype Fetch = Fetch(tid: nat, kid: string, began: int, keys: KeyMap, at: int)

  // fetchedAt is None for the zero time, which is older than any ttl.
  datatype Cache = Cache(
    ttl: int, now: int, keys: KeyMap, fetchedAt: Option<int>,
    readers: set<nat>, writer: Option<nat>, calls: map<nat, Call>, fetches: seq<Fetch>)

  function Init(ttl: int, now: int): Cache {
    Cache(ttl, now, map[], None, {}, None, map[], [])
  }

  // None stands for a transport error, a status other than 200 or a body that is not the expected JSON.
  type Answer = Option<seq<Jwk>>

  datatype Event = Tick(d: nat) | Start(tid: nat, kid: string) | Step(tid: nat, answer: Answer)

  predicate IsYoung(c: Cache) {
    c.fetchedAt.Some? && c.now - c.fetchedAt.value < c.ttl
  }

  function Lookup(keys: KeyMap, kid: string): Option<PublicKey> {
    if kid in keys then Some(keys[kid]) else None
  }

  function KeySetOf(answer: Answer): Option<KeyMap> {
    if answer.Some? then KeySet(answer.value) else None
  }

  function At(c: Cache, tid: nat, call: Call, pc: Pc): Cache {
    c.(calls := c.calls[tid := call.(pc := pc)])
  }

  function StepFastFind(c: Cache, tid: nat, call: Call): Cache {
    At(c, tid, call, FastUnlock(Lookup(c.keys, call.kid)))
  }

  function StepFastUnlock(c: Cache, tid: nat, call: Call, hit: Option<PublicKey>): Cache {
    At(c, tid, call, if hit.Some? then Done(hit) else AwaitWrite).(readers := c.readers - {tid})
  }

  function StepSlowFind(c: Cache, tid: nat, call: Call): Cache {
    var hit := Lookup(c.keys, call.kid);
    At(c, tid, call, if hit.Some? then SlowUnlock(hit) else Send)
  }

  function StepReceive(c: Cache, tid: nat, call: Call, began: int, answer: Answer): Cache {
    var keys := KeySetOf(answer);
    At(c, tid, call, if keys.Some? then StoreKeys(keys.value, began) else SlowUnlock(None))
  }

  function StepStoreKeys(c: Cache, tid: nat, call: Call, keys: KeyMap, began: int): Cache {
    At(c, tid, call, StoreTime(keys, began)).(keys := keys)
  }

  function StepStoreTime(c: Cache, tid: nat, call: Call, keys: KeyMap, began: int): Cache {
    At(c, tid, call, FinalFind).(fetchedAt := Some(c.now),
        fetches := c.fetches + [Fetch(tid, call.kid, began, keys, c.now)])
  }

  // A step on a lock that is taken changes nothing: the call waits.
  function StepCall(c: Cache, tid: nat, call: Call, answer: Answer): Cache {
    match call.pc
    case AwaitRead => if c.writer.Some? then c else At(c, tid, call, FastAge).(readers := c.readers + {tid})
    case FastAge => At(c, tid, call, if IsYoung(c) then FastFind else FastUnlock(None))
    case FastFind => StepFastFind(c, tid, call)
    case FastUnlock(hit) => StepFastUnlock(c, tid, call, hit)
    case AwaitWrite => if c.writer.Some? || c.readers != {} then c else At(c, tid, call, SlowAge).(writer := Some(tid))
    case SlowAge => At(c, tid, call, if IsYoung(c) then SlowFind else Send)
    case SlowFind => StepSlowFind(c, tid, call)
    case Send => At(c, tid, call, Receive(c.now))
    case Receive(began) => StepReceive(c, tid, call, began, answer)
    case StoreKeys(keys, began) => StepStoreKeys(c, tid, call, keys, began)
    case StoreTime(keys, began) => StepStoreTime(c, tid, call, keys, began)
    case FinalFind => At(c, tid, call, SlowUnlock(Lookup(c.keys, call.kid)))
    case SlowUnlock(result) => At(c, tid, call, Done(result)).(writer := None)
    case Done(_) => c
  }

  function Next(c: Cache, e: Event): Cache {
    match e
    case Tick(d) => c.(now := c.now + d)
    case Start(tid, kid) => if tid in c.calls then c else c.(calls := c.calls[tid := Call(kid, AwaitRead)])
    case Step(tid, answer) => if tid in c.calls then StepCall(c, tid, c.calls[tid], answer) else c
  }

  function Run(c: Cache, events: seq<Event>): Cache {
    Runs.Run(Next, c, events)
  }

  function After(c: Cache, events: seq<Event>, k: nat): Cache
    requires k <= |events|
  {
    Run(c, events[..k])
  }

  // ---- The lock ----

  predicate HoldsRead(pc: Pc) {
    pc.FastAge? || pc.FastFind? || pc.FastUnlock?
  }

  predicate HoldsWrite(pc: Pc) {
    pc.SlowAge? || pc.SlowFind? || pc.Send? || pc.Receive? || pc.StoreKeys? || pc.StoreTime? || pc.FinalFind? ||
        pc.SlowUnlock?
  }

  // Who the lock says holds it is who stands in a guarded section; a writer is alone.
  ghost predicate LockInv(c: Cache) {
    && (forall t: nat :: t in c.readers <==> t in c.calls && HoldsRead(c.calls[t].pc))
    && (forall t: nat :: c.writer == Some(t) <==> t in c.calls && HoldsWrite(c.calls[t].pc))
    && (c.writer.Some? ==> c.readers == {})
  }

  // The snapshot of the last successful fetch, with its time; nothing before the first.
  function LastKeys(c: Cache): KeyMap {
    if c.fetches == [] then map[] else c.fetches[|c.fetches| - 1].keys
  }

  function LastTime(c: Cache): Option<int> {
    if c.fetches == [] then None else Some(c.fetches[|c.fetches| - 1].at)
  }

  // Only between the two assignments of fetchLocked do the fields disagree, and only for the writer.
  predicate Midway(c: Cache) {
    c.writer.Some? && c.writer.value in c.calls && c.calls[c.writer.value].pc.StoreTime?
  }

  ghost predicate FieldsInv(c: Cache) {
    && c.fetchedAt == LastTime(c)
    && c.keys == (if Midway(c) then c.calls[c.writer.value].pc.keys else LastKeys(c))
    && (c.fetchedAt.Some? ==> c.fetchedAt.value <= c.now)
  }

  ghost predicate CacheInv(c: Cache) {
    LockInv(c) && FieldsInv(c)
  }

  lemma StepLockFast(c: Cache, tid: nat, answer: Answer)
    requires LockInv(c) && tid in c.calls && !HoldsWrite(c.calls[tid].pc)
    ensures LockInv(StepCall(c, tid, c.calls[tid], answer))
  {
  }

  lemma StepLockSlow(c: Cache, tid: nat, answer: Answer)
    requires LockInv(c) && tid in c.calls && HoldsWrite(c.calls[tid].pc)
    ensures LockInv(StepCall(c, tid, c.calls[tid], answer))
  {
  }

  lemma StepLock(c: Cache, tid: nat, answer: Answer)
    requires LockInv(c) && tid in c.calls
    ensures LockInv(StepCall(c, tid, c.calls[tid], answer))
  {
    if HoldsWrite(c.calls[tid].pc) { StepLockSlow(c, tid, answer); } else { StepLockFast(c, tid, answer); }
  }

  lemma StepFields(c: Cache, tid: nat, answer: Answer)
    requires LockInv(c) && FieldsInv(c) && tid in c.calls
    ensures FieldsInv(StepCall(c, tid, c.calls[tid], answer))
  {
  }

  lemma NextInv(c: Cache, e: Event)
    requires CacheInv(c)
    ensures CacheInv(Next(c, e))
  {
    if e.Step? && e.tid in c.calls {
      StepLock(c, e.tid, e.answer);
      StepFields(c, e.tid, e.answer);
    }
  }

  lemma {:induction false} RunInv(ttl: int, now: int, events: seq<Event>)
    ensures CacheInv(Run(Init(ttl, now), events)) && Run(Init(ttl, now), events).ttl == ttl
  {
    if events != [] {
      var front := events[..|events| - 1];
      RunInv(ttl, now, front);
      NextInv(Run(Init(ttl, now), front), events[|events| - 1]);
    }
  }

  /** Whoever holds the lock can go on, and if nobody holds it whoever waits for it can take it:
      while any call is unfinished some call moves. */
  lemma SomeoneCanMove(c: Cache, tid: nat)
    requires LockInv(c) && tid in c.calls && !c.calls[tid].pc.Done?
    ensures exists t: nat :: t in c.calls && forall answer :: Next(c, Step(t, answer)) != c
  {
    if c.writer.Some? {
      Moves(c, c.writer.value);
    } else if c.readers != {} {
      var t :| t in c.readers;
      Moves(c, t);
    } else {
      Moves(c, tid);
    }
  }

  // A call moves unless it waits for a lock that is taken or is done.
  lemma Moves(c: Cache, t: nat)
    requires t in c.calls && !c.calls[t].pc.Done?
    requires c.calls[t].pc.AwaitRead? ==> c.writer.None?
    requires c.calls[t].pc.AwaitWrite? ==> c.writer.None? && c.readers == {}
    ensures forall answer :: Next(c, Step(t, answer)) != c
  {
    forall answer ensures Next(c, Step(t, answer)) != c {
      assert Next(c, Step(t, answer)).calls[t].pc != c.calls[t].pc;
    }
  }
}
