/** What every run of the key cache guarantees: its fields agree, what it returns is fresh, and it
    does not hammer the endpoint. */
module JwksTheorems {
  import opened Wrappers
  import opened JwkSet
  import opened JwksProtocol
  import Runs

  // ---- Agreement ----

  /** Under either lock, outside the two assignments themselves, both fields come from the last
      successful fetch. */
  lemma FieldsAgree(ttl: int, now: int, events: seq<Event>, tid: nat)
    ensures var c := Run(Init(ttl, now), events);
            (tid in c.calls
             && (HoldsRead(c.calls[tid].pc) || (HoldsWrite(c.calls[tid].pc) && !c.calls[tid].pc.StoreTime?))) ==>
              c.keys == LastKeys(c) && c.fetchedAt == LastTime(c)
  {
    RunInv(ttl, now, events);
    var c := Run(Init(ttl, now), events);
    if tid in c.calls && HoldsRead(c.calls[tid].pc) { assert tid in c.readers; }
  }

  lemma NextFetches(c: Cache, e: Event)
    ensures c.fetches <= Next(c, e).fetches
  {
  }

  lemma {:induction false} FetchesGrow(c: Cache, events: seq<Event>)
    ensures c.fetches <= Run(c, events).fetches
  {
    if events != [] {
      FetchesGrow(c, events[..|events| - 1]);
      NextFetches(Run(c, events[..|events| - 1]), events[|events| - 1]);
    }
  }

  /** Failed fetches change nothing: over a stretch without a successful one, the fields seen at its
      two ends are the same. */
  lemma FailuresChangeNothing(ttl: int, now: int, before: seq<Event>, events: seq<Event>)
    requires !Midway(Run(Init(ttl, now), before)) && !Midway(Run(Init(ttl, now), before + events))
    ensures var c, d := Run(Init(ttl, now), before), Run(Init(ttl, now), before + events);
            |c.fetches| == |d.fetches| ==> c.keys == d.keys && c.fetchedAt == d.fetchedAt
  {
    RunInv(ttl, now, before);
    RunInv(ttl, now, before + events);
    Runs.RunConcat(Next, Init(ttl, now), before, events);
    FetchesGrow(Run(Init(ttl, now), before), events);
  }

  // ---- Freshness ----

  ghost predicate StepsAt(c0: Cache, events: seq<Event>, tid: nat, k: nat) {
    k < |events| && events[k].Step? && events[k].tid == tid && tid in After(c0, events, k).calls
  }

  // Event k is a passed age check of this call, in a state with these fetches.
  ghost predicate Checked(c0: Cache, events: seq<Event>, tid: nat, k: nat, fetches: seq<Fetch>) {
    && StepsAt(c0, events, tid, k)
    && var c := After(c0, events, k);
    && (c.calls[tid].pc.FastAge? || c.calls[tid].pc.SlowAge?)
    && c.fetches == fetches && LastTime(c).Some? && c.now - LastTime(c).value < c.ttl
  }

  // Event k checks the age of a snapshot that has this key.
  ghost predicate Serves(c0: Cache, events: seq<Event>, tid: nat, k: nat, kid: string, key: PublicKey) {
    k < |events| && Checked(c0, events, tid, k, After(c0, events, k).fetches) &&
        Lookup(LastKeys(After(c0, events, k)), kid) == Some(key)
  }

  // Event k is this call's own answer from the endpoint.
  ghost predicate Got(c0: Cache, events: seq<Event>, tid: nat, k: nat, keys: Option<KeyMap>) {
    && StepsAt(c0, events, tid, k)
    && After(c0, events, k).calls[tid].pc.Receive? && KeySetOf(events[k].answer) == keys
  }

  // What must have happened for a call to hold this result.
  ghost predicate Explained(c0: Cache, events: seq<Event>, tid: nat, kid: string, result: Option<PublicKey>) {
    if result.Some? then
      || (exists k: nat :: Serves(c0, events, tid, k, kid, result.value))
      || (exists k: nat, keys :: Got(c0, events, tid, k, Some(keys)) && Lookup(keys, kid) == result)
    else
      || (exists k: nat :: Got(c0, events, tid, k, None))
      || (exists k: nat, keys :: Got(c0, events, tid, k, Some(keys)) && kid !in keys)
  }

  // The history behind each program counter.
  ghost predicate Told(c0: Cache, events: seq<Event>, tid: nat, call: Call, fetches: seq<Fetch>) {
    match call.pc
    case FastFind => exists k: nat :: Checked(c0, events, tid, k, fetches)
    case SlowFind => exists k: nat :: Checked(c0, events, tid, k, fetches)
    case FastUnlock(hit) => hit.Some? ==> Explained(c0, events, tid, call.kid, hit)
    case StoreKeys(keys, _) => exists k: nat :: Got(c0, events, tid, k, Some(keys))
    case StoreTime(keys, _) => exists k: nat :: Got(c0, events, tid, k, Some(keys))
    case FinalFind =>
      exists k: nat, keys ::
        Got(c0, events, tid, k, Some(keys)) && fetches != [] && keys == fetches[|fetches| - 1].keys
    case SlowUnlock(result) => Explained(c0, events, tid, call.kid, result)
    case Done(result) => Explained(c0, events, tid, call.kid, result)
    case _ => true
  }

  ghost predicate Story(c0: Cache, events: seq<Event>, tid: nat, c: Cache) {
    tid in c.calls ==> Told(c0, events, tid, c.calls[tid], c.fetches)
  }

  lemma Longer(c0: Cache, front: seq<Event>, e: Event, k: nat)
    requires k <= |front|
    ensures After(c0, front + [e], k) == After(c0, front, k)
  {
    assert (front + [e])[..k] == front[..k];
  }

  lemma StoryKept(c0: Cache, front: seq<Event>, e: Event, tid: nat, c: Cache)
    requires Story(c0, front, tid, c)
    ensures Story(c0, front + [e], tid, c)
  {
    forall k: nat | k <= |front| ensures After(c0, front + [e], k) == After(c0, front, k) { Longer(c0, front, e, k); }
    assert forall k: nat :: k < |front| ==> (front + [e])[k] == front[k];
    forall k: nat, fetches | Checked(c0, front, tid, k, fetches) ensures Checked(c0, front + [e], tid, k, fetches) {}
    forall k: nat, kid, key | Serves(c0, front, tid, k, kid, key) ensures Serves(c0, front + [e], tid, k, kid, key) {}
    forall k: nat, keys | Got(c0, front, tid, k, keys) ensures Got(c0, front + [e], tid, k, keys) {}
  }

  // A call that is not stepping keeps its record; if it holds the lock the fetches stay as they are.
  lemma Elsewhere(c: Cache, e: Event, tid: nat)
    requires LockInv(c) && tid in c.calls && (e.Step? ==> e.tid != tid)
    ensures tid in Next(c, e).calls && Next(c, e).calls[tid] == c.calls[tid]
    ensures HoldsRead(c.calls[tid].pc) || HoldsWrite(c.calls[tid].pc) ==> Next(c, e).fetches == c.fetches
  {
    if e.Step? && e.tid in c.calls {
      if HoldsRead(c.calls[tid].pc) { assert tid in c.readers; }
      if HoldsWrite(c.calls[tid].pc) { assert c.writer == Some(tid); }
      if c.calls[e.tid].pc.StoreTime? { assert c.writer == Some(e.tid); }
    }
  }

  lemma StoryElsewhere(c0: Cache, events: seq<Event>, c: Cache, e: Event, tid: nat)
    requires LockInv(c) && Story(c0, events, tid, c) && (e.Step? ==> e.tid != tid)
    ensures Story(c0, events, tid, Next(c, e))
  {
    if tid in c.calls { Elsewhere(c, e, tid); }
  }

  // The steps that begin a piece of history: the age checks and the answer.
  lemma StoryBegins(c0: Cache, front: seq<Event>, tid: nat, answer: Answer, c: Cache)
    requires c == Run(c0, front) && CacheInv(c) && tid in c.calls
    requires c.calls[tid].pc.FastAge? || c.calls[tid].pc.SlowAge? || c.calls[tid].pc.Receive?
    ensures Story(c0, front + [Step(tid, answer)], tid, Next(c, Step(tid, answer)))
  {
    var events := front + [Step(tid, answer)];
    assert events[..|front|] == front;
    assert StepsAt(c0, events, tid, |front|);
    if c.calls[tid].pc.Receive? {
      assert Got(c0, events, tid, |front|, KeySetOf(answer));
    } else if IsYoung(c) {
      assert Checked(c0, events, tid, |front|, c.fetches);
    }
  }

  // The steps that turn a passed check into a result.
  lemma StoryFinds(c0: Cache, events: seq<Event>, tid: nat, answer: Answer, c: Cache)
    requires CacheInv(c) && tid in c.calls && Story(c0, events, tid, c)
    requires c.calls[tid].pc.FastFind? || c.calls[tid].pc.SlowFind?
    ensures Story(c0, events, tid, Next(c, Step(tid, answer)))
  {
    var k: nat :| Checked(c0, events, tid, k, c.fetches);
    if c.calls[tid].pc.FastFind? { assert tid in c.readers; }
    assert c.keys == LastKeys(c) == LastKeys(After(c0, events, k));
    var hit := Lookup(c.keys, c.calls[tid].kid);
    if hit.Some? { assert Serves(c0, events, tid, k, c.calls[tid].kid, hit.value); }
  }

  // The steps from the new keys to the result.
  lemma StoryStores(c0: Cache, events: seq<Event>, tid: nat, answer: Answer, c: Cache)
    requires CacheInv(c) && tid in c.calls && Story(c0, events, tid, c)
    requires c.calls[tid].pc.StoreTime? || c.calls[tid].pc.FinalFind?
    ensures Story(c0, events, tid, Next(c, Step(tid, answer)))
  {
    assert c.writer == Some(tid);
    if c.calls[tid].pc.FinalFind? {
      var k: nat, keys :| Got(c0, events, tid, k, Some(keys)) && keys == LastKeys(c);
      assert Explained(c0, events, tid, c.calls[tid].kid, Lookup(c.keys, c.calls[tid].kid));
    } else {
      var k: nat :| Got(c0, events, tid, k, Some(c.calls[tid].pc.keys));
      assert LastKeys(Next(c, Step(tid, answer))) == c.calls[tid].pc.keys;
    }
  }

  lemma StoryGoesOn(c0: Cache, events: seq<Event>, tid: nat, answer: Answer, c: Cache)
    requires tid in c.calls && Story(c0, events, tid, c)
    requires !c.calls[tid].pc.FastAge? && !c.calls[tid].pc.SlowAge? && !c.calls[tid].pc.Receive?
    requires !c.calls[tid].pc.FastFind? && !c.calls[tid].pc.SlowFind?
    requires !c.calls[tid].pc.StoreTime? && !c.calls[tid].pc.FinalFind?
    ensures Story(c0, events, tid, Next(c, Step(tid, answer)))
  {
  }

  lemma {:induction false} RunStory(ttl: int, now: int, events: seq<Event>, tid: nat)
    ensures Story(Init(ttl, now), events, tid, Run(Init(ttl, now), events))
  {
    if events != [] {
      var front, e := events[..|events| - 1], events[|events| - 1];
      var c := Run(Init(ttl, now), front);
      assert events == front + [e];
      RunInv(ttl, now, front);
      RunStory(ttl, now, front, tid);
      StoryKept(Init(ttl, now), front, e, tid, c);
      OneMore(Init(ttl, now), front, e, tid, c);
    }
  }

  lemma OneMore(c0: Cache, front: seq<Event>, e: Event, tid: nat, c: Cache)
    requires c == Run(c0, front) && CacheInv(c) && Story(c0, front + [e], tid, c)
    ensures Story(c0, front + [e], tid, Next(c, e))
  {
    if !e.Step? || e.tid != tid {
      StoryElsewhere(c0, front + [e], c, e, tid);
    } else if tid in c.calls {
      var pc := c.calls[tid].pc;
      if pc.FastAge? || pc.SlowAge? || pc.Receive? {
        StoryBegins(c0, front, tid, e.answer, c);
      } else if pc.FastFind? || pc.SlowFind? {
        StoryFinds(c0, front + [e], tid, e.answer, c);
      } else if pc.StoreTime? || pc.FinalFind? {
        StoryStores(c0, front + [e], tid, e.answer, c);
      } else {
        StoryGoesOn(c0, front + [e], tid, e.answer, c);
      }
    }
  }

  /** A returned key is in a snapshot that was younger than ttl when this call checked it, or in the
      one this call fetched itself. */
  lemma ReturnedKeysAreFresh(ttl: int, now: int, events: seq<Event>, tid: nat, key: PublicKey)
    requires var c := Run(Init(ttl, now), events); tid in c.calls && c.calls[tid].pc == Done(Some(key))
    ensures var c0, kid := Init(ttl, now), Run(Init(ttl, now), events).calls[tid].kid;
            || (exists k: nat :: Serves(c0, events, tid, k, kid, key))
            || (exists k: nat, keys :: Got(c0, events, tid, k, Some(keys)) && Lookup(keys, kid) == Some(key))
  {
    RunStory(ttl, now, events, tid);
  }

  /** A call reports an error only after asking the endpoint itself: its own fetch failed, or the
      answer it got lacks the kid. */
  lemma ErrorsComeFromTheEndpoint(ttl: int, now: int, events: seq<Event>, tid: nat)
    requires var c := Run(Init(ttl, now), events); tid in c.calls && c.calls[tid].pc == Done(None)
    ensures var c0, kid := Init(ttl, now), Run(Init(ttl, now), events).calls[tid].kid;
            || (exists k: nat :: Got(c0, events, tid, k, None))
            || (exists k: nat, keys :: Got(c0, events, tid, k, Some(keys)) && kid !in keys)
  {
    RunStory(ttl, now, events, tid);
  }

  // ---- Fetch spacing ----

  // A request that left at this time was due: no snapshot yet, an old one, or one without the kid.
  predicate Due(c: Cache, kid: string, began: int) {
    c.fetches == [] || kid !in LastKeys(c) || began - LastTime(c).value >= c.ttl
  }

  predicate CallDue(c: Cache, call: Call) {
    match call.pc
    case Send => Due(c, call.kid, c.now)
    case Receive(began) => Due(c, call.kid, began) && began <= c.now
    case StoreKeys(_, began) => Due(c, call.kid, began) && began <= c.now
    case StoreTime(_, began) => Due(c, call.kid, began) && began <= c.now
    case _ => true
  }

  ghost predicate CallsDue(c: Cache) {
    forall t: nat :: t in c.calls ==> CallDue(c, c.calls[t])
  }

  // Fetch j was due after the one before it.
  predicate Spaced(fetches: seq<Fetch>, ttl: int, j: nat) {
    j < |fetches| ==>
      && fetches[j].began <= fetches[j].at
      && (0 < j ==> fetches[j - 1].at <= fetches[j].at)
      && (0 < j && fetches[j].kid in fetches[j - 1].keys ==> fetches[j].began - fetches[j - 1].at >= ttl)
  }

  ghost predicate SpacingInv(c: Cache) {
    CallsDue(c) && forall j: nat :: Spaced(c.fetches, c.ttl, j)
  }

  lemma CallsDueElsewhere(c: Cache, e: Event, t: nat)
    requires LockInv(c) && t in c.calls && CallDue(c, c.calls[t]) && (e.Step? ==> e.tid != t)
    ensures CallDue(Next(c, e), Next(c, e).calls[t])
  {
    Elsewhere(c, e, t);
    KeepsNow(c, e);
  }

  lemma KeepsNow(c: Cache, e: Event)
    ensures Next(c, e).ttl == c.ttl && Next(c, e).now >= c.now && (e.Step? ==> Next(c, e).now == c.now)
  {
  }

  // Only a check that found the cache old, or without the kid, leads to a request.
  lemma CallsDueOwn(c: Cache, t: nat, answer: Answer)
    requires LockInv(c) && FieldsInv(c) && t in c.calls && CallDue(c, c.calls[t])
    ensures CallDue(Next(c, Step(t, answer)), Next(c, Step(t, answer)).calls[t])
  {
    if HoldsWrite(c.calls[t].pc) { assert c.writer == Some(t); }
  }

  lemma NextSpacing(c: Cache, e: Event)
    requires CacheInv(c) && SpacingInv(c)
    ensures SpacingInv(Next(c, e))
  {
    var d := Next(c, e);
    forall t: nat | t in d.calls ensures CallDue(d, d.calls[t]) {
      if e.Step? && e.tid == t {
        CallsDueOwn(c, t, e.answer);
      } else if t in c.calls {
        CallsDueElsewhere(c, e, t);
      }
    }
    forall j: nat ensures Spaced(d.fetches, d.ttl, j) {
      assert Spaced(c.fetches, c.ttl, j);
    }
  }

  lemma {:induction false} RunSpacing(ttl: int, now: int, events: seq<Event>)
    ensures SpacingInv(Run(Init(ttl, now), events))
  {
    if events != [] {
      var front := events[..|events| - 1];
      RunInv(ttl, now, front);
      RunSpacing(ttl, now, front);
      NextSpacing(Run(Init(ttl, now), front), events[|events| - 1]);
    }
  }

  lemma {:induction false} TimesGrow(fetches: seq<Fetch>, ttl: int, i: nat, j: nat)
    requires i <= j < |fetches| && forall k: nat :: Spaced(fetches, ttl, k)
    ensures fetches[i].at <= fetches[j].at
    decreases j
  {
    if i < j {
      TimesGrow(fetches, ttl, i, j - 1);
      assert Spaced(fetches, ttl, j);
    }
  }

  /** A successful fetch asked for by a lookup of a kid that the snapshot before it had leaves the
      endpoint alone for ttl: its request goes out at least that long after every earlier one was
      recorded. When all snapshots have the kid, its fetches are therefore ttl apart. */
  lemma FetchSpacing(ttl: int, now: int, events: seq<Event>, i: nat, j: nat)
    requires var f := Run(Init(ttl, now), events).fetches; i < j < |f| && f[j].kid in f[j - 1].keys
    ensures var f := Run(Init(ttl, now), events).fetches; f[i].at + ttl <= f[j].began <= f[j].at
  {
    RunSpacing(ttl, now, events);
    RunInv(ttl, now, events);
    var f := Run(Init(ttl, now), events).fetches;
    assert Spaced(f, ttl, j);
    TimesGrow(f, ttl, i, j - 1);
  }

  /** The same for requests that are still on their way, whether or not they will succeed. */
  lemma RequestSpacing(ttl: int, now: int, events: seq<Event>, tid: nat)
    requires var c := Run(Init(ttl, now), events); tid in c.calls && c.calls[tid].pc.Receive? && c.fetches != []
    ensures var c := Run(Init(ttl, now), events);
            c.calls[tid].kid in LastKeys(c) ==> LastTime(c).value + ttl <= c.calls[tid].pc.began
  {
    RunSpacing(ttl, now, events);
    RunInv(ttl, now, events);
  }

  // ---- One fetch per call ----

  // How far a call has come; every step of its own takes it further.
  function Rank(pc: Pc): nat {
    match pc
    case AwaitRead => 0
    case FastAge => 1
    case FastFind => 2
    case FastUnlock(_) => 3
    case AwaitWrite => 4
    case SlowAge => 5
    case SlowFind => 6
    case Send => 7
    case Receive(_) => 8
    case StoreKeys(_, _) => 9
    case StoreTime(_, _) => 10
    case FinalFind => 11
    case SlowUnlock(_) => 12
    case Done(_) => 13
  }

  lemma StepRank(c: Cache, tid: nat, answer: Answer)
    requires tid in c.calls
    ensures var pc, next := c.calls[tid].pc, StepCall(c, tid, c.calls[tid], answer).calls[tid].pc;
            (next == pc || Rank(next) > Rank(pc)) && (pc.Send? ==> next != pc)
  {
  }

  lemma NextRank(c: Cache, e: Event, tid: nat)
    requires tid in c.calls
    ensures tid in Next(c, e).calls && Rank(Next(c, e).calls[tid].pc) >= Rank(c.calls[tid].pc)
    ensures Next(c, e).calls[tid].pc != c.calls[tid].pc ==> Rank(Next(c, e).calls[tid].pc) > Rank(c.calls[tid].pc)
    ensures e.Step? && e.tid == tid && c.calls[tid].pc.Send? ==> Next(c, e).calls[tid].pc != c.calls[tid].pc
  {
    if e.Step? && e.tid == tid {
      StepRank(c, tid, e.answer);
    } else {
      KeepsRecord(c, e, tid);
    }
  }

  lemma KeepsRecord(c: Cache, e: Event, tid: nat)
    requires tid in c.calls && (e.Step? ==> e.tid != tid)
    ensures tid in Next(c, e).calls && Next(c, e).calls[tid] == c.calls[tid]
  {
  }

  lemma {:induction false} RankGrows(c0: Cache, events: seq<Event>, tid: nat, j: nat, k: nat)
    requires j <= k <= |events| && tid in After(c0, events, j).calls
    ensures tid in After(c0, events, k).calls
    ensures Rank(After(c0, events, k).calls[tid].pc) >= Rank(After(c0, events, j).calls[tid].pc)
    decreases k
  {
    if j < k {
      RankGrows(c0, events, tid, j, k - 1);
      Runs.AfterStep(Next, c0, events, k - 1);
      NextRank(After(c0, events, k - 1), events[k - 1], tid);
    }
  }

  /** One call sends at most one request. */
  lemma FetchesAtMostOnce(c0: Cache, events: seq<Event>, tid: nat, j: nat, k: nat)
    requires StepsAt(c0, events, tid, j) && After(c0, events, j).calls[tid].pc.Send?
    requires StepsAt(c0, events, tid, k) && After(c0, events, k).calls[tid].pc.Send?
    ensures j == k
  {
    if j < k { SentOnce(c0, events, tid, j, k); }
    if k < j { SentOnce(c0, events, tid, k, j); }
  }

  lemma SentOnce(c0: Cache, events: seq<Event>, tid: nat, j: nat, k: nat)
    requires j < k < |events| && StepsAt(c0, events, tid, j) && After(c0, events, j).calls[tid].pc.Send?
    ensures tid in After(c0, events, k).calls && !After(c0, events, k).calls[tid].pc.Send?
  {
    Runs.AfterStep(Next, c0, events, j);
    NextRank(After(c0, events, j), events[j], tid);
    RankGrows(c0, events, tid, j + 1, k);
  }
}
