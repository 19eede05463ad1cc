/** What one getKey call does when nothing interferes, from its start to its result. */
module JwksCalls {
  import opened Wrappers
  import opened JwkSet
  import opened JwksProtocol
  import Runs

  // The cache answers this kid without asking: its snapshot is younger than ttl and has the kid.
  predicate Hit(c: Cache, kid: string) {
    c.fetchedAt.Some? && c.now < c.fetchedAt.value + c.ttl && kid in c.keys
  }

  // The cache with this call's record.
  function Stands(c: Cache, tid: nat, kid: string, pc: Pc): Cache {
    c.(calls := c.calls[tid := Call(kid, pc)])
  }

  // The cache after a fetch by this call.
  function Refilled(c: Cache, tid: nat, kid: string, keys: KeyMap): Cache {
    c.(keys := keys, fetchedAt := Some(c.now), fetches := c.fetches + [Fetch(tid, kid, c.now, keys, c.now)])
  }

  // Where the same step, taken so many times, leads.
  function Stepped(c: Cache, tid: nat, answer: Answer, n: nat): Cache {
    Run(c, Runs.Times(Step(tid, answer), n))
  }

  lemma Once(c: Cache, tid: nat, answer: Answer, n: nat)
    ensures Stepped(c, tid, answer, n + 1) == Next(Stepped(c, tid, answer, n), Step(tid, answer))
    ensures Stepped(c, tid, answer, 0) == c
  {
    Runs.OnceMore(Next, c, Step(tid, answer), n);
  }

  // d is where n steps lead from c. (Stated behind a quantifier so that what only strings steps together
  // does not unfold the step program.)
  ghost predicate Leads(c: Cache, tid: nat, answer: Answer, n: nat, d: Cache) {
    forall s: Cache {:trigger Stepped(s, tid, answer, n)} :: s == c ==> Stepped(s, tid, answer, n) == d
  }

  lemma LeadsMeans(c: Cache, tid: nat, answer: Answer, n: nat, d: Cache)
    ensures Leads(c, tid, answer, n, d) <==> Stepped(c, tid, answer, n) == d
  {
  }

  // One step more, from a record at pc.
  lemma Goes(
      c: Cache, tid: nat, answer: Answer, n: nat, mid: Cache, kid: string, pc: Pc, end: Cache, pc2: Pc)
    requires Leads(c, tid, answer, n, Stands(mid, tid, kid, pc))
    requires mid.calls == end.calls
    requires var d := Stands(mid, tid, kid, pc);
             Next(d, Step(tid, answer)) == end.(calls := d.calls[tid := Call(kid, pc2)])
    ensures Leads(c, tid, answer, n + 1, Stands(end, tid, kid, pc2))
  {
    LeadsMeans(c, tid, answer, n, Stands(mid, tid, kid, pc));
    Once(c, tid, answer, n);
    assert mid.calls[tid := Call(kid, pc)][tid := Call(kid, pc2)] == end.calls[tid := Call(kid, pc2)];
    LeadsMeans(c, tid, answer, n + 1, Stands(end, tid, kid, pc2));
  }

  lemma {:induction false} DoneStays(c: Cache, tid: nat, answer: Answer, n: nat)
    requires tid in c.calls && c.calls[tid].pc.Done?
    ensures Stepped(c, tid, answer, n) == c
  {
    if n > 0 {
      DoneStays(c, tid, answer, n - 1);
      Once(c, tid, answer, n - 1);
    }
  }

  lemma SteppedPlus(c: Cache, tid: nat, answer: Answer, m: nat, n: nat)
    ensures Stepped(c, tid, answer, m + n) == Stepped(Stepped(c, tid, answer, m), tid, answer, n)
  {
    Runs.TimesPlus(Step(tid, answer), m, n);
    Runs.RunConcat(Next, c, Runs.Times(Step(tid, answer), m), Runs.Times(Step(tid, answer), n));
  }

  // A call that is done after n steps has the same result ever after.
  lemma DoneBy(c: Cache, tid: nat, answer: Answer, n: nat, end: Cache, total: nat)
    requires Leads(c, tid, answer, n, end) && n <= total && tid in end.calls && end.calls[tid].pc.Done?
    ensures Leads(c, tid, answer, total, end)
  {
    LeadsMeans(c, tid, answer, n, end);
    SteppedPlus(c, tid, answer, n, total - n);
    DoneStays(end, tid, answer, total - n);
  }

  function Fast(c: Cache): nat { if IsYoung(c) then 4 else 3 }

  function Slow(c: Cache): nat { if IsYoung(c) then 3 else 2 }

  // The read lock and the age.
  lemma Locks(c: Cache, tid: nat, answer: Answer, n: nat, mid: Cache, kid: string)
    requires mid.writer.None? && Leads(c, tid, answer, n, Stands(mid, tid, kid, AwaitRead))
    ensures Leads(c, tid, answer, n + 2, Stands(mid.(readers := mid.readers + {tid}), tid, kid,
                if IsYoung(mid) then FastFind else FastUnlock(None)))
  {
    var locked := mid.(readers := mid.readers + {tid});
    Goes(c, tid, answer, n, mid, kid, AwaitRead, locked, FastAge);
    Goes(c, tid, answer, n + 1, locked, kid, FastAge, locked, if IsYoung(mid) then FastFind else FastUnlock(None));
  }

  lemma ReadUnlocks(c: Cache, tid: nat, answer: Answer, n: nat, mid: Cache, kid: string, hit: Option<PublicKey>)
    requires tid !in mid.readers
    requires Leads(c, tid, answer, n, Stands(mid.(readers := mid.readers + {tid}), tid, kid, FastUnlock(hit)))
    ensures Leads(c, tid, answer, n + 1, Stands(mid, tid, kid, if hit.Some? then Done(hit) else AwaitWrite))
  {
    assert mid.readers + {tid} - {tid} == mid.readers;
    Goes(c, tid, answer, n, mid.(readers := mid.readers + {tid}), kid, FastUnlock(hit),
      mid, if hit.Some? then Done(hit) else AwaitWrite);
  }

  // The first check, under the read lock.
  lemma FirstCheck(c: Cache, tid: nat, answer: Answer, n: nat, mid: Cache, kid: string)
    requires mid.writer.None? && tid !in mid.readers
    requires Leads(c, tid, answer, n, Stands(mid, tid, kid, AwaitRead))
    ensures Leads(c, tid, answer, n + Fast(mid),
                Stands(mid, tid, kid, if Hit(mid, kid) then Done(Some(mid.keys[kid])) else AwaitWrite))
  {
    Locks(c, tid, answer, n, mid, kid);
    if IsYoung(mid) {
      var locked := mid.(readers := mid.readers + {tid});
        Goes(c, tid, answer, n + 2, locked, kid, FastFind, locked, FastUnlock(Lookup(mid.keys, kid)));
      ReadUnlocks(c, tid, answer, n + 3, mid, kid, Lookup(mid.keys, kid));
    } else {
      ReadUnlocks(c, tid, answer, n + 2, mid, kid, None);
    }
  }

  // The second, under the write lock, of a cache that does not have the answer.
  lemma SecondCheck(c: Cache, tid: nat, answer: Answer, n: nat, mid: Cache, kid: string)
    requires mid.writer.None? && mid.readers == {} && !Hit(mid, kid)
    requires Leads(c, tid, answer, n, Stands(mid, tid, kid, AwaitWrite))
    ensures Leads(c, tid, answer, n + Slow(mid), Stands(mid.(writer := Some(tid)), tid, kid, Send))
  {
    var held := mid.(writer := Some(tid));
    Goes(c, tid, answer, n, mid, kid, AwaitWrite, held, SlowAge);
    Goes(c, tid, answer, n + 1, held, kid, SlowAge, held, if IsYoung(mid) then SlowFind else Send);
    if IsYoung(mid) { Goes(c, tid, answer, n + 2, held, kid, SlowFind, held, Send); }
  }

  lemma Asks(c: Cache, tid: nat, answer: Answer, n: nat, held: Cache, kid: string)
    requires Leads(c, tid, answer, n, Stands(held, tid, kid, Send))
    ensures var keys := KeySetOf(answer);
            Leads(c, tid, answer, n + 2,
              Stands(held, tid, kid, if keys.Some? then StoreKeys(keys.value, held.now) else SlowUnlock(None)))
  {
    var keys := KeySetOf(answer);
    Goes(c, tid, answer, n, held, kid, Send, held, Receive(held.now));
    Goes(c, tid, answer, n + 1, held, kid, Receive(held.now),
      held, if keys.Some? then StoreKeys(keys.value, held.now) else SlowUnlock(None));
  }

  lemma Stores(c: Cache, tid: nat, answer: Answer, n: nat, held: Cache, kid: string, keys: KeyMap)
    requires Leads(c, tid, answer, n, Stands(held, tid, kid, StoreKeys(keys, held.now)))
    ensures Leads(c, tid, answer, n + 2, Stands(Refilled(held, tid, kid, keys), tid, kid, FinalFind))
  {
    var half := held.(keys := keys);
    Goes(c, tid, answer, n, held, kid, StoreKeys(keys, held.now), half, StoreTime(keys, held.now));
    Goes(c, tid, answer, n + 1, half, kid, StoreTime(keys, held.now), Refilled(held, tid, kid, keys), FinalFind);
  }

  lemma Answers(c: Cache, tid: nat, answer: Answer, n: nat, mid: Cache, kid: string)
    requires mid.writer.None? && Leads(c, tid, answer, n, Stands(mid.(writer := Some(tid)), tid, kid, FinalFind))
    ensures Leads(c, tid, answer, n + 2, Stands(mid, tid, kid, Done(Lookup(mid.keys, kid))))
  {
    var held, hit := mid.(writer := Some(tid)), Lookup(mid.keys, kid);
    Goes(c, tid, answer, n, held, kid, FinalFind, held, SlowUnlock(hit));
    WriteUnlocks(c, tid, answer, n + 1, mid, kid, hit);
  }

  lemma WriteUnlocks(c: Cache, tid: nat, answer: Answer, n: nat, mid: Cache, kid: string, hit: Option<PublicKey>)
    requires mid.writer.None?
    requires Leads(c, tid, answer, n, Stands(mid.(writer := Some(tid)), tid, kid, SlowUnlock(hit)))
    ensures Leads(c, tid, answer, n + 1, Stands(mid, tid, kid, Done(hit)))
  {
    Goes(c, tid, answer, n, mid.(writer := Some(tid)), kid, SlowUnlock(hit), mid, Done(hit));
  }

  // A kid that has to be asked for.
  lemma MissedCall(c: Cache, tid: nat, answer: Answer, n: nat, mid: Cache, kid: string, total: nat)
    requires mid.writer.None? && n + 6 <= total
    requires Leads(c, tid, answer, n, Stands(mid.(writer := Some(tid)), tid, kid, Send))
    ensures Leads(c, tid, answer, total,
                if KeySetOf(answer).None? then Stands(mid, tid, kid, Done(None))
                else
                  var keys := KeySetOf(answer).value;
                  Stands(Refilled(mid, tid, kid, keys), tid, kid, Done(Lookup(keys, kid))))
  {
    var held := mid.(writer := Some(tid));
    Asks(c, tid, answer, n, held, kid);
    if KeySetOf(answer).None? {
      WriteUnlocks(c, tid, answer, n + 2, mid, kid, None);
      DoneBy(c, tid, answer, n + 3, Stands(mid, tid, kid, Done(None)), total);
    } else {
      var keys := KeySetOf(answer).value;
      var full := Refilled(mid, tid, kid, keys);
      Stores(c, tid, answer, n + 2, held, kid, keys);
      assert Refilled(held, tid, kid, keys) == full.(writer := Some(tid));
      Answers(c, tid, answer, n + 4, full, kid);
      DoneBy(c, tid, answer, n + 6, Stands(full, tid, kid, Done(Lookup(keys, kid))), total);
    }
  }

  /** In full: a kid in a snapshot younger than ttl is answered from the cache, which stays as it was. Any
      other kid is asked for; a good answer replaces the whole cache, stamps it with the time and gives the
      result; a bad one is an error and leaves the cache as it was. */
  lemma UndisturbedCall(c: Cache, tid: nat, kid: string, answer: Answer, n: nat)
    requires tid !in c.calls && c.writer.None? && c.readers == {} && n >= 13
    ensures var d := Stepped(Next(c, Start(tid, kid)), tid, answer, n);
            if Hit(c, kid) then d == Stands(c, tid, kid, Done(Some(c.keys[kid])))
            else if KeySetOf(answer).None? then d == Stands(c, tid, kid, Done(None))
            else
              var keys := KeySetOf(answer).value;
              d == Stands(Refilled(c, tid, kid, keys), tid, kid, Done(Lookup(keys, kid)))
  {
    var c1 := Stands(c, tid, kid, AwaitRead);
    Once(c1, tid, answer, 0);
    FirstCheck(c1, tid, answer, 0, c, kid);
    if Hit(c, kid) {
      var end := Stands(c, tid, kid, Done(Some(c.keys[kid])));
      DoneBy(c1, tid, answer, Fast(c), end, n);
      LeadsMeans(c1, tid, answer, n, end);
    } else {
      SecondCheck(c1, tid, answer, Fast(c), c, kid);
      MissedCall(c1, tid, answer, Fast(c) + Slow(c), c, kid, n);
      var end := if KeySetOf(answer).None? then Stands(c, tid, kid, Done(None))
                 else
                   var keys := KeySetOf(answer).value;
                   Stands(Refilled(c, tid, kid, keys), tid, kid, Done(Lookup(keys, kid)));
      LeadsMeans(c1, tid, answer, n, end);
    }
  }
}
