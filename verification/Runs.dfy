/** Runs of a step system: any states, any events, one step function. */
module Runs {
  function Run<S, E>(next: (S, E) -> S, s: S, events: seq<E>): S {
    if events == [] then s else next(Run(next, s, events[..|events| - 1]), events[|events| - 1])
  }

  lemma RunSnoc<S, E>(next: (S, E) -> S, s: S, events: seq<E>, e: E)
    ensures Run(next, s, events + [e]) == next(Run(next, s, events), e)
  {
    assert (events + [e])[..|events|] == events;
  }

  lemma RunOne<S, E>(next: (S, E) -> S, s: S, e: E)
    ensures Run(next, s, [e]) == next(s, e)
  {
    RunSnoc(next, s, [], e);
    assert [] + [e] == [e];
  }

  lemma RunThree<S, E>(next: (S, E) -> S, s: S, a: E, b: E, c: E)
    ensures Run(next, s, [a, b, c]) == next(next(next(s, a), b), c)
  {
    RunOne(next, s, a);
    RunSnoc(next, s, [a], b);
    RunSnoc(next, s, [a, b], c);
    assert [a] + [b] == [a, b] && [a, b] + [c] == [a, b, c];
  }

  lemma RunFour<S, E>(next: (S, E) -> S, s: S, a: E, b: E, c: E, d: E)
    ensures Run(next, s, [a, b, c, d]) == next(next(next(next(s, a), b), c), d)
  {
    RunThree(next, s, a, b, c);
    RunSnoc(next, s, [a, b, c], d);
    assert [a, b, c] + [d] == [a, b, c, d];
  }

  // The event after the first k.
  lemma AfterStep<S, E>(next: (S, E) -> S, s: S, events: seq<E>, k: nat)
    requires k < |events|
    ensures Run(next, s, events[..k + 1]) == next(Run(next, s, events[..k]), events[k])
  {
    assert events[..k + 1][..k] == events[..k];
  }

  lemma AfterAll<S, E>(next: (S, E) -> S, s: S, events: seq<E>)
    ensures Run(next, s, events[..|events|]) == Run(next, s, events)
  {
    assert events[..|events|] == events;
  }

  lemma {:induction false} RunConcat<S, E>(next: (S, E) -> S, s: S, a: seq<E>, b: seq<E>)
    ensures Run(next, s, a + b) == Run(next, Run(next, s, a), b)
  {
    if b == [] {
      assert a + b == a;
    } else {
      var front := b[..|b| - 1];
      RunConcat(next, s, a, front);
      assert (a + b)[..|a + b| - 1] == a + front;
    }
  }

  lemma RunInFour<S, E>(next: (S, E) -> S, s: S, a: seq<E>, b: seq<E>, c: seq<E>, d: seq<E>)
    ensures Run(next, s, a + b + c + d) == Run(next, Run(next, Run(next, Run(next, s, a), b), c), d)
  {
    RunConcat(next, s, a, b);
    RunConcat(next, s, a + b, c);
    RunConcat(next, s, a + b + c, d);
  }

  function Times<E>(e: E, n: nat): seq<E> {
    if n == 0 then [] else Times(e, n - 1) + [e]
  }

  lemma OnceMore<S, E>(next: (S, E) -> S, s: S, e: E, n: nat)
    ensures Run(next, s, Times(e, n + 1)) == next(Run(next, s, Times(e, n)), e)
  {
    RunSnoc(next, s, Times(e, n), e);
  }

  lemma {:induction false} TimesPlus<E>(e: E, m: nat, n: nat)
    ensures Times(e, m + n) == Times(e, m) + Times(e, n)
  {
    if n > 0 {
      TimesPlus(e, m, n - 1);
    }
  }
}
