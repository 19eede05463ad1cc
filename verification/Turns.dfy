/** One thread of a step system as straight-line code: before each step of its own, others move. */
module Turns {
  import Runs

  // First the others' events, then what the thread's own step draws from outside.
  datatype Turn<E, C> = Turn(others: seq<E>, own: C)

  // Where the turns lead; `own` makes the thread's event of each choice.
  function RunTurns<S(!new), E, C>(next: (S, E) -> S, own: C -> E, s: S, turns: seq<Turn<E, C>>): S {
    if turns == [] then s
    else
      var last := turns[|turns| - 1];
      next(Runs.Run(next, RunTurns(next, own, s, turns[..|turns| - 1]), last.others), own(last.own))
  }

  function Script<E, C>(own: C -> E, turns: seq<Turn<E, C>>): seq<E> {
    if turns == [] then []
    else
      var last := turns[|turns| - 1];
      Script(own, turns[..|turns| - 1]) + (last.others + [own(last.own)])
  }

  /** Taking turns is a run of the step system, so everything proved about runs applies. */
  lemma {:induction false} AreARun<S(!new), E, C>(next: (S, E) -> S, own: C -> E, s: S, turns: seq<Turn<E, C>>)
    ensures RunTurns(next, own, s, turns) == Runs.Run(next, s, Script(own, turns))
  {
    if turns != [] {
      var front, last := turns[..|turns| - 1], turns[|turns| - 1];
      var script := Script(own, front);
      AreARun(next, own, s, front);
      Runs.RunConcat(next, s, script, last.others + [own(last.own)]);
      Runs.RunSnoc(next, Runs.Run(next, s, script), last.others, own(last.own));
    }
  }

  lemma {:induction false} Compose<S(!new), E, C>(
      next: (S, E) -> S, own: C -> E, s: S, a: seq<Turn<E, C>>, b: seq<Turn<E, C>>)
    ensures RunTurns(next, own, RunTurns(next, own, s, a), b) == RunTurns(next, own, s, a + b)
  {
    if b == [] {
      assert a + b == a;
    } else {
      Compose(next, own, s, a, b[..|b| - 1]);
      assert (a + b)[..|a + b| - 1] == a + b[..|b| - 1];
    }
  }

  // t is where these turns lead from s. (Stated behind a quantifier so that code which only strings
  // turns together does not unfold the step program.)
  ghost predicate Took<S(!new), E, C>(next: (S, E) -> S, own: C -> E, s: S, t: S, turns: seq<Turn<E, C>>) {
    forall x: S {:trigger RunTurns(next, own, x, turns)} :: x == s ==> t == RunTurns(next, own, x, turns)
  }

  lemma TookMeans<S(!new), E, C>(next: (S, E) -> S, own: C -> E, s: S, t: S, turns: seq<Turn<E, C>>)
    ensures Took(next, own, s, t, turns) <==> t == RunTurns(next, own, s, turns)
  {
  }

  lemma TookNone<S(!new), E, C>(next: (S, E) -> S, own: C -> E, s: S, turns: seq<Turn<E, C>>)
    ensures Took(next, own, s, s, turns[..0])
  {
    TookMeans(next, own, s, s, turns[..0]);
  }

  // One more turn.
  lemma TookNext<S(!new), E, C>(next: (S, E) -> S, own: C -> E, s: S, mid: S, t: S, turns: seq<Turn<E, C>>, k: nat)
    requires k < |turns| && Took(next, own, s, mid, turns[..k])
    requires t == next(Runs.Run(next, mid, turns[k].others), own(turns[k].own))
    ensures Took(next, own, s, t, turns[..k + 1])
  {
    TookMeans(next, own, s, mid, turns[..k]);
    assert turns[..k + 1][..k] == turns[..k];
    TookMeans(next, own, s, t, turns[..k + 1]);
  }

  lemma TookOne<S(!new), E, C>(next: (S, E) -> S, own: C -> E, s: S, t: S, turn: Turn<E, C>)
    requires t == next(Runs.Run(next, s, turn.others), own(turn.own))
    ensures Took(next, own, s, t, [turn])
  {
    TookNone(next, own, s, [turn]);
    TookNext(next, own, s, s, t, [turn], 0);
    assert [turn][..1] == [turn];
  }

  lemma Slices<T>(turns: seq<T>, i: nat, j: nat)
    requires i + j <= |turns|
    ensures turns[..i] + turns[i..][..j] == turns[..i + j]
  {
    var a, b := turns[..i] + turns[i..][..j], turns[..i + j];
    assert |a| == |b|;
    forall k | 0 <= k < |a| ensures a[k] == b[k] {
      if k >= i { assert a[k] == turns[i..][k - i]; }
    }
  }

  // Some more turns, taken from the rest of the list.
  lemma TookMore<S(!new), E, C>(
      next: (S, E) -> S, own: C -> E, s: S, mid: S, t: S, turns: seq<Turn<E, C>>, i: nat, j: nat)
    requires i + j <= |turns|
    requires Took(next, own, s, mid, turns[..i]) && Took(next, own, mid, t, turns[i..][..j])
    ensures Took(next, own, s, t, turns[..i + j])
  {
    TookMeans(next, own, s, mid, turns[..i]);
    TookMeans(next, own, mid, t, turns[i..][..j]);
    Compose(next, own, s, turns[..i], turns[i..][..j]);
    Slices(turns, i, j);
    TookMeans(next, own, s, t, turns[..i + j]);
  }

  // One more turn that was taken as a turn of its own; from the start when k is zero.
  lemma TookAlso<S(!new), E, C>(next: (S, E) -> S, own: C -> E, s: S, mid: S, t: S, turns: seq<Turn<E, C>>, k: nat)
    requires k < |turns| && Took(next, own, mid, t, [turns[k]])
    requires if k == 0 then mid == s else Took(next, own, s, mid, turns[..k])
    ensures Took(next, own, s, t, turns[..k + 1])
  {
    assert turns[k..][..1] == [turns[k]];
    TookNone(next, own, s, turns);
    TookMore(next, own, s, mid, t, turns, k, 1);
  }
}
