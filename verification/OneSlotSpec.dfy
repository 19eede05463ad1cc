/** The specification of refresh tokens: each user has one slot; issuing fills it, redeeming
    swaps its token for a new one in a single step, logging out empties it. */
module OneSlotSpec {
  import opened Uuids

  // `used` holds every token that was ever put in a slot.
  datatype Spec = Spec(slot: map<Uuid, string>, used: set<string>)

  datatype Op =
    | Skip
    | Issue(user: Uuid, token: string)                    // a login hands out a token
    | Redeem(user: Uuid, spent: string, token: string)      // a refresh succeeds
    | SignOut(user: Uuid)                                 // a logout succeeds
    | SilentPut(user: Uuid, token: string)                // a store that landed but was reported failed
    | Drop(user: Uuid)                                    // the slot is lost to a failed request
    | Expire(users: set<Uuid>)

  const EMPTY := Spec(map[], {})

  predicate Allowed(s: Spec, op: Op) {
    match op
    case Issue(_, token) => token !in s.used
    case SilentPut(_, token) => token !in s.used
    case Redeem(user, spent, token) => user in s.slot && s.slot[user] == spent && token !in s.used
    case _ => true
  }

  function Apply(s: Spec, op: Op): Spec {
    match op
    case Skip => s
    case Issue(user, token) => Spec(s.slot[user := token], s.used + {token})
    case SilentPut(user, token) => Spec(s.slot[user := token], s.used + {token})
    case Redeem(user, spent, token) => Spec(s.slot[user := token], s.used + {token})
    case SignOut(user) => Spec(s.slot - {user}, s.used)
    case Drop(user) => Spec(s.slot - {user}, s.used)
    case Expire(users) => Spec(s.slot - users, s.used)
  }

  function ApplyAll(ops: seq<Op>): Spec {
    if ops == [] then EMPTY else Apply(ApplyAll(ops[..|ops| - 1]), ops[|ops| - 1])
  }

  // Every operation was allowed where it was applied.
  ghost predicate Legal(ops: seq<Op>) {
    forall i :: 0 <= i < |ops| ==> Allowed(ApplyAll(ops[..i]), ops[i])
  }

  ghost predicate SpecInv(s: Spec) {
    && (forall u :: u in s.slot ==> s.slot[u] in s.used)
    && (forall u, v :: u in s.slot && v in s.slot && u != v ==> s.slot[u] != s.slot[v])
  }

  lemma PrefixStep(ops: seq<Op>, i: nat)
    requires i < |ops|
    ensures ApplyAll(ops[..i + 1]) == Apply(ApplyAll(ops[..i]), ops[i])
  {
    assert ops[..i + 1][..i] == ops[..i];
  }

  lemma {:induction false} LegalInv(ops: seq<Op>, i: nat)
    requires Legal(ops) && i <= |ops|
    ensures SpecInv(ApplyAll(ops[..i]))
  {
    if i > 0 {
      LegalInv(ops, i - 1);
      PrefixStep(ops, i - 1);
      assert Allowed(ApplyAll(ops[..i - 1]), ops[i - 1]);
    }
  }

  // The token has been in a slot and is in none now.
  ghost predicate Gone(s: Spec, token: string) {
    token in s.used && forall u :: u in s.slot ==> s.slot[u] != token
  }

  lemma {:induction false} StaysGone(ops: seq<Op>, i: nat, j: nat, token: string)
    requires Legal(ops) && i <= j <= |ops| && Gone(ApplyAll(ops[..i]), token)
    ensures Gone(ApplyAll(ops[..j]), token)
    decreases j
  {
    if i < j {
      StaysGone(ops, i, j - 1, token);
      PrefixStep(ops, j - 1);
      assert Allowed(ApplyAll(ops[..j - 1]), ops[j - 1]);
    }
  }

  /** No token is redeemed twice. */
  lemma RedeemedOnce(ops: seq<Op>, i: nat, j: nat)
    requires Legal(ops) && i < j < |ops| && ops[i].Redeem? && ops[j].Redeem?
    ensures ops[i].spent != ops[j].spent
  {
    if ops[i].spent == ops[j].spent {
      LegalInv(ops, i);
      PrefixStep(ops, i);
      assert Allowed(ApplyAll(ops[..i]), ops[i]) && Allowed(ApplyAll(ops[..j]), ops[j]);
      StaysGone(ops, i + 1, j, ops[i].spent);
    }
  }

  predicate Fills(op: Op, user: Uuid) {
    (op.Issue? || op.SilentPut?) && op.user == user
  }

  lemma {:induction false} EmptyUntilFilled(ops: seq<Op>, i: nat, j: nat, user: Uuid)
    requires Legal(ops) && i <= j <= |ops| && user !in ApplyAll(ops[..i]).slot
    requires forall k :: i <= k < j ==> !Fills(ops[k], user)
    ensures user !in ApplyAll(ops[..j]).slot
    decreases j
  {
    if i < j {
      EmptyUntilFilled(ops, i, j - 1, user);
      PrefixStep(ops, j - 1);
      assert Allowed(ApplyAll(ops[..j - 1]), ops[j - 1]);
    }
  }

  /** After a logout nothing is redeemed for that user until a token is stored again. */
  lemma LogoutHolds(ops: seq<Op>, i: nat, j: nat)
    requires Legal(ops) && i < j < |ops| && ops[i].SignOut? && ops[j].Redeem? && ops[j].user == ops[i].user
    ensures exists k :: i < k < j && Fills(ops[k], ops[i].user)
  {
    assert Allowed(ApplyAll(ops[..j]), ops[j]);
    if forall k :: i < k < j ==> !Fills(ops[k], ops[i].user) {
      PrefixStep(ops, i);
      EmptyUntilFilled(ops, i + 1, j, ops[i].user);
    }
  }
}
