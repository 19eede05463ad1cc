/** From a published list of JSON Web Keys to the map the cache serves from. */
module JwkSet {
  import opened Wrappers
  import opened Base64Url

  datatype Jwk = Jwk(kid: string, kty: string, n: string, e: string)

  datatype PublicKey = PublicKey(n: nat, e: int)

  type KeyMap = map<string, PublicKey>

  predicate IsRsa(k: Jwk) {
    k.kty == "RSA"
  }

  // None when the modulus or the exponent does not decode.
  function PublicKeyOf(k: Jwk): Option<PublicKey> {
    var n, e := Decode(k.n), Decode(k.e);
    if n.Some? && e.Some? then Some(PublicKey(FromBytes(n.value), ToInt64(FromBytes(e.value)))) else None
  }

  predicate Undecodable(k: Jwk) {
    k.kty == "RSA" && (Decode(k.n).None? || Decode(k.e).None?)
  }

  predicate Spoiled(keys: seq<Jwk>) {
    exists k :: k in keys && Undecodable(k)
  }

  // Entry i is an RSA entry for this kid.
  predicate Offers(keys: seq<Jwk>, i: int, kid: string) {
    0 <= i < |keys| && IsRsa(keys[i]) && keys[i].kid == kid
  }

  // Entry i is the one that counts for its kid: the last RSA entry that has it.
  ghost predicate Decisive(keys: seq<Jwk>, i: int, kid: string) {
    Offers(keys, i, kid) && forall j :: i < j ==> !Offers(keys, j, kid)
  }

  // One entry more: other key types are skipped, a bad RSA entry spoils the list.
  function Extend(before: Option<KeyMap>, k: Jwk): Option<KeyMap> {
    if before.None? || !IsRsa(k) then before
    else
      var key := PublicKeyOf(k);
      if key.None? then None else Some(before.value[k.kid := key.value])
  }

  function KeySet(keys: seq<Jwk>): Option<KeyMap> {
    if keys == [] then Some(map[]) else Extend(KeySet(keys[..|keys| - 1]), keys[|keys| - 1])
  }

  lemma KeySetNext(keys: seq<Jwk>, i: nat)
    requires i < |keys|
    ensures KeySet(keys[..i + 1]) == Extend(KeySet(keys[..i]), keys[i])
  {
    assert keys[..i + 1][..i] == keys[..i];
  }

  // A list that starts with a rejected one is rejected.
  lemma {:induction false} KeySetPrefix(keys: seq<Jwk>, i: nat)
    requires i <= |keys| && KeySet(keys[..i]).None?
    ensures KeySet(keys).None?
    decreases |keys| - i
  {
    if i < |keys| {
      KeySetNext(keys, i);
      KeySetPrefix(keys, i + 1);
    } else {
      assert keys[..i] == keys;
    }
  }

  /** One undecodable RSA entry, anywhere, rejects the list; nothing else does. */
  lemma {:induction false} KeySetRejects(keys: seq<Jwk>)
    ensures KeySet(keys).None? <==> Spoiled(keys)
  {
    if keys != [] {
      var front, last := keys[..|keys| - 1], keys[|keys| - 1];
      KeySetRejects(front);
      assert keys == front + [last];
      assert KeySet(keys).None? <==> KeySet(front).None? || Undecodable(last);
    }
  }

  lemma OffersSnoc(keys: seq<Jwk>, i: int, kid: string)
    requires keys != []
    ensures Offers(keys, i, kid) <==>
        if i == |keys| - 1 then IsRsa(keys[i]) && keys[i].kid == kid else Offers(keys[..|keys| - 1], i, kid)
  {
  }

  lemma {:induction false} ServedIsOffered(keys: seq<Jwk>, kid: string)
    requires KeySet(keys).Some? && kid in KeySet(keys).value
    ensures exists i :: Decisive(keys, i, kid)
  {
    var front, n := keys[..|keys| - 1], |keys| - 1;
    if Offers(keys, n, kid) {
      assert Decisive(keys, n, kid);
    } else {
      ServedIsOffered(front, kid);
      var i :| Decisive(front, i, kid);
      forall j ensures Offers(keys, j, kid) ==> Offers(front, j, kid) { OffersSnoc(keys, j, kid); }
      OffersSnoc(keys, i, kid);
      assert Decisive(keys, i, kid);
    }
  }

  /** Of several entries with one kid the last is served. */
  lemma {:induction false} LastOneWins(keys: seq<Jwk>, i: int, kid: string)
    requires KeySet(keys).Some? && Decisive(keys, i, kid)
    ensures kid in KeySet(keys).value && Some(KeySet(keys).value[kid]) == PublicKeyOf(keys[i])
  {
    var front, n := keys[..|keys| - 1], |keys| - 1;
    OffersSnoc(keys, i, kid);
    if i < n {
      forall j ensures Offers(front, j, kid) ==> Offers(keys, j, kid) { OffersSnoc(keys, j, kid); }
      LastOneWins(front, i, kid);
      assert !Offers(keys, n, kid);
    }
  }

  /** What a list serves depends only on its RSA entries. */
  lemma {:induction false} OtherTypesIgnored(keys: seq<Jwk>, extra: Jwk, at: nat)
    requires at <= |keys| && extra.kty != "RSA"
    ensures KeySet(keys[..at] + [extra] + keys[at..]) == KeySet(keys)
  {
    var long := keys[..at] + [extra] + keys[at..];
    if at == |keys| {
      assert long == keys + [extra];
      KeySetSnoc(keys, extra);
    } else {
      var front, last := keys[..|keys| - 1], keys[|keys| - 1];
      var longFront := front[..at] + [extra] + front[at..];
      OtherTypesIgnored(front, extra, at);
      assert long == longFront + [last] && keys == front + [last];
      KeySetSnoc(longFront, last);
      KeySetSnoc(front, last);
    }
  }

  lemma KeySetSnoc(keys: seq<Jwk>, k: Jwk)
    ensures KeySet(keys + [k]) == Extend(KeySet(keys), k)
  {
    assert (keys + [k])[..|keys|] == keys;
  }

  /** A key encoded by the standard is rebuilt exactly when its exponent fits a signed 64-bit integer. */
  lemma RebuiltIff(kid: string, n: nat, e: nat)
    ensures var k := PublicKeyOf(Jwk(kid, "RSA", EncodeUInt(n), EncodeUInt(e)));
            k.Some? && k.value.n == n && (k.value.e == e <==> e < TWO_TO_63)
  {
    DecodeOfEncode(ToBytes(n));
    DecodeOfEncode(ToBytes(e));
    FromToBytes(n);
    FromToBytes(e);
  }

  /** What a key is rebuilt to, in numbers: the modulus its text spells, and of the exponent the low 64
      bits. */
  lemma RebuiltNumbers(k: Jwk)
    requires PublicKeyOf(k).Some?
    ensures var n, e, key := Digits(Strip(k.n)), Digits(Strip(k.e)), PublicKeyOf(k).value;
            && n.Some? && key.n == Drop(Spelled(n.value), |n.value|)
            && e.Some? && Low64(Drop(Spelled(e.value), |e.value|), key.e)
  {
    DecodeSpells(k.n);
    DecodeSpells(k.e);
  }

  // "AQAB", which is what publishers send, is 65537.
  lemma UsualExponent(k: Jwk)
    requires k.e == "AQAB" && PublicKeyOf(k).Some?
    ensures PublicKeyOf(k).value.e == 65537
  {
    DecodeAqab(k.e);
  }

  // Every kid whose last RSA entry says "AQAB" is served with the exponent 65537.
  ghost predicate ServesUsualExponent(list: seq<Jwk>, m: KeyMap) {
    forall i, kid :: Decisive(list, i, kid) && list[i].e == "AQAB" ==> kid in m && m[kid].e == 65537
  }

  lemma UsualExponents(list: seq<Jwk>)
    ensures KeySet(list).Some? ==> ServesUsualExponent(list, KeySet(list).value)
  {
    if KeySet(list).Some? {
      forall i, kid | Decisive(list, i, kid) && list[i].e == "AQAB"
        ensures kid in KeySet(list).value && KeySet(list).value[kid].e == 65537
      {
        LastOneWins(list, i, kid);
        UsualExponent(list[i]);
      }
    }
  }

  function Publish(kids: seq<string>, keys: seq<PublicKey>): (list: seq<Jwk>)
    requires |kids| == |keys| && forall i :: 0 <= i < |keys| ==> 0 <= keys[i].e
  {
    seq(|kids|, i requires 0 <= i < |kids| => Jwk(kids[i], "RSA", EncodeUInt(keys[i].n), EncodeUInt(keys[i].e)))
  }

  /** Round trip for a whole published set: it is accepted, and each kid is served with the very key
      published last for it. */
  lemma PublishedKeysAreServed(kids: seq<string>, keys: seq<PublicKey>, i: nat)
    requires |kids| == |keys| && forall k :: 0 <= k < |keys| ==> 0 <= keys[k].e < TWO_TO_63
    requires i < |kids| && forall j :: i < j < |kids| ==> kids[j] != kids[i]
    ensures var m := KeySet(Publish(kids, keys)); m.Some? && kids[i] in m.value && m.value[kids[i]] == keys[i]
  {
    var list := Publish(kids, keys);
    forall k | 0 <= k < |list| ensures PublicKeyOf(list[k]) == Some(keys[k]) {
      RebuiltIff(kids[k], keys[k].n, keys[k].e);
    }
    KeySetRejects(list);
    assert Decisive(list, i, kids[i]);
    LastOneWins(list, i, kids[i]);
  }
}
