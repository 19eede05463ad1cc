/** Unpadded base64url text and big-endian integers, as a JSON Web Key carries them: section 5 of
    RFC 4648 and sections 2 and 6.3.1 of RFC 7518. */
module Base64Url {
  import opened Wrappers

  type Byte = b: nat | b < 256
  type Digit = d: nat | d < 64

  // The alphabet of section 5: A-Z, a-z, 0-9, '-' and '_'.
  function Char(d: Digit): char {
    if d < 26 then 'A' + d as char
    else if d < 52 then 'a' + (d - 26) as char
    else if d < 62 then '0' + (d - 52) as char
    else if d == 62 then '-'
    else '_'
  }

  function Value(c: char): Option<Digit> {
    if 'A' <= c <= 'Z' then Some(c as int - 'A' as int)
    else if 'a' <= c <= 'z' then Some(c as int - 'a' as int + 26)
    else if '0' <= c <= '9' then Some(c as int - '0' as int + 52)
    else if c == '-' then Some(62)
    else if c == '_' then Some(63)
    else None
  }

  lemma ValueOfChar(d: Digit)
    ensures Value(Char(d)) == Some(d)
  {
  }

  // Table 2 of RFC 4648, row by row.
  lemma UpperCase(d: Digit)
    requires d < 26
    ensures Char(d) == "ABCDEFGHIJKLMNOPQRSTUVWXYZ"[d]
  {
  }

  lemma LowerCase(d: Digit)
    requires 26 <= d < 52
    ensures Char(d) == "abcdefghijklmnopqrstuvwxyz"[d - 26]
  {
  }

  lemma Others(d: Digit)
    requires 52 <= d
    ensures Char(d) == "0123456789-_"[d - 52]
  {
  }

  lemma ValueIff(d: Digit, c: char)
    ensures Value(c) == Some(d) <==> c == Char(d)
  {
  }

  /** The alphabet, in order; a character has the value of its place in it, and no other has a value. */
  lemma Alphabet(d: Digit, c: char)
    ensures Char(d) == ("ABCDEFGHIJKLMNOPQRSTUVWXYZ" + "abcdefghijklmnopqrstuvwxyz" + "0123456789-_")[d]
    ensures Value(c) == Some(d) <==> c == Char(d)
  {
    ValueIff(d, c);
    if d < 26 {
      UpperCase(d);
    } else if d < 52 {
      LowerCase(d);
    } else {
      Others(d);
    }
  }

  // The decoder skips line breaks wherever they stand.
  predicate IsBreak(c: char) {
    c == '\r' || c == '\n'
  }

  function Strip(s: string): (t: string)
    ensures forall c :: c in t <==> c in s && !IsBreak(c)
  {
    if s == "" then "" else (if IsBreak(s[0]) then "" else [s[0]]) + Strip(s[1..])
  }

  lemma {:induction false} StripNothing(s: string)
    requires forall c :: c in s ==> !IsBreak(c)
    ensures Strip(s) == s
  {
    if s != "" { StripNothing(s[1..]); }
  }

  lemma {:induction false} StripConcat(s: string, t: string)
    ensures Strip(s + t) == Strip(s) + Strip(t)
  {
    if s == "" {
      assert s + t == t;
    } else {
      var first := if IsBreak(s[0]) then "" else [s[0]];
      assert (s + t)[0] == s[0] && (s + t)[1..] == s[1..] + t;
      StripConcat(s[1..], t);
      assert Strip(s + t) == first + (Strip(s[1..]) + Strip(t)) == first + Strip(s[1..]) + Strip(t);
    }
  }

  // The digits of a text without line breaks, place by place.
  function Digits(s: string): (ds: Option<seq<Digit>>)
    ensures ds.Some? ==> |ds.value| == |s| && forall i :: 0 <= i < |s| ==> Value(s[i]) == Some(ds.value[i])
    ensures ds.Some? <==> forall c :: c in s ==> Value(c).Some?
  {
    if s == "" then Some([])
    else
      var first, rest := Value(s[0]), Digits(s[1..]);
      if first.Some? && rest.Some? then Some([first.value] + rest.value) else None
  }

  // Four digits hold three bytes. A short last group holds one or two bytes; its spare low bits
  // are not looked at. One digit alone holds no byte.
  function Unpack(ds: seq<Digit>): Option<seq<Byte>> {
    if ds == [] then Some([])
    else if |ds| == 1 then None
    else if |ds| == 2 then Some([First(ds[0], ds[1])])
    else if |ds| == 3 then Some([First(ds[0], ds[1]), Second(ds[1], ds[2])])
    else
      var rest := Unpack(ds[4..]);
      if rest.None? then None
      else Some([First(ds[0], ds[1]), Second(ds[1], ds[2]), Third(ds[2], ds[3])] + rest.value)
  }

  lemma UnpackMore(ds: seq<Digit>)
    requires |ds| >= 4
    ensures Unpack(ds) ==
            if Unpack(ds[4..]).None? then None
            else Some([First(ds[0], ds[1]), Second(ds[1], ds[2]), Third(ds[2], ds[3])] + Unpack(ds[4..]).value)
  {
  }

  lemma FourMore(n: nat)
    ensures (n + 4) % 4 == n % 4 && (n + 4) * 3 / 4 == n * 3 / 4 + 3
  {
  }

  lemma {:induction false} UnpackSome(ds: seq<Digit>)
    ensures Unpack(ds).Some? <==> |ds| % 4 != 1
  {
    if |ds| >= 4 {
      UnpackSome(ds[4..]);
      UnpackMore(ds);
      FourMore(|ds| - 4);
    }
  }

  // The three bytes of a group: 6 + 2, 4 + 4 and 2 + 6 bits.
  function First(a: Digit, b: Digit): Byte { a * 4 + b / 16 }

  function Second(b: Digit, c: Digit): Byte { b % 16 * 16 + c / 4 }

  function Third(c: Digit, d: Digit): Byte { c % 4 * 64 + d }

  function Decode(s: string): Option<seq<Byte>> {
    var ds := Digits(Strip(s));
    if ds.Some? then Unpack(ds.value) else None
  }

  function Pack(bs: seq<Byte>): seq<Digit> {
    if bs == [] then []
    else if |bs| == 1 then Tail1(bs[0])
    else if |bs| == 2 then Tail2(bs[0], bs[1])
    else Group(bs[0], bs[1], bs[2]) + Pack(bs[3..])
  }

  function Tail1(a: Byte): seq<Digit> {
    var d0: Digit, d1: Digit := a / 4, a % 4 * 16;
    [d0, d1]
  }

  function Tail2(a: Byte, b: Byte): seq<Digit> {
    var d0: Digit, d1: Digit, d2: Digit := a / 4, a % 4 * 16 + b / 16, b % 16 * 4;
    [d0, d1, d2]
  }

  function Group(a: Byte, b: Byte, c: Byte): seq<Digit> {
    var d0: Digit, d1: Digit, d2: Digit, d3: Digit := a / 4, a % 4 * 16 + b / 16, b % 16 * 4 + c / 64, c % 64;
    [d0, d1, d2, d3]
  }

  function Encode(bs: seq<Byte>): string {
    var ds := Pack(bs);
    seq(|ds|, i requires 0 <= i < |ds| => Char(ds[i]))
  }

  lemma UnpackOfGroup(a: Byte, b: Byte, c: Byte)
    ensures var g := Group(a, b, c); First(g[0], g[1]) == a && Second(g[1], g[2]) == b && Third(g[2], g[3]) == c
  {
  }

  lemma {:induction false} UnpackOfPack(bs: seq<Byte>)
    ensures Unpack(Pack(bs)) == Some(bs)
  {
    if |bs| == 1 {
      assert bs == [bs[0]];
    } else if |bs| == 2 {
      assert bs == [bs[0], bs[1]];
    } else if |bs| >= 3 {
      UnpackOfPack(bs[3..]);
      UnpackOfGroup(bs[0], bs[1], bs[2]);
      assert Pack(bs)[..4] == Group(bs[0], bs[1], bs[2]) && Pack(bs)[4..] == Pack(bs[3..]);
      assert bs == [bs[0], bs[1], bs[2]] + bs[3..];
    }
  }

  lemma SameDigits(s: string, ds: seq<Digit>)
    requires |s| == |ds| && forall i :: 0 <= i < |s| ==> Value(s[i]) == Some(ds[i])
    ensures Digits(s) == Some(ds)
  {
    var digits := Digits(s);
    assert forall c :: c in s ==> Value(c).Some?;
    forall i | 0 <= i < |s| ensures digits.value[i] == ds[i] { assert Value(s[i]) == Some(digits.value[i]); }
    assert digits.value == ds;
  }

  lemma ValuesAreText(s: string, ds: seq<Digit>)
    requires |s| == |ds| && forall i :: 0 <= i < |s| ==> Value(s[i]) == Some(ds[i])
    ensures Digits(Strip(s)) == Some(ds)
  {
    forall i | 0 <= i < |s| ensures !IsBreak(s[i]) { assert Value(s[i]) == Some(ds[i]); }
    StripNothing(s);
    SameDigits(s, ds);
  }

  /** Decoding undoes encoding, for every byte string. */
  lemma DecodeOfEncode(bs: seq<Byte>)
    ensures Decode(Encode(bs)) == Some(bs)
  {
    var ds := Pack(bs);
    forall i | 0 <= i < |ds| ensures Value(Encode(bs)[i]) == Some(ds[i]) { ValueOfChar(ds[i]); }
    ValuesAreText(Encode(bs), ds);
    UnpackOfPack(bs);
  }

  /** Exactly which texts are rejected: a foreign character (padding included), or a length, line
      breaks aside, that leaves one digit over. */
  lemma DecodesIff(s: string)
    ensures Decode(s).Some? <==> (forall c :: c in s ==> IsBreak(c) || Value(c).Some?) && |Strip(s)| % 4 != 1
  {
    var t := Strip(s);
    if Digits(t).Some? { UnpackSome(Digits(t).value); }
    assert (forall c :: c in t ==> Value(c).Some?) <==> (forall c :: c in s ==> IsBreak(c) || Value(c).Some?);
  }

  // ---- Unsigned big-endian integers ----

  function FromBytes(bs: seq<Byte>): nat {
    if bs == [] then 0 else FromBytes(bs[..|bs| - 1]) * 256 + bs[|bs| - 1]
  }

  // The shortest big-endian form; zero is the one byte 0.
  function ToBytes(n: nat): seq<Byte> {
    if n < 256 then [n] else ToBytes(n / 256) + [n % 256]
  }

  lemma {:induction false} FromToBytes(n: nat)
    ensures FromBytes(ToBytes(n)) == n
  {
    var bs := ToBytes(n);
    if n < 256 {
      assert bs[..0] == [];
    } else {
      FromToBytes(n / 256);
      assert bs[..|bs| - 1] == ToBytes(n / 256);
    }
  }

  lemma {:induction false} FromBytesConcat(x: seq<Byte>, y: seq<Byte>)
    ensures FromBytes(x + y) == FromBytes(x) * Pow(256, |y|) + FromBytes(y)
  {
    if y == [] {
      assert x + y == x;
    } else {
      var front, last := y[..|y| - 1], y[|y| - 1];
      assert (x + y)[..|x + y| - 1] == x + front;
      FromBytesConcat(x, front);
      assert Pow(256, |y|) == 256 * Pow(256, |front|);
      assert FromBytes(x) * Pow(256, |y|) == 256 * (FromBytes(x) * Pow(256, |front|));
    }
  }

  // What digits of base 64 spell, most significant first.
  function Spelled(ds: seq<Digit>): nat {
    if ds == [] then 0 else Spelled(ds[..|ds| - 1]) * 64 + ds[|ds| - 1]
  }

  lemma {:induction false} SpelledConcat(x: seq<Digit>, y: seq<Digit>)
    ensures Spelled(x + y) == Spelled(x) * Pow(64, |y|) + Spelled(y)
  {
    if y == [] {
      assert x + y == x;
    } else {
      var front, last := y[..|y| - 1], y[|y| - 1];
      assert (x + y)[..|x + y| - 1] == x + front;
      SpelledConcat(x, front);
      assert Pow(64, |y|) == 64 * Pow(64, |front|);
      assert Spelled(x) * Pow(64, |y|) == 64 * (Spelled(x) * Pow(64, |front|));
    }
  }

  function Pow(base: nat, n: nat): nat {
    if n == 0 then 1 else base * Pow(base, n - 1)
  }

  // One more than the largest value of the bits that belong to no byte.
  function Spare(digits: nat): nat {
    if digits % 4 == 2 then 16 else if digits % 4 == 3 then 4 else 1
  }

  lemma PowMore(base: nat, n: nat)
    ensures Pow(base, n + 3) == base * (base * (base * Pow(base, n)))
    ensures Pow(base, n + 4) == base * Pow(base, n + 3)
  {
    assert Pow(base, n + 2) == base * Pow(base, n + 1);
  }

  lemma {:induction false} PowSpare(n: nat)
    requires n % 4 != 1
    ensures Pow(64, n) == Pow(256, n * 3 / 4) * Spare(n)
  {
    if n >= 4 {
      PowSpare(n - 4);
      PowMore(64, n - 4);
      PowMore(256, (n - 4) * 3 / 4);
      var p := Pow(256, (n - 4) * 3 / 4);
      assert n * 3 / 4 == (n - 4) * 3 / 4 + 3 && Spare(n) == Spare(n - 4);
      assert Pow(256, n * 3 / 4) * Spare(n) == 0x100_0000 * (p * Spare(n - 4));
    } else {
      assert Pow(64, 2) == 4096 && Pow(64, 3) == 0x4_0000 && Pow(256, 2) == 0x1_0000 && Pow(256, 1) == 256;
    }
  }

  lemma SpelledFew(ds: seq<Digit>)
    requires |ds| <= 4
    ensures |ds| == 2 ==> Spelled(ds) == ds[0] as int * 64 + ds[1]
    ensures |ds| == 3 ==> Spelled(ds) == ds[0] as int * 4096 + ds[1] as int * 64 + ds[2]
    ensures |ds| == 4 ==> Spelled(ds) == ds[0] as int * 0x4_0000 + ds[1] as int * 4096 + ds[2] as int * 64 + ds[3]
  {
    if |ds| >= 2 {
      assert ds[..1] == [ds[0]] && ds[..1][..0] == [] && ds[..2][..1] == ds[..1];
      assert Spelled(ds[..1]) == ds[0] && Spelled(ds[..2]) == ds[0] as int * 64 + ds[1];
      if |ds| == 2 {
        assert ds[..2] == ds;
      } else {
        assert ds[..3][..2] == ds[..2] && Spelled(ds[..3]) == Spelled(ds[..2]) * 64 + ds[2];
        if |ds| == 3 { assert ds[..3] == ds; }
      }
    }
  }

  lemma FromBytesFew(a: Byte, b: Byte, c: Byte)
    ensures FromBytes([a]) == a
    ensures FromBytes([a, b]) == a * 256 + b
    ensures FromBytes([a, b, c]) == a * 0x1_0000 + b * 256 + c
  {
    assert [a][..0] == [] && [a, b][..1] == [a] && [a, b, c][..2] == [a, b];
  }

  lemma GroupBits(a: Digit, b: Digit, c: Digit, d: Digit)
    ensures First(a, b) * 0x1_0000 + Second(b, c) * 256 + Third(c, d) == a * 0x4_0000 + b * 4096 + c * 64 + d
    ensures First(a, b) * 256 + Second(b, c) == (a * 4096 + b * 64 + c) / 4
    ensures First(a, b) == (a * 64 + b) / 16
  {
  }

  // The number without those bits.
  function Drop(x: nat, digits: nat): nat {
    if digits % 4 == 2 then x / 16 else if digits % 4 == 3 then x / 4 else x
  }

  lemma DropMore(g: nat, p: nat, n: nat, digits: nat)
    ensures Drop(g * (p * Spare(digits)) + n, digits) == g * p + Drop(n, digits)
  {
    var gp := g * p;
    if digits % 4 == 2 {
      assert g * (p * 16) == 16 * gp;
    } else if digits % 4 == 3 {
      assert g * (p * 4) == 4 * gp;
    } else {
      assert g * (p * 1) == gp;
    }
  }

  lemma GroupOfFour(group: seq<Digit>)
    requires |group| == 4
    ensures FromBytes([First(group[0], group[1]), Second(group[1], group[2]), Third(group[2], group[3])])
         == Spelled(group)
  {
    SpelledFew(group);
    FromBytesFew(First(group[0], group[1]), Second(group[1], group[2]), Third(group[2], group[3]));
    GroupBits(group[0], group[1], group[2], group[3]);
  }

  // Digits put in front, and the bytes they stand for.
  lemma GroupSpells(group: seq<Digit>, three: seq<Byte>, rest: seq<Digit>, bytes: seq<Byte>)
    requires FromBytes(three) == Spelled(group) && FromBytes(bytes) == Drop(Spelled(rest), |rest|)
    requires Pow(64, |rest|) == Pow(256, |bytes|) * Spare(|rest|)
    ensures FromBytes(three + bytes) == Drop(Spelled(group + rest), |rest|)
  {
    FromBytesConcat(three, bytes);
    SpelledConcat(group, rest);
    DropMore(Spelled(group), Pow(256, |bytes|), Spelled(rest), |rest|);
  }

  // A short last group.
  lemma TailSpells(ds: seq<Digit>)
    requires |ds| == 2 || |ds| == 3
    ensures Unpack(ds).Some? && FromBytes(Unpack(ds).value) == Drop(Spelled(ds), |ds|)
  {
    SpelledFew(ds);
    if |ds| == 2 {
      FromBytesFew(First(ds[0], ds[1]), 0, 0);
      GroupBits(ds[0], ds[1], 0, 0);
    } else {
      FromBytesFew(First(ds[0], ds[1]), Second(ds[1], ds[2]), 0);
      GroupBits(ds[0], ds[1], ds[2], 0);
    }
  }

  lemma DropFourMore(x: nat, digits: nat)
    ensures Drop(x, digits + 4) == Drop(x, digits)
  {
    FourMore(digits);
  }

  /** Decoding, bit by bit: the bytes are the number that the digits spell in base 64, without its spare
      low bits, and there are three bytes for four digits. */
  lemma {:induction false} UnpackSpells(ds: seq<Digit>)
    requires |ds| % 4 != 1
    ensures var bs := Unpack(ds);
            bs.Some? && |bs.value| == |ds| * 3 / 4 && FromBytes(bs.value) == Drop(Spelled(ds), |ds|)
  {
    if |ds| >= 4 {
      UnpackSpells(ds[4..]);
      FourMore(|ds| - 4);
      PowSpare(|ds| - 4);
      UnpackMore(ds);
      GroupOfFour(ds[..4]);
      assert ds == ds[..4] + ds[4..];
      GroupSpells(ds[..4], Unpack(ds).value[..3], ds[4..], Unpack(ds[4..]).value);
      assert Unpack(ds).value == Unpack(ds).value[..3] + Unpack(ds[4..]).value;
      DropFourMore(Spelled(ds), |ds| - 4);
    } else if ds != [] {
      TailSpells(ds);
    }
  }

  /** The number a text stands for, whatever its line breaks: the one its digits spell. */
  lemma DecodeSpells(s: string)
    requires Decode(s).Some?
    ensures var ds := Digits(Strip(s));
            ds.Some? && FromBytes(Decode(s).value) == Drop(Spelled(ds.value), |ds.value|)
  {
    var ds := Digits(Strip(s)).value;
    UnpackSome(ds);
    UnpackSpells(ds);
  }

  lemma StripThree(s: string, m: string, t: string)
    ensures Strip(s + m + t) == Strip(s) + Strip(m) + Strip(t)
  {
    StripConcat(s + m, t);
    StripConcat(s, m);
  }

  lemma StripOne(c: char)
    ensures Strip([c]) == if IsBreak(c) then "" else [c]
  {
    assert [c][1..] == "";
  }

  lemma StripBreak(s: string, c: char, t: string)
    requires IsBreak(c)
    ensures Strip(s + [c] + t) == Strip(s + t)
  {
    StripThree(s, [c], t);
    StripOne(c);
    StripConcat(s, t);
  }

  lemma BreaksAnywhere(s: string, c: char, t: string)
    requires c == '\r' || c == '\n'
    ensures Decode(s + [c] + t) == Decode(s + t)
  {
    StripBreak(s, c, t);
  }

  // One group, plainly written.
  lemma DecodeFour(s: string, ds: seq<Digit>)
    requires |s| == |ds| == 4 && forall i :: 0 <= i < 4 ==> Value(s[i]) == Some(ds[i])
    ensures Decode(s).Some?
    ensures FromBytes(Decode(s).value) == ds[0] as int * 0x4_0000 + ds[1] as int * 4096 + ds[2] as int * 64 + ds[3]
  {
    ValuesAreText(s, ds);
    UnpackFour(ds);
    GroupOfFour(ds);
    SpelledFew(ds);
  }

  lemma UnpackFour(ds: seq<Digit>)
    requires |ds| == 4
    ensures Unpack(ds) == Some([First(ds[0], ds[1]), Second(ds[1], ds[2]), Third(ds[2], ds[3])])
  {
    UnpackMore(ds);
    var three := [First(ds[0], ds[1]), Second(ds[1], ds[2]), Third(ds[2], ds[3])];
    assert ds[4..] == [] && three + [] == three;
  }

  // The text of the exponent 65537.
  lemma DecodeAqab(s: string)
    requires s == "AQAB"
    ensures Decode(s).Some? && FromBytes(Decode(s).value) == 65537
  {
    DecodeFour(s, [0, 16, 0, 1]);
  }

  function EncodeUInt(n: nat): string {
    Encode(ToBytes(n))
  }

  const TWO_TO_63 := 0x8000_0000_0000_0000
  const TWO_TO_64 := 0x1_0000_0000_0000_0000

  // i is the low 64 bits of n read as a signed number.
  predicate Low64(n: nat, i: int) {
    -0x8000_0000_0000_0000 <= i < 0x8000_0000_0000_0000 && (n - i) % 0x1_0000_0000_0000_0000 == 0
  }

  function ToInt64(n: nat): (i: int)
    ensures Low64(n, i) && (i == n <==> n < 0x8000_0000_0000_0000)
  {
    var low := n % TWO_TO_64;
    if low < TWO_TO_63 then low else low - TWO_TO_64
  }
}
