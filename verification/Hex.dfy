/** Fixed-width lower-case hexadecimal text and the UUID text form built on it. */
module Hex {
  function Pow16(n: nat): (r: nat)
    ensures r > 0
  {
    if n == 0 then 1 else 16 * Pow16(n - 1)
  }

  function Digit(d: nat): (c: char)
    requires d < 16
    ensures IsHex(c) && DigitValue(c) == d && c != ':' && c != '-'
  {
    if d < 10 then (d + 48) as char else (d + 87) as char
  }

  predicate IsHex(c: char) {
    '0' <= c <= '9' || 'a' <= c <= 'f' || 'A' <= c <= 'F'
  }

  // The value of one hexadecimal digit, in either case; other characters count as zero.
  function DigitValue(c: char): (d: nat)
    ensures d < 16
  {
    if '0' <= c <= '9' then c as int - 48
    else if 'a' <= c <= 'f' then c as int - 87
    else if 'A' <= c <= 'F' then c as int - 55
    else 0
  }

  // The `width` low hexadecimal digits of x, most significant first.
  function Print(x: nat, width: nat): (s: string)
    ensures |s| == width
    ensures forall i :: 0 <= i < |s| ==> IsHex(s[i]) && s[i] != ':' && s[i] != '-'
  {
    if width == 0 then "" else Print(x / 16, width - 1) + [Digit(x % 16)]
  }

  lemma DigitIs(d: nat)
    requires d < 16
    ensures Digit(d) == "0123456789abcdef"[d]
  {
  }

  // Dividing twice.
  lemma DivDiv(x: nat, p: nat)
    requires p > 0
    ensures x / 16 / p == x / (16 * p)
  {
    var q := x / 16 / p;
    var r := x - 16 * (q * p);
    assert x / 16 == q * p + x / 16 % p;
    assert 0 <= r < 16 * p;
    assert x == q * (16 * p) + r;
    Quotient(q, 16 * p, r);
  }

  lemma Quotient(q: nat, d: nat, r: nat)
    requires r < d
    ensures (q * d + r) / d == q
  {
    var y: int := (q * d + r) / d - q;
    assert y * d + (q * d + r) % d == r;
  }

  /** Place i of the text is the digit of weight 16^(width - 1 - i), as section 4 of RFC 9562 orders them. */
  lemma {:induction false} PrintAt(x: nat, width: nat, i: nat)
    requires i < width
    ensures Print(x, width)[i] == "0123456789abcdef"[x / Pow16(width - 1 - i) % 16]
  {
    if i < width - 1 {
      PrintAt(x / 16, width - 1, i);
      DivDiv(x, Pow16(width - 2 - i));
    } else {
      DigitIs(x % 16);
      assert Pow16(width - 1 - i) == 1;
    }
  }

  function Value(s: string): nat {
    if s == "" then 0 else 16 * Value(s[..|s| - 1]) + DigitValue(s[|s| - 1])
  }

  lemma {:induction false} ValueOfPrint(x: nat, width: nat)
    requires x < Pow16(width)
    ensures Value(Print(x, width)) == x
  {
    if width > 0 {
      ValueOfPrint(x / 16, width - 1);
      var s := Print(x, width);
      assert s[..|s| - 1] == Print(x / 16, width - 1);
    }
  }

  lemma {:induction false} PowPlus(a: nat, b: nat)
    ensures Pow16(a + b) == Pow16(a) * Pow16(b)
  {
    if a > 0 {
      PowPlus(a - 1, b);
      assert Pow16(a + b) == 16 * (Pow16(a - 1) * Pow16(b)) == (16 * Pow16(a - 1)) * Pow16(b);
    }
  }

  // 32 digits cover a 128-bit value and 64 digits a 256-bit value.
  lemma Width16()
    ensures Pow16(16) == 0x1_0000_0000_0000_0000
  {
    assert Pow16(4) == 0x1_0000;
    PowPlus(4, 4);
    PowPlus(8, 8);
  }

  lemma Widths()
    ensures Pow16(32) == 0x1_0000_0000_0000_0000_0000_0000_0000_0000
    ensures Pow16(64) == 0x1_0000_0000_0000_0000_0000_0000_0000_0000_0000_0000_0000_0000_0000_0000_0000_0000
  {
    Width16();
    PowPlus(16, 16);
    PowPlus(32, 32);
  }

  lemma {:induction false} ValueBound(s: string)
    ensures Value(s) < Pow16(|s|)
  {
    if s != "" {
      ValueBound(s[..|s| - 1]);
    }
  }

  lemma DigitOfValue(c: char)
    requires '0' <= c <= '9' || 'a' <= c <= 'f'
    ensures Digit(DigitValue(c)) == c
  {
  }

  lemma DivMod16(q: nat, r: nat)
    requires r < 16
    ensures (16 * q + r) / 16 == q && (16 * q + r) % 16 == r
  {
  }

  predicate AllLowerHex(s: string) {
    forall i :: 0 <= i < |s| ==> '0' <= s[i] <= '9' || 'a' <= s[i] <= 'f'
  }

  lemma {:induction false} PrintIsLower(x: nat, width: nat)
    ensures AllLowerHex(Print(x, width))
  {
    if width > 0 { PrintIsLower(x / 16, width - 1); }
  }

  lemma {:induction false} PrintOfValue(s: string)
    requires AllLowerHex(s)
    ensures Print(Value(s), |s|) == s
  {
    if s != "" {
      var front := s[..|s| - 1];
      var last := s[|s| - 1];
      PrintOfValue(front);
      DigitOfValue(last);
      DivMod16(Value(front), DigitValue(last));
      assert s == front + [last];
    }
  }
}

/** UUIDs as 128-bit numbers, with the text form of section 4 of RFC 9562. */
module Uuids {
  import opened Wrappers
  import Hex

  type Uuid = x: nat | x < 0x1_0000_0000_0000_0000_0000_0000_0000_0000

  const TEXT_LENGTH := 36

  // uuid.UUID.String: lower-case digits grouped 8-4-4-4-12.
  function Text(u: Uuid): (s: string)
    ensures |s| == TEXT_LENGTH
    ensures forall i :: 0 <= i < |s| ==> s[i] != ':'
  {
    Dashed(Hex.Print(u, 32))
  }

  function Dashed(h: string): (s: string)
    requires |h| == 32
    ensures |s| == TEXT_LENGTH
  {
    h[..8] + "-" + h[8..12] + "-" + h[12..16] + "-" + h[16..20] + "-" + h[20..]
  }

  /** The form of the text: dashes at 8, 13, 18 and 23, between them the 32 digits in order. */
  lemma TextForm(u: Uuid, i: nat)
    requires i < 32
    ensures Text(u)[8] == Text(u)[13] == Text(u)[18] == Text(u)[23] == '-'
    ensures var c := "0123456789abcdef"[u / Hex.Pow16(31 - i) % 16];
            && (i < 8 ==> Text(u)[i] == c)
            && (8 <= i < 12 ==> Text(u)[i + 1] == c)
            && (12 <= i < 16 ==> Text(u)[i + 2] == c)
            && (16 <= i < 20 ==> Text(u)[i + 3] == c)
            && (20 <= i ==> Text(u)[i + 4] == c)
  {
    Hex.PrintAt(u, 32, i);
  }

  predicate DashesInPlace(s: string)
    requires |s| == TEXT_LENGTH
  {
    s[8] == '-' && s[13] == '-' && s[18] == '-' && s[23] == '-'
  }

  function Undashed(s: string): (h: string)
    requires |s| == TEXT_LENGTH
    ensures |h| == 32
  {
    s[..8] + s[9..13] + s[14..18] + s[19..23] + s[24..]
  }

  // Hexadecimal digits in either case.
  function ParseDigits(h: string): (r: Option<Uuid>)
    requires |h| == 32
  {
    if forall i :: 0 <= i < |h| ==> Hex.IsHex(h[i]) then
      Hex.ValueBound(h); Hex.Widths();
      Some(Hex.Value(h))
    else None
  }

  function ParseDashed(s: string): (r: Option<Uuid>)
    requires |s| == TEXT_LENGTH
  {
    if DashesInPlace(s) then ParseDigits(Undashed(s)) else None
  }

  const URN := "urn:uuid:"

  function Lower(c: char): char {
    if 'A' <= c <= 'Z' then c + 32 as char else c
  }

  // Equal up to the case of ASCII letters.
  predicate EqualFold(s: string, t: string) {
    |s| == |t| && forall i :: 0 <= i < |s| ==> Lower(s[i]) == Lower(t[i])
  }

  // uuid.Parse: the plain text, a URN, braces (which are skipped unseen), or the digits alone.
  function Parse(s: string): (r: Option<Uuid>) {
    if |s| == TEXT_LENGTH then ParseDashed(s)
    else if |s| == TEXT_LENGTH + |URN| then (if EqualFold(s[..|URN|], URN) then ParseDashed(s[|URN|..]) else None)
    else if |s| == TEXT_LENGTH + 2 then ParseDashed(s[1..TEXT_LENGTH + 1])
    else if |s| == 32 then ParseDigits(s)
    else None
  }

  lemma UndashedDashed(h: string)
    requires |h| == 32
    ensures Undashed(Dashed(h)) == h && DashesInPlace(Dashed(h))
  {
    var s := Dashed(h);
    assert s[..8] == h[..8] && s[9..13] == h[8..12] && s[14..18] == h[12..16];
    assert s[19..23] == h[16..20] && s[24..] == h[20..];
  }

  lemma DashedUndashed(s: string)
    requires |s| == TEXT_LENGTH && DashesInPlace(s)
    ensures Dashed(Undashed(s)) == s
  {
    var h := Undashed(s);
    assert h[..8] == s[..8] && h[8..12] == s[9..13] && h[12..16] == s[14..18];
    assert h[16..20] == s[19..23] && h[20..] == s[24..];
    assert s == s[..8] + [s[8]] + s[9..13] + [s[13]] + s[14..18] + [s[18]] + s[19..23] + [s[23]] + s[24..];
  }

  lemma {:induction false} FoldHex(h: string, x: nat)
    requires x < Hex.Pow16(|h|)
    ensures EqualFold(h, Hex.Print(x, |h|)) <==> (forall i :: 0 <= i < |h| ==> Hex.IsHex(h[i])) && Hex.Value(h) == x
  {
    if h != "" {
      var n := |h| - 1;
      var front, p := h[..n], Hex.Print(x, |h|);
      FoldHex(front, x / 16);
      FoldDigit(h[n], x % 16);
      assert p[..n] == Hex.Print(x / 16, n) && p[n] == Hex.Digit(x % 16);
      assert EqualFold(h, p) <==> EqualFold(front, p[..n]) && Lower(h[n]) == Lower(p[n]);
      assert (forall i :: 0 <= i < |h| ==> Hex.IsHex(h[i])) <==>
             (forall i :: 0 <= i < n ==> Hex.IsHex(front[i])) && Hex.IsHex(h[n]);
    }
  }

  lemma FoldDigit(c: char, d: nat)
    requires d < 16
    ensures Lower(c) == Lower(Hex.Digit(d)) <==> Hex.IsHex(c) && Hex.DigitValue(c) == d
  {
  }

  lemma DigitsFold(h: string, u: Uuid)
    requires |h| == 32
    ensures ParseDigits(h) == Some(u) <==> EqualFold(h, Hex.Print(u, 32))
  {
    Hex.Widths();
    FoldHex(h, u);
  }

  lemma DashedFold(s: string, h: string)
    requires |s| == TEXT_LENGTH && |h| == 32
    ensures EqualFold(s, Dashed(h)) <==> DashesInPlace(s) && EqualFold(Undashed(s), h)
  {
    var d, t := Dashed(h), Undashed(s);
    assert DashesInPlace(d) by { UndashedDashed(h); }
    if DashesInPlace(s) && EqualFold(t, h) {
      forall i | 0 <= i < |s| ensures Lower(s[i]) == Lower(d[i]) {
        if i != 8 && i != 13 && i != 18 && i != 23 {
          assert s[i] == t[Undashing(i)] && d[i] == h[Undashing(i)];
        }
      }
    } else if EqualFold(s, d) {
      forall j | 0 <= j < 32 ensures Lower(t[j]) == Lower(h[j]) {
        assert t[j] == s[Dashing(j)] && h[j] == d[Dashing(j)];
      }
    }
  }

  // From a place among the 32 digits to its place in the text, and back.
  function Dashing(j: nat): nat {
    if j < 8 then j else if j < 12 then j + 1 else if j < 16 then j + 2 else if j < 20 then j + 3 else j + 4
  }

  function Undashing(i: nat): nat
    requires i != 8 && i != 13 && i != 18 && i != 23
  {
    if i < 8 then i else if i < 13 then i - 1 else if i < 18 then i - 2 else if i < 23 then i - 3 else i - 4
  }

  lemma TextFold(s: string, u: Uuid)
    requires |s| == TEXT_LENGTH
    ensures ParseDashed(s) == Some(u) <==> EqualFold(s, Text(u))
  {
    DashedFold(s, Hex.Print(u, 32));
    DigitsFold(Undashed(s), u);
  }

  /** What parses, and to what: the text of the UUID, the text after "urn:uuid:", the text between any two
      characters, or its 32 digits; all in either case, and nothing else. */
  lemma ParseIff(s: string, u: Uuid)
    ensures Parse(s) == Some(u) <==>
            || EqualFold(s, Text(u))
            || (|s| == 45 && EqualFold(s[..9], "urn:uuid:") && EqualFold(s[9..], Text(u)))
            || (|s| == 38 && EqualFold(s[1..37], Text(u)))
            || EqualFold(s, Hex.Print(u, 32))
  {
    if |s| == 36 {
      TextFold(s, u);
    } else if |s| == 45 {
      TextFold(s[9..], u);
    } else if |s| == 38 {
      TextFold(s[1..37], u);
    } else if |s| == 32 {
      DigitsFold(s, u);
    }
  }

  lemma ParseOfText(u: Uuid)
    ensures Parse(Text(u)) == Some(u)
  {
    var h := Hex.Print(u, 32);
    UndashedDashed(h);
    Hex.Widths();
    Hex.ValueOfPrint(u, 32);
  }

  /** Each of the four forms of a UUID parses back to it. */
  lemma ParseOfForms(u: Uuid, urn: string, open: char, close: char)
    requires EqualFold(urn, URN)
    ensures Parse(Text(u)) == Parse(urn + Text(u)) == Parse([open] + Text(u) + [close]) == Some(u)
    ensures Parse(Hex.Print(u, 32)) == Some(u)
  {
    ParseOfText(u);
    var braced := [open] + Text(u) + [close];
    assert (urn + Text(u))[..|URN|] == urn && (urn + Text(u))[|URN|..] == Text(u);
    assert braced[1..TEXT_LENGTH + 1] == Text(u);
    Hex.Widths();
    Hex.ValueOfPrint(u, 32);
  }

  /** A text that parses is the text of what it parses to if and only if it has the plain form in
      lower case. */
  lemma TextOfParse(s: string)
    requires Parse(s).Some?
    ensures Text(Parse(s).value) == s <==> |s| == TEXT_LENGTH && Hex.AllLowerHex(Undashed(s))
  {
    var u := Parse(s).value;
    if |s| == TEXT_LENGTH && Hex.AllLowerHex(Undashed(s)) {
      Hex.PrintOfValue(Undashed(s));
      DashedUndashed(s);
    }
    if Text(u) == s {
      Hex.PrintIsLower(u, 32);
      UndashedDashed(Hex.Print(u, 32));
    }
  }
}
