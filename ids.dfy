/**
 * Identifiers. The source gives every entity a random `uuid4()`; the model keeps a UUID as
 * its numeric value, renders it the way `str(uuid)` does (lower-case hex in 8-4-4-4-12
 * groups) and replaces the random generator by an oracle that returns an id outside any
 * given set of ids already in use.
 */
module Ids {
  import opened Text

  datatype Uuid = Uuid(value: nat)

  const HexAlphabet: string := "0123456789abcdef"

  function HexDigit(d: nat): (c: char)
    requires d < 16
    ensures c in HexAlphabet && c != '-'
  {
    HexAlphabet[d]
  }

  /** `n` in lower-case base 16, padded on the left with zeros to at least `width` digits. */
  function Hex(n: nat, width: nat): (s: string)
    ensures |s| >= width
    ensures '-' !in s
    decreases n, width
  {
    if n == 0 && width == 0 then ""
    else Hex(n / 16, if width == 0 then 0 else width - 1) + [HexDigit(n % 16)]
  }

  function Pow16(k: nat): (p: nat)
    ensures p >= 1
  {
    if k == 0 then 1 else 16 * Pow16(k - 1)
  }

  /** A value below 16^width is written with exactly `width` digits. */
  lemma {:induction false} HexWidth(n: nat, width: nat)
    requires n < Pow16(width)
    ensures |Hex(n, width)| == width
    decreases width
  {
    if width > 0 {
      HexWidth(n / 16, width - 1);
    }
  }

  lemma HexDigitInjective(a: nat, b: nat)
    requires a < 16 && b < 16 && HexDigit(a) == HexDigit(b)
    ensures a == b
  {
  }

  /** Distinct values never share a rendering. */
  lemma {:induction false} HexInjective(a: nat, b: nat, width: nat)
    requires Hex(a, width) == Hex(b, width)
    ensures a == b
    decreases a, width
  {
    if a == 0 && width == 0 {
    } else if b == 0 && width == 0 {
    } else {
      var w := if width == 0 then 0 else width - 1;
      var ha, hb := Hex(a / 16, w), Hex(b / 16, w);
      assert Hex(a, width) == ha + [HexDigit(a % 16)];
      assert Hex(b, width) == hb + [HexDigit(b % 16)];
      assert |ha| == |hb|;
      assert HexDigit(a % 16) == Hex(a, width)[|ha|] == HexDigit(b % 16);
      HexDigitInjective(a % 16, b % 16);
      assert ha == Hex(a, width)[..|ha|] == hb;
      HexInjective(a / 16, b / 16, w);
    }
  }

  /** The 32 hex digits of a UUID (more only for values beyond 128 bits, which `uuid4` never produces). */
  function Digits(u: Uuid): (s: string)
    ensures |s| >= 32 && '-' !in s
  {
    Hex(u.value, 32)
  }

  /** `str(u)`: the digits in groups of 8, 4, 4, 4 and 12, separated by `-`. */
  function Str(u: Uuid): (s: string)
    ensures |s| == |Digits(u)| + 4
  {
    Grouped(Digits(u))
  }

  /** Hex digits in groups of 8, 4, 4, 4 and 12 (the first group takes any digits beyond 32). */
  function Grouped(h: string): (s: string)
    requires |h| >= 32
    ensures |s| == |h| + 4
  {
    var k := |h| - 32;
    h[..k + 8] + "-" + h[k + 8..k + 12] + "-" + h[k + 12..k + 16] + "-" + h[k + 16..k + 20] + "-" + h[k + 20..]
  }

  /** `str(u).replace('-', '')`, the compact form written into Rekordbox files. */
  function CompactHex(u: Uuid): string
  {
    RemoveChar(Str(u), '-')
  }

  /** Stripping the dashes of `str(u)` leaves exactly the hex digits of `u`. */
  lemma CompactHexIsDigits(u: Uuid)
    ensures CompactHex(u) == Digits(u)
  {
    GroupedDashesRemoved(Digits(u));
  }

  /** Removing the dashes between the groups gives back digits that had no dash. */
  lemma GroupedDashesRemoved(h: string)
    requires |h| >= 32 && '-' !in h
    ensures RemoveChar(Grouped(h), '-') == h
  {
    var k := |h| - 32;
    var g1, g2, g3, g4, g5 := h[..k + 8], h[k + 8..k + 12], h[k + 12..k + 16], h[k + 16..k + 20], h[k + 20..];
    assert h == g1 + g2 + g3 + g4 + g5;
    RemoveCharAbsent(g1, '-');
    var x2 := g1 + "-" + g2;
    DropDash(g1, g2);
    var x3 := x2 + "-" + g3;
    DropDash(x2, g3);
    var x4 := x3 + "-" + g4;
    DropDash(x3, g4);
    DropDash(x4, g5);
  }

  lemma DropDash(x: string, y: string)
    requires '-' !in y
    ensures RemoveChar(x + "-" + y, '-') == RemoveChar(x, '-') + y
  {
    var xd := x + "-";
    RemoveCharAppend(xd, y, '-');
    RemoveCharAppend(x, "-", '-');
    RemoveCharAbsent(y, '-');
    DashRemoved();
    var rx := RemoveChar(x, '-');
    assert RemoveChar(xd, '-') == rx;
    assert RemoveChar(xd + y, '-') == rx + y;
  }

  lemma DashRemoved()
    ensures RemoveChar("-", '-') == ""
  {
    assert "-"[1..] == "";
    assert RemoveChar("", '-') == "";
  }

  /** Two different UUIDs never get the same compact form, so Rekordbox track keys stay unique. */
  lemma CompactHexInjective(u: Uuid, v: Uuid)
    requires CompactHex(u) == CompactHex(v)
    ensures u == v
  {
    CompactHexIsDigits(u);
    CompactHexIsDigits(v);
    HexInjective(u.value, v.value, 32);
  }

  /** The stand-in for `uuid4()`: an id that none of `inUse` already carries. */
  method FreshId(inUse: set<Uuid>) returns (u: Uuid)
    ensures u !in inUse
  {
    var rest := inUse;
    var bound: nat := 0;
    while rest != {}
      invariant rest <= inUse
      invariant forall v :: v in inUse && v !in rest ==> v.value < bound
      decreases |rest|
    {
      var v :| v in rest;
      if bound <= v.value {
        bound := v.value + 1;
      }
      rest := rest - {v};
    }
    u := Uuid(bound);
  }
}
