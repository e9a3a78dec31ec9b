/** The map-link helpers: `generateMapsUrl`, which percent-encodes the
    address with `encodeURIComponent` (section 18.2.6.5 of ECMA-262, 6th
    edition, by way of the abstract operation Encode of section 18.2.6.1.1)
    and wraps it in a geo: or a web link, and `isExternalUrl`. */
module Maps {
  import opened Wrappers
  import opened Text
  import opened Locations

  // ---------------------------------------------------------------------
  // Percent-encoding

  /** uriUnreserved: letters, decimal digits and the marks - _ . ! ~ * ' ( ). */
  predicate Unreserved(c: char) {
    ('a' <= c <= 'z') || ('A' <= c <= 'Z') || ('0' <= c <= '9')
    || c == '-' || c == '_' || c == '.' || c == '!' || c == '~' || c == '*' || c == '\'' || c == '(' || c == ')'
  }

  predicate UnreservedUnit(u: CodeUnit) {
    u < 0x80 && Unreserved(u as char)
  }

  predicate IsLead(u: CodeUnit) { 0xD800 <= u <= 0xDBFF }

  predicate IsTrail(u: CodeUnit) { 0xDC00 <= u <= 0xDFFF }

  /** The code point of a surrogate pair. */
  function PairValue(lead: CodeUnit, trail: CodeUnit): (v: int)
    requires IsLead(lead) && IsTrail(trail)
    ensures 0x1_0000 <= v < 0x11_0000
  {
    (lead - 0xD800) * 0x400 + (trail - 0xDC00) + 0x1_0000
  }

  predicate IsHexDigit(c: char) {
    ('0' <= c <= '9') || ('A' <= c <= 'F')
  }

  function HexDigit(n: int): (c: char)
    requires 0 <= n < 16
    ensures IsHexDigit(c)
  {
    if n < 10 then ('0' as int + n) as char else ('A' as int + n - 10) as char
  }

  function HexValue(c: char): int
    requires IsHexDigit(c)
  {
    if c <= '9' then c as int - '0' as int else c as int - 'A' as int + 10
  }

  /** "%XY", the octet `b` in two upper-case hex digits; the digits read
      back as `b`. */
  function Escape(b: int): (r: string)
    requires 0 <= b < 256
    ensures |r| == 3 && r[0] == '%' && IsHexDigit(r[1]) && IsHexDigit(r[2])
    ensures 16 * HexValue(r[1]) + HexValue(r[2]) == b
  {
    ['%', HexDigit(b / 16), HexDigit(b % 16)]
  }

  predicate IsOctets(b: seq<int>) {
    forall i :: 0 <= i < |b| ==> 0 <= b[i] < 256
  }

  function EscapeAll(b: seq<int>): (r: string)
    requires IsOctets(b)
    ensures |r| == 3 * |b|
  {
    if b == [] then [] else Escape(b[0]) + EscapeAll(b[1..])
  }

  /** The UTF-8 octets of code point `v` (Table 3 of section 18.2.6.1.1):
      one octet below 0x80, then two, three or four. */
  function Utf8(v: int): (r: seq<int>)
    requires 0 <= v < 0x11_0000
    ensures 1 <= |r| <= 4 && IsOctets(r)
    ensures |r| == 1 <==> v < 0x80
    ensures |r| == 2 <==> 0x80 <= v < 0x800
    ensures |r| == 4 <==> 0x1_0000 <= v
  {
    if v < 0x80 then [v]
    else if v < 0x800 then [0xC0 + v / 64, 0x80 + v % 64]
    else if v < 0x1_0000 then [0xE0 + v / 4096, 0x80 + v / 64 % 64, 0x80 + v % 64]
    else [0xF0 + v / 0x4_0000, 0x80 + v / 4096 % 64, 0x80 + v / 64 % 64, 0x80 + v % 64]
  }

  /** Reads a code point back from its octets. */
  function Utf8Decode(b: seq<int>): int
    requires 1 <= |b| <= 4
  {
    if |b| == 1 then b[0]
    else if |b| == 2 then (b[0] - 0xC0) * 64 + (b[1] - 0x80)
    else if |b| == 3 then ((b[0] - 0xE0) * 64 + (b[1] - 0x80)) * 64 + (b[2] - 0x80)
    else (((b[0] - 0xF0) * 64 + (b[1] - 0x80)) * 64 + (b[2] - 0x80)) * 64 + (b[3] - 0x80)
  }

  /** `Some(p + r)` for `Some(r)`; a thrown error propagates. */
  function Prepend(p: string, o: Option<string>): (r: Option<string>)
    ensures r.Some? <==> o.Some?
    ensures r.Some? ==> r.value == p + o.value
  {
    if o.Some? then Some(p + o.value) else None
  }

  /** `encodeURIComponent`: `None` is the URIError thrown for an unpaired
      surrogate. Unreserved units are copied, every other code point is
      written as the escapes of its UTF-8 octets. */
  function Encode(s: seq<CodeUnit>): Option<string>
    decreases |s|
  {
    if s == [] then Some("")
    else if UnreservedUnit(s[0]) then Prepend([s[0] as char], Encode(s[1..]))
    else if IsTrail(s[0]) then None
    else if !IsLead(s[0]) then Prepend(EscapeAll(Utf8(s[0])), Encode(s[1..]))
    else if |s| == 1 || !IsTrail(s[1]) then None
    else Prepend(EscapeAll(Utf8(PairValue(s[0], s[1]))), Encode(s[2..]))
  }

  // ---------------------------------------------------------------------
  // What the encoding guarantees

  /** A lead surrogate not followed by a trail one, or a trail surrogate
      not preceded by a lead one, at position `i`. */
  predicate LoneAt(s: seq<CodeUnit>, i: nat)
    requires i < |s|
  {
    (IsLead(s[i]) && (i + 1 == |s| || !IsTrail(s[i + 1])))
    || (IsTrail(s[i]) && (i == 0 || !IsLead(s[i - 1])))
  }

  predicate HasLoneSurrogate(s: seq<CodeUnit>) {
    exists i: nat | i < |s| :: LoneAt(s, i)
  }

  /** A string made of unreserved characters and "%XY" escapes. */
  predicate WellEscaped(r: string)
    decreases |r|
  {
    if r == [] then true
    else if Unreserved(r[0]) then WellEscaped(r[1..])
    else |r| >= 3 && r[0] == '%' && IsHexDigit(r[1]) && IsHexDigit(r[2]) && WellEscaped(r[3..])
  }

  lemma {:induction false} WellEscapedConcat(a: string, b: string)
    requires WellEscaped(a) && WellEscaped(b)
    ensures WellEscaped(a + b)
    decreases |a|
  {
    if a == [] {
      assert a + b == b;
    } else {
      var k := if Unreserved(a[0]) then 1 else 3;
      WellEscapedConcat(a[k..], b);
      ConcatStep(a, b, k);
    }
  }

  /** The first unit of `a`, an unreserved character or an escape of
      length `k`, stays first in `a + b`. */
  lemma ConcatStep(a: string, b: string, k: nat)
    requires a != [] && WellEscaped(a) && k == (if Unreserved(a[0]) then 1 else 3)
    requires WellEscaped(a[k..] + b)
    ensures WellEscaped(a + b)
  {
    var ab := a + b;
    assert ab[..k] == a[..k];
    assert ab[k..] == a[k..] + b;
  }

  lemma {:induction false} EscapeAllWellEscaped(b: seq<int>)
    requires IsOctets(b)
    ensures WellEscaped(EscapeAll(b))
  {
    if b != [] {
      EscapeAllWellEscaped(b[1..]);
      var e := Escape(b[0]);
      assert (e + EscapeAll(b[1..]))[3..] == EscapeAll(b[1..]);
    }
  }

  /** Every character of a well-escaped string is unreserved, '%' or a hex
      digit; in particular it holds no space and no comma. */
  lemma {:induction false} WellEscapedChars(r: string)
    requires WellEscaped(r)
    ensures forall i :: 0 <= i < |r| ==> Unreserved(r[i]) || r[i] == '%' || IsHexDigit(r[i])
    ensures ' ' !in r && ',' !in r
    decreases |r|
  {
    if r != [] {
      var k := if Unreserved(r[0]) then 1 else 3;
      WellEscapedChars(r[k..]);
      forall i | 0 <= i < |r| ensures Unreserved(r[i]) || r[i] == '%' || IsHexDigit(r[i]) {
        if i >= k {
          assert r[i] == r[k..][i - k];
        }
      }
    }
  }

  /** A successful encoding is well escaped. */
  lemma {:induction false} EncodeWellEscaped(s: seq<CodeUnit>)
    requires Encode(s).Some?
    ensures WellEscaped(Encode(s).value)
    decreases |s|
  {
    if s != [] {
      if UnreservedUnit(s[0]) {
        EncodeWellEscaped(s[1..]);
        var r := [s[0] as char] + Encode(s[1..]).value;
        assert r[1..] == Encode(s[1..]).value;
      } else if !IsLead(s[0]) {
        EncodeWellEscaped(s[1..]);
        EscapeAllWellEscaped(Utf8(s[0]));
        WellEscapedConcat(EscapeAll(Utf8(s[0])), Encode(s[1..]).value);
      } else {
        EncodeWellEscaped(s[2..]);
        EscapeAllWellEscaped(Utf8(PairValue(s[0], s[1])));
        WellEscapedConcat(EscapeAll(Utf8(PairValue(s[0], s[1]))), Encode(s[2..]).value);
      }
    }
  }

  /** The encoding fails exactly when the string holds an unpaired
      surrogate. */
  lemma {:induction false} EncodeFailsIffLone(s: seq<CodeUnit>)
    ensures Encode(s).None? <==> HasLoneSurrogate(s)
    decreases |s|
  {
    if s == [] {
    } else if IsTrail(s[0]) {
      assert LoneAt(s, 0);
    } else if IsLead(s[0]) && (|s| == 1 || !IsTrail(s[1])) {
      assert LoneAt(s, 0);
    } else {
      var k := if IsLead(s[0]) then 2 else 1;
      EncodeFailsIffLone(s[k..]);
      LoneShift(s, k);
    }
  }

  /** Past a leading non-surrogate unit, or a leading pair, the unpaired
      surrogates are those of the rest. */
  lemma LoneShift(s: seq<CodeUnit>, k: nat)
    requires 1 <= k <= |s| && !IsTrail(s[0])
    requires k == 1 ==> !IsLead(s[0])
    requires k == 2 ==> IsLead(s[0]) && IsTrail(s[1])
    requires k <= 2
    ensures HasLoneSurrogate(s) <==> HasLoneSurrogate(s[k..])
  {
    var t := s[k..];
    if HasLoneSurrogate(s) {
      var i: nat :| i < |s| && LoneAt(s, i);
      assert i >= k;
      assert LoneAt(t, i - k);
    }
    if HasLoneSurrogate(t) {
      var j: nat :| j < |t| && LoneAt(t, j);
      assert LoneAt(s, j + k);
    }
  }

  /** A string of unreserved ASCII characters is left as it is. */
  lemma {:induction false} EncodeUnreserved(s: seq<CodeUnit>)
    requires forall i :: 0 <= i < |s| ==> UnreservedUnit(s[i])
    ensures Encode(s).Some?
    ensures |Encode(s).value| == |s|
    ensures forall i :: 0 <= i < |s| ==> Encode(s).value[i] as int == s[i]
    decreases |s|
  {
    if s != [] {
      EncodeUnreserved(s[1..]);
      var r := Encode(s).value;
      assert r == [s[0] as char] + Encode(s[1..]).value;
      forall i | 1 <= i < |s| ensures r[i] as int == s[i] {
        assert r[i] == Encode(s[1..]).value[i - 1];
      }
    }
  }

  /** A space and a comma, the separators of the query, become "%20" and
      "%2C". */
  lemma SeparatorEscapes()
    ensures Encode([0x20]) == Some("%20")
    ensures Encode([0x2C]) == Some("%2C")
  {
    assert !Unreserved(' ') && !Unreserved(',');
    assert [0x20][1..] == [] && [0x2C][1..] == [];
    assert EscapeAll([0x20]) == Escape(0x20) == ['%', HexDigit(2), HexDigit(0)];
    assert EscapeAll([0x2C]) == Escape(0x2C) == ['%', HexDigit(2), HexDigit(12)];
  }

  lemma DivDiv64(v: int)
    requires v >= 0
    ensures v / 4096 == v / 64 / 64
  {
    var q := v / 64;
    assert v == 64 * q + v % 64;
    assert q == 64 * (q / 64) + q % 64;
    assert v == 4096 * (q / 64) + (64 * (q % 64) + v % 64);
  }

  /** Reading the octets back gives the code point. */
  lemma Utf8RoundTrip(v: int)
    requires 0 <= v < 0x11_0000
    ensures Utf8Decode(Utf8(v)) == v
  {
    DivDiv64(v);
    DivDiv64(v / 64);
    assert v == (v / 64) * 64 + v % 64;
    assert v / 64 == (v / 4096) * 64 + v / 64 % 64;
    assert v / 4096 == (v / 0x4_0000) * 64 + v / 4096 % 64;
  }

  // ---------------------------------------------------------------------
  // The link

  /** "<street>, <district>, <city>, Vietnam" as code units. */
  function QueryText(addr: Address): seq<CodeUnit> {
    DistrictAscii(addr.district);
    addr.street + AsciiUnits(", ") + AsciiUnits(addr.district.Value()) + AsciiUnits(", ")
    + addr.city + AsciiUnits(", Vietnam")
  }

  lemma DistrictAscii(d: District)
    ensures forall i :: 0 <= i < |d.Value()| ==> d.Value()[i] as int < 0x80
  {
  }

  // Each prefix is written as its four-character scheme followed by the
  // rest, so that proofs can see the scheme as the first four characters.
  const MobilePrefix := "geo:" + "0,0?q="
  const WebPrefix := "http" + "s://www.google.com/maps/search/?api=1&query="

  /** `generateMapsUrl`; `isMobile` is the user-agent test. The catch
      branch returns '#'. */
  function GenerateMapsUrl(addr: Address, isMobile: bool): (r: string)
    ensures r == "#" <==> HasLoneSurrogate(QueryText(addr))
    ensures r != "#" ==> StartsWith(r, if isMobile then MobilePrefix else WebPrefix)
  {
    EncodeFailsIffLone(QueryText(addr));
    var encoded := Encode(QueryText(addr));
    if encoded.None? then "#"
    else if isMobile then MobilePrefix + encoded.value
    else WebPrefix + encoded.value
  }

  /** `isExternalUrl`. */
  predicate IsExternalUrl(url: string) {
    StartsWith(url, "http") || StartsWith(url, "geo:")
  }

  /** Every link the builder returns is external; its fallback is not. */
  lemma MapsUrlIsExternal(addr: Address, isMobile: bool)
    ensures IsExternalUrl(GenerateMapsUrl(addr, isMobile)) <==> !HasLoneSurrogate(QueryText(addr))
  {
    var r := GenerateMapsUrl(addr, isMobile);
    var prefix := if isMobile then MobilePrefix else WebPrefix;
    if r != "#" {
      assert r[..|prefix|] == prefix;
      assert r[..4] == prefix[..4];
      if isMobile {
        assert prefix[..4] == "geo:";
      } else {
        assert prefix[..4] == "http";
      }
    }
  }

  /** After the prefix comes the encoded query: unreserved characters and
      escapes only, no raw space or comma. */
  lemma MapsUrlQueryEncoded(addr: Address, isMobile: bool)
    requires !HasLoneSurrogate(QueryText(addr))
    ensures var prefix := if isMobile then MobilePrefix else WebPrefix;
      var q := GenerateMapsUrl(addr, isMobile)[|prefix|..];
      && Some(q) == Encode(QueryText(addr))
      && WellEscaped(q) && ' ' !in q && ',' !in q
  {
    EncodeFailsIffLone(QueryText(addr));
    EncodeWellEscaped(QueryText(addr));
    WellEscapedChars(Encode(QueryText(addr)).value);
    var prefix := if isMobile then MobilePrefix else WebPrefix;
    assert GenerateMapsUrl(addr, isMobile) == prefix + Encode(QueryText(addr)).value;
  }

  /** The check is a prefix test only: any 'http…' string counts, a
      fragment does not. */
  lemma IsExternalUrlExamples()
    ensures IsExternalUrl("httpx")
    ensures !IsExternalUrl("#")
    ensures !IsExternalUrl("mailto:x")
  {
    assert "httpx"[..4] == "http";
    assert "mailto:x"[..4][0] == 'm';
  }
}
