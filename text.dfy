/** String primitives the application takes from JavaScript's `String`
    (`toLowerCase`, `toUpperCase`, `includes`, `startsWith`, `replace`,
    `split`, `join`, `trim`) and the `||` fallback on possibly-empty strings.
    Case mapping is ASCII only. */
module Text {
  import opened Wrappers

  // ---------------------------------------------------------------------
  // Case mapping

  predicate IsUpperAscii(c: char) { 'A' <= c <= 'Z' }
  predicate IsLowerAscii(c: char) { 'a' <= c <= 'z' }

  function LowerChar(c: char): (r: char)
    ensures !IsUpperAscii(r)
    ensures IsUpperAscii(c) ==> r as int == c as int + 32
    ensures !IsUpperAscii(c) ==> r == c
  {
    if IsUpperAscii(c) then (c as int + 32) as char else c
  }

  function UpperChar(c: char): (r: char)
    ensures !IsLowerAscii(r)
    ensures IsLowerAscii(c) ==> r as int == c as int - 32
    ensures !IsLowerAscii(c) ==> r == c
  {
    if IsLowerAscii(c) then (c as int - 32) as char else c
  }

  /** `s.toLowerCase()` over ASCII. */
  function Lower(s: string): (r: string)
    ensures |r| == |s|
    ensures forall i :: 0 <= i < |s| ==> r[i] == LowerChar(s[i])
  {
    seq(|s|, i requires 0 <= i < |s| => LowerChar(s[i]))
  }

  /** `s.toUpperCase()` over ASCII. */
  function Upper(s: string): (r: string)
    ensures |r| == |s|
    ensures forall i :: 0 <= i < |s| ==> r[i] == UpperChar(s[i])
  {
    seq(|s|, i requires 0 <= i < |s| => UpperChar(s[i]))
  }

  predicate IsLowerCase(s: string) { forall i :: 0 <= i < |s| ==> !IsUpperAscii(s[i]) }

  lemma LowerIsLowerCase(s: string)
    ensures IsLowerCase(Lower(s))
  {
  }

  lemma LowerOfLowerCase(s: string)
    requires IsLowerCase(s)
    ensures Lower(s) == s
  {
  }

  lemma LowerConcat(a: string, b: string)
    ensures Lower(a + b) == Lower(a) + Lower(b)
  {
  }

  lemma UpperThenLowerChar(c: char)
    ensures LowerChar(UpperChar(c)) == LowerChar(c)
  {
  }

  // ---------------------------------------------------------------------
  // Prefix and substring tests

  /** `s.startsWith(p)`. */
  predicate StartsWith(s: string, p: string) {
    |p| <= |s| && s[..|p|] == p
  }

  /** `t` occurs in `s` at offset `k`. */
  predicate ContainsAt(s: string, t: string, k: nat) {
    k + |t| <= |s| && s[k..k + |t|] == t
  }

  /** `s.includes(t)`. */
  predicate Contains(s: string, t: string) {
    exists k: nat | k <= |s| :: ContainsAt(s, t, k)
  }

  lemma ContainsEmpty(s: string)
    ensures Contains(s, "")
  {
    assert ContainsAt(s, "", 0);
  }

  lemma StartsWithContains(s: string, p: string)
    requires StartsWith(s, p)
    ensures Contains(s, p)
  {
    assert ContainsAt(s, p, 0);
  }

  lemma ContainsSelf(s: string)
    ensures Contains(s, s)
  {
    assert ContainsAt(s, s, 0);
  }

  /** A string longer than `s` never occurs in `s`. */
  lemma ContainsLength(s: string, t: string)
    requires Contains(s, t)
    ensures |t| <= |s|
  {
  }

  /** Two strings of the same length contain each other only when equal. */
  lemma ContainsSameLength(s: string, t: string)
    requires |s| == |t|
    ensures Contains(s, t) <==> s == t
  {
    if s == t { ContainsSelf(s); }
    if Contains(s, t) {
      var k: nat :| k <= |s| && ContainsAt(s, t, k);
      assert k == 0;
    }
  }

  /** Substring containment is transitive. */
  lemma ContainsTransitive(s: string, t: string, u: string)
    requires Contains(s, t) && Contains(t, u)
    ensures Contains(s, u)
  {
    var k: nat :| k <= |s| && ContainsAt(s, t, k);
    var j: nat :| j <= |t| && ContainsAt(t, u, j);
    forall i | 0 <= i < |u| ensures s[k + j + i] == u[i] {
      assert u[i] == t[j + i];
      assert t[j + i] == s[k..k + |t|][j + i];
    }
    assert s[k + j..k + j + |u|] == u;
    assert ContainsAt(s, u, k + j);
  }

  /** A string occurs in anything built around it. */
  lemma ContainsMiddle(a: string, t: string, b: string)
    ensures Contains(a + t + b, t)
  {
    assert (a + t + b)[|a|..|a| + |t|] == t;
    assert ContainsAt(a + t + b, t, |a|);
  }

  /** Every character of a substring occurs in the enclosing string. */
  lemma ContainsKeepsChars(s: string, t: string)
    ensures forall c :: c in t && Contains(s, t) ==> c in s
  {
    if Contains(s, t) {
      var k: nat :| k <= |s| && ContainsAt(s, t, k);
      forall c | c in t ensures c in s {
        var i :| 0 <= i < |t| && t[i] == c;
        assert s[k + i] == c;
      }
    }
  }

  /** A character of `t` that does not occur in `s` rules `t` out as a
      substring of `s`: the practical way to show a literal does not match. */
  lemma NotContainsByChar(s: string, t: string, c: char)
    requires c in t && c !in s
    ensures !Contains(s, t)
  {
    ContainsKeepsChars(s, t);
  }

  /** Lower-casing a word into which `t` occurs puts `Lower(t)` in it too. */
  lemma ContainsLower(s: string, t: string)
    requires Contains(s, t)
    ensures Contains(Lower(s), Lower(t))
  {
    var k: nat :| k <= |s| && ContainsAt(s, t, k);
    assert Lower(s)[k..k + |t|] == Lower(t);
    assert ContainsAt(Lower(s), Lower(t), k);
  }

  lemma ContainsInPrefix(s: string, t: string, n: nat)
    requires n <= |s| && Contains(s[..n], t)
    ensures Contains(s, t)
  {
    var k: nat :| k <= |s[..n]| && ContainsAt(s[..n], t, k);
    assert s[k..k + |t|] == s[..n][k..k + |t|];
    assert ContainsAt(s, t, k);
  }

  lemma ContainsInSuffix(s: string, t: string, n: nat)
    requires n <= |s| && Contains(s[n..], t)
    ensures Contains(s, t)
  {
    var k: nat :| k <= |s[n..]| && ContainsAt(s[n..], t, k);
    assert s[n + k..n + k + |t|] == s[n..][k..k + |t|];
    assert ContainsAt(s, t, n + k);
  }

  // ---------------------------------------------------------------------
  // Character replacement and filtering

  /** `s.replace(/<from>/g, <to>)` for a one-character pattern. */
  function ReplaceChar(s: string, from: char, to: char): (r: string)
    ensures |r| == |s|
    ensures forall i :: 0 <= i < |s| ==> r[i] == (if s[i] == from then to else s[i])
  {
    seq(|s|, i requires 0 <= i < |s| => if s[i] == from then to else s[i])
  }

  predicate IsDigit(c: char) { '0' <= c <= '9' }
  predicate IsPhoneChar(c: char) { IsDigit(c) || c == '+' }

  /** `phone.replace(/[^0-9+]/g, '')`: every character that is neither a
      digit nor '+' is dropped, the rest keep their order. */
  function KeepPhoneChars(s: string): (r: string)
    ensures |r| <= |s|
    ensures forall c :: c in r <==> c in s && IsPhoneChar(c)
  {
    if s == [] then []
    else (if IsPhoneChar(s[0]) then [s[0]] else []) + KeepPhoneChars(s[1..])
  }

  /** On one character the filter keeps exactly a digit or '+'. */
  lemma KeepPhoneCharsChar(c: char)
    ensures KeepPhoneChars([c]) == if IsPhoneChar(c) then [c] else []
  {
    assert [c][1..] == [];
  }

  /** The filter works piece by piece: filtering a concatenation
      concatenates the filtered pieces, so together with KeepPhoneCharsChar
      it fixes the result and its order completely. */
  lemma {:induction false} KeepPhoneCharsConcat(a: string, b: string)
    ensures KeepPhoneChars(a + b) == KeepPhoneChars(a) + KeepPhoneChars(b)
  {
    if a == [] {
      assert a + b == b;
    } else {
      assert (a + b)[0] == a[0] && (a + b)[1..] == a[1..] + b;
      KeepPhoneCharsConcat(a[1..], b);
    }
  }

  /** The filter leaves an already-clean phone number untouched. */
  lemma {:induction false} KeepPhoneCharsOfClean(s: string)
    requires forall c :: c in s ==> IsPhoneChar(c)
    ensures KeepPhoneChars(s) == s
  {
    if s != [] {
      assert s[0] in s;
      assert forall c :: c in s[1..] ==> c in s;
      KeepPhoneCharsOfClean(s[1..]);
      assert s == [s[0]] + s[1..];
    }
  }

  /** The filter is the identity exactly on clean numbers, so cleaning twice
      is cleaning once. */
  lemma KeepPhoneCharsIdempotent(s: string)
    ensures KeepPhoneChars(s) == s <==> forall c :: c in s ==> IsPhoneChar(c)
    ensures KeepPhoneChars(KeepPhoneChars(s)) == KeepPhoneChars(s)
  {
    if forall c :: c in s ==> IsPhoneChar(c) { KeepPhoneCharsOfClean(s); }
    KeepPhoneCharsOfClean(KeepPhoneChars(s));
  }

  // ---------------------------------------------------------------------
  // trim()

  /** The code points ECMAScript's `String.prototype.trim` removes: the
      WhiteSpace and LineTerminator productions of ECMA-262. */
  predicate IsJsWhitespace(c: char) {
    c == '\t' || c == '\U{000B}' || c == '\U{000C}' || c == ' ' || c == '\U{00A0}' ||
    c == '\U{FEFF}' || c == '\U{1680}' || ('\U{2000}' <= c <= '\U{200A}') || c == '\U{202F}' ||
    c == '\U{205F}' || c == '\U{3000}' ||
    c == '\n' || c == '\r' || c == '\U{2028}' || c == '\U{2029}'
  }

  predicate AllWhitespace(s: string) { forall i :: 0 <= i < |s| ==> IsJsWhitespace(s[i]) }

  /** Number of leading whitespace characters. */
  function LeadingSpace(s: string): (n: nat)
    ensures n <= |s|
    ensures AllWhitespace(s[..n])
    ensures n < |s| ==> !IsJsWhitespace(s[n])
  {
    if s == [] || !IsJsWhitespace(s[0]) then 0
    else
      var m := LeadingSpace(s[1..]);
      assert s[..m + 1][1..] == s[1..][..m];
      1 + m
  }

  /** Number of trailing whitespace characters. */
  function TrailingSpace(s: string): (n: nat)
    ensures n <= |s|
    ensures AllWhitespace(s[|s| - n..])
    ensures n < |s| ==> !IsJsWhitespace(s[|s| - n - 1])
  {
    if s == [] || !IsJsWhitespace(s[|s| - 1]) then 0
    else
      var m := TrailingSpace(s[..|s| - 1]);
      TrailingStep(s, m);
      1 + m
  }

  lemma TrailingStep(s: string, m: nat)
    requires s != [] && IsJsWhitespace(s[|s| - 1]) && m < |s|
    requires AllWhitespace(s[..|s| - 1][|s| - 1 - m..])
    ensures AllWhitespace(s[|s| - (m + 1)..])
  {
    var t := s[..|s| - 1];
    var u := s[|s| - (m + 1)..];
    forall i | 0 <= i < |u| ensures IsJsWhitespace(u[i]) {
      if i < m {
        assert u[i] == t[|t| - m..][i];
      }
    }
  }

  /** `s.trim()`: drops the leading and the trailing whitespace. */
  function Trim(s: string): string {
    var i := LeadingSpace(s);
    s[i..|s| - TrailingSpace(s[i..])]
  }

  /** The trimmed string is the longest middle slice of `s` that neither
      starts nor ends with whitespace: everything cut off is whitespace. */
  lemma TrimSpec(s: string)
    ensures var r := Trim(s);
      && (exists i, j :: 0 <= i <= j <= |s| && r == s[i..j] && AllWhitespace(s[..i]) && AllWhitespace(s[j..]))
      && (r != [] ==> !IsJsWhitespace(r[0]) && !IsJsWhitespace(r[|r| - 1]))
  {
    var i := LeadingSpace(s);
    var t := s[i..];
    var n := TrailingSpace(t);
    assert t[|t| - n..] == s[|s| - n..];
    assert Trim(s) == s[i..|s| - n];
  }

  /** Trimming is idempotent. */
  lemma TrimIdempotent(s: string)
    ensures Trim(Trim(s)) == Trim(s)
  {
    TrimSpec(s);
    var r := Trim(s);
    assert LeadingSpace(r) == 0;
    assert r[0..] == r;
    assert TrailingSpace(r) == 0;
  }

  // ---------------------------------------------------------------------
  // split(' ') / join(' ')

  /** `s.split(sep)` for a one-character separator: always at least one
      piece; the empty string gives `[""]`. */
  function Split(s: string, sep: char): (r: seq<string>)
    ensures |r| >= 1
    ensures forall i :: 0 <= i < |r| ==> sep !in r[i]
  {
    if s == [] then [[]]
    else
      var rest := Split(s[1..], sep);
      if s[0] == sep then [[]] + rest
      else [[s[0]] + rest[0]] + rest[1..]
  }

  /** `parts.join(sep)`. */
  function Join(parts: seq<string>, sep: char): string {
    if parts == [] then []
    else if |parts| == 1 then parts[0]
    else parts[0] + [sep] + Join(parts[1..], sep)
  }

  /** Joining the pieces of a split gives back the original string. */
  lemma {:induction false} JoinSplit(s: string, sep: char)
    ensures Join(Split(s, sep), sep) == s
  {
    if s != [] {
      var rest := Split(s[1..], sep);
      JoinSplit(s[1..], sep);
      if s[0] == sep {
        assert Split(s, sep) == [[]] + rest;
        assert ([[]] + rest)[1..] == rest;
      } else {
        var parts := [[s[0]] + rest[0]] + rest[1..];
        if |rest| == 1 {
          assert parts == [[s[0]] + rest[0]];
        } else {
          assert parts[1..] == rest[1..];
          assert Join(rest, sep) == rest[0] + [sep] + Join(rest[1..], sep);
        }
      }
    }
  }

  // ---------------------------------------------------------------------
  // Title case

  /** `w.charAt(0).toUpperCase() + w.slice(1).toLowerCase()`. */
  function Capitalize(w: string): (r: string)
    ensures |r| == |w|
    ensures w != [] ==> r[0] == UpperChar(w[0]) && r[1..] == Lower(w[1..])
  {
    if w == [] then [] else [UpperChar(w[0])] + Lower(w[1..])
  }

  function MapCapitalize(ws: seq<string>): (r: seq<string>)
    ensures |r| == |ws|
    ensures forall i :: 0 <= i < |ws| ==> r[i] == Capitalize(ws[i])
  {
    if ws == [] then [] else [Capitalize(ws[0])] + MapCapitalize(ws[1..])
  }

  /** The source's title case: split on ' ', capitalise every word, join
      with ' '. */
  function TitleCase(s: string): string {
    Join(MapCapitalize(Split(s, ' ')), ' ')
  }

  /** Reference definition, character by character: a character is
      upper-cased when it starts the string or follows a space, and
      lower-cased otherwise. */
  function CaseFrom(s: string, atWordStart: bool): (r: string)
    ensures |r| == |s|
  {
    if s == [] then []
    else if s[0] == ' ' then [' '] + CaseFrom(s[1..], true)
    else [if atWordStart then UpperChar(s[0]) else LowerChar(s[0])] + CaseFrom(s[1..], false)
  }

  /** `CaseFrom` position by position. */
  lemma {:induction false} CaseFromAt(s: string, b: bool, i: nat)
    requires i < |s|
    ensures CaseFrom(s, b)[i] ==
      if s[i] == ' ' then ' '
      else if (if i == 0 then b else s[i - 1] == ' ') then UpperChar(s[i])
      else LowerChar(s[i])
  {
    if i > 0 {
      CaseFromAt(s[1..], s[0] == ' ', i - 1);
    }
  }

  /** Split, capitalise and join agrees with the character-wise reference. */
  lemma TitleCaseIsCaseFrom(s: string)
    ensures TitleCase(s) == CaseFrom(s, true)
  {
    var parts := Split(s, ' ');
    WordsCaseFrom(s, true);
    assert MapCapitalize(parts) == [Capitalize(parts[0])] + MapCapitalize(parts[1..]);
  }

  lemma JoinCons(a: string, rest: seq<string>)
    ensures Join([a] + rest, ' ') == if rest == [] then a else a + [' '] + Join(rest, ' ')
  {
    assert ([a] + rest)[1..] == rest;
  }

  lemma JoinConsChar(c: char, x: string, rest: seq<string>)
    ensures Join([[c] + x] + rest, ' ') == [c] + Join([x] + rest, ' ')
  {
    JoinCons([c] + x, rest);
    JoinCons(x, rest);
  }

  /** Generalisation used to prove TitleCaseIsCaseFrom: the first piece of
      the split is cased according to `b`, every later piece capitalised. */
  lemma {:induction false} WordsCaseFrom(s: string, b: bool)
    ensures
      var parts := Split(s, ' ');
      var first := if b then Capitalize(parts[0]) else Lower(parts[0]);
      Join([first] + MapCapitalize(parts[1..]), ' ') == CaseFrom(s, b)
  {
    if s != [] {
      var rest := Split(s[1..], ' ');
      var tail := MapCapitalize(rest[1..]);
      if s[0] == ' ' {
        WordsCaseFrom(s[1..], true);
        assert Split(s, ' ')[1..] == rest;
        assert MapCapitalize(rest) == [Capitalize(rest[0])] + tail;
        JoinCons([], MapCapitalize(rest));
      } else {
        WordsCaseFrom(s[1..], false);
        var c := if b then UpperChar(s[0]) else LowerChar(s[0]);
        var w := [s[0]] + rest[0];
        assert Split(s, ' ') == [w] + rest[1..];
        assert ([w] + rest[1..])[1..] == rest[1..];
        assert w[1..] == rest[0];
        assert Lower(w) == [LowerChar(s[0])] + Lower(rest[0]);
        assert (if b then Capitalize(w) else Lower(w)) == [c] + Lower(rest[0]);
        JoinConsChar(c, Lower(rest[0]), tail);
      }
    }
  }

  lemma CaseCharFacts(c: char)
    ensures UpperChar(UpperChar(c)) == UpperChar(c)
    ensures LowerChar(LowerChar(c)) == LowerChar(c)
    ensures LowerChar(UpperChar(c)) == LowerChar(c)
    ensures (UpperChar(c) == ' ') == (c == ' ') && (LowerChar(c) == ' ') == (c == ' ')
  {
  }

  /** Title case keeps the length and differs from the input only in case. */
  lemma TitleCaseLowerEquivalent(s: string)
    ensures |TitleCase(s)| == |s|
    ensures Lower(TitleCase(s)) == Lower(s)
  {
    TitleCaseIsCaseFrom(s);
    forall i | 0 <= i < |s| ensures Lower(TitleCase(s))[i] == Lower(s)[i] {
      CaseFromAt(s, true, i);
      CaseCharFacts(s[i]);
    }
  }

  /** One position of TitleCaseIdempotent. */
  lemma CaseFromTwiceAt(s: string, i: nat)
    requires i < |s|
    ensures CaseFrom(CaseFrom(s, true), true)[i] == CaseFrom(s, true)[i]
  {
    var t := CaseFrom(s, true);
    CaseFromAt(s, true, i);
    CaseFromAt(t, true, i);
    CaseCharFacts(s[i]);
    if i > 0 {
      CaseFromAt(s, true, i - 1);
      CaseCharFacts(s[i - 1]);
      assert (t[i - 1] == ' ') == (s[i - 1] == ' ');
    }
    assert (t[i] == ' ') == (s[i] == ' ');
  }

  /** Title case is idempotent. */
  lemma TitleCaseIdempotent(s: string)
    ensures TitleCase(TitleCase(s)) == TitleCase(s)
  {
    var t := TitleCase(s);
    TitleCaseIsCaseFrom(s);
    TitleCaseIsCaseFrom(t);
    forall i | 0 <= i < |s| ensures CaseFrom(t, true)[i] == t[i] {
      CaseFromTwiceAt(s, i);
    }
  }

  // ---------------------------------------------------------------------
  // JavaScript truthiness of an optional string

  /** A present, non-empty string (what `if (x)` accepts). */
  predicate Truthy(o: Option<string>) { o.Some? && o.value != "" }

  /** `x || fallback` on an optional string. */
  function OrElse(o: Option<string>, fallback: string): (r: string)
    ensures Truthy(o) ==> r == o.value
    ensures !Truthy(o) ==> r == fallback
  {
    if Truthy(o) then o.value else fallback
  }

  /** `x || fallback` on a plain string ('' is falsy). */
  function OrElseStr(s: string, fallback: string): (r: string)
    ensures s != "" ==> r == s
    ensures s == "" ==> r == fallback
  {
    if s != "" then s else fallback
  }
}
