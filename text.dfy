/** String helpers shared by the Java backend and the TypeScript client.
    Java's `String.trim` and JavaScript's `String.prototype.trim` strip
    different sets of characters, so both are modelled. Case conversion is
    modelled on the ASCII letters only. */
module Text {

  /** Java `trim()` strips every character whose code is at most U+0020. */
  predicate IsJavaSpace(c: char) {
    c <= ' '
  }

  /** JavaScript `trim()` strips WhiteSpace and LineTerminator characters
      (ECMAScript: TAB, VT, FF, SP, NBSP, ZWNBSP, the Zs category, LF, CR,
      LS and PS). */
  predicate IsJsSpace(c: char) {
    c == '\t' || c == '\n' || c == '\U{000B}' || c == '\U{000C}' || c == '\r' || c == ' '
    || c == '\U{00A0}' || c == '\U{1680}' || ('\U{2000}' <= c <= '\U{200A}')
    || c == '\U{2028}' || c == '\U{2029}' || c == '\U{202F}' || c == '\U{205F}'
    || c == '\U{3000}' || c == '\U{FEFF}'
  }

  /** Drops the leading characters satisfying `ws`. */
  function TrimStart(s: string, ws: char -> bool): (r: string)
    ensures |r| <= |s| && r == s[|s| - |r|..]
    ensures r == [] || !ws(r[0])
    ensures forall i :: 0 <= i < |s| - |r| ==> ws(s[i])
  {
    if s != [] && ws(s[0]) then TrimStart(s[1..], ws) else s
  }

  /** Drops the trailing characters satisfying `ws`. */
  function TrimEnd(s: string, ws: char -> bool): (r: string)
    ensures |r| <= |s| && r == s[..|r|]
    ensures r == [] || !ws(r[|r| - 1])
    ensures forall i :: |r| <= i < |s| ==> ws(s[i])
  {
    if s != [] && ws(s[|s| - 1]) then TrimEnd(s[..|s| - 1], ws) else s
  }

  function Trim(s: string, ws: char -> bool): string {
    TrimEnd(TrimStart(s, ws), ws)
  }

  function JavaTrim(s: string): string {
    Trim(s, IsJavaSpace)
  }

  function JsTrim(s: string): string {
    Trim(s, IsJsSpace)
  }

  /** Trimming removes nothing when `s` has no white space at either end. */
  lemma {:induction false} TrimNoop(s: string, ws: char -> bool)
    requires s == [] || (!ws(s[0]) && !ws(s[|s| - 1]))
    ensures Trim(s, ws) == s
  {
  }

  /** The result of trimming starts and ends with a non-white-space character. */
  lemma TrimEnds(s: string, ws: char -> bool)
    ensures Trim(s, ws) == [] || (!ws(Trim(s, ws)[0]) && !ws(Trim(s, ws)[|Trim(s, ws)| - 1]))
  {
    var t := TrimStart(s, ws);
    var r := TrimEnd(t, ws);
    if r != [] {
      assert r[0] == t[0];
    }
  }

  /** Trimming twice is trimming once. */
  lemma TrimIdempotent(s: string, ws: char -> bool)
    ensures Trim(Trim(s, ws), ws) == Trim(s, ws)
  {
    TrimEnds(s, ws);
    TrimNoop(Trim(s, ws), ws);
  }

  /** The trimmed string is empty exactly when every character is white space. */
  lemma TrimEmptyIff(s: string, ws: char -> bool)
    ensures Trim(s, ws) == [] <==> forall i :: 0 <= i < |s| ==> ws(s[i])
  {
    var t := TrimStart(s, ws);
    if !forall i :: 0 <= i < |s| ==> ws(s[i]) {
      var k :| 0 <= k < |s| && !ws(s[k]);
      assert |s| - |t| <= k;
      assert t[k - (|s| - |t|)] == s[k];
      var r := TrimEnd(t, ws);
      assert k - (|s| - |t|) < |r|;
    }
  }

  /** `!s.trim()` in JavaScript: the string is nothing but white space. */
  predicate JsBlank(s: string) {
    s == [] || (IsJsSpace(s[0]) && JsBlank(s[1..]))
  }

  lemma {:induction false} JsBlankAllSpace(s: string)
    ensures JsBlank(s) <==> forall i :: 0 <= i < |s| ==> IsJsSpace(s[i])
  {
    if s != [] {
      JsBlankAllSpace(s[1..]);
      assert forall i :: 1 <= i < |s| ==> s[i] == s[1..][i - 1];
    }
  }

  /** So a blank string is one that trims to nothing. */
  lemma JsBlankIff(s: string)
    ensures JsBlank(s) <==> JsTrim(s) == []
  {
    JsBlankAllSpace(s);
    TrimEmptyIff(s, IsJsSpace);
  }

  /** Leading white space does not change what TrimStart keeps. */
  lemma {:induction false} TrimStartPadding(w: string, s: string, ws: char -> bool)
    requires forall i :: 0 <= i < |w| ==> ws(w[i])
    ensures TrimStart(w + s, ws) == TrimStart(s, ws)
  {
    if w != [] {
      assert (w + s)[0] == w[0];
      assert (w + s)[1..] == w[1..] + s;
      TrimStartPadding(w[1..], s, ws);
    } else {
      assert w + s == s;
    }
  }

  /** Trailing white space does not change what TrimEnd keeps. */
  lemma {:induction false} TrimEndPadding(s: string, w: string, ws: char -> bool)
    requires forall i :: 0 <= i < |w| ==> ws(w[i])
    ensures TrimEnd(s + w, ws) == TrimEnd(s, ws)
  {
    if w != [] {
      var w' := w[..|w| - 1];
      assert (s + w)[|s + w| - 1] == w[|w| - 1];
      assert (s + w)[..|s + w| - 1] == s + w';
      TrimEndPadding(s, w', ws);
    } else {
      assert s + w == s;
    }
  }

  /** TrimStart commutes with appending a tail when something non-blank stays. */
  lemma {:induction false} TrimStartAppend(s: string, w: string, ws: char -> bool)
    requires TrimStart(s, ws) != []
    ensures TrimStart(s + w, ws) == TrimStart(s, ws) + w
  {
    if s != [] && ws(s[0]) {
      assert (s + w)[1..] == s[1..] + w;
      TrimStartAppend(s[1..], w, ws);
    }
  }

  /** White space around a string does not change its trimmed form. */
  lemma TrimPadding(w1: string, s: string, w2: string, ws: char -> bool)
    requires forall i :: 0 <= i < |w1| ==> ws(w1[i])
    requires forall i :: 0 <= i < |w2| ==> ws(w2[i])
    ensures Trim(w1 + s + w2, ws) == Trim(s, ws)
  {
    if TrimStart(s, ws) == [] {
      BlankPadding(w1, s, w2, ws);
    } else {
      var tail := s + w2;
      assert w1 + s + w2 == w1 + tail;
      TrimStartPadding(w1, tail, ws);
      var t := TrimStart(s, ws);
      TrimStartAppend(s, w2, ws);
      assert TrimStart(w1 + s + w2, ws) == t + w2;
      TrimEndPadding(t, w2, ws);
    }
  }

  lemma BlankPadding(w1: string, s: string, w2: string, ws: char -> bool)
    requires forall i :: 0 <= i < |w1| ==> ws(w1[i])
    requires forall i :: 0 <= i < |w2| ==> ws(w2[i])
    requires TrimStart(s, ws) == []
    ensures Trim(w1 + s + w2, ws) == [] && Trim(s, ws) == []
  {
    TrimEmptyIff(s, ws);
    var t := w1 + s + w2;
    forall i | 0 <= i < |t|
      ensures ws(t[i])
    {
      if i < |w1| {
        assert t[i] == w1[i];
      } else if i < |w1| + |s| {
        assert t[i] == s[i - |w1|];
      } else {
        assert t[i] == w2[i - |w1| - |s|];
      }
    }
    TrimEmptyIff(t, ws);
  }

  /** A last character outside `ws` survives trimming, as the last one. */
  lemma TrimKeepsLastNonSpace(s: string, ws: char -> bool)
    requires s != [] && !ws(s[|s| - 1])
    ensures Trim(s, ws) != [] && Trim(s, ws)[|Trim(s, ws)| - 1] == s[|s| - 1]
  {
    var t := TrimStart(s, ws);
    assert t != [] && t[|t| - 1] == s[|s| - 1];
  }

  lemma {:induction false} TrimStartAgree(s: string, ws1: char -> bool, ws2: char -> bool)
    requires forall i :: 0 <= i < |s| ==> ws1(s[i]) == ws2(s[i])
    ensures TrimStart(s, ws1) == TrimStart(s, ws2)
    decreases |s|
  {
    if s != [] {
      TrimStartAgree(s[1..], ws1, ws2);
    }
  }

  lemma {:induction false} TrimEndAgree(s: string, ws1: char -> bool, ws2: char -> bool)
    requires forall i :: 0 <= i < |s| ==> ws1(s[i]) == ws2(s[i])
    ensures TrimEnd(s, ws1) == TrimEnd(s, ws2)
    decreases |s|
  {
    if s != [] {
      TrimEndAgree(s[..|s| - 1], ws1, ws2);
    }
  }

  /** Two white-space sets that agree on every character of `s` trim it alike. */
  lemma TrimAgree(s: string, ws1: char -> bool, ws2: char -> bool)
    requires forall i :: 0 <= i < |s| ==> ws1(s[i]) == ws2(s[i])
    ensures Trim(s, ws1) == Trim(s, ws2)
  {
    TrimStartAgree(s, ws1, ws2);
    var t := TrimStart(s, ws1);
    assert forall i :: 0 <= i < |t| ==> t[i] == s[|s| - |t| + i];
    TrimEndAgree(t, ws1, ws2);
  }

  /** ASCII lower-casing of one character. */
  function LowerChar(c: char): char {
    if 'A' <= c <= 'Z' then (c as int + 32) as char else c
  }

  /** ASCII upper-casing of one character. */
  function UpperChar(c: char): char {
    if 'a' <= c <= 'z' then (c as int - 32) as char else c
  }

  /** `toLowerCase()`, restricted to ASCII letters. */
  function ToLower(s: string): (r: string)
    ensures |r| == |s|
    ensures forall i :: 0 <= i < |s| ==> r[i] == LowerChar(s[i])
  {
    if s == [] then [] else [LowerChar(s[0])] + ToLower(s[1..])
  }

  /** `toUpperCase()`, restricted to ASCII letters. */
  function ToUpper(s: string): (r: string)
    ensures |r| == |s|
    ensures forall i :: 0 <= i < |s| ==> r[i] == UpperChar(s[i])
  {
    if s == [] then [] else [UpperChar(s[0])] + ToUpper(s[1..])
  }

  lemma {:induction false} LowerAppend(a: string, b: string)
    ensures ToLower(a + b) == ToLower(a) + ToLower(b)
  {
    var l, r := ToLower(a + b), ToLower(a) + ToLower(b);
    forall i | 0 <= i < |a + b|
      ensures l[i] == r[i]
    {
      if i < |a| {
        assert (a + b)[i] == a[i] && r[i] == ToLower(a)[i];
      } else {
        assert (a + b)[i] == b[i - |a|] && r[i] == ToLower(b)[i - |a|];
      }
    }
  }

  /** Lower-casing is idempotent and forgets the original case. */
  lemma LowerForgetsCase(s: string)
    ensures ToLower(ToLower(s)) == ToLower(s)
    ensures ToLower(ToUpper(s)) == ToLower(s)
  {
    assert forall i :: 0 <= i < |s| ==> ToLower(ToLower(s))[i] == ToLower(s)[i];
    assert forall i :: 0 <= i < |s| ==> ToLower(ToUpper(s))[i] == ToLower(s)[i];
  }

  lemma {:induction false} LowerTrimStart(s: string, ws: char -> bool)
    requires forall c :: ws(LowerChar(c)) == ws(c)
    ensures TrimStart(ToLower(s), ws) == ToLower(TrimStart(s, ws))
  {
    if s != [] {
      assert ToLower(s)[1..] == ToLower(s[1..]);
      if ws(s[0]) {
        LowerTrimStart(s[1..], ws);
      }
    }
  }

  lemma {:induction false} LowerTrimEnd(s: string, ws: char -> bool)
    requires forall c :: ws(LowerChar(c)) == ws(c)
    ensures TrimEnd(ToLower(s), ws) == ToLower(TrimEnd(s, ws))
  {
    if s != [] {
      var s' := s[..|s| - 1];
      assert ToLower(s)[..|s| - 1] == ToLower(s');
      if ws(s[|s| - 1]) {
        LowerTrimEnd(s', ws);
      }
    }
  }

  /** Lower-casing and trimming commute when lower-casing never turns a
      character into white space or out of it. */
  lemma LowerTrimCommute(s: string, ws: char -> bool)
    requires forall c :: ws(LowerChar(c)) == ws(c)
    ensures Trim(ToLower(s), ws) == ToLower(Trim(s, ws))
  {
    LowerTrimStart(s, ws);
    LowerTrimEnd(TrimStart(s, ws), ws);
  }

  lemma JavaSpaceCaseless()
    ensures forall c :: IsJavaSpace(LowerChar(c)) == IsJavaSpace(c)
  {
  }

  lemma JsSpaceCaseless()
    ensures forall c :: IsJsSpace(LowerChar(c)) == IsJsSpace(c)
  {
  }

  predicate EndsWith(s: string, suffix: string) {
    |suffix| <= |s| && s[|s| - |suffix|..] == suffix
  }

  predicate StartsWith(s: string, prefix: string) {
    |prefix| <= |s| && s[..|prefix|] == prefix
  }

  // ---- string length as Java `length()` and JavaScript `.length` count it ----

  /** Characters outside the Basic Multilingual Plane take a surrogate pair. */
  function Utf16Units(c: char): nat {
    if c as int >= 0x1_0000 then 2 else 1
  }

  /** The number of UTF-16 code units of `s`. */
  function Utf16Length(s: string): (n: nat)
    ensures |s| <= n <= 2 * |s|
    ensures n == |s| <==> forall i :: 0 <= i < |s| ==> (s[i] as int) < 0x1_0000
  {
    if s == [] then 0
    else
      var n := Utf16Units(s[0]) + Utf16Length(s[1..]);
      assert forall i :: 1 <= i < |s| ==> s[i] == s[1..][i - 1];
      n
  }

  lemma {:induction false} Utf16LengthAppend(a: string, b: string)
    ensures Utf16Length(a + b) == Utf16Length(a) + Utf16Length(b)
  {
    if a == [] {
      assert a + b == b;
    } else {
      assert (a + b)[1..] == a[1..] + b;
      Utf16LengthAppend(a[1..], b);
    }
  }

  // ---- decimal rendering of integers, as JavaScript template literals print them ----

  function DigitChar(d: nat): char
    requires d < 10
  {
    ('0' as int + d) as char
  }

  predicate IsDigit(c: char) {
    '0' <= c <= '9'
  }

  function DigitValue(c: char): nat
    requires IsDigit(c)
  {
    c as int - '0' as int
  }

  /** The decimal digits of `n`, most significant first, with no leading zero. */
  function NatToString(n: nat): (r: string)
    ensures r != [] && forall i :: 0 <= i < |r| ==> IsDigit(r[i])
    ensures |r| > 1 ==> r[0] != '0'
  {
    if n < 10 then [DigitChar(n)] else NatToString(n / 10) + [DigitChar(n % 10)]
  }

  /** `${i}` for an integer `i`: a minus sign before the digits of `-i`. */
  function IntToString(i: int): string {
    if i < 0 then "-" + NatToString(-i) else NatToString(i)
  }

  /** Reads a string of decimal digits back as a number. */
  function ParseNat(s: string): nat
    requires forall i :: 0 <= i < |s| ==> IsDigit(s[i])
  {
    if s == [] then 0 else ParseNat(s[..|s| - 1]) * 10 + DigitValue(s[|s| - 1])
  }

  /** Printing and reading back a number gives the number. */
  lemma {:induction false} NatToStringRoundTrip(n: nat)
    ensures ParseNat(NatToString(n)) == n
  {
    if n >= 10 {
      var s := NatToString(n);
      assert s[..|s| - 1] == NatToString(n / 10);
      NatToStringRoundTrip(n / 10);
    }
  }

  /** Distinct numbers print differently. */
  lemma NatToStringInjective(m: nat, n: nat)
    requires NatToString(m) == NatToString(n)
    ensures m == n
  {
    NatToStringRoundTrip(m);
    NatToStringRoundTrip(n);
  }
}
