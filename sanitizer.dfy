/** The allow-list sanitizer that each validator file defines for its own
    punctuation set (`sanitizeCpf`, `sanitizeCnpj`, `sanitizePhone`,
    `sanitizeCep`): trim, accept only digits and the allowed punctuation,
    remove that punctuation, and demand that a non-empty digit string is left. */
module Sanitizer {
  import opened Wrappers

  /** `\d` in a JavaScript regular expression: the ASCII digits only. */
  predicate IsDigit(c: char) {
    '0' <= c <= '9'
  }

  function DigitValue(c: char): (v: int)
    requires IsDigit(c)
    ensures 0 <= v <= 9
  {
    c as int - '0' as int
  }

  /** The character for a digit value 0..9. */
  function DigitChar(v: int): (c: char)
    requires 0 <= v <= 9
    ensures IsDigit(c) && DigitValue(c) == v
  {
    ('0' as int + v) as char
  }

  /** Every character a digit (the empty string included). */
  predicate DigitsOnly(s: string) {
    forall i | 0 <= i < |s| :: IsDigit(s[i])
  }

  lemma DigitValueInjective(c: char, e: char)
    requires IsDigit(c) && IsDigit(e) && DigitValue(c) == DigitValue(e)
    ensures c == e
  {
  }

  /** `/^\d+$/`: at least one character, and every character a digit. */
  predicate AllDigits(s: string) {
    |s| > 0 && DigitsOnly(s)
  }

  /** `/^(\d)\1+$/` on a digit string: at least two characters, all the same. */
  predicate AllSameDigit(s: string) {
    |s| >= 2 && forall i | 0 <= i < |s| :: s[i] == s[0]
  }

  predicate HasDigit(s: string) {
    exists i | 0 <= i < |s| :: IsDigit(s[i])
  }

  /** A punctuation set that cannot be confused with the digits. */
  predicate Punctuation(p: set<char>) {
    forall c | c in p :: !IsDigit(c)
  }

  /** What `String.prototype.trim` removes: the ECMAScript WhiteSpace and
      LineTerminator code points. */
  const Whitespace: set<char> := {
    '\t', '\n', '\U{B}', '\U{C}', '\r', ' ', '\U{A0}', '\U{1680}',
    '\U{2000}', '\U{2001}', '\U{2002}', '\U{2003}', '\U{2004}', '\U{2005}',
    '\U{2006}', '\U{2007}', '\U{2008}', '\U{2009}', '\U{200A}',
    '\U{2028}', '\U{2029}', '\U{202F}', '\U{205F}', '\U{3000}', '\U{FEFF}'
  }

  predicate IsWhitespace(c: char) {
    c in Whitespace
  }

  /** Drops the leading whitespace. */
  function TrimStart(s: string): (r: string)
    ensures |r| <= |s|
  {
    if s != [] && IsWhitespace(s[0]) then TrimStart(s[1..]) else s
  }

  /** Drops the trailing whitespace. */
  function TrimEnd(s: string): (r: string)
    ensures |r| <= |s|
  {
    if s != [] && IsWhitespace(s[|s| - 1]) then TrimEnd(s[..|s| - 1]) else s
  }

  /** `value.trim()` */
  function Trim(s: string): string {
    TrimEnd(TrimStart(s))
  }

  /** What `TrimStart` leaves is a suffix of `s`, everything it dropped is
      whitespace, and what is left does not start with whitespace. */
  lemma {:induction false} TrimStartSpec(s: string)
    ensures s[|s| - |TrimStart(s)|..] == TrimStart(s)
    ensures forall i | 0 <= i < |s| - |TrimStart(s)| :: IsWhitespace(s[i])
    ensures TrimStart(s) != [] ==> !IsWhitespace(TrimStart(s)[0])
  {
    if s != [] && IsWhitespace(s[0]) {
      TrimStartSpec(s[1..]);
      assert s[1..][|s| - 1 - |TrimStart(s)|..] == s[|s| - |TrimStart(s)|..];
      forall i | 0 <= i < |s| - |TrimStart(s)| ensures IsWhitespace(s[i]) {
        if i > 0 {
          assert s[i] == s[1..][i - 1];
        }
      }
    }
  }

  /** What `TrimEnd` leaves is a prefix of `s`, everything it dropped is
      whitespace, and what is left does not end with whitespace. */
  lemma {:induction false} TrimEndSpec(s: string)
    ensures s[..|TrimEnd(s)|] == TrimEnd(s)
    ensures forall i | |TrimEnd(s)| <= i < |s| :: IsWhitespace(s[i])
    ensures TrimEnd(s) != [] ==> !IsWhitespace(TrimEnd(s)[|TrimEnd(s)| - 1])
  {
    if s != [] && IsWhitespace(s[|s| - 1]) {
      TrimEndSpec(s[..|s| - 1]);
      forall i | |TrimEnd(s)| <= i < |s| ensures IsWhitespace(s[i]) {
        if i < |s| - 1 {
          assert s[i] == s[..|s| - 1][i];
        }
      }
    }
  }

  predicate WhitespaceOnly(t: string) {
    forall i | 0 <= i < |t| :: IsWhitespace(t[i])
  }

  /** `s` is `r` with only whitespace before it (the first `k` characters) and after it. */
  predicate Padded(s: string, k: nat, r: string) {
    k + |r| <= |s| && s[k..k + |r|] == r && WhitespaceOnly(s[..k]) && WhitespaceOnly(s[k + |r|..])
  }

  /** `Trim(s)` is `s` with a whitespace prefix and a whitespace suffix cut
      off, and neither of its ends is whitespace. */
  lemma TrimSpec(s: string)
    ensures exists k: nat :: Padded(s, k, Trim(s))
    ensures Trim(s) != [] ==> !IsWhitespace(Trim(s)[0]) && !IsWhitespace(Trim(s)[|Trim(s)| - 1])
  {
    var t := TrimStart(s);
    var r := TrimEnd(t);
    assert r == Trim(s);
    var k := |s| - |t|;
    TrimStartSpec(s);
    TrimEndSpec(t);
    TrimPrefixWhitespace(s, t);
    TrimSuffixWhitespace(s, t, r);
    assert Padded(s, k, r);
    if r != [] {
      assert r[0] == t[0];
    }
  }

  /** When the characters of `s` before its suffix `t` are whitespace, so is
      the prefix they form. */
  lemma TrimPrefixWhitespace(s: string, t: string)
    requires |t| <= |s|
    requires forall i | 0 <= i < |s| - |t| :: IsWhitespace(s[i])
    ensures WhitespaceOnly(s[..|s| - |t|])
  {
    var k := |s| - |t|;
    forall i | 0 <= i < k ensures IsWhitespace(s[..k][i]) {
      assert s[..k][i] == s[i];
    }
  }

  /** When `t` is a suffix of `s` and `r` is `t` with whitespace cut off its
      end, what follows `r` in `s` is whitespace. */
  lemma TrimSuffixWhitespace(s: string, t: string, r: string)
    requires |t| <= |s| && |r| <= |t|
    requires s[|s| - |t|..] == t && t[..|r|] == r
    requires forall i | |r| <= i < |t| :: IsWhitespace(t[i])
    ensures s[|s| - |t|..|s| - |t| + |r|] == r
    ensures WhitespaceOnly(s[|s| - |t| + |r|..])
  {
    var k := |s| - |t|;
    assert s[k..k + |r|] == t[..|r|];
    var tail := s[k + |r|..];
    forall i | 0 <= i < |tail| ensures IsWhitespace(tail[i]) {
      assert tail[i] == t[i + |r|];
    }
  }

  /** Each character a digit or in `p`. */
  predicate Allowed(s: string, p: set<char>) {
    forall i | 0 <= i < |s| :: IsDigit(s[i]) || s[i] in p
  }

  /** `/^[\d<p>]+$/`: at least one character, each a digit or in `p`. */
  predicate OnlyAllowed(s: string, p: set<char>) {
    |s| > 0 && Allowed(s, p)
  }

  /** `s.replace(/[<p>]/g, '')`: every character of `p` removed, wherever it is. */
  function Strip(s: string, p: set<char>): (r: string)
    ensures |r| <= |s|
  {
    if s == [] then [] else (if s[0] in p then [] else [s[0]]) + Strip(s[1..], p)
  }

  /** The shared shape of the four sanitizers; `None` is `isValidFormat: false`. */
  function Sanitize(value: string, p: set<char>): (r: Option<string>)
    ensures r.Some? ==> AllDigits(r.value) && |r.value| <= |value|
  {
    var trimmed := Trim(value);
    if !OnlyAllowed(trimmed, p) then None
    else
      var cleaned := Strip(trimmed, p);
      if !AllDigits(cleaned) then None else Some(cleaned)
  }

  lemma {:induction false} StripAppend(a: string, b: string, p: set<char>)
    ensures Strip(a + b, p) == Strip(a, p) + Strip(b, p)
  {
    if a != [] {
      assert (a + b)[0] == a[0] && (a + b)[1..] == a[1..] + b;
      StripAppend(a[1..], b, p);
    } else {
      assert a + b == b;
    }
  }

  /** A string with no character of `p` passes through unchanged. */
  lemma {:induction false} StripNone(s: string, p: set<char>)
    requires forall i | 0 <= i < |s| :: s[i] !in p
    ensures Strip(s, p) == s
  {
    if s != [] {
      StripNone(s[1..], p);
    }
  }

  /** A string made only of characters of `p` disappears. */
  lemma {:induction false} StripAll(s: string, p: set<char>)
    requires forall i | 0 <= i < |s| :: s[i] in p
    ensures Strip(s, p) == []
  {
    if s != [] {
      StripAll(s[1..], p);
    }
  }

  /** Stripping a string of digits and punctuation leaves only digits,
      and leaves something exactly when there was a digit. */
  lemma {:induction false} StripAllowed(s: string, p: set<char>)
    requires Punctuation(p)
    requires Allowed(s, p)
    ensures DigitsOnly(Strip(s, p))
    ensures |Strip(s, p)| > 0 <==> HasDigit(s)
  {
    if s != [] {
      StripAllowed(s[1..], p);
      if HasDigit(s[1..]) {
        var i :| 0 <= i < |s[1..]| && IsDigit(s[1..][i]);
        assert IsDigit(s[i + 1]);
      }
      if HasDigit(s) && !IsDigit(s[0]) {
        var i :| 0 <= i < |s| && IsDigit(s[i]);
        assert s[1..][i - 1] == s[i];
      }
    }
  }

  /** The allow-list check and the defensive digits-only check together accept
      exactly the trimmed inputs made of digits and `p` with at least one digit;
      the empty and the all-whitespace input are therefore rejected. */
  lemma SanitizeAccepts(value: string, p: set<char>)
    requires Punctuation(p)
    ensures Sanitize(value, p).Some? <==> OnlyAllowed(Trim(value), p) && HasDigit(Trim(value))
    ensures Sanitize(value, p).Some? ==>
      AllDigits(Sanitize(value, p).value) && Sanitize(value, p).value == Strip(Trim(value), p)
  {
    var t := Trim(value);
    if OnlyAllowed(t, p) {
      StripAllowed(t, p);
    }
  }

  lemma {:induction false} TrimWhitespaceOnly(s: string)
    requires forall i | 0 <= i < |s| :: IsWhitespace(s[i])
    ensures Trim(s) == []
  {
    if s != [] {
      TrimWhitespaceOnly(s[1..]);
    }
  }

  lemma {:induction false} TrimStartPadded(a: string, m: string)
    requires WhitespaceOnly(a) && m != [] && !IsWhitespace(m[0])
    ensures TrimStart(a + m) == m
  {
    if a == [] {
      assert a + m == m;
    } else {
      assert (a + m)[0] == a[0] && (a + m)[1..] == a[1..] + m;
      TrimStartPadded(a[1..], m);
    }
  }

  lemma {:induction false} TrimEndPadded(m: string, b: string)
    requires WhitespaceOnly(b) && m != [] && !IsWhitespace(m[|m| - 1])
    ensures TrimEnd(m + b) == m
  {
    if b == [] {
      assert m + b == m;
    } else {
      assert (m + b)[|m + b| - 1] == b[|b| - 1] && (m + b)[..|m + b| - 1] == m + b[..|b| - 1];
      TrimEndPadded(m, b[..|b| - 1]);
    }
  }

  /** Trimming removes exactly the whitespace around a text whose ends are not whitespace. */
  lemma TrimPadded(a: string, m: string, b: string)
    requires WhitespaceOnly(a) && WhitespaceOnly(b)
    requires m != [] && !IsWhitespace(m[0]) && !IsWhitespace(m[|m| - 1])
    ensures Trim(a + m + b) == m
  {
    assert a + m + b == a + (m + b);
    TrimStartPadded(a, m + b);
    TrimEndPadded(m, b);
  }

  lemma TrimNoop(s: string)
    requires s != [] && !IsWhitespace(s[0]) && !IsWhitespace(s[|s| - 1])
    ensures Trim(s) == s
  {
  }

  /** A clean digit string sanitizes to itself, whatever the punctuation set. */
  lemma SanitizeDigits(d: string, p: set<char>)
    requires AllDigits(d) && Punctuation(p)
    ensures Sanitize(d, p) == Some(d)
  {
    TrimNoop(d);
    StripNone(d, p);
  }

  /** Whitespace around text with non-whitespace ends does not change what
      the text sanitizes to. */
  lemma SanitizePadded(a: string, m: string, b: string, p: set<char>)
    requires WhitespaceOnly(a) && WhitespaceOnly(b)
    requires m != [] && !IsWhitespace(m[0]) && !IsWhitespace(m[|m| - 1])
    ensures Sanitize(a + m + b, p) == Sanitize(m, p)
  {
    TrimPadded(a, m, b);
    TrimNoop(m);
  }

  /** A digit is never trimmed. */
  lemma DigitNotWhitespace(c: char)
    requires IsDigit(c)
    ensures !IsWhitespace(c)
  {
  }

  /** A formatted string (its ends not whitespace, made of digits and `p`)
      sanitizes to what stripping it leaves, when that is a digit string. */
  lemma SanitizeFormatted(m: string, p: set<char>)
    requires m != [] && !IsWhitespace(m[0]) && !IsWhitespace(m[|m| - 1])
    requires Allowed(m, p)
    requires AllDigits(Strip(m, p))
    ensures Sanitize(m, p) == Some(Strip(m, p))
  {
    TrimNoop(m);
  }

  lemma AllowedAppend(a: string, b: string, p: set<char>)
    requires Allowed(a, p) && Allowed(b, p)
    ensures Allowed(a + b, p)
  {
    forall i | 0 <= i < |a + b| ensures IsDigit((a + b)[i]) || (a + b)[i] in p {
      if i >= |a| {
        assert (a + b)[i] == b[i - |a|];
      }
    }
  }

  /** Appending a separator made of punctuation and then a digit string: the
      separator disappears when stripped and the digits are kept. */
  lemma JoinSeparated(x: string, sep: string, y: string, p: set<char>)
    requires Allowed(x, p) && DigitsOnly(y) && Punctuation(p)
    requires forall i | 0 <= i < |sep| :: sep[i] in p
    ensures Allowed(x + sep + y, p)
    ensures Strip(x + sep + y, p) == Strip(x, p) + y
  {
    assert forall i | 0 <= i < |y| :: y[i] !in p by {
      forall i | 0 <= i < |y| ensures y[i] !in p {
        assert IsDigit(y[i]);
      }
    }
    StripNone(y, p);
    StripAll(sep, p);
    StripAppend(x, sep, p);
    StripAppend(x + sep, y, p);
    assert Strip(x + sep, p) == Strip(x, p);
    AllowedAppend(x, sep, p);
    AllowedAppend(x + sep, y, p);
  }

  /** A separator made of punctuation followed by a digit string: only the
      digits survive stripping. */
  lemma LeadingSeparator(sep: string, y: string, p: set<char>)
    requires DigitsOnly(y) && Punctuation(p)
    requires forall i | 0 <= i < |sep| :: sep[i] in p
    ensures Allowed(sep + y, p)
    ensures Strip(sep + y, p) == y
  {
    forall i | 0 <= i < |y| ensures y[i] !in p {
      assert IsDigit(y[i]);
    }
    StripNone(y, p);
    StripAll(sep, p);
    StripAppend(sep, y, p);
    AllowedAppend(sep, y, p);
  }
}
