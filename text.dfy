/**
 * The string primitives the pages and the backend rely on, restricted to ASCII:
 * case mapping (`toLowerCase`/`toUpperCase`, Python's `lower`/`upper`),
 * white-space trimming (JavaScript's `trim`, and Python's `strip`, whose ASCII
 * white space also takes in the four separators 0x1C–0x1F), substring search
 * (`includes`, Python's `in`) and the prefix parsers `parseInt`/`parseFloat`.
 */
module Text {
  import opened Common

  /** The ASCII white-space characters that JavaScript's `trim` removes. */
  predicate IsWhitespace(c: char) {
    c == ' ' || c == '\t' || c == '\n' || c == '\r' || c == '\U{000B}' || c == '\U{000C}'
  }

  function LowerChar(c: char): char {
    if 'A' <= c <= 'Z' then (c as int + 32) as char else c
  }

  function UpperChar(c: char): char {
    if 'a' <= c <= 'z' then (c as int - 32) as char else c
  }

  function Lower(s: string): (r: string)
    ensures |r| == |s|
    ensures forall i :: 0 <= i < |s| ==> r[i] == LowerChar(s[i])
  {
    seq(|s|, i requires 0 <= i < |s| => LowerChar(s[i]))
  }

  function Upper(s: string): (r: string)
    ensures |r| == |s|
    ensures forall i :: 0 <= i < |s| ==> r[i] == UpperChar(s[i])
  {
    seq(|s|, i requires 0 <= i < |s| => UpperChar(s[i]))
  }

  /** Drops leading white space: what is left is a suffix that does not start with white space. */
  function TrimStart(s: string): (r: string)
    ensures |r| <= |s| && r == s[|s| - |r|..]
    ensures forall i :: 0 <= i < |s| - |r| ==> IsWhitespace(s[i])
    ensures r != [] ==> !IsWhitespace(r[0])
  {
    if s != [] && IsWhitespace(s[0]) then
      var r := TrimStart(s[1..]);
      assert s[1..][|s| - 1 - |r|..] == s[|s| - |r|..];
      r
    else s
  }

  /** Drops trailing white space: what is left is a prefix that does not end with white space. */
  function TrimEnd(s: string): (r: string)
    ensures |r| <= |s| && r == s[..|r|]
    ensures forall i :: |r| <= i < |s| ==> IsWhitespace(s[i])
    ensures r != [] ==> !IsWhitespace(r[|r| - 1])
  {
    if s != [] && IsWhitespace(s[|s| - 1]) then
      var r := TrimEnd(s[..|s| - 1]);
      assert s[..|s| - 1][..|r|] == s[..|r|];
      r
    else s
  }

  /** JavaScript's `trim()` on ASCII text. */
  function Trim(s: string): string {
    TrimEnd(TrimStart(s))
  }

  /**
   * The ASCII characters Python's `str.isspace` accepts: JavaScript's six and the
   * file, group, record and unit separators 0x1C–0x1F, which `trim` keeps.
   */
  predicate IsPythonSpace(c: char) {
    IsWhitespace(c) || '\U{001C}' <= c <= '\U{001F}'
  }

  /** Python's `lstrip()`: what is left is a suffix that does not start with Python white space. */
  function StripStart(s: string): (r: string)
    ensures |r| <= |s| && r == s[|s| - |r|..]
    ensures forall i :: 0 <= i < |s| - |r| ==> IsPythonSpace(s[i])
    ensures r != [] ==> !IsPythonSpace(r[0])
  {
    if s != [] && IsPythonSpace(s[0]) then
      var r := StripStart(s[1..]);
      assert s[1..][|s| - 1 - |r|..] == s[|s| - |r|..];
      r
    else s
  }

  /** Python's `rstrip()`: what is left is a prefix that does not end with Python white space. */
  function StripEnd(s: string): (r: string)
    ensures |r| <= |s| && r == s[..|r|]
    ensures forall i :: |r| <= i < |s| ==> IsPythonSpace(s[i])
    ensures r != [] ==> !IsPythonSpace(r[|r| - 1])
  {
    if s != [] && IsPythonSpace(s[|s| - 1]) then
      var r := StripEnd(s[..|s| - 1]);
      assert s[..|s| - 1][..|r|] == s[..|r|];
      r
    else s
  }

  /** Python's `strip()` on ASCII text. */
  function Strip(s: string): string {
    StripEnd(StripStart(s))
  }

  /** `s.includes(sub)` in JavaScript, `sub in s` in Python. */
  predicate Contains(s: string, sub: string) {
    exists i | 0 <= i <= |s| - |sub| :: OccursAt(s, sub, i)
  }

  /** `sub` occurs in `s` starting at index `i`. */
  predicate OccursAt(s: string, sub: string, i: int) {
    0 <= i <= |s| - |sub| && s[i..i + |sub|] == sub
  }

  predicate IsDigitIn(c: char, radix: nat) {
    '0' <= c <= '9' && (c as int - '0' as int) < radix
  }

  function DigitValue(c: char): nat
    requires '0' <= c <= '9'
  {
    c as int - '0' as int
  }

  /** The longest prefix of `s` made of digits of the given radix. */
  function LeadingDigits(s: string, radix: nat): (r: string)
    ensures |r| <= |s| && r == s[..|r|]
    ensures forall i :: 0 <= i < |r| ==> IsDigitIn(r[i], radix)
    ensures |r| < |s| ==> !IsDigitIn(s[|r|], radix)
  {
    if s != [] && IsDigitIn(s[0], radix) then [s[0]] + LeadingDigits(s[1..], radix) else []
  }

  /** The value of a digit string read most significant digit first. */
  function NumberValue(ds: string, radix: nat): nat
    requires forall i :: 0 <= i < |ds| ==> IsDigitIn(ds[i], radix)
  {
    if ds == [] then 0
    else
      var last := ds[|ds| - 1];
      assert IsDigitIn(last, radix);
      NumberValue(ds[..|ds| - 1], radix) * radix + DigitValue(last)
  }

  function Pow10(n: nat): (r: nat)
    ensures r >= 1
  {
    if n == 0 then 1 else 10 * Pow10(n - 1)
  }

  /** The text after an optional leading '+' or '-'. */
  function Unsigned(t: string): string {
    if t != [] && (t[0] == '-' || t[0] == '+') then t[1..] else t
  }

  /**
   * JavaScript's `parseInt(s, radix)` for radix 2..10: leading white space is
   * skipped, one sign is read, then the longest run of digits; no digit at all
   * gives NaN (`None`).
   */
  function ParseInt(s: string, radix: nat): Option<int>
    requires 2 <= radix <= 10
  {
    ParseSigned(TrimStart(s), radix)
  }

  /** The part of `ParseInt` after the blank prefix: an optional sign, then the digit run. */
  function ParseSigned(t: string, radix: nat): Option<int>
    requires 2 <= radix <= 10
  {
    var ds := LeadingDigits(Unsigned(t), radix);
    if ds == [] then None
    else if t[0] == '-' then Some(0 - NumberValue(ds, radix))
    else Some(NumberValue(ds, radix))
  }

  /**
   * JavaScript's `parseFloat(s)` for plain decimal notation: white space, a sign,
   * whole digits, then an optional '.' and fraction digits; NaN (`None`) when
   * there is no digit on either side of the point.
   */
  function ParseFloat(s: string): Option<real> {
    var t := TrimStart(s);
    var u := Unsigned(t);
    var whole := LeadingDigits(u, 10);
    var after := u[|whole|..];
    var frac := if after != [] && after[0] == '.' then LeadingDigits(after[1..], 10) else [];
    if whole == [] && frac == [] then None
    else
      var magnitude := NumberValue(whole, 10) as real + NumberValue(frac, 10) as real / Pow10(|frac|) as real;
      Some(if t[0] == '-' then -magnitude else magnitude)
  }

  /** The decimal digits of a natural number, as JavaScript prints it. */
  function DecimalString(n: nat): (r: string)
    ensures r != [] && forall i :: 0 <= i < |r| ==> IsDigitIn(r[i], 10)
    ensures NumberValue(r, 10) == n
  {
    var last := [('0' as int + n % 10) as char];
    if n < 10 then last
    else
      var front := DecimalString(n / 10);
      assert (front + last)[..|front|] == front;
      front + last
  }

  /** `${x}` for an integer `x`: a minus sign for negative values, then the digits. */
  function IntString(x: int): string {
    if x < 0 then "-" + DecimalString(-x) else DecimalString(x)
  }

  /** `parseInt` reads an integer's printed form back as that integer. */
  lemma IntStringRoundTrip(x: int)
    ensures ParseInt(IntString(x), 10) == Some(x)
  {
    if x < 0 {
      var ds := DecimalString(-x);
      SignThenDigits(ds);
      ParseIntOfMinus(IntString(x), ds, -x);
    } else {
      ParseIntOfDigits(DecimalString(x), 10, x);
    }
  }

  lemma SignThenDigits(ds: string)
    ensures ("-" + ds)[0] == '-' && ("-" + ds)[1..] == ds
  {
  }

  /** A minus sign followed by digits is read as the negated value. */
  lemma ParseIntOfMinus(s: string, ds: string, value: nat)
    requires s != [] && s[0] == '-' && s[1..] == ds
    requires ds != [] && forall i :: 0 <= i < |ds| ==> IsDigitIn(ds[i], 10)
    requires NumberValue(ds, 10) == value
    ensures ParseInt(s, 10) == Some(0 - value)
  {
    TrimStartNoSpace(s);
    LeadingDigitsAll(ds, 10);
    ParseIntOfParts(s, 10, s, ds);
  }

  /** A leading white-space character is skipped. */
  lemma TrimStartSkips(s: string)
    requires s != [] && IsWhitespace(s[0])
    ensures TrimStart(s) == TrimStart(s[1..])
  {
  }

  /** Nothing to skip: a string that starts with a non-space character. */
  lemma TrimStartNoSpace(s: string)
    requires s != [] && !IsWhitespace(s[0])
    ensures TrimStart(s) == s
  {
  }

  /** A run made only of digits is its own leading digit run. */
  lemma LeadingDigitsAll(ds: string, radix: nat)
    requires forall i :: 0 <= i < |ds| ==> IsDigitIn(ds[i], radix)
    ensures LeadingDigits(ds, radix) == ds
  {
    LeadingDigitsOfRun(ds, "", radix);
    assert ds + "" == ds;
  }

  /** `ParseInt` once the blank prefix, the sign and the digit run are known. */
  lemma ParseIntOfParts(s: string, radix: nat, t: string, ds: string)
    requires 2 <= radix <= 10
    requires TrimStart(s) == t && t != []
    requires ds != [] && LeadingDigits(Unsigned(t), radix) == ds
    ensures ParseInt(s, radix) == if t[0] == '-' then Some(0 - NumberValue(ds, radix)) else Some(NumberValue(ds, radix))
  {
  }

  // ---------------------------------------------------------------------------
  // Facts about the primitives

  lemma LowerIdempotent(s: string)
    ensures Lower(Lower(s)) == Lower(s)
  {
  }

  /** Lower-casing forgets an earlier upper-casing: the comparison is case-blind. */
  lemma LowerOfUpper(s: string)
    ensures Lower(Upper(s)) == Lower(s)
  {
  }

  /** Upper-casing forgets an earlier lower-casing. */
  lemma UpperOfLower(s: string)
    ensures Upper(Lower(s)) == Upper(s)
  {
  }

  /** A string that neither starts nor ends with white space is its own trim. */
  lemma TrimOfTrimmed(s: string)
    requires s != [] ==> !IsWhitespace(s[0]) && !IsWhitespace(s[|s| - 1])
    ensures Trim(s) == s
  {
    if s != [] {
      TrimStartNoSpace(s);
      TrimEndNoSpace(s);
    }
  }

  /** Leading white space is dropped whatever follows it. */
  lemma {:induction false} TrimStartPadded(before: string, rest: string)
    requires forall i :: 0 <= i < |before| ==> IsWhitespace(before[i])
    ensures TrimStart(before + rest) == TrimStart(rest)
  {
    if before != [] {
      var s := before + rest;
      assert s[0] == before[0];
      TrimStartSkips(s);
      assert s[1..] == before[1..] + rest;
      TrimStartPadded(before[1..], rest);
    } else {
      assert before + rest == rest;
    }
  }

  /** Trailing white space is dropped whatever precedes it. */
  lemma {:induction false} TrimEndPadded(rest: string, after: string)
    requires forall i :: 0 <= i < |after| ==> IsWhitespace(after[i])
    ensures TrimEnd(rest + after) == TrimEnd(rest)
  {
    if after != [] {
      var front := after[..|after| - 1];
      var s := rest + after;
      assert s[|s| - 1] == after[|after| - 1];
      TrimEndSkips(s);
      assert s[..|s| - 1] == rest + front;
      TrimEndPadded(rest, front);
    } else {
      assert rest + after == rest;
    }
  }

  /** A trailing white-space character is dropped. */
  lemma TrimEndSkips(s: string)
    requires s != [] && IsWhitespace(s[|s| - 1])
    ensures TrimEnd(s) == TrimEnd(s[..|s| - 1])
  {
  }

  /** Nothing to drop: a string that ends with a non-space character. */
  lemma TrimEndNoSpace(s: string)
    requires s != [] && !IsWhitespace(s[|s| - 1])
    ensures TrimEnd(s) == s
  {
  }

  /** Trimming a phrase padded with white space on both sides gives the phrase back. */
  lemma TrimPadded(before: string, phrase: string, after: string)
    requires forall i :: 0 <= i < |before| ==> IsWhitespace(before[i])
    requires forall i :: 0 <= i < |after| ==> IsWhitespace(after[i])
    requires phrase != [] && !IsWhitespace(phrase[0]) && !IsWhitespace(phrase[|phrase| - 1])
    ensures Trim(before + phrase + after) == phrase
  {
    assert before + phrase + after == before + (phrase + after);
    TrimStartPadded(before, phrase + after);
    assert (phrase + after)[0] == phrase[0];
    TrimStartNoSpace(phrase + after);
    TrimEndPadded(phrase, after);
    TrimEndNoSpace(phrase);
  }

  /** Lower-casing keeps white space where it was, so it commutes with trimming. */
  lemma {:induction false} TrimLowerCommute(s: string)
    ensures Trim(Lower(s)) == Lower(Trim(s))
  {
    TrimStartLower(s);
    TrimEndLower(TrimStart(s));
  }

  lemma {:induction false} TrimStartLower(s: string)
    ensures TrimStart(Lower(s)) == Lower(TrimStart(s))
  {
    if s != [] {
      var l := Lower(s);
      assert l[0] == LowerChar(s[0]);
      assert l[1..] == Lower(s[1..]);
      if IsWhitespace(s[0]) {
        TrimStartLower(s[1..]);
      } else {
        assert !IsWhitespace(l[0]);
      }
    }
  }

  lemma {:induction false} TrimEndLower(s: string)
    ensures TrimEnd(Lower(s)) == Lower(TrimEnd(s))
  {
    if s != [] {
      var l := Lower(s);
      assert l[|s| - 1] == LowerChar(s[|s| - 1]);
      assert l[..|s| - 1] == Lower(s[..|s| - 1]);
      if IsWhitespace(s[|s| - 1]) {
        TrimEndLower(s[..|s| - 1]);
      } else {
        assert !IsWhitespace(l[|s| - 1]);
      }
    }
  }

  /**
   * Python's `strip` sees through the page's `trim`: the backend's `lower().strip()`
   * of what the page sends (trimmed, then lower-cased) is what it would make of the
   * raw input, because every character `trim` drops is one `strip` drops too.
   */
  lemma NormalisationStable(g: string)
    ensures Strip(Lower(Lower(Trim(g)))) == Strip(Lower(g))
  {
    LowerIdempotent(Trim(g));
    TrimLowerCommute(g);
    StripOfTrim(Lower(g));
  }

  /** The separators 0x1C–0x1F are where the two differ: `trim` keeps them, `strip` drops them. */
  lemma SeparatorsOnlyStripped(c: char)
    requires '\U{001C}' <= c <= '\U{001F}'
    ensures Trim([c]) == [c]
    ensures Strip([c]) == []
  {
    TrimOfTrimmed([c]);
  }

  /** Stripping what was already trimmed is stripping the original. */
  lemma StripOfTrim(s: string)
    ensures Strip(Trim(s)) == Strip(s)
  {
    var t := TrimStart(s);
    var before := BlankPrefix(s, t);
    JavaScriptSpaceIsPythonSpace(before);
    StripDropsFront(before, t);
    var m := TrimEnd(t);
    var after := BlankSuffix(t, m);
    JavaScriptSpaceIsPythonSpace(after);
    StripDropsBack(m, after);
  }

  lemma BlankPrefix(s: string, t: string) returns (before: string)
    requires |t| <= |s| && t == s[|s| - |t|..]
    requires forall i :: 0 <= i < |s| - |t| ==> IsWhitespace(s[i])
    ensures s == before + t
    ensures forall i :: 0 <= i < |before| ==> IsWhitespace(before[i])
  {
    before := s[..|s| - |t|];
    forall i | 0 <= i < |before| ensures IsWhitespace(before[i]) {
      assert before[i] == s[i];
    }
  }

  lemma BlankSuffix(t: string, m: string) returns (after: string)
    requires |m| <= |t| && m == t[..|m|]
    requires forall i :: |m| <= i < |t| ==> IsWhitespace(t[i])
    ensures t == m + after
    ensures forall i :: 0 <= i < |after| ==> IsWhitespace(after[i])
  {
    after := t[|m|..];
    forall i | 0 <= i < |after| ensures IsWhitespace(after[i]) {
      assert after[i] == t[|m| + i];
    }
  }

  /** Every character `trim` drops is one `strip` drops too. */
  lemma JavaScriptSpaceIsPythonSpace(s: string)
    requires forall i :: 0 <= i < |s| ==> IsWhitespace(s[i])
    ensures forall i :: 0 <= i < |s| ==> IsPythonSpace(s[i])
  {
  }

  /** Python white space in front of a string does not change its strip. */
  lemma StripDropsFront(before: string, m: string)
    requires forall i :: 0 <= i < |before| ==> IsPythonSpace(before[i])
    ensures Strip(before + m) == Strip(m)
  {
    StripStartPadded(before, m);
  }

  /** Python white space behind a string does not change its strip. */
  lemma StripDropsBack(m: string, after: string)
    requires forall i :: 0 <= i < |after| ==> IsPythonSpace(after[i])
    ensures Strip(m + after) == Strip(m)
  {
    StripStartThenAppend(m, after);
    if StripStart(m) == [] {
      AllSpaceStripsToEmpty(after);
    } else {
      StripEndPadded(StripStart(m), after);
    }
  }

  /** A string of Python white space strips to nothing. */
  lemma AllSpaceStripsToEmpty(s: string)
    requires forall i :: 0 <= i < |s| ==> IsPythonSpace(s[i])
    ensures StripStart(s) == []
  {
  }

  /** Stripping the front of a concatenation reaches into the second part only when the first is all white space. */
  lemma {:induction false} StripStartThenAppend(m: string, after: string)
    ensures StripStart(m + after) == if StripStart(m) == [] then StripStart(after) else StripStart(m) + after
  {
    if m == [] {
      assert m + after == after;
    } else if IsPythonSpace(m[0]) {
      var s := m + after;
      assert s[0] == m[0];
      StripStartSkips(s);
      StripStartSkips(m);
      assert s[1..] == m[1..] + after;
      StripStartThenAppend(m[1..], after);
    } else {
      assert (m + after)[0] == m[0];
      StripStartNoSpace(m + after);
      StripStartNoSpace(m);
    }
  }

  /** Leading Python white space is dropped whatever follows it. */
  lemma {:induction false} StripStartPadded(before: string, rest: string)
    requires forall i :: 0 <= i < |before| ==> IsPythonSpace(before[i])
    ensures StripStart(before + rest) == StripStart(rest)
  {
    if before != [] {
      var s := before + rest;
      assert s[0] == before[0];
      StripStartSkips(s);
      assert s[1..] == before[1..] + rest;
      StripStartPadded(before[1..], rest);
    } else {
      assert before + rest == rest;
    }
  }

  /** Trailing Python white space is dropped whatever precedes it. */
  lemma {:induction false} StripEndPadded(rest: string, after: string)
    requires forall i :: 0 <= i < |after| ==> IsPythonSpace(after[i])
    ensures StripEnd(rest + after) == StripEnd(rest)
  {
    if after != [] {
      var front := after[..|after| - 1];
      var s := rest + after;
      assert s[|s| - 1] == after[|after| - 1];
      StripEndSkips(s);
      assert s[..|s| - 1] == rest + front;
      StripEndPadded(rest, front);
    } else {
      assert rest + after == rest;
    }
  }

  lemma StripStartSkips(s: string)
    requires s != [] && IsPythonSpace(s[0])
    ensures StripStart(s) == StripStart(s[1..])
  {
  }

  lemma StripStartNoSpace(s: string)
    requires s != [] && !IsPythonSpace(s[0])
    ensures StripStart(s) == s
  {
  }

  lemma StripEndNoSpace(s: string)
    requires s != [] && !IsPythonSpace(s[|s| - 1])
    ensures StripEnd(s) == s
  {
  }

  lemma StripEndSkips(s: string)
    requires s != [] && IsPythonSpace(s[|s| - 1])
    ensures StripEnd(s) == StripEnd(s[..|s| - 1])
  {
  }

  /** Lower-casing keeps Python white space where it was, so it commutes with stripping. */
  lemma {:induction false} StripLowerCommute(s: string)
    ensures Strip(Lower(s)) == Lower(Strip(s))
  {
    StripStartLower(s);
    StripEndLower(StripStart(s));
  }

  lemma {:induction false} StripStartLower(s: string)
    ensures StripStart(Lower(s)) == Lower(StripStart(s))
  {
    if s != [] {
      var l := Lower(s);
      assert l[0] == LowerChar(s[0]);
      assert l[1..] == Lower(s[1..]);
      LowerKeepsPythonSpace(s[0]);
      if IsPythonSpace(s[0]) {
        StripStartLower(s[1..]);
      } else {
        assert !IsPythonSpace(l[0]);
      }
    }
  }

  lemma LowerKeepsPythonSpace(c: char)
    ensures IsPythonSpace(LowerChar(c)) <==> IsPythonSpace(c)
  {
  }

  lemma {:induction false} StripEndLower(s: string)
    ensures StripEnd(Lower(s)) == Lower(StripEnd(s))
  {
    if s != [] {
      var l := Lower(s);
      assert l[|s| - 1] == LowerChar(s[|s| - 1]);
      assert l[..|s| - 1] == Lower(s[..|s| - 1]);
      LowerKeepsPythonSpace(s[|s| - 1]);
      if IsPythonSpace(s[|s| - 1]) {
        StripEndLower(s[..|s| - 1]);
      } else {
        assert !IsPythonSpace(l[|s| - 1]);
      }
    }
  }

  /** A substring of a substring is a substring. */
  lemma ContainsTransitive(s: string, t: string, u: string)
    requires Contains(s, t) && Contains(t, u)
    ensures Contains(s, u)
  {
    var i :| 0 <= i <= |s| - |t| && OccursAt(s, t, i);
    var j :| 0 <= j <= |t| - |u| && OccursAt(t, u, j);
    forall k | 0 <= k < |u| ensures s[i + j + k] == u[k] {
      assert s[i + j + k] == s[i..i + |t|][j + k] == t[j + k] == t[j..j + |u|][k];
    }
    assert s[i + j..i + j + |u|] == u;
    assert OccursAt(s, u, i + j);
  }

  /** A run of digits followed by a non-digit is read back as its value. */
  lemma {:induction false} LeadingDigitsOfRun(ds: string, rest: string, radix: nat)
    requires forall i :: 0 <= i < |ds| ==> IsDigitIn(ds[i], radix)
    requires rest != [] ==> !IsDigitIn(rest[0], radix)
    ensures LeadingDigits(ds + rest, radix) == ds
  {
    if ds != [] {
      assert (ds + rest)[1..] == ds[1..] + rest;
      LeadingDigitsOfRun(ds[1..], rest, radix);
    }
  }

  /** Reading one more digit: the value so far times the radix, plus the digit. */
  lemma NumberValueStep(ds: string, k: int, radix: nat, v: nat)
    requires 0 < k <= |ds| && forall i :: 0 <= i < |ds| ==> IsDigitIn(ds[i], radix)
    requires NumberValue(ds[..k - 1], radix) == v
    ensures NumberValue(ds[..k], radix) == v * radix + DigitValue(ds[k - 1])
  {
    assert ds[..k][..k - 1] == ds[..k - 1];
  }

  /** A string made only of digits parses to its value. */
  lemma ParseIntOfDigits(ds: string, radix: nat, value: nat)
    requires 2 <= radix <= 10
    requires ds != [] && forall i :: 0 <= i < |ds| ==> IsDigitIn(ds[i], radix)
    requires NumberValue(ds, radix) == value
    ensures ParseInt(ds, radix) == Some(value)
  {
    assert !IsWhitespace(ds[0]) && ds[0] != '-' && ds[0] != '+';
    TrimStartNoSpace(ds);
    LeadingDigitsAll(ds, radix);
    ParseIntOfParts(ds, radix, ds, ds);
  }
}
