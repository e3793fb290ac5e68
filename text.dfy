/** The JavaScript string operations the system relies on: substring search
    (`includes`), upper-casing (`toUpperCase`), whitespace trimming (`trim`)
    and the decimal rendering of a non-negative integer (template literals). */
module Text {

  /** `t` occurs in `s` starting at index `i`. */
  predicate OccursAt(s: string, t: string, i: int)
  {
    0 <= i && i + |t| <= |s| && s[i..i + |t|] == t
  }

  /** `s.includes(t)`: case-sensitive substring search. */
  predicate Contains(s: string, t: string)
  {
    exists i :: 0 <= i <= |s| - |t| && OccursAt(s, t, i)
  }

  /** An occurrence of `u` inside an occurrence of `t` is an occurrence of `u`. */
  lemma ContainsTransitive(s: string, t: string, u: string)
    requires Contains(s, t) && Contains(t, u)
    ensures Contains(s, u)
  {
    var i :| 0 <= i <= |s| - |t| && OccursAt(s, t, i);
    var j :| 0 <= j <= |t| - |u| && OccursAt(t, u, j);
    forall m | 0 <= m < |u| ensures s[i + j + m] == u[m] {
      assert u[m] == t[j + m] == s[i + j + m];
    }
    assert OccursAt(s, u, i + j);
  }

  /** A substring of a string is contained in it. */
  lemma ContainsSlice(s: string, a: int, b: int)
    requires 0 <= a <= b <= |s|
    ensures Contains(s, s[a..b])
  {
    assert OccursAt(s, s[a..b], a);
  }

  /** A word occurs in any text built around it. */
  lemma ContainsMiddle(a: string, w: string, b: string)
    ensures Contains(a + w + b, w)
  {
    var s := a + w + b;
    forall m | 0 <= m < |w| ensures s[|a| + m] == w[m] {
    }
    assert s[|a|..|a| + |w|] == w;
    assert OccursAt(s, w, |a|);
  }

  /** A string that contains a non-empty word contains its first letter. */
  lemma ContainsFirstLetter(s: string, t: string)
    requires t != [] && Contains(s, t)
    ensures t[0] in s
  {
    var i :| 0 <= i <= |s| - |t| && OccursAt(s, t, i);
    assert s[i] == s[i..i + |t|][0];
  }

  // ---------------------------------------------------------------------------
  // Upper-casing
  // ---------------------------------------------------------------------------

  /** `toUpperCase` on one character, over the alphabet the keywords and the
      remote page use: ASCII `a`..`z` and the Latin-1 lower-case letters
      U+00E0..U+00FE (except the division sign U+00F7) move to their capitals,
      32 code points lower; every other character is its own capital. */
  function UpperChar(c: char): (u: char)
  {
    if 'a' <= c <= 'z' || ('\U{00E0}' <= c <= '\U{00FE}' && c != '\U{00F7}') then
      (c as int - 32) as char
    else
      c
  }

  /** Upper-casing a capital or a non-letter changes nothing. */
  lemma UpperCharIdempotent(c: char)
    ensures UpperChar(UpperChar(c)) == UpperChar(c)
  {
  }

  /** `s.toUpperCase()`: upper-cases character by character. */
  function Upper(s: string): (r: string)
    ensures |r| == |s|
    ensures forall i {:trigger r[i]} :: 0 <= i < |s| ==> r[i] == UpperChar(s[i])
  {
    seq(|s|, i requires 0 <= i < |s| => UpperChar(s[i]))
  }

  lemma UpperSlice(s: string, a: int, b: int)
    requires 0 <= a <= b <= |s|
    ensures Upper(s)[a..b] == Upper(s[a..b])
  {
  }

  /** Upper-casing twice is upper-casing once. */
  lemma UpperIdempotent(s: string)
    ensures Upper(Upper(s)) == Upper(s)
  {
    forall i | 0 <= i < |s| ensures Upper(Upper(s))[i] == Upper(s)[i] {
      UpperCharIdempotent(s[i]);
    }
  }

  /** A case-sensitive occurrence is also a case-insensitive one. */
  lemma ContainsUpper(s: string, t: string)
    requires Contains(s, t)
    ensures Contains(Upper(s), Upper(t))
  {
    var i :| 0 <= i <= |s| - |t| && OccursAt(s, t, i);
    UpperSlice(s, i, i + |t|);
    assert OccursAt(Upper(s), Upper(t), i);
  }

  // ---------------------------------------------------------------------------
  // Trimming
  // ---------------------------------------------------------------------------

  /** The characters `String.prototype.trim` strips: white space (tab,
      vertical tab, form feed, space, no-break space, byte-order mark and the
      other space separators) and the line terminators. */
  predicate IsWhitespace(c: char)
  {
    ('\t' <= c <= '\r') || c == ' ' || c == '\U{00A0}' || c == '\U{1680}' || ('\U{2000}' <= c <= '\U{200A}')
    || ('\U{2028}' <= c <= '\U{2029}') || c == '\U{202F}' || c == '\U{205F}'
    || c == '\U{3000}' || c == '\U{FEFF}'
  }

  /** The index of the first character at or after `i` that is not white
      space, or `|s|` when there is none: where `trim` starts keeping. */
  function SkipStart(s: string, i: nat): (k: nat)
    requires i <= |s|
    ensures i <= k <= |s|
    decreases |s| - i
  {
    if i < |s| && IsWhitespace(s[i]) then SkipStart(s, i + 1) else i
  }

  /** The index just past the last character before `j`, and not before
      `lo`, that is not white space, or `lo` when there is none: where `trim`
      stops keeping. */
  function SkipEnd(s: string, lo: nat, j: nat): (k: nat)
    requires lo <= j <= |s|
    ensures lo <= k <= j
  {
    if lo < j && IsWhitespace(s[j - 1]) then SkipEnd(s, lo, j - 1) else j
  }

  /** Everything `SkipStart` passes over is white space, and it stops at a
      character that is not. */
  lemma {:induction false} SkipStartPassesWhitespace(s: string, i: nat)
    requires i <= |s|
    ensures forall m {:trigger IsWhitespace(s[m])} :: i <= m < SkipStart(s, i) ==> IsWhitespace(s[m])
    ensures SkipStart(s, i) < |s| ==> !IsWhitespace(s[SkipStart(s, i)])
    decreases |s| - i
  {
    if i < |s| && IsWhitespace(s[i]) {
      SkipStartPassesWhitespace(s, i + 1);
    }
  }

  /** Everything `SkipEnd` passes over is white space, and it stops after a
      character that is not. */
  lemma {:induction false} SkipEndPassesWhitespace(s: string, lo: nat, j: nat)
    requires lo <= j <= |s|
    ensures forall m {:trigger IsWhitespace(s[m])} :: SkipEnd(s, lo, j) <= m < j ==> IsWhitespace(s[m])
    ensures lo < SkipEnd(s, lo, j) ==> !IsWhitespace(s[SkipEnd(s, lo, j) - 1])
  {
    if lo < j && IsWhitespace(s[j - 1]) {
      SkipEndPassesWhitespace(s, lo, j - 1);
    }
  }

  /** How many leading characters `trim` drops. */
  function TrimOffset(s: string): (k: nat)
    ensures k <= |s|
  {
    SkipStart(s, 0)
  }

  /** `s.trim()`: the slice of `s` that is left after dropping white space at
      both ends. */
  function Trim(s: string): (r: string)
    ensures TrimOffset(s) + |r| <= |s| && r == s[TrimOffset(s)..TrimOffset(s) + |r|]
  {
    s[TrimOffset(s)..SkipEnd(s, TrimOffset(s), |s|)]
  }

  /** A string that neither starts nor ends with white space is its own trim. */
  lemma TrimOfTrimmed(s: string)
    requires s == [] || (!IsWhitespace(s[0]) && !IsWhitespace(s[|s| - 1]))
    ensures Trim(s) == s
  {
    assert TrimOffset(s) == 0;
    assert SkipEnd(s, 0, |s|) == |s|;
    assert s[0..|s|] == s;
  }

  /** Trimming removes one space on each side of a trimmed string. */
  lemma TrimPadded(s: string)
    requires s != [] && !IsWhitespace(s[0]) && !IsWhitespace(s[|s| - 1])
    ensures Trim(" " + s + " ") == s
  {
    var p := " " + s + " ";
    assert p[1] == s[0] && p[|p| - 2] == s[|s| - 1];
    assert SkipStart(p, 1) == 1;
    assert TrimOffset(p) == 1;
    assert SkipEnd(p, 1, |p| - 1) == |p| - 1;
    assert SkipEnd(p, 1, |p|) == |p| - 1;
    assert p[1..|p| - 1] == s;
  }

  /** Everything `trim` drops is white space, and what it leaves neither
      starts nor ends with white space. */
  lemma TrimDropsWhitespace(s: string)
    ensures forall i {:trigger IsWhitespace(s[i])} :: 0 <= i < TrimOffset(s) ==> IsWhitespace(s[i])
    ensures forall i {:trigger IsWhitespace(s[i])} :: TrimOffset(s) + |Trim(s)| <= i < |s| ==> IsWhitespace(s[i])
    ensures Trim(s) == [] || (!IsWhitespace(Trim(s)[0]) && !IsWhitespace(Trim(s)[|Trim(s)| - 1]))
  {
    SkipStartPassesWhitespace(s, 0);
    SkipEndPassesWhitespace(s, TrimOffset(s), |s|);
    TrimEndsNotWhitespace(s);
  }

  /** What `trim` leaves neither starts nor ends with white space. */
  lemma TrimEndsNotWhitespace(s: string)
    ensures Trim(s) == [] || (!IsWhitespace(Trim(s)[0]) && !IsWhitespace(Trim(s)[|Trim(s)| - 1]))
  {
    var a := TrimOffset(s);
    var b := SkipEnd(s, a, |s|);
    SkipStartPassesWhitespace(s, 0);
    SkipEndPassesWhitespace(s, a, |s|);
    if a < b {
      assert Trim(s)[0] == s[a];
      assert Trim(s)[|Trim(s)| - 1] == s[b - 1];
    }
  }

  /** Trimming twice is trimming once. */
  lemma TrimIdempotent(s: string)
    ensures Trim(Trim(s)) == Trim(s)
  {
    TrimEndsNotWhitespace(s);
    TrimOfTrimmed(Trim(s));
  }

  /** A character whose capital is not white space is not white space. */
  lemma UpperCharNotWhitespace(c: char)
    requires !IsWhitespace(UpperChar(c))
    ensures !IsWhitespace(c)
  {
  }

  /** An occurrence, in the upper-cased text, of a word with no white space
      at either end lies inside what `trim` keeps. */
  lemma OccurrenceInsideTrim(s: string, t: string, i: int)
    requires t != [] && !IsWhitespace(t[0]) && !IsWhitespace(t[|t| - 1])
    requires OccursAt(Upper(s), t, i)
    ensures TrimOffset(s) <= i && i + |t| <= TrimOffset(s) + |Trim(s)|
  {
    var u := Upper(s);
    assert u[i] == u[i..i + |t|][0] == t[0];
    UpperCharNotWhitespace(s[i]);
    NotWhitespaceInsideTrim(s, i);
    var last := i + |t| - 1;
    assert u[last] == u[i..i + |t|][|t| - 1] == t[|t| - 1];
    UpperCharNotWhitespace(s[last]);
    NotWhitespaceInsideTrim(s, last);
  }

  /** A character that is not white space lies inside what `trim` keeps. */
  lemma NotWhitespaceInsideTrim(s: string, j: int)
    requires 0 <= j < |s| && !IsWhitespace(s[j])
    ensures TrimOffset(s) <= j < TrimOffset(s) + |Trim(s)|
  {
    TrimDropsWhitespace(s);
  }

  /** Trimming cannot destroy an occurrence, in the upper-cased text, of a
      word that neither starts nor ends with white space. */
  lemma TrimKeepsUpperOccurrence(s: string, t: string)
    requires t != [] && !IsWhitespace(t[0]) && !IsWhitespace(t[|t| - 1])
    requires Contains(Upper(s), t)
    ensures Contains(Upper(Trim(s)), t)
  {
    var i :| 0 <= i <= |Upper(s)| - |t| && OccursAt(Upper(s), t, i);
    TrimKeepsUpperOccurrenceAt(s, t, i);
  }

  lemma TrimKeepsUpperOccurrenceAt(s: string, t: string, i: int)
    requires t != [] && !IsWhitespace(t[0]) && !IsWhitespace(t[|t| - 1])
    requires OccursAt(Upper(s), t, i)
    ensures OccursAt(Upper(Trim(s)), t, i - TrimOffset(s))
  {
    var k, r := TrimOffset(s), Trim(s);
    OccurrenceInsideTrim(s, t, i);
    UpperOccursInSlice(s, t, i, k, k + |r|);
    assert s[k..k + |r|] == r;
  }

  /** An occurrence in the upper-cased text that lies inside a slice is an
      occurrence in the upper-cased slice. */
  lemma UpperOccursInSlice(s: string, t: string, i: int, a: int, b: int)
    requires OccursAt(Upper(s), t, i) && 0 <= a <= i && i + |t| <= b <= |s|
    ensures OccursAt(Upper(s[a..b]), t, i - a)
  {
    UpperSlice(s, a, b);
    OccursInSlice(Upper(s), t, i, a, b);
  }

  /** An occurrence that lies inside a slice is an occurrence in the slice. */
  lemma OccursInSlice(u: string, t: string, i: int, a: int, b: int)
    requires OccursAt(u, t, i) && 0 <= a <= i && i + |t| <= b <= |u|
    ensures OccursAt(u[a..b], t, i - a)
    ensures Contains(u[a..b], t)
  {
    var w := u[a..b];
    forall m | 0 <= m < |t| ensures w[i - a + m] == t[m] {
      assert u[i..i + |t|][m] == t[m];
    }
    assert w[i - a..i - a + |t|] == t;
    assert OccursAt(w, t, i - a);
  }

  /** What `trim` keeps is a slice, so any occurrence in it is one in `s`. */
  lemma TrimmedOccurrence(s: string, t: string)
    requires Contains(Upper(Trim(s)), t)
    ensures Contains(Upper(s), t)
  {
    var k, r := TrimOffset(s), Trim(s);
    UpperSlice(s, k, k + |r|);
    ContainsSlice(Upper(s), k, k + |r|);
    ContainsTransitive(Upper(s), Upper(r), t);
  }

  // ---------------------------------------------------------------------------
  // Decimal numerals
  // ---------------------------------------------------------------------------

  predicate IsDigit(c: char)
  {
    '0' <= c <= '9'
  }

  predicate AllDigits(s: string)
  {
    forall i :: 0 <= i < |s| ==> IsDigit(s[i])
  }

  function DigitChar(d: nat): (c: char)
    requires d < 10
    ensures IsDigit(c) && c as int - '0' as int == d
  {
    ('0' as int + d) as char
  }

  /** The decimal numeral of `n`, as a template literal renders an integer:
      digits only, and no leading zero unless `n` is zero. */
  function Decimal(n: nat): (r: string)
    ensures r != [] && AllDigits(r)
    ensures r[0] == '0' ==> n == 0
  {
    if n < 10 then [DigitChar(n)] else Decimal(n / 10) + [DigitChar(n % 10)]
  }

  /** The value of a string of decimal digits. */
  function DecimalValue(s: string): nat
    requires AllDigits(s)
  {
    if s == [] then 0
    else DecimalValue(s[..|s| - 1]) * 10 + (s[|s| - 1] as int - '0' as int)
  }

  /** Reading back the numeral of `n` gives `n`. */
  lemma {:induction false} DecimalRoundTrip(n: nat)
    ensures DecimalValue(Decimal(n)) == n
  {
    if n >= 10 {
      DecimalRoundTrip(n / 10);
      var r := Decimal(n);
      assert r[..|r| - 1] == Decimal(n / 10);
    }
  }

  /** Distinct numbers have distinct numerals. */
  lemma DecimalInjective(m: nat, n: nat)
    requires Decimal(m) == Decimal(n)
    ensures m == n
  {
    DecimalRoundTrip(m);
    DecimalRoundTrip(n);
  }
}
