/**
 * The email check of the signup form: the anchored regular expression
 * `^[^\s@]+@[^\s@]+\.[^\s@]+$`, applied with JavaScript's `RegExp.prototype.test`.
 *
 * Three descriptions of the same language are given and proved equal:
 *  - `MatchesPattern`: the meaning of the regular expression itself
 *    (three runs of `[^\s@]+` separated by `@` and `.`);
 *  - `WellFormedAddress`: a declarative description (no whitespace, exactly
 *    one `@`, a non-empty local part, a domain with a dot that has text on
 *    both sides);
 *  - `ValidEmail`: an executable checker built from linear scans.
 */
module Email {
  import opened Wrappers

  /**
   * JavaScript's `\s`: the ECMAScript WhiteSpace and LineTerminator code
   * points. TAB, LF, VT, FF, CR, SPACE, NO-BREAK SPACE, OGHAM SPACE MARK,
   * EN QUAD .. HAIR SPACE (U+2000..U+200A), LINE SEPARATOR, PARAGRAPH
   * SEPARATOR, NARROW NO-BREAK SPACE, MEDIUM MATHEMATICAL SPACE,
   * IDEOGRAPHIC SPACE and the byte-order mark U+FEFF.
   */
  predicate IsWhitespace(c: char) {
    var n := c as int;
    || (0x09 <= n <= 0x0D)
    || n == 0x20
    || n == 0xA0
    || n == 0x1680
    || (0x2000 <= n <= 0x200A)
    || n == 0x2028 || n == 0x2029
    || n == 0x202F
    || n == 0x205F
    || n == 0x3000
    || n == 0xFEFF
  }

  /** The character class `[^\s@]`. */
  predicate IsAtomChar(c: char) {
    c != '@' && !IsWhitespace(c)
  }

  /** A string matched by `[^\s@]+`. */
  predicate IsAtom(s: string) {
    |s| > 0 && forall i :: 0 <= i < |s| ==> IsAtomChar(s[i])
  }

  /**
   * The strings matched by `^[^\s@]+@[^\s@]+\.[^\s@]+$`: an atom, `@`, an
   * atom, `.`, an atom, covering the whole string. The middle atom may itself
   * contain dots, so any dot of the domain can play the part of `\.`.
   */
  ghost predicate MatchesPattern(s: string) {
    exists at, dot ::
      0 <= at < dot < |s| && s[at] == '@' && s[dot] == '.' &&
      IsAtom(s[..at]) && IsAtom(s[at + 1..dot]) && IsAtom(s[dot + 1..])
  }

  /**
   * The same language described by its parts: no whitespace anywhere, exactly
   * one `@`, a non-empty local part before it, and after it a domain holding
   * a `.` that is neither the domain's first nor its last character.
   */
  ghost predicate WellFormedAddress(s: string) {
    && (forall i :: 0 <= i < |s| ==> !IsWhitespace(s[i]))
    && exists at ::
         && 0 < at < |s| && s[at] == '@'
         && (forall j :: 0 <= j < |s| && s[j] == '@' ==> j == at)
         && (exists dot :: at + 1 < dot < |s| - 1 && s[dot] == '.')
  }

  /** Index of the first occurrence of `c` in `s`, if any. */
  function IndexOf(s: string, c: char): (r: Option<nat>)
    ensures r.Some? ==> r.value < |s| && s[r.value] == c
    ensures r.Some? ==> forall j :: 0 <= j < r.value ==> s[j] != c
    ensures r.None? ==> forall j :: 0 <= j < |s| ==> s[j] != c
  {
    if |s| == 0 then None
    else if s[0] == c then Some(0)
    else match IndexOf(s[1..], c)
      case None => None
      case Some(k) => Some(k + 1)
  }

  /** Whether some character of `s` is whitespace. */
  function HasWhitespace(s: string): (b: bool)
    ensures b <==> exists i :: 0 <= i < |s| && IsWhitespace(s[i])
  {
    if |s| == 0 then false
    else if IsWhitespace(s[0]) then true
    else
      var rest := HasWhitespace(s[1..]);
      assert forall i :: 1 <= i < |s| ==> s[i] == s[1..][i - 1];
      rest
  }

  /** Whether the domain `d` holds a dot with text on both sides of it. */
  function HasInnerDot(d: string): (b: bool)
    ensures b <==> exists k :: 0 < k < |d| - 1 && d[k] == '.'
  {
    if |d| < 3 then false
    else
      var inner := d[1..|d| - 1];
      var found := IndexOf(inner, '.');
      assert forall k :: 0 < k < |d| - 1 ==> d[k] == inner[k - 1];
      found.Some?
  }

  /** Executable form of `/^[^\s@]+@[^\s@]+\.[^\s@]+$/.test(email)`. */
  function ValidEmail(email: string): bool {
    && !HasWhitespace(email)
    && match IndexOf(email, '@')
       case None => false
       case Some(at) =>
         && at > 0
         && IndexOf(email[at + 1..], '@').None?
         && HasInnerDot(email[at + 1..])
  }

  /** The executable checker accepts exactly the well-formed addresses. */
  lemma ValidEmailIsWellFormed(s: string)
    ensures ValidEmail(s) <==> WellFormedAddress(s)
  {
    if ValidEmail(s) {
      var at := IndexOf(s, '@').value;
      var d := s[at + 1..];
      forall j | at < j < |s| ensures s[j] != '@' {
        assert s[j] == d[j - at - 1];
      }
      var k :| 0 < k < |d| - 1 && d[k] == '.';
      assert s[at + 1 + k] == '.';
    }
    if WellFormedAddress(s) {
      var at :| 0 < at < |s| && s[at] == '@' &&
        (forall j :: 0 <= j < |s| && s[j] == '@' ==> j == at) &&
        (exists dot :: at + 1 < dot < |s| - 1 && s[dot] == '.');
      assert IndexOf(s, '@') == Some(at);
      var d := s[at + 1..];
      forall j | 0 <= j < |d| ensures d[j] != '@' {
        assert s[at + 1 + j] == d[j];
      }
      var dot :| at + 1 < dot < |s| - 1 && s[dot] == '.';
      assert d[dot - at - 1] == '.';
    }
  }

  /** The declarative description is exactly the regular expression's language. */
  lemma WellFormedIsPattern(s: string)
    ensures WellFormedAddress(s) <==> MatchesPattern(s)
  {
    if WellFormedAddress(s) {
      var at :| 0 < at < |s| && s[at] == '@' &&
        (forall j :: 0 <= j < |s| && s[j] == '@' ==> j == at) &&
        (exists dot :: at + 1 < dot < |s| - 1 && s[dot] == '.');
      var dot :| at + 1 < dot < |s| - 1 && s[dot] == '.';
      AtomSlice(s, 0, at, at, dot);
      AtomSlice(s, at + 1, dot, at, dot);
      AtomSlice(s, dot + 1, |s|, at, dot);
      assert s[..at] == s[0..at];
      assert s[dot + 1..] == s[dot + 1..|s|];
    }
    if MatchesPattern(s) {
      var at, dot :|
        0 <= at < dot < |s| && s[at] == '@' && s[dot] == '.' &&
        IsAtom(s[..at]) && IsAtom(s[at + 1..dot]) && IsAtom(s[dot + 1..]);
      forall i | 0 <= i < |s| ensures !IsWhitespace(s[i]) && (s[i] == '@' ==> i == at) {
        PartChar(s, at, dot, i);
      }
      assert 0 < at;
      assert at + 1 < dot < |s| - 1;
    }
  }

  /**
   * In a string with no whitespace whose only `@` is at `at`, every slice
   * that avoids position `at` and is non-empty is an atom.
   */
  lemma AtomSlice(s: string, lo: int, hi: int, at: int, dot: int)
    requires 0 <= lo < hi <= |s| && 0 <= at < |s|
    requires !(lo <= at < hi)
    requires forall i :: 0 <= i < |s| ==> !IsWhitespace(s[i])
    requires forall j :: 0 <= j < |s| && s[j] == '@' ==> j == at
    ensures IsAtom(s[lo..hi])
  {
    forall i | 0 <= i < hi - lo ensures IsAtomChar(s[lo..hi][i]) {
      assert s[lo..hi][i] == s[lo + i];
    }
  }

  /** Every character of a pattern match is an atom character or one of the two separators. */
  lemma PartChar(s: string, at: int, dot: int, i: int)
    requires 0 <= at < dot < |s| && s[at] == '@' && s[dot] == '.'
    requires IsAtom(s[..at]) && IsAtom(s[at + 1..dot]) && IsAtom(s[dot + 1..])
    requires 0 <= i < |s|
    ensures !IsWhitespace(s[i])
    ensures s[i] == '@' ==> i == at
  {
    if i < at {
      assert s[..at][i] == s[i];
    } else if at < i < dot {
      assert s[at + 1..dot][i - at - 1] == s[i];
    } else if dot < i {
      assert s[dot + 1..][i - dot - 1] == s[i];
    }
  }

  /** The executable checker decides the regular expression. */
  lemma ValidEmailIsPattern(s: string)
    ensures ValidEmail(s) <==> MatchesPattern(s)
  {
    ValidEmailIsWellFormed(s);
    WellFormedIsPattern(s);
  }

  /** A domain without a dot is rejected. */
  lemma RejectsDotlessDomain()
    ensures !MatchesPattern("foo@bar")
  {
    ValidEmailIsPattern("foo@bar");
    assert IndexOf("foo@bar", '@') == Some(3);
    assert !HasInnerDot("bar");
  }

  /** A domain with one dot is accepted. */
  lemma AcceptsDottedDomain()
    ensures MatchesPattern("foo@bar.com")
  {
    var s := "foo@bar.com";
    assert s[..3] == "foo" && s[4..7] == "bar" && s[8..] == "com";
    assert s[3] == '@' && s[7] == '.';
    assert IsAtom(s[..3]) && IsAtom(s[3 + 1..7]) && IsAtom(s[7 + 1..]);
  }

  /** A domain with several dots is accepted: the middle atom may hold dots. */
  lemma AcceptsManyDots()
    ensures MatchesPattern("a@b.c.d")
  {
    var s := "a@b.c.d";
    assert s[..1] == "a" && s[2..5] == "b.c" && s[6..] == "d";
    assert s[1] == '@' && s[5] == '.';
    assert IsAtom(s[..1]) && IsAtom(s[1 + 1..5]) && IsAtom(s[5 + 1..]);
  }

  /** A space anywhere is rejected. */
  lemma RejectsSpace()
    ensures !MatchesPattern("foo bar@baz.com")
  {
    ValidEmailIsPattern("foo bar@baz.com");
    assert IsWhitespace("foo bar@baz.com"[3]);
  }
}
