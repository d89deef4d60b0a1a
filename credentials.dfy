/**
 * The two credential checks of the sign-up screen: the email format
 * (a whole-string match against the regular expression
 * `[a-zA-Z0-9._-]+@[a-z]+\.+[a-z]+`) and the password strength rule
 * (strictly more than six characters).
 *
 * The regular expression is given two readings: `IsValidEmail`, which says
 * that the string splits into the five runs the pattern names, and
 * `ScanEmail`, a deterministic left-to-right automaton for this pattern,
 * proved to agree with it on every string.
 */
module Credentials {

  /** A character of `[a-zA-Z0-9._-]`, the class before the `@`. */
  predicate IsLocalChar(c: char) {
    ('a' <= c <= 'z') || ('A' <= c <= 'Z') || ('0' <= c <= '9') || c == '.' || c == '_' || c == '-'
  }

  /** A character of `[a-z]`, the class of both letter runs after the `@`. */
  predicate IsLowerLetter(c: char) {
    'a' <= c <= 'z'
  }

  /** `s[lo..hi]` is a non-empty run of `[a-zA-Z0-9._-]`. */
  predicate LocalRun(s: string, lo: int, hi: int) {
    0 <= lo < hi <= |s| && forall k :: lo <= k < hi ==> IsLocalChar(s[k])
  }

  /** `s[lo..hi]` is a non-empty run of `[a-z]`. */
  predicate LowerRun(s: string, lo: int, hi: int) {
    0 <= lo < hi <= |s| && forall k :: lo <= k < hi ==> IsLowerLetter(s[k])
  }

  /** `s[lo..hi]` is a non-empty run of dots (`\.+`). */
  predicate DotRun(s: string, lo: int, hi: int) {
    0 <= lo < hi <= |s| && forall k :: lo <= k < hi ==> s[k] == '.'
  }

  /**
   * `s` is `s[..at] + "@" + s[at+1..d] + s[d..e] + s[e..]`, where the four
   * pieces are, in order, the runs `[a-zA-Z0-9._-]+`, `[a-z]+`, `\.+` and
   * `[a-z]+` of the pattern.
   */
  predicate SplitsAt(s: string, at: int, d: int, e: int) {
    && LocalRun(s, 0, at)
    && at < |s| && s[at] == '@'
    && LowerRun(s, at + 1, d)
    && DotRun(s, d, e)
    && LowerRun(s, e, |s|)
  }

  /**
   * `isValidEmail`: the whole of `email` matches
   * `[a-zA-Z0-9._-]+@[a-z]+\.+[a-z]+`.
   */
  predicate IsValidEmail(email: string) {
    exists at, d, e | 0 < at < d < e < |email| :: SplitsAt(email, at, d, e)
  }

  /** `isPasswordStrong`: the password is longer than six characters. */
  predicate IsPasswordStrong(password: string) {
    |password| > 6
  }

  // ---------------------------------------------------------------------
  // The scanner

  /** The states of the scanner: which run of the pattern it is inside. */
  datatype ScanState = Start | Local | AtSign | Domain | Dots | Tld

  /**
   * What the scanner has established about `s[..i]` in each state; `at`,
   * `d` and `e` are the positions where the `@`, the dots and the final
   * letter run began.
   */
  ghost predicate Scanned(s: string, i: int, st: ScanState, at: int, d: int, e: int) {
    match st
    case Start => i == 0
    case Local => LocalRun(s, 0, i)
    case AtSign =>
      LocalRun(s, 0, at) && at < |s| && s[at] == '@' && i == at + 1
    case Domain =>
      LocalRun(s, 0, at) && at < |s| && s[at] == '@' && LowerRun(s, at + 1, i)
    case Dots =>
      LocalRun(s, 0, at) && at < |s| && s[at] == '@' && LowerRun(s, at + 1, d)
      && DotRun(s, d, i)
    case Tld =>
      LocalRun(s, 0, at) && at < |s| && s[at] == '@' && LowerRun(s, at + 1, d)
      && DotRun(s, d, e) && LowerRun(s, e, i)
  }

  /** The state any matching split `(at, d, e)` puts the scanner in after `i` characters. */
  function Expected(i: int, at: int, d: int, e: int): ScanState {
    if i == 0 then Start
    else if i <= at then Local
    else if i == at + 1 then AtSign
    else if i <= d then Domain
    else if i <= e then Dots
    else Tld
  }

  /**
   * Runs the pattern over `email` one character at a time and answers
   * whether the whole string matches.
   */
  method ScanEmail(email: string) returns (ok: bool)
    ensures ok <==> IsValidEmail(email)
  {
    var st := Start;
    ghost var at, d, e := 0, 0, 0;
    var i := 0;
    while i < |email|
      invariant 0 <= i <= |email|
      invariant Scanned(email, i, st, at, d, e)
      invariant forall at', d', e' :: SplitsAt(email, at', d', e') ==> st == Expected(i, at', d', e')
    {
      var c := email[i];
      match st {
        case Start =>
          if !IsLocalChar(c) { return false; }
          st := Local;
        case Local =>
          if c == '@' {
            st, at := AtSign, i;
          } else if !IsLocalChar(c) {
            return false;
          }
        case AtSign =>
          if !IsLowerLetter(c) { return false; }
          st := Domain;
        case Domain =>
          if c == '.' {
            st, d := Dots, i;
          } else if !IsLowerLetter(c) {
            return false;
          }
        case Dots =>
          if IsLowerLetter(c) {
            st, e := Tld, i;
          } else if c != '.' {
            return false;
          }
        case Tld =>
          if !IsLowerLetter(c) { return false; }
      }
      i := i + 1;
    }
    if st == Tld {
      assert SplitsAt(email, at, d, e);
    }
    ok := st == Tld;
  }

  // ---------------------------------------------------------------------
  // Properties of the accepted language

  /** The number of occurrences of `c` in `s`. */
  function Count(s: string, c: char): nat {
    if s == [] then 0 else (if s[0] == c then 1 else 0) + Count(s[1..], c)
  }

  lemma {:induction false} CountConcat(a: string, b: string, c: char)
    ensures Count(a + b, c) == Count(a, c) + Count(b, c)
  {
    if a == [] {
      assert a + b == b;
    } else {
      assert (a + b)[1..] == a[1..] + b;
      CountConcat(a[1..], b, c);
    }
  }

  lemma {:induction false} CountAbsent(s: string, c: char)
    requires forall k :: 0 <= k < |s| ==> s[k] != c
    ensures Count(s, c) == 0
  {
    if s != [] {
      CountAbsent(s[1..], c);
    }
  }

  /**
   * A matching split, character by character: the local run, the `@`, the
   * domain letters up to the first dot, the dots up to the first letter
   * of the last run, and that run to the end.
   */
  lemma SplitShape(s: string, at: int, d: int, e: int)
    requires SplitsAt(s, at, d, e)
    ensures 0 < at < d < e < |s|
    ensures s[at] == '@' && s[d] == '.' && IsLowerLetter(s[e]) && IsLowerLetter(s[|s| - 1])
    ensures forall k :: 0 <= k < at ==> IsLocalChar(s[k])
    ensures forall k :: at < k < d ==> IsLowerLetter(s[k])
    ensures forall k :: d <= k < e ==> s[k] == '.'
    ensures forall k :: e <= k < |s| ==> IsLowerLetter(s[k])
  {
  }

  /** The `@` of a matching split is the only `@` in the string. */
  lemma SplitAtIsOnlyAt(s: string, at: int, d: int, e: int, k: int)
    requires SplitsAt(s, at, d, e)
    requires 0 <= k < |s| && s[k] == '@'
    ensures k == at
  {
  }

  /** A string that matches splits into the five runs in exactly one way. */
  lemma SplitUnique(s: string, at1: int, d1: int, e1: int, at2: int, d2: int, e2: int)
    requires SplitsAt(s, at1, d1, e1) && SplitsAt(s, at2, d2, e2)
    ensures at1 == at2 && d1 == d2 && e1 == e2
  {
    SplitShape(s, at1, d1, e1);
    SplitShape(s, at2, d2, e2);
  }

  /** An accepted email holds exactly one `@` and at least five characters. */
  lemma ValidEmailShape(email: string)
    requires IsValidEmail(email)
    ensures Count(email, '@') == 1
    ensures |email| >= 5
  {
    var at, d, e :| SplitsAt(email, at, d, e);
    SplitShape(email, at, d, e);
    var before, after := email[..at], email[at + 1..];
    assert email == before + [email[at]] + after;
    CountAbsent(before, '@');
    assert forall k :: 0 <= k < |after| ==> after[k] == email[at + 1 + k];
    CountAbsent(after, '@');
    CountConcat(before + [email[at]], after, '@');
    CountConcat(before, [email[at]], '@');
  }

  /**
   * Any character after an `@` that is neither a lower-case letter nor a
   * dot (a digit, an upper-case letter, `_`, `-`, ...) makes the email
   * invalid.
   */
  lemma DomainRejectsOtherChars(email: string, at: int, k: int)
    requires 0 <= at < k < |email| && email[at] == '@'
    requires !IsLowerLetter(email[k]) && email[k] != '.'
    ensures !IsValidEmail(email)
  {
  }

  /**
   * Only one letter run may follow the dots: a further `.` and anything
   * after an accepted email is rejected (`x@a.b` is accepted, `x@a.b.c`
   * is not).
   */
  lemma SecondSegmentRejected(email: string, rest: string)
    requires IsValidEmail(email)
    ensures !IsValidEmail(email + "." + rest)
  {
    var at, d, e :| SplitsAt(email, at, d, e);
    SplitShape(email, at, d, e);
    var s := email + "." + rest;
    assert forall k :: 0 <= k < |email| ==> s[k] == email[k];
    // In `s` the `@` of `email` is followed by a dot at `d`, by a letter at
    // the end of `email`, and by the appended dot right after it; the
    // domain run must stop at or before `d`, the last letter run must start
    // after the appended dot, so the dot run between them would have to
    // cover the last letter of `email`.
    assert s[at] == '@' && s[d] == '.' && IsLowerLetter(s[|email| - 1]) && s[|email|] == '.';
  }

  /** A string without an `@` is never an accepted email. */
  lemma NoAtRejected(email: string)
    requires forall k :: 0 <= k < |email| ==> email[k] != '@'
    ensures !IsValidEmail(email)
  {
  }

  /** The addresses the screen is expected to accept and reject. */
  lemma EmailExamples()
    ensures IsValidEmail("a@b.c") && IsValidEmail("a@b..c")
    ensures IsValidEmail("x@a.b") && IsValidEmail("x@a..b")
    ensures IsValidEmail("user@example.com")
    ensures !IsValidEmail("a@b.c.d") && !IsValidEmail("x@a.b.c")
    ensures !IsValidEmail("user@ex1ample.com") && !IsValidEmail("User@Example.com")
    ensures !IsValidEmail("bad-email")
  {
    assert SplitsAt("a@b.c", 1, 3, 4);
    assert SplitsAt("a@b..c", 1, 3, 5);
    assert SplitsAt("x@a.b", 1, 3, 4);
    assert SplitsAt("x@a..b", 1, 3, 5);
    assert SplitsAt("user@example.com", 4, 12, 13);
    SecondSegmentRejected("a@b.c", "d");
    assert "a@b.c" + "." + "d" == "a@b.c.d";
    SecondSegmentRejected("x@a.b", "c");
    assert "x@a.b" + "." + "c" == "x@a.b.c";
    DomainRejectsOtherChars("user@ex1ample.com", 4, 7);
    DomainRejectsOtherChars("User@Example.com", 4, 5);
    NoAtRejected("bad-email");
  }

  /** The length rule at its boundary: seven characters pass, six do not. */
  lemma PasswordExamples()
    ensures IsPasswordStrong("abcdefg")
    ensures !IsPasswordStrong("abcdef") && !IsPasswordStrong("")
  {
  }
}
