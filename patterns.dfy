/** The regular expressions both forms test inputs against, written as the
    languages they accept. */
module Patterns {
  import opened Text

  /** The class `[^\s@]`: any character but whitespace and `@`. */
  predicate IsPlain(c: char) {
    !IsWhitespace(c) && c != '@'
  }

  predicate AllPlain(s: string) {
    forall k :: 0 <= k < |s| ==> IsPlain(s[k])
  }

  /** The language of `/^[^\s@]+@[^\s@]+\.[^\s@]+$/`: a non-empty plain run,
      `@`, a non-empty plain run, `.`, a non-empty plain run, and nothing else.
      `at` and `dot` are the positions of the literal `@` and `.`. */
  predicate MatchesEmail(s: string): (b: bool)
    ensures b ==> |s| >= 5 && '@' in s
  {
    exists at, dot | 0 < at < |s| && at + 1 < dot < |s| - 1 ::
      s[at] == '@' && s[dot] == '.'
      && AllPlain(s[..at]) && AllPlain(s[at + 1..dot]) && AllPlain(s[dot + 1..])
  }

  /** `/(?=.*[a-z])/`: some character is an ASCII lower-case letter. */
  predicate HasLower(s: string) {
    exists k | 0 <= k < |s| :: 'a' <= s[k] <= 'z'
  }

  /** `/(?=.*[A-Z])/`: some character is an ASCII upper-case letter. */
  predicate HasUpper(s: string) {
    exists k | 0 <= k < |s| :: 'A' <= s[k] <= 'Z'
  }

  /** `/(?=.*\d)/`: some character is an ASCII digit. */
  predicate HasDigit(s: string) {
    exists k | 0 <= k < |s| :: '0' <= s[k] <= '9'
  }

  /** The shape the email pattern describes, stated field by field: no
      whitespace, exactly one `@`, something before it, and after it a `.`
      with at least one character on either side. */
  ghost predicate EmailShape(s: string) {
    && s != ""
    && (forall k :: 0 <= k < |s| ==> !IsWhitespace(s[k]))
    && multiset(s)['@'] == 1
    && exists at, dot :: 0 < at && at + 1 < dot < |s| - 1 && s[at] == '@' && s[dot] == '.'
  }

  /** A run of plain characters holds no `@`. */
  lemma PlainHasNoAt(t: string)
    requires AllPlain(t)
    ensures multiset(t)['@'] == 0
  {
    assert '@' !in t;
  }

  /** Two positions holding `c` make it occur at least twice. */
  lemma TwiceIsTwo(s: string, i: int, j: int, c: char)
    requires 0 <= i < j < |s| && s[i] == c && s[j] == c
    ensures multiset(s)[c] >= 2
  {
    assert s == s[..j] + s[j..];
    assert s[..j][i] == c;
    assert s[j..][0] == c;
    assert multiset(s) == multiset(s[..j]) + multiset(s[j..]);
  }

  /** A match of the email pattern, with its `@` at `at` and its `.` at
      `dot`, has the stated shape. */
  lemma ShapeOfMatch(s: string, at: int, dot: int)
    requires 0 < at < |s| && at + 1 < dot < |s| - 1
    requires s[at] == '@' && s[dot] == '.'
    requires AllPlain(s[..at]) && AllPlain(s[at + 1..dot]) && AllPlain(s[dot + 1..])
    ensures EmailShape(s)
  {
    var tail := s[at + 1..];
    assert AllPlain(tail) by {
      forall k | 0 <= k < |tail| ensures IsPlain(tail[k]) {
        if k < dot - at - 1 { assert tail[k] == s[at + 1..dot][k]; }
        else if k > dot - at - 1 { assert tail[k] == s[dot + 1..][k - (dot - at)]; }
      }
    }
    forall k | 0 <= k < |s| ensures !IsWhitespace(s[k]) {
      if k < at { assert s[k] == s[..at][k]; }
      else if at < k { assert s[k] == tail[k - at - 1]; }
    }
    PlainHasNoAt(s[..at]);
    PlainHasNoAt(tail);
    assert s == s[..at] + [s[at]] + tail;
    assert multiset(s) == multiset(s[..at]) + multiset([s[at]]) + multiset(tail);
  }

  /** A string of the stated shape, with its `@` at `at` and a `.` at `dot`,
      matches the email pattern. */
  lemma MatchOfShape(s: string, at: int, dot: int)
    requires EmailShape(s)
    requires 0 < at && at + 1 < dot < |s| - 1 && s[at] == '@' && s[dot] == '.'
    ensures MatchesEmail(s)
  {
    forall k | 0 <= k < |s| && k != at ensures s[k] != '@' {
      if s[k] == '@' {
        if k < at { TwiceIsTwo(s, k, at, '@'); } else { TwiceIsTwo(s, at, k, '@'); }
      }
    }
    assert AllPlain(s[..at]);
    assert AllPlain(s[at + 1..dot]);
    assert AllPlain(s[dot + 1..]);
  }

  /** The email pattern accepts exactly the strings of the stated shape. */
  lemma MatchesEmailIffShape(s: string)
    ensures MatchesEmail(s) <==> EmailShape(s)
  {
    if MatchesEmail(s) {
      var at, dot :| 0 < at < |s| && at + 1 < dot < |s| - 1
                     && s[at] == '@' && s[dot] == '.'
                     && AllPlain(s[..at]) && AllPlain(s[at + 1..dot]) && AllPlain(s[dot + 1..]);
      ShapeOfMatch(s, at, dot);
    }
    if EmailShape(s) {
      var at, dot :| 0 < at && at + 1 < dot < |s| - 1 && s[at] == '@' && s[dot] == '.';
      MatchOfShape(s, at, dot);
    }
  }
}
