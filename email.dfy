/**
 * The address pattern `^[^\s@]+@[^\s@]+\.[^\s@]+$` used by the live e-mail
 * validator and by the step gate of step 2.
 */
module Email {
  import opened Text

  /** A non-empty run of the class `[^\s@]` would accept every character of `s`. */
  predicate NoSpaceOrAt(s: string) {
    forall i | 0 <= i < |s| :: !IsWhitespace(s[i]) && s[i] != '@'
  }

  /** The pattern read literally: a local part, `@`, a domain label, `.`, and a tail,
      each a non-empty run without whitespace or `@` (the label and the tail may
      themselves hold dots, so the pattern can split at any inner dot). */
  predicate MatchesEmailPattern(s: string) {
    exists at, dot | 0 < at && at + 1 < dot && dot + 1 < |s| ::
      && s[at] == '@' && s[dot] == '.'
      && NoSpaceOrAt(s[..at]) && NoSpaceOrAt(s[at + 1..dot]) && NoSpaceOrAt(s[dot + 1..])
  }

  /** Index of the first `c` in `s`, or `|s|` when there is none. */
  function IndexOf(s: string, c: char): (k: nat)
    ensures k <= |s|
    ensures k < |s| ==> s[k] == c
    ensures forall i | 0 <= i < k :: s[i] != c
  {
    if s == [] then 0 else if s[0] == c then 0 else 1 + IndexOf(s[1..], c)
  }

  /** The domain has a dot that is neither its first nor its last character. */
  predicate HasInnerDot(domain: string) {
    exists j | 0 < j < |domain| - 1 :: domain[j] == '.'
  }

  /** The pattern in plain terms: exactly one `@`, no whitespace anywhere, a non-empty
      local part, and a domain with an inner dot. */
  predicate EmailShape(s: string) {
    && Count(s, '@') == 1
    && (forall i | 0 <= i < |s| :: !IsWhitespace(s[i]))
    && var at := IndexOf(s, '@');
       0 < at < |s| && HasInnerDot(s[at + 1..])
  }

  /** Every index in `lo..hi` holds a character of the class `[^\s@]`. */
  predicate CleanRange(s: string, lo: int, hi: int)
    requires 0 <= lo <= hi <= |s|
  {
    forall i | lo <= i < hi :: !IsWhitespace(s[i]) && s[i] != '@'
  }

  lemma CleanRangeSlice(s: string, lo: int, hi: int)
    requires 0 <= lo <= hi <= |s|
    ensures CleanRange(s, lo, hi) <==> NoSpaceOrAt(s[lo..hi])
  {
    assert forall i | 0 <= i < hi - lo :: s[lo..hi][i] == s[lo + i];
  }

  /** Splitting at an `@`: it is the only one exactly when neither side holds another. */
  lemma SingleAt(s: string, at: int)
    requires 0 <= at < |s| && s[at] == '@'
    ensures Count(s, '@') == 1 <==> forall i | 0 <= i < |s| && i != at :: s[i] != '@'
  {
    var left, right := s[..at], s[at + 1..];
    assert s == left + [s[at]] + right;
    CountAppend(left + [s[at]], right, '@');
    CountAppend(left, [s[at]], '@');
    assert Count([s[at]], '@') == 1;
    CountZero(left, '@');
    CountZero(right, '@');
    if Count(s, '@') == 1 {
      forall i | 0 <= i < |s| && i != at ensures s[i] != '@' {
        if i < at {
          assert s[i] == left[i];
        } else {
          assert s[i] == right[i - at - 1];
        }
      }
    } else {
      assert Count(left, '@') != 0 || Count(right, '@') != 0;
      if Count(left, '@') != 0 {
        var i :| 0 <= i < |left| && left[i] == '@';
        assert s[i] == left[i];
      } else {
        var i :| 0 <= i < |right| && right[i] == '@';
        assert s[at + 1 + i] == right[i];
      }
    }
  }

  lemma ShapeImpliesPattern(s: string)
    requires EmailShape(s)
    ensures MatchesEmailPattern(s)
  {
    var at := IndexOf(s, '@');
    var domain := s[at + 1..];
    var j :| 0 < j < |domain| - 1 && domain[j] == '.';
    var dot := at + 1 + j;
    SingleAt(s, at);
    assert s[dot] == domain[j];
    assert CleanRange(s, 0, at) && CleanRange(s, at + 1, dot) && CleanRange(s, dot + 1, |s|);
    CleanRangeSlice(s, 0, at);
    CleanRangeSlice(s, at + 1, dot);
    CleanRangeSlice(s, dot + 1, |s|);
    assert s[..at] == s[0..at];
  }

  /** A match's three runs leave whitespace nowhere and `@` only at the separator. */
  lemma MatchParts(s: string, at: int, dot: int)
    requires 0 < at && at + 1 < dot && dot + 1 < |s| && s[at] == '@' && s[dot] == '.'
    requires CleanRange(s, 0, at) && CleanRange(s, at + 1, dot) && CleanRange(s, dot + 1, |s|)
    ensures forall i | 0 <= i < |s| && i != at :: s[i] != '@'
    ensures forall i | 0 <= i < |s| :: !IsWhitespace(s[i])
  {
    forall i | 0 <= i < |s| ensures (i != at ==> s[i] != '@') && !IsWhitespace(s[i]) {
      if i < at {
        assert CleanRange(s, 0, at);
      } else if at < i < dot {
        assert CleanRange(s, at + 1, dot);
      } else if i > dot {
        assert CleanRange(s, dot + 1, |s|);
      }
    }
  }

  lemma PatternImpliesShape(s: string)
    requires MatchesEmailPattern(s)
    ensures EmailShape(s)
  {
    var at, dot :| 0 < at && at + 1 < dot && dot + 1 < |s|
      && s[at] == '@' && s[dot] == '.'
      && NoSpaceOrAt(s[..at]) && NoSpaceOrAt(s[at + 1..dot]) && NoSpaceOrAt(s[dot + 1..]);
    assert s[..at] == s[0..at];
    CleanRangeSlice(s, 0, at);
    CleanRangeSlice(s, at + 1, dot);
    CleanRangeSlice(s, dot + 1, |s|);
    MatchParts(s, at, dot);
    SingleAt(s, at);
    var k := IndexOf(s, '@');
    assert k == at;
    var domain := s[at + 1..];
    assert domain[dot - at - 1] == '.';
  }

  /** The plain description and the pattern accept the same strings. */
  lemma EmailShapeIffPattern(s: string)
    ensures EmailShape(s) <==> MatchesEmailPattern(s)
  {
    if EmailShape(s) {
      ShapeImpliesPattern(s);
    }
    if MatchesEmailPattern(s) {
      PatternImpliesShape(s);
    }
  }

  lemma PatternExamples()
    ensures MatchesEmailPattern("a@b.c")
    ensures MatchesEmailPattern("usuario@email.com")
    ensures !MatchesEmailPattern("abc")
    ensures !MatchesEmailPattern("a@b")
    ensures !MatchesEmailPattern("a b@c.d")
  {
    var s := "a@b.c";
    assert s[1] == '@' && s[3] == '.' && NoSpaceOrAt(s[..1]) && NoSpaceOrAt(s[2..3]) && NoSpaceOrAt(s[4..]);
    var u := "usuario@email.com";
    assert u[7] == '@' && u[13] == '.' && NoSpaceOrAt(u[..7]) && NoSpaceOrAt(u[8..13]) && NoSpaceOrAt(u[14..]);
    var w := "a b@c.d";
    assert IsWhitespace(w[1]);
    assert forall at | 0 < at < |w| :: w[at] == '@' ==> !NoSpaceOrAt(w[..at]) by {
      forall at | 0 < at < |w| && w[at] == '@' ensures !NoSpaceOrAt(w[..at]) {
        assert w[..at][1] == w[1];
      }
    }
  }
}
