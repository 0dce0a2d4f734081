/**
 * The e-mail pattern `/^[^\s@]+@[^\s@]+\.[^\s@]+$/` that both landing page variants
 * and the guide form test, written as a predicate on strings, and the shape of the
 * strings it accepts.
 */
module EmailPattern {
  import opened Text

  /** One character of the class `[^\s@]`. */
  predicate IsPatternChar(c: char)
  {
    !IsSpace(c) && c != '@'
  }

  /** `[^\s@]+`: one or more characters of the class. */
  predicate IsRun(s: string)
  {
    |s| > 0 && forall i :: 0 <= i < |s| ==> IsPatternChar(s[i])
  }

  /**
   * The regex test, anchored at both ends: some position of an `@` and some later
   * position of a `.` cut the string into three runs. So a match holds an `@` and has
   * at least five characters.
   */
  predicate Matches(s: string)
    ensures Matches(s) ==> '@' in s && 5 <= |s|
  {
    exists at, dot | 0 <= at < dot < |s| :: SplitsAt(s, at, dot)
  }

  /** `s[..at]`, `s[at + 1..dot]` and `s[dot + 1..]` are runs, with `@` at `at` and `.` at `dot`. */
  predicate SplitsAt(s: string, at: int, dot: int)
    requires 0 <= at < dot < |s|
  {
    IsRun(s[..at]) && s[at] == '@' && IsRun(s[at + 1..dot]) && s[dot] == '.' && IsRun(s[dot + 1..])
  }

  /** Position `at` holds the one and only `@` of `s`. */
  predicate OnlyAt(s: string, at: int)
  {
    0 <= at < |s| && s[at] == '@' && forall j :: 0 <= j < |s| && s[j] == '@' ==> j == at
  }

  /** Some `.` of `d` has at least one character on each side. */
  predicate HasInnerDot(d: string)
  {
    exists k :: 0 < k < |d| - 1 && d[k] == '.'
  }

  /**
   * The strings the pattern is meant for: no whitespace, exactly one `@`, a non-empty
   * local part, and a domain with a `.` that has text on both sides.
   */
  ghost predicate EmailShape(s: string)
  {
    NoSpace(s) && exists at :: ShapedAt(s, at)
  }

  /** The only `@` is at `at`, after a non-empty local part, and the domain after it has an inner `.`. */
  predicate ShapedAt(s: string, at: int)
  {
    OnlyAt(s, at) && 0 < at && HasInnerDot(s[at + 1..])
  }

  /** The regex accepts exactly the strings of the e-mail shape. */
  lemma MatchesIffShape(s: string)
    ensures Matches(s) <==> EmailShape(s)
  {
    if Matches(s) {
      var at, dot :| 0 <= at < dot < |s| && SplitsAt(s, at, dot);
      forall i | 0 <= i < |s|
        ensures !IsSpace(s[i]) && (s[i] == '@' ==> i == at)
      {
        if i < at {
          assert s[i] == s[..at][i];
        } else if at < i < dot {
          assert s[i] == s[at + 1..dot][i - at - 1];
        } else if dot < i {
          assert s[i] == s[dot + 1..][i - dot - 1];
        }
      }
      var d := s[at + 1..];
      assert d[dot - at - 1] == '.';
      assert HasInnerDot(d);
      assert ShapedAt(s, at);
    }
    if EmailShape(s) {
      var at :| ShapedAt(s, at);
      var d := s[at + 1..];
      var k :| 0 < k < |d| - 1 && d[k] == '.';
      var dot := at + 1 + k;
      assert s[dot] == '.';
      forall i | 0 <= i < |s| && i != at
        ensures IsPatternChar(s[i])
      {
      }
      assert IsRun(s[..at]);
      assert IsRun(s[at + 1..dot]);
      assert IsRun(s[dot + 1..]);
      assert SplitsAt(s, at, dot);
    }
  }

  /** A matching address has no whitespace, so trimming it changes nothing. */
  lemma MatchesIsTrimmed(s: string)
    requires Matches(s)
    ensures NoSpace(s) && Trim(s) == s
  {
    MatchesIffShape(s);
    TrimNoSpace(s);
  }

  /** A matching address contains an `@` and is not blank. */
  lemma MatchesHasAt(s: string)
    requires Matches(s)
    ensures '@' in s && !AllSpace(s)
  {
    var at, dot :| 0 <= at < dot < |s| && SplitsAt(s, at, dot);
    assert !IsSpace(s[at]);
  }

  /** Testing "not blank, then the pattern" accepts exactly the strings of the e-mail shape. */
  lemma GateIffShape(s: string)
    ensures !IsBlank(s) && Matches(s) <==> EmailShape(s)
  {
    MatchesIffShape(s);
    if Matches(s) {
      MatchesHasAt(s);
    }
  }

  /** The pattern is tested on the untrimmed value: a leading space is rejected. */
  lemma LeadingSpaceRejected(s: string)
    requires s != [] && IsSpace(s[0])
    ensures !Matches(s)
  {
    MatchesIffShape(s);
  }

  /** An address with a `@` but no `.` after it, like `a@b`, is rejected. */
  lemma NoDotAfterAtRejected()
    ensures !Matches("a@b")
  {
  }

  /** A plain address such as `jo@x.com` is accepted. */
  lemma PlainAddressAccepted()
    ensures Matches("jo@x.com")
  {
    var s := "jo@x.com";
    assert IsRun(s[..2]) && s[2] == '@' && IsRun(s[3..4]) && s[4] == '.' && IsRun(s[5..]);
    assert SplitsAt(s, 2, 4);
  }
}
