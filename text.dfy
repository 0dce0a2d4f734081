/**
 * Strings as both halves of the site handle them: the whitespace class, trimming
 * (JavaScript `trim()`, Python `strip()`) and `Array.prototype.join`.
 */
module Text {

  datatype Option<+T> = None | Some(value: T)

  /**
   * The whitespace class used by the JavaScript regex class `\s` and by `trim()`.
   * The model uses this one class for Python's `str.strip()` as well.
   */
  predicate IsSpace(c: char)
  {
    c == ' ' || c == '\t' || c == '\n' || c == '\r' || c == '\U{000B}' || c == '\U{000C}'
    || c == '\U{00A0}' || c == '\U{1680}' || ('\U{2000}' <= c <= '\U{200A}')
    || c == '\U{2028}' || c == '\U{2029}' || c == '\U{202F}' || c == '\U{205F}'
    || c == '\U{3000}' || c == '\U{FEFF}'
  }

  predicate AllSpace(s: string)
  {
    forall i :: 0 <= i < |s| ==> IsSpace(s[i])
  }

  predicate NoSpace(s: string)
  {
    forall i :: 0 <= i < |s| ==> !IsSpace(s[i])
  }

  /** Drops the leading whitespace. */
  function TrimStart(s: string): string
  {
    if s != [] && IsSpace(s[0]) then TrimStart(s[1..]) else s
  }

  /** Drops the trailing whitespace. */
  function TrimEnd(s: string): string
  {
    if s != [] && IsSpace(s[|s| - 1]) then TrimEnd(s[..|s| - 1]) else s
  }

  /** `TrimStart` leaves the suffix after an all-space prefix, and it starts with a non-space. */
  lemma {:induction false} TrimStartSpec(s: string)
    ensures var r := TrimStart(s);
      && |r| <= |s| && r == s[|s| - |r|..]
      && AllSpace(s[..|s| - |r|])
      && (r != [] ==> !IsSpace(r[0]))
  {
    if s != [] && IsSpace(s[0]) {
      TrimStartSpec(s[1..]);
      var r := TrimStart(s[1..]);
      assert s[..|s| - |r|] == [s[0]] + s[1..][..|s| - 1 - |r|];
    }
  }

  /** `TrimEnd` leaves the prefix before an all-space suffix, and it ends with a non-space. */
  lemma {:induction false} TrimEndSpec(s: string)
    ensures var r := TrimEnd(s);
      && |r| <= |s| && r == s[..|r|]
      && AllSpace(s[|r|..])
      && (r != [] ==> !IsSpace(r[|r| - 1]))
  {
    if s != [] && IsSpace(s[|s| - 1]) {
      TrimEndSpec(s[..|s| - 1]);
      var r := TrimEnd(s[..|s| - 1]);
      assert s[|r|..] == s[..|s| - 1][|r|..] + [s[|s| - 1]];
    }
  }

  /**
   * `t` is `s` with an all-whitespace prefix and an all-whitespace suffix removed: the
   * slice of `s` from some `a` on.
   */
  ghost predicate IsStripOf(t: string, s: string)
  {
    exists a :: 0 <= a && a + |t| <= |s| && SliceAt(t, s, a)
  }

  /** `t` sits in `s` at offset `a`, with only whitespace before and after it. */
  ghost predicate SliceAt(t: string, s: string, a: int)
    requires 0 <= a && a + |t| <= |s|
  {
    t == s[a..a + |t|] && AllSpace(s[..a]) && AllSpace(s[a + |t|..])
  }

  /**
   * `s.trim()` in JavaScript, `s.strip()` in Python: `s` without its surrounding
   * whitespace, that is, a slice of `s` with only whitespace around it that neither
   * starts nor ends with whitespace itself.
   */
  function Trim(s: string): (t: string)
    ensures |t| <= |s| && IsStripOf(t, s)
    ensures t != [] ==> !IsSpace(t[0]) && !IsSpace(t[|t| - 1])
  {
    TrimsAt(s);
    TrimEnd(TrimStart(s))
  }

  /** Both halves together cut `s` at the offset where `TrimStart` stopped. */
  lemma TrimsAt(s: string)
    ensures var r := TrimStart(s); var t := TrimEnd(r);
      && |r| <= |s| && |t| <= |r| && SliceAt(t, s, |s| - |r|)
      && (t != [] ==> !IsSpace(t[0]) && !IsSpace(t[|t| - 1]))
  {
    TrimStartSpec(s);
    var r := TrimStart(s);
    TrimEndSpec(r);
    var t := TrimEnd(r);
    var a := |s| - |r|;
    assert t == r[..|t|];
    assert r[..|t|] == s[a..a + |t|];
    assert s[a + |t|..] == r[|t|..];
  }

  /** Trimming gives the empty string exactly when every character is whitespace. */
  lemma TrimEmptyIffAllSpace(s: string)
    ensures Trim(s) == "" <==> AllSpace(s)
  {
    TrimStartSpec(s);
    var t := TrimStart(s);
    TrimEndSpec(t);
    if t == [] {
      assert s[..|s|] == s;
    } else {
      assert !IsSpace(t[0]);
      assert s[|s| - |t|] == t[0];
    }
  }

  /**
   * `!s.trim()` in JavaScript and `not s.strip()` in Python (the empty string is the
   * only falsy one): holds exactly when every character of `s` is whitespace.
   */
  predicate IsBlank(s: string)
    ensures IsBlank(s) <==> AllSpace(s)
  {
    TrimEmptyIffAllSpace(s);
    Trim(s) == ""
  }

  /** Trimming leaves a string without whitespace as it is. */
  lemma TrimNoSpace(s: string)
    requires NoSpace(s)
    ensures Trim(s) == s
  {
    if s != [] {
      assert !IsSpace(s[0]) && !IsSpace(s[|s| - 1]);
    }
  }

  /**
   * `xs.join(sep)`: the elements, with `sep` between neighbours. It starts with the
   * first element, followed by the separator when a second one comes.
   */
  function Join(xs: seq<string>, sep: string): (r: string)
    ensures xs != [] ==> xs[0] <= r
    ensures |xs| >= 2 ==> xs[0] + sep <= r
  {
    if xs == [] then ""
    else if |xs| == 1 then xs[0]
    else xs[0] + sep + Join(xs[1..], sep)
  }

  /** Appending an element appends the separator and the element: `join` accumulates left to right. */
  lemma {:induction false} JoinSnoc(xs: seq<string>, x: string, sep: string)
    requires xs != []
    ensures Join(xs + [x], sep) == Join(xs, sep) + sep + x
    decreases |xs|
  {
    var ys := xs + [x];
    assert |ys| >= 2 && ys[0] == xs[0];
    if |xs| == 1 {
      assert ys[1..] == [x];
      assert Join(ys, sep) == xs[0] + sep + x;
    } else {
      assert ys[1..] == xs[1..] + [x];
      JoinSnoc(xs[1..], x, sep);
      calc {
        Join(ys, sep);
        xs[0] + sep + Join(xs[1..] + [x], sep);
        xs[0] + sep + (Join(xs[1..], sep) + sep + x);
        (xs[0] + sep + Join(xs[1..], sep)) + sep + x;
      }
    }
  }

  /**
   * With a non-empty separator the join is empty only for the empty list and for the
   * list holding one empty string.
   */
  lemma {:induction false} JoinEmptyIff(xs: seq<string>, sep: string)
    requires sep != ""
    ensures Join(xs, sep) == "" <==> xs == [] || xs == [""]
  {
    if |xs| > 1 {
      assert |Join(xs, sep)| >= |sep|;
    }
  }

  /** Joining non-empty strings gives a non-empty string, whatever the separator. */
  lemma {:induction false} JoinOfNonEmpty(xs: seq<string>, sep: string)
    requires xs != []
    requires forall i :: 0 <= i < |xs| ==> xs[i] != ""
    ensures Join(xs, sep) != ""
  {
    if |xs| > 1 {
      assert |Join(xs, sep)| >= |xs[0]|;
    }
  }
}
