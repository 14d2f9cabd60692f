/**
  `format_string` of the two whisper quizzes: delete every comma and every
  full stop, then strip surrounding whitespace, where whitespace is what
  Python's `str.isspace` accepts.
 */
module TextFormat {

  /**
    The characters `str.strip()` removes: tab to carriage return, the four
    information separators, space, next line, no-break space and the Unicode
    space, line and paragraph separators.
   */
  predicate IsSpace(c: char) {
    || '\t' <= c <= '\r'
    || '\U{1C}' <= c <= ' '
    || c == '\U{85}' || c == '\U{A0}' || c == '\U{1680}'
    || '\U{2000}' <= c <= '\U{200A}'
    || c == '\U{2028}' || c == '\U{2029}' || c == '\U{202F}' || c == '\U{205F}' || c == '\U{3000}'
  }

  predicate AllSpaces(s: string) {
    forall i :: 0 <= i < |s| ==> IsSpace(s[i])
  }

  /** `s.replace(c, '')` */
  function RemoveChar(s: string, c: char): (r: string)
    ensures |r| <= |s|
    decreases |s|
  {
    if s == [] then []
    else if s[0] == c then RemoveChar(s[1..], c)
    else [s[0]] + RemoveChar(s[1..], c)
  }

  /** The replacement keeps exactly the characters other than `c`. */
  lemma {:induction false} RemoveCharMembers(s: string, c: char)
    ensures forall x :: x in RemoveChar(s, c) <==> x in s && x != c
    decreases |s|
  {
    if s != [] {
      RemoveCharMembers(s[1..], c);
      assert s == [s[0]] + s[1..];
    }
  }

  /** The replacement keeps the other characters in their order: it distributes over concatenation. */
  lemma {:induction false} RemoveCharAppend(a: string, b: string, c: char)
    ensures RemoveChar(a + b, c) == RemoveChar(a, c) + RemoveChar(b, c)
    decreases |a|
  {
    if a == [] {
      assert a + b == b;
    } else {
      assert (a + b)[0] == a[0] && (a + b)[1..] == a[1..] + b;
      RemoveCharAppend(a[1..], b, c);
    }
  }

  /** On one character the replacement drops it exactly when it is `c`. */
  lemma RemoveCharSingle(x: char, c: char)
    ensures RemoveChar([x], c) == if x == c then [] else [x]
  {
    assert [x][1..] == [];
  }

  /** Leading whitespace removed: what is left starts with a non-space. */
  function StripStart(s: string): (r: string)
    ensures |r| <= |s|
    ensures r == [] || !IsSpace(r[0])
    decreases |s|
  {
    if s != [] && IsSpace(s[0]) then StripStart(s[1..]) else s
  }

  /** `StripStart` removes a run of whitespace from the front and keeps the rest. */
  lemma {:induction false} StripStartSuffix(s: string)
    ensures var r := StripStart(s);
      r == s[|s| - |r|..] && AllSpaces(s[..|s| - |r|])
    decreases |s|
  {
    if s != [] && IsSpace(s[0]) {
      StripStartSuffix(s[1..]);
      var r := StripStart(s);
      assert s[|s| - |r|..] == s[1..][|s| - 1 - |r|..];
      forall k | 0 <= k < |s| - |r|
        ensures IsSpace(s[k])
      {
        if k > 0 {
          assert s[k] == s[1..][..|s| - 1 - |r|][k - 1];
        }
      }
    }
  }

  /** Trailing whitespace removed: what is left ends with a non-space. */
  function StripEnd(s: string): (r: string)
    ensures |r| <= |s|
    ensures r == [] || !IsSpace(r[|r| - 1])
    ensures r != [] ==> r[0] == s[0]
    decreases |s|
  {
    if s != [] && IsSpace(s[|s| - 1]) then StripEnd(s[..|s| - 1]) else s
  }

  /** `StripEnd` removes a run of whitespace from the back and keeps the rest. */
  lemma {:induction false} StripEndPrefix(s: string)
    ensures var r := StripEnd(s);
      r == s[..|r|] && AllSpaces(s[|r|..])
    decreases |s|
  {
    if s != [] && IsSpace(s[|s| - 1]) {
      var init := s[..|s| - 1];
      StripEndPrefix(init);
      var r := StripEnd(s);
      assert s[..|r|] == init[..|r|];
      forall k | |r| <= k < |s|
        ensures IsSpace(s[k])
      {
        if k < |s| - 1 {
          assert s[k] == init[|r|..][k - |r|];
        }
      }
    }
  }

  /** `s.strip()`: no whitespace left at either end. */
  function Strip(s: string): (r: string)
    ensures |r| <= |s|
    ensures r == [] || (!IsSpace(r[0]) && !IsSpace(r[|r| - 1]))
  {
    StripEnd(StripStart(s))
  }

  /** What `strip()` returns is the slice of `s` between maximal runs of surrounding whitespace. */
  lemma StripIsSlice(s: string)
    ensures var r := Strip(s);
      && (exists i, j :: 0 <= i <= j <= |s| && r == s[i..j] && AllSpaces(s[..i]) && AllSpaces(s[j..]))
      && (forall x :: x in r ==> x in s)
  {
    var t := StripStart(s);
    var r := StripEnd(t);
    StripStartSuffix(s);
    StripEndPrefix(t);
    var i := |s| - |t|;
    var j := i + |r|;
    assert r == s[i..j];
    assert s[j..] == t[|r|..];
    forall x | x in r ensures x in s {
      var k :| 0 <= k < |r| && r[k] == x;
      assert s[i + k] == x;
    }
  }

  /** What `format_string` can return: no comma, no full stop, no surrounding whitespace. */
  predicate Formatted(t: string) {
    ',' !in t && '.' !in t && (t == [] || (!IsSpace(t[0]) && !IsSpace(t[|t| - 1])))
  }

  function FormatString(s: string): (r: string)
    ensures Formatted(r)
  {
    var noComma := RemoveChar(s, ',');
    var noPunctuation := RemoveChar(noComma, '.');
    RemoveCharMembers(s, ',');
    RemoveCharMembers(noComma, '.');
    StripIsSlice(noPunctuation);
    Strip(noPunctuation)
  }

  lemma {:induction false} RemoveAbsentChar(s: string, c: char)
    requires c !in s
    ensures RemoveChar(s, c) == s
    decreases |s|
  {
    if s != [] {
      RemoveAbsentChar(s[1..], c);
    }
  }

  /** Formatted strings are exactly the fixed points of `format_string`. */
  lemma FormattedIffFixedPoint(t: string)
    ensures Formatted(t) <==> FormatString(t) == t
  {
    if Formatted(t) {
      RemoveAbsentChar(t, ',');
      RemoveAbsentChar(t, '.');
    }
  }

  /** Formatting twice is formatting once. */
  lemma FormatStringIdempotent(s: string)
    ensures FormatString(FormatString(s)) == FormatString(s)
  {
    FormattedIffFixedPoint(FormatString(s));
  }

  /** A text holding a comma or a full stop is never the result of `format_string`. */
  lemma PunctuatedNeverFormatted(script: string, raw: string)
    requires ',' in script || '.' in script
    ensures FormatString(raw) != script
  {
  }
}
