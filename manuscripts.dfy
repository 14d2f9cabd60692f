/**
  The prompt list of the pronunciation recorder: the text area's contents
  split on line feeds, with empty lines dropped, in order.
 */
module Manuscripts {

  const NEWLINE: char := '\n'

  predicate IsLine(s: string) {
    NEWLINE !in s
  }

  /** Python's `s.split("\n")`: always at least one piece, none holding a line feed. */
  function Split(s: string): (parts: seq<string>)
    ensures |parts| >= 1
    ensures forall i :: 0 <= i < |parts| ==> IsLine(parts[i])
    decreases |s|
  {
    if s == [] then [[]]
    else if s[0] == NEWLINE then [[]] + Split(s[1..])
    else
      var rest := Split(s[1..]);
      [[s[0]] + rest[0]] + rest[1..]
  }

  /** `"\n".join(parts)`, the inverse of Split; the empty list joins to the empty text. */
  function Join(parts: seq<string>): string
  {
    if parts == [] then []
    else if |parts| == 1 then parts[0]
    else parts[0] + [NEWLINE] + Join(parts[1..])
  }

  lemma {:induction false} SplitThenJoin(s: string)
    ensures Join(Split(s)) == s
    decreases |s|
  {
    if s != [] {
      SplitThenJoin(s[1..]);
      var rest := Split(s[1..]);
      if s[0] == NEWLINE {
        assert ([[]] + rest)[1..] == rest;
      } else {
        assert ([[s[0]] + rest[0]] + rest[1..])[1..] == rest[1..];
        if |rest| > 1 {
          assert Join(rest) == rest[0] + [NEWLINE] + Join(rest[1..]);
        }
      }
    }
  }

  /** Splitting a text that starts with a line-free word `w`. */
  lemma {:induction false} SplitLinePrefix(w: string, s: string)
    requires IsLine(w)
    ensures Split(w + s) == [w + Split(s)[0]] + Split(s)[1..]
    decreases |w|
  {
    var parts := Split(s);
    if w == [] {
      assert w + s == s && w + parts[0] == parts[0];
      assert parts == [parts[0]] + parts[1..];
    } else {
      assert (w + s)[0] == w[0] && (w + s)[1..] == w[1..] + s;
      SplitLinePrefix(w[1..], s);
      var rest := Split(w[1..] + s);
      assert rest[0] == w[1..] + parts[0] && rest[1..] == parts[1..];
      assert [w[0]] + (w[1..] + parts[0]) == w + parts[0];
    }
  }

  lemma {:induction false} JoinThenSplit(parts: seq<string>)
    requires |parts| >= 1
    requires forall i :: 0 <= i < |parts| ==> IsLine(parts[i])
    ensures Split(Join(parts)) == parts
    decreases |parts|
  {
    if |parts| == 1 {
      SplitLinePrefix(parts[0], []);
      assert parts[0] + [] == parts[0];
      assert [parts[0]] == parts;
    } else {
      var tail := [NEWLINE] + Join(parts[1..]);
      assert Join(parts) == parts[0] + tail;
      SplitLinePrefix(parts[0], tail);
      JoinThenSplit(parts[1..]);
      assert tail[0] == NEWLINE && tail[1..] == Join(parts[1..]);
      assert Split(tail) == [[]] + parts[1..];
      assert Split(tail)[0] == [] && Split(tail)[1..] == parts[1..];
      assert parts[0] + [] == parts[0];
      assert [parts[0]] + parts[1..] == parts;
    }
  }

  /** `[t for t in parts if t]` */
  function NonEmpty(parts: seq<string>): (r: seq<string>)
    ensures |r| <= |parts|
    ensures forall i :: 0 <= i < |r| ==> r[i] != [] && r[i] in parts
  {
    if parts == [] then []
    else if parts[0] == [] then NonEmpty(parts[1..])
    else [parts[0]] + NonEmpty(parts[1..])
  }

  /** `[t for t in text.split("\n") if t]` */
  function FromText(text: string): (texts: seq<string>)
    ensures forall i :: 0 <= i < |texts| ==> texts[i] != [] && IsLine(texts[i])
  {
    NonEmpty(Split(text))
  }

  lemma {:induction false} NonEmptyKeepsNonEmpty(parts: seq<string>)
    requires forall i :: 0 <= i < |parts| ==> parts[i] != []
    ensures NonEmpty(parts) == parts
  {
    if parts != [] {
      NonEmptyKeepsNonEmpty(parts[1..]);
    }
  }

  /** Lines written one per line with no blank line come back unchanged, in order; no lines give no prompt. */
  lemma FromTextOfJoinedLines(lines: seq<string>)
    requires forall i :: 0 <= i < |lines| ==> lines[i] != [] && IsLine(lines[i])
    ensures FromText(Join(lines)) == lines
  {
    if lines == [] {
      assert Split(Join(lines)) == [[]];
    } else {
      JoinThenSplit(lines);
      NonEmptyKeepsNonEmpty(lines);
    }
  }

  /** Blank lines, wherever they are, contribute no prompt. */
  lemma {:induction false} NonEmptyDistributes(a: seq<string>, b: seq<string>)
    ensures NonEmpty(a + b) == NonEmpty(a) + NonEmpty(b)
  {
    if a == [] {
      assert a + b == b;
    } else {
      assert (a + b)[0] == a[0] && (a + b)[1..] == a[1..] + b;
      NonEmptyDistributes(a[1..], b);
    }
  }
}
