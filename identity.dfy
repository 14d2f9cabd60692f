/**
  Content-derived identity of a prompt recording: the md5 digest of the
  prompt text followed by the decimal rendering of its position, and the
  `<id>.wav` file name derived from it. The digest itself is opaque and is
  passed in as a function.
 */
module Identity {

  /** A path `dir / name` as built by pathlib's `/` operator. */
  datatype FilePath = FilePath(dir: string, name: string)

  predicate IsDigit(c: char) {
    '0' <= c <= '9'
  }

  predicate AllDigits(s: string) {
    forall i :: 0 <= i < |s| ==> IsDigit(s[i])
  }

  function DigitChar(d: nat): (c: char)
    requires d < 10
    ensures IsDigit(c)
  {
    ('0' as int + d) as char
  }

  function DigitValue(c: char): (d: nat)
    requires IsDigit(c)
    ensures d < 10 && DigitChar(d) == c
  {
    c as int - '0' as int
  }

  /** Python's `str(n)` for a non-negative integer: no sign, no leading zero. */
  function Decimal(n: nat): (s: string)
    ensures |s| >= 1 && AllDigits(s)
    ensures (|s| == 1) == (n < 10)
    ensures s[0] == '0' ==> n == 0
    decreases n
  {
    if n < 10 then [DigitChar(n)] else Decimal(n / 10) + [DigitChar(n % 10)]
  }

  /** The value a string of decimal digits denotes (the partner of Decimal). */
  function DecimalValue(s: string): nat
    requires AllDigits(s)
  {
    if s == [] then 0 else DecimalValue(s[..|s| - 1]) * 10 + DigitValue(s[|s| - 1])
  }

  lemma {:induction false} DecimalRoundTrip(n: nat)
    ensures DecimalValue(Decimal(n)) == n
  {
    if n >= 10 {
      var s := Decimal(n);
      assert s[..|s| - 1] == Decimal(n / 10);
      DecimalRoundTrip(n / 10);
    }
  }

  lemma DecimalInjective(m: nat, n: nat)
    ensures Decimal(m) == Decimal(n) <==> m == n
  {
    DecimalRoundTrip(m);
    DecimalRoundTrip(n);
  }

  /** The single string that is hashed: `text + str(index)`. */
  function DigestInput(text: string, index: nat): (s: string)
    ensures |s| > |text| && s[..|text|] == text
    ensures AllDigits(s[|text|..]) && DecimalValue(s[|text|..]) == index
  {
    DecimalRoundTrip(index);
    assert (text + Decimal(index))[|text|..] == Decimal(index);
    text + Decimal(index)
  }

  /** `hashlib.md5((text + str(index)).encode()).hexdigest()`, with md5 opaque. */
  function FileId(digest: string -> string, text: string, index: nat): string {
    digest(DigestInput(text, index))
  }

  /** `f"{file_id}.wav"` */
  function WavName(id: string): (name: string)
    ensures |name| == |id| + 4 && name[..|id|] == id && name[|id|..] == ".wav"
  {
    id + ".wav"
  }

  function OutputWavName(digest: string -> string, text: string, index: nat): string {
    WavName(FileId(digest, text, index))
  }

  /** Stripping the `.wav` suffix recovers the id (the partner of WavName). */
  function StripWav(name: string): (id: string)
    requires |name| >= 4 && name[|name| - 4..] == ".wav"
    ensures |id| == |name| - 4
  {
    name[..|name| - 4]
  }

  lemma WavNameRoundTrip(id: string)
    ensures var name := WavName(id); |name| >= 4 && name[|name| - 4..] == ".wav" && StripWav(name) == id
  {
    var name := WavName(id);
    assert name[|name| - 4..] == ".wav";
  }

  /** Two wav names coincide exactly when the two ids do. */
  lemma WavNameInjective(id1: string, id2: string)
    ensures WavName(id1) == WavName(id2) <==> id1 == id2
  {
    if WavName(id1) == WavName(id2) {
      WavNameRoundTrip(id1);
      WavNameRoundTrip(id2);
    }
  }

  /**
    The file name depends on the pair only through the concatenated string:
    any two pairs whose concatenations agree share a file, whatever the digest.
   */
  lemma SameDigestInputSameName(digest: string -> string, t1: string, i1: nat, t2: string, i2: nat)
    requires DigestInput(t1, i1) == DigestInput(t2, i2)
    ensures FileId(digest, t1, i1) == FileId(digest, t2, i2)
    ensures OutputWavName(digest, t1, i1) == OutputWavName(digest, t2, i2)
  {
  }

  /** Text "a1" at position 2 and text "a" at position 12 share one wav file. */
  lemma CollidingPrompts(digest: string -> string)
    ensures DigestInput("a1", 2) == DigestInput("a", 12) == "a12"
    ensures OutputWavName(digest, "a1", 2) == OutputWavName(digest, "a", 12)
  {
    assert Decimal(12) == Decimal(1) + [DigitChar(2)];
  }

  /** For a fixed text, distinct positions always give distinct digest inputs. */
  lemma SameTextDigestInputInjective(text: string, i: nat, j: nat)
    ensures DigestInput(text, i) == DigestInput(text, j) <==> i == j
  {
    if DigestInput(text, i) == DigestInput(text, j) {
      var s := DigestInput(text, i);
      assert DecimalValue(s[|text|..]) == i && DecimalValue(s[|text|..]) == j;
    }
  }
}
