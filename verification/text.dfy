/** Character-level helpers shared by the enumeration decoders: Go's
    `strings.ToLower` and the quoting that the encoders put around a name.
    Raw JSON input is a `string` holding one character per byte. */
module Text {

  /** The lower-case form of one character. Only ASCII letters are folded;
      no other code point lower-cases to a letter of `null`, so the decoders'
      comparison against `"null"` is unaffected. */
  function LowerAscii(c: char): char {
    if 'A' <= c <= 'Z' then (c as int + 32) as char else c
  }

  /** `strings.ToLower`, character by character. */
  function ToLower(s: string): (r: string)
    ensures |r| == |s|
    ensures forall i :: 0 <= i < |s| ==> r[i] == LowerAscii(s[i])
  {
    if s == [] then [] else [LowerAscii(s[0])] + ToLower(s[1..])
  }

  /** `strings.ToLower(string(b)) == "null"`: the test every enumeration
      decoder makes first. */
  predicate IsNullLiteral(b: string) {
    ToLower(b) == "null"
  }

  /** The null test accepts exactly the sixteen spellings of `null` that
      differ only in the case of each letter. */
  lemma NullLiteralSpellings(b: string)
    ensures IsNullLiteral(b) <==>
      && |b| == 4
      && (b[0] == 'n' || b[0] == 'N')
      && (b[1] == 'u' || b[1] == 'U')
      && (b[2] == 'l' || b[2] == 'L')
      && (b[3] == 'l' || b[3] == 'L')
  {
  }

  /** `"\"" + s + "\""`: the wire form of a named enumeration value. The
      decoders strip it again by dropping the first and last byte. */
  function Quote(s: string): (q: string)
    ensures |q| == |s| + 2
    ensures q[0] == '"' && q[|q| - 1] == '"'
    ensures q[1..|q| - 1] == s
  {
    "\"" + s + "\""
  }

  /** A quoted name is never read as `null`. */
  lemma QuotedIsNotNull(s: string)
    ensures !IsNullLiteral(Quote(s))
  {
  }

  /** Every input that starts and ends with a quote and is at least two bytes
      long is the quoted form of its middle. */
  lemma QuoteOfMiddle(b: string)
    requires |b| >= 2 && b[0] == '"' && b[|b| - 1] == '"'
    ensures b == Quote(b[1..|b| - 1])
  {
  }
}
