/**
 * The draft string-backed sequence of src/sequences.rs: a text tagged with
 * its alphabet, plus the symbol check each alphabet defines. The constructor
 * does not use that check.
 */
module Sequences {
  import opened Wrappers

  /** The symbol set a sequence is drawn from. */
  datatype Alphabet = DNA | RNA {

    /**
     * Is `c` a symbol of this alphabet? Only the upper-case letters A, C, G, N
     * and T (DNA) or U (RNA) are; the check is case-sensitive.
     */
    function IsValidChar(c: char): (b: bool)
      ensures b ==> 'A' <= c <= 'Z'
      ensures b <==> c in "ACGN" || (c == 'T' && this == DNA) || (c == 'U' && this == RNA)
    {
      match this
      case DNA => c == 'A' || c == 'C' || c == 'G' || c == 'T' || c == 'N'
      case RNA => c == 'A' || c == 'C' || c == 'G' || c == 'U' || c == 'N'
    }
  }

  /** The two alphabets disagree on exactly two symbols: T belongs to DNA only, U to RNA only. */
  lemma AlphabetsDifferOnlyOnTAndU(c: char)
    ensures DNA.IsValidChar(c) != RNA.IsValidChar(c) <==> c == 'T' || c == 'U'
    ensures DNA.IsValidChar(c) && !RNA.IsValidChar(c) <==> c == 'T'
  {
  }

  /** Lower-case letters are rejected by both alphabets. */
  lemma LowerCaseRejected(a: Alphabet, c: char)
    requires 'a' <= c <= 'z'
    ensures !a.IsValidChar(c)
  {
  }

  predicate IsAscii(c: char) {
    (c as int) < 0x80
  }

  /** Number of bytes in the UTF-8 encoding of `c`. */
  function Utf8Width(c: char): (w: nat)
    ensures 1 <= w <= 4
    ensures w == 1 <==> IsAscii(c)
  {
    if (c as int) < 0x80 then 1
    else if (c as int) < 0x800 then 2
    else if (c as int) < 0x1_0000 then 3
    else 4
  }

  /**
   * Number of bytes in the UTF-8 encoding of `s`, which is what a Rust `String`
   * reports as its length: at least one and at most four per character, and
   * exactly one per character precisely when the text is ASCII.
   */
  function Utf8Length(s: string): (n: nat)
    ensures |s| <= n <= 4 * |s|
    ensures n == |s| <==> forall i :: 0 <= i < |s| ==> IsAscii(s[i])
  {
    if s == [] then 0
    else
      var n := Utf8Width(s[0]) + Utf8Length(s[1..]);
      assert forall i :: 1 <= i < |s| ==> s[i] == s[1..][i - 1];
      n
  }

  /** A sequence as the text it was built from, and the alphabet it was tagged with. */
  datatype Seq = Seq(text: string, alphabet: Alphabet) {

    /** Length in bytes, as `String::len`. */
    function Len(): (n: nat)
      ensures |text| <= n <= 4 * |text|
      ensures (forall i :: 0 <= i < |text| ==> IsAscii(text[i])) ==> n == |text|
    {
      Utf8Length(text)
    }

    /** True when the text holds no character at all. */
    function IsEmpty(): (b: bool)
      ensures b <==> Len() == 0
    {
      |text| == 0
    }

    /** What `Display` writes: the stored text, nothing added; it is `Len()` bytes long. */
    function Render(): (s: string)
      ensures s == text
      ensures Utf8Length(s) == Len()
    {
      text
    }
  }

  /**
   * Builds a sequence. It never fails and does not look at the symbols: text
   * and alphabet are stored as given, valid for the alphabet or not.
   */
  function New(text: string, alphabet: Alphabet): (r: Result<Seq, string>)
    ensures r.Ok?
    ensures r.value.text == text && r.value.alphabet == alphabet
  {
    Ok(Seq(text, alphabet))
  }

  /** Rendering a freshly built sequence gives back exactly the text it was built from. */
  lemma RenderRoundTrip(text: string, alphabet: Alphabet)
    ensures New(text, alphabet).Ok? && New(text, alphabet).value.Render() == text
  {
  }

  /** Construction accepts symbols its alphabet rejects: "AGXCT" is stored as a DNA sequence. */
  lemma NewDoesNotValidate()
    ensures !DNA.IsValidChar('X')
    ensures New("AGXCT", DNA) == Ok(Seq("AGXCT", DNA))
  {
  }
}
