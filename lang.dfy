/** Java values as the entity classes see them: nullable references,
    32-bit `int`, `IllegalArgumentException`, and the "not blank" test
    every string setter applies. */
module Lang {

  /** A nullable reference: `None` is Java's `null`. */
  datatype Option<+T> = None | Some(value: T)

  /** The one exception the entities throw. */
  datatype Error = IllegalArgument(message: string)

  /** The outcome of a `void` method that may throw. */
  datatype Outcome = Pass | Fail(error: Error)

  /** The outcome of a constructor or a value-returning call that may throw. */
  datatype Result<+T> = Ok(value: T) | Err(error: Error)

  /** A Java `String` reference, possibly `null`. */
  type JString = Option<string>

  /** Java's 32-bit two's-complement `int`. */
  newtype int32 = x: int | -0x8000_0000 <= x < 0x8000_0000

  /** `Character.isWhitespace` as of Java 9 (Unicode 8.0 and later): the
      ASCII controls TAB to CR and FS to US, SPACE, and the Unicode space,
      line and paragraph separators except the three non-breaking spaces
      (U+00A0, U+2007, U+202F). U+180E MONGOLIAN VOWEL SEPARATOR, a space
      separator up to Java 8, is not whitespace here. */
  predicate IsWhitespace(c: char)
  {
    ('\t' <= c <= '\r') || ('\U{1C}' <= c <= '\U{1F}') || c == ' ' ||
    c == '\U{1680}' || ('\U{2000}' <= c <= '\U{2006}') || ('\U{2008}' <= c <= '\U{200A}') ||
    c == '\U{2028}' || c == '\U{2029}' || c == '\U{205F}' || c == '\U{3000}'
  }

  /** A string reference is blank when it is `null`, empty, or made of
      whitespace only (the negation of `StringUtils.isNotBlank`). */
  predicate IsBlank(s: JString)
  {
    s.None? || forall i :: 0 <= i < |s.value| ==> IsWhitespace(s.value[i])
  }

  /** Which strings are blank: `null`, the empty string and whitespace-only
      strings are; a string with any other character is, whatever surrounds
      it. Non-breaking spaces are not whitespace. */
  lemma BlankExamples()
    ensures IsBlank(None) && IsBlank(Some("")) && IsBlank(Some(" \t\n\U{3000}"))
    ensures !IsBlank(Some(" a ")) && !IsBlank(Some("\U{A0}")) && !IsBlank(Some("\U{180E}"))
  {
    assert !IsWhitespace(" a "[1]);
    assert !IsWhitespace("\U{A0}"[0]) && !IsWhitespace("\U{180E}"[0]);
  }

  /** `BeanCheckUtils.checkStringNotBlank`: throws with `message` when the
      argument is blank, and does nothing otherwise. */
  function CheckStringNotBlank(s: JString, message: string): (r: Outcome)
    ensures r.Pass? <==> !IsBlank(s)
    ensures r.Fail? ==> r.error == IllegalArgument(message)
  {
    if IsBlank(s) then Fail(IllegalArgument(message)) else Pass
  }

  /** `BeanCheckUtils.checkObjectNotNull`: throws with `message` when the
      argument is `null`, and does nothing otherwise. */
  function CheckObjectNotNull<T>(o: Option<T>, message: string): (r: Outcome)
    ensures r.Pass? <==> o.Some?
    ensures r.Fail? ==> r.error == IllegalArgument(message)
  {
    if o.None? then Fail(IllegalArgument(message)) else Pass
  }

  /** No element occurs twice. */
  predicate Distinct<T(==)>(s: seq<T>)
  {
    forall i, j :: 0 <= i < j < |s| ==> s[i] != s[j]
  }
}
