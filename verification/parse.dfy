/**
 * Classification of free-form user text into a document reference, and the
 * rendering of a reference back to text.
 */
module Parse {
  import opened Wrappers
  import opened JsString
  import opened CheckerTypes

  /** Longest input, in UTF-16 code units, that is looked at at all. */
  const MAX_INPUT_LENGTH := 32

  /** The letters written in the class `[А-ЩЬЮЯҐЄІЇ]`: U+0410..U+0429 plus seven more. */
  const SeriesUpper: set<char> :=
    (set c: char | 'А' <= c <= 'Щ') + {'Ь', 'Ю', 'Я', 'Ґ', 'Є', 'І', 'Ї'}

  /** Their lower-case counterparts, which the `i` flag lets match too. */
  const SeriesLower: set<char> :=
    (set c: char | 'а' <= c <= 'щ') + {'ь', 'ю', 'я', 'ґ', 'є', 'і', 'ї'}

  /**
   * Historic small-letter variants U+1C80..U+1C85 (rounded ve, long-legged de,
   * narrow o, wide es, tall te, three-legged te), whose upper case is В, Д, О,
   * С, Т and Т: case-insensitive matching canonicalises them into the class.
   */
  const SeriesVariants: set<char> :=
    {'\U{1C80}', '\U{1C81}', '\U{1C82}', '\U{1C83}', '\U{1C84}', '\U{1C85}'}

  /** Every character the case-insensitive letter class accepts. */
  const SeriesLetters: set<char> := SeriesUpper + SeriesLower + SeriesVariants

  lemma SeriesLetterRange(c: char)
    requires c in SeriesLetters
    ensures 'Є' <= c <= 'ґ' || '\U{1C80}' <= c <= '\U{1C85}'
  {
  }

  lemma SeriesLettersAreNotDigitsOrSpace(c: char)
    requires c in SeriesLetters
    ensures !IsDigit(c) && c !in WhiteSpace && c as int <= 0xFFFF
  {
    SeriesLetterRange(c);
    WhiteSpaceRange(c);
  }

  /** `/^\d{9}$/`. */
  predicate IsCardId(t: string) {
    |t| == 9 && AllDigits(t)
  }

  /** `/^([А-ЩЬЮЯҐЄІЇ]{2})(\d{6,7})$$/i`. */
  predicate IsPaperId(t: string) {
    && 8 <= |t| <= 9
    && t[0] in SeriesLetters && t[1] in SeriesLetters
    && AllDigits(t[2..])
  }

  /** The birth-certificate rule is a stub that never matches. */
  function ParseBirthCertId(text: string): (r: Option<DocumentRef>)
    ensures r.None?
  {
    None
  }

  /** `parseDocumentId`. */
  function ParseDocumentId(text: string): (r: Option<DocumentRef>)
    ensures Utf16Length(text) > MAX_INPUT_LENGTH ==> r.None?
    ensures r.Some? ==> WellFormed(r.value)
  {
    if Utf16Length(text) > MAX_INPUT_LENGTH then None
    else MatchRules(Trim(text))
  }

  /** The document rules tried in order on the trimmed text; the first that matches wins. */
  function MatchRules(t: string): (r: Option<DocumentRef>)
    ensures r.Some? ==> WellFormed(r.value)
  {
    if IsCardId(t) then Some(DocumentRef(ID, None, t))
    else if IsPaperId(t) then Some(DocumentRef(LegacyPassport, Some(t[..2]), t[2..]))
    else ParseBirthCertId(t)
  }

  /**
   * The shape of a reference the parser may emit: a card has nine digits and
   * no series; a legacy passport has a series of two class letters and a
   * number of six or seven digits; no birth certificate is ever emitted.
   */
  predicate WellFormed(r: DocumentRef) {
    match r.docType
    case ID => r.series.None? && |r.number| == 9 && AllDigits(r.number)
    case LegacyPassport =>
      && r.series.Some? && |r.series.value| == 2
      && r.series.value[0] in SeriesLetters && r.series.value[1] in SeriesLetters
      && 6 <= |r.number| <= 7 && AllDigits(r.number)
    case BirthCertificate => false
  }

  /** A template literal renders a missing series as the text "undefined". */
  function SeriesText(series: Option<string>): string {
    match series
    case None => "undefined"
    case Some(s) => s
  }

  /** `formatDocumentRef`. */
  function FormatDocumentRef(r: DocumentRef): (s: string)
    ensures r.docType == ID ==> s == r.number
    ensures r.docType == LegacyPassport ==> s == SeriesText(r.series) + r.number
    ensures r.docType == BirthCertificate ==> s == SeriesText(r.series) + " " + r.number
  {
    match r.docType
    case ID => r.number
    case LegacyPassport => SeriesText(r.series) + r.number
    case BirthCertificate => SeriesText(r.series) + " " + r.number
  }

  lemma DigitsShape(s: string)
    requires AllDigits(s)
    ensures forall i :: 0 <= i < |s| ==> s[i] !in WhiteSpace && s[i] as int <= 0xFFFF
  {
    forall i | 0 <= i < |s| ensures s[i] !in WhiteSpace {
      WhiteSpaceRange(s[i]);
    }
  }

  lemma FormatShape(r: DocumentRef)
    requires WellFormed(r)
    ensures Solid(FormatDocumentRef(r))
    ensures Utf16Length(FormatDocumentRef(r)) == |FormatDocumentRef(r)| <= 9
  {
    DigitsShape(r.number);
    if r.docType == LegacyPassport {
      var series := r.series.value;
      SeriesLettersAreNotDigitsOrSpace(series[0]);
      SeriesLettersAreNotDigitsOrSpace(series[1]);
      assert Utf16Length(series) == 2;
      Utf16LengthAppend(series, r.number);
      assert FormatDocumentRef(r) == series + r.number;
    }
  }

  /** Whatever the rules return is well formed and renders as the text matched. */
  lemma MatchSound(t: string, r: DocumentRef)
    requires MatchRules(t) == Some(r)
    ensures WellFormed(r) && t == FormatDocumentRef(r)
  {
    if !IsCardId(t) {
      assert t == t[..2] + t[2..];
    }
  }

  /** Every rendering of a well-formed reference matches the rules as that reference. */
  lemma MatchComplete(t: string, r: DocumentRef)
    requires WellFormed(r) && t == FormatDocumentRef(r)
    ensures MatchRules(t) == Some(r)
  {
    if r.docType == LegacyPassport {
      var series := r.series.value;
      assert t == series + r.number;
      SeriesLettersAreNotDigitsOrSpace(series[0]);
      assert t[0] == series[0];
      assert !IsCardId(t);
      assert t[..2] == series && t[2..] == r.number;
      assert IsPaperId(t);
    }
  }

  /**
   * The parser accepts exactly the trimmed renderings of well-formed
   * references that fit the length limit, and then returns that reference.
   */
  lemma ParseCharacterization(text: string, r: DocumentRef)
    ensures ParseDocumentId(text) == Some(r) <==>
              && Utf16Length(text) <= MAX_INPUT_LENGTH
              && WellFormed(r)
              && Trim(text) == FormatDocumentRef(r)
  {
    var t := Trim(text);
    if ParseDocumentId(text) == Some(r) {
      MatchSound(t, r);
    }
    if Utf16Length(text) <= MAX_INPUT_LENGTH && WellFormed(r) && t == FormatDocumentRef(r) {
      MatchComplete(t, r);
    }
  }

  /** White space around a rendered reference is ignored, within the length limit. */
  lemma ParsePadded(pre: string, r: DocumentRef, post: string)
    requires WellFormed(r)
    requires AllWhiteSpace(pre) && AllWhiteSpace(post)
    requires Utf16Length(pre + FormatDocumentRef(r) + post) <= MAX_INPUT_LENGTH
    ensures ParseDocumentId(pre + FormatDocumentRef(r) + post) == Some(r)
  {
    FormatShape(r);
    TrimPadded(pre, FormatDocumentRef(r), post);
    ParseCharacterization(pre + FormatDocumentRef(r) + post, r);
  }

  /** Rendering a well-formed reference and parsing the text gives the reference back. */
  lemma FormatParseRoundTrip(r: DocumentRef)
    requires WellFormed(r)
    ensures ParseDocumentId(FormatDocumentRef(r)) == Some(r)
  {
    FormatShape(r);
    TrimSolid(FormatDocumentRef(r));
    ParseCharacterization(FormatDocumentRef(r), r);
  }

  /** Every reference the parser returns survives rendering and re-parsing. */
  lemma ParseFormatRoundTrip(text: string)
    requires ParseDocumentId(text).Some?
    ensures ParseDocumentId(FormatDocumentRef(ParseDocumentId(text).value)) == ParseDocumentId(text)
  {
    FormatParseRoundTrip(ParseDocumentId(text).value);
  }

  /** Input longer than the limit is refused whatever it holds. */
  lemma TooLongRejected(text: string)
    requires |text| > MAX_INPUT_LENGTH
    ensures ParseDocumentId(text) == None
  {
  }
}
