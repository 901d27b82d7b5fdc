/**
 * The custom configuration formats the bot registers with its configuration
 * loader: how a raw setting (from the environment or a default) is validated
 * and coerced.
 */
module ConfigFormats {
  import opened Wrappers
  import opened JsString

  /** The raw values a setting can hold. */
  datatype JsValue = Undefined | Null | Bool(b: bool) | Num(n: int) | Str(s: string)

  /** The accepted log levels. */
  const LogLevels: set<string> := {"info", "warn", "error", "debug", "trace"}

  const REQUIRED_MESSAGE := "Required value cannot be empty"

  /** JavaScript truthiness. */
  predicate Truthy(v: JsValue) {
    match v
    case Undefined => false
    case Null => false
    case Bool(b) => b
    case Num(n) => n != 0
    case Str(s) => s != ""
  }

  /** `v.toString()`: `undefined` and `null` have no such method and throw. */
  function ToText(v: JsValue): (r: Result<string, string>)
    ensures r.Failure? <==> v.Undefined? || v.Null?
  {
    match v
    case Undefined => Failure("Cannot read properties of undefined (reading 'toString')")
    case Null => Failure("Cannot read properties of null (reading 'toString')")
    case Bool(b) => Success(if b then "true" else "false")
    case Num(n) => Success(IntToString(n))
    case Str(s) => Success(s)
  }

  /** `${v}` in a template literal. */
  function Interpolate(v: JsValue): string {
    match v
    case Undefined => "undefined"
    case Null => "null"
    case Bool(b) => if b then "true" else "false"
    case Num(n) => IntToString(n)
    case Str(s) => s
  }

  /** `required-string` validation: only the empty string is refused. */
  function ValidateRequiredString(v: JsValue): (r: Outcome<string>)
    ensures r.Fail? <==> v == Str("")
    ensures r.Fail? ==> r.error == REQUIRED_MESSAGE
  {
    if v == Str("") then Fail(REQUIRED_MESSAGE) else Pass
  }

  /** `required-string` coercion: `null` becomes `undefined`, anything else is kept. */
  function CoerceRequiredString(v: JsValue): (r: JsValue)
    ensures r != Null
    ensures v != Null ==> r == v
  {
    if v == Null then Undefined else v
  }

  /** Coercion never creates or hides an empty string, and applying it twice changes nothing. */
  lemma RequiredStringCoerceThenValidate(v: JsValue)
    ensures ValidateRequiredString(CoerceRequiredString(v)).Fail? <==> v == Str("")
    ensures CoerceRequiredString(CoerceRequiredString(v)) == CoerceRequiredString(v)
  {
  }

  /** The trimmed texts read as false, and those read as true. */
  predicate FalseText(t: string) {
    t == "" || t == "0" || t == "false"
  }

  predicate TrueText(t: string) {
    t == "1" || t == "true"
  }

  /** No trimmed text reads as both false and true. */
  lemma FalseTextIsNotTrueText(t: string)
    requires FalseText(t)
    ensures !TrueText(t)
  {
    if t == "0" {
      assert t[0] != '1';
    } else if t == "false" {
      assert |t| == 5;
    }
  }

  /**
   * `boolean` coercion of the trimmed text of a value: the false words give
   * `false`, the true words `true`, any other text is refused.
   */
  function CoerceBoolean(v: JsValue): (r: Result<bool, string>)
    ensures ToText(v).Failure? ==> r == Failure(ToText(v).error)
    ensures ToText(v).Success? ==>
              (r.Success? <==> FalseText(Trim(ToText(v).value)) || TrueText(Trim(ToText(v).value)))
    ensures r.Success? ==> r.value == TrueText(Trim(ToText(v).value))
    ensures r.Failure? && ToText(v).Success? ==> r.error == "invalid value " + Interpolate(v)
  {
    match ToText(v)
    case Failure(e) => Failure(e)
    case Success(text) =>
      var t := Trim(text);
      if FalseText(t) then
        FalseTextIsNotTrueText(t);
        Success(false)
      else if TrueText(t) then Success(true)
      else Failure("invalid value " + Interpolate(v))
  }

  /** A word that starts and ends with a printable ASCII character is not trimmed. */
  lemma AsciiWordSolid(w: string)
    requires |w| > 0 && ' ' < w[0] < '\U{007F}' && ' ' < w[|w| - 1] < '\U{007F}'
    ensures Solid(w) && Trim(w) == w
  {
    WhiteSpaceRange(w[0]);
    WhiteSpaceRange(w[|w| - 1]);
    TrimSolid(w);
  }

  lemma TrimPaddedWord(word: string, pre: string, post: string)
    requires AllWhiteSpace(pre) && AllWhiteSpace(post)
    requires |word| > 0 && ' ' < word[0] < '\U{007F}' && ' ' < word[|word| - 1] < '\U{007F}'
    ensures Trim(pre + word + post) == word
  {
    AsciiWordSolid(word);
    TrimPadded(pre, word, post);
  }

  /** A value whose trimmed text is one of the boolean words coerces to what that word reads as. */
  lemma CoerceTrimmedWord(v: JsValue, word: string)
    requires ToText(v).Success? && Trim(ToText(v).value) == word
    requires FalseText(word) || TrueText(word)
    ensures CoerceBoolean(v) == Success(TrueText(word))
  {
  }

  /** A word, with white space around it, coerces as the word alone does. */
  lemma CoercePaddedWord(word: string, pre: string, post: string)
    requires AllWhiteSpace(pre) && AllWhiteSpace(post)
    requires word in {"0", "1", "true", "false"}
    ensures CoerceBoolean(Str(pre + word + post)) == Success(TrueText(word))
  {
    TrimPaddedWord(word, pre, post);
    CoerceTrimmedWord(Str(pre + word + post), word);
  }

  /** The text of a boolean is its own trimmed text. */
  lemma BooleanTextSolid(b: bool)
    ensures ToText(Bool(b)).Success?
    ensures Trim(ToText(Bool(b)).value) == (if b then "true" else "false")
  {
    var word := if b then "true" else "false";
    assert ToText(Bool(b)) == Success(word);
    AsciiWordSolid(word);
  }

  /** A boolean coerces back to itself. */
  lemma BooleanValueRoundTrip(b: bool)
    ensures CoerceBoolean(Bool(b)) == Success(b)
  {
    BooleanTextSolid(b);
    var word := if b then "true" else "false";
    assert TrueText(word) == b;
    CoerceTrimmedWord(Bool(b), word);
  }

  /** The text of a boolean, with white space around it, coerces back to the boolean. */
  lemma BooleanTextRoundTrip(b: bool, pre: string, post: string)
    requires AllWhiteSpace(pre) && AllWhiteSpace(post)
    ensures CoerceBoolean(Str(pre + (if b then "true" else "false") + post)) == Success(b)
    ensures CoerceBoolean(Str(pre + (if b then "1" else "0") + post)) == Success(b)
  {
    CoercePaddedWord(if b then "true" else "false", pre, post);
    CoercePaddedWord(if b then "1" else "0", pre, post);
  }

  /** `.map(v => v.trim())`. */
  function TrimEach(pieces: seq<string>): (r: seq<string>)
    ensures |r| == |pieces|
    ensures forall i :: 0 <= i < |r| ==> r[i] == Trim(pieces[i])
  {
    seq(|pieces|, i requires 0 <= i < |pieces| => Trim(pieces[i]))
  }

  /** Pieces that are empty or carry no white space at their ends are kept as they are. */
  lemma TrimEachKeepsSolid(pieces: seq<string>)
    requires forall i :: 0 <= i < |pieces| ==> pieces[i] == "" || Solid(pieces[i])
    ensures TrimEach(pieces) == pieces
  {
    var r := TrimEach(pieces);
    forall i | 0 <= i < |pieces| ensures r[i] == pieces[i] {
      TrimSolid(pieces[i]);
    }
  }

  /** `cmd` coercion: a falsy value is no arguments; otherwise the text split on spaces, each piece trimmed. */
  function CoerceCmd(v: JsValue): (r: seq<string>)
    ensures !Truthy(v) ==> r == []
    ensures Truthy(v) ==> var text := ToText(v).value;
              && |r| == |Split(text, ' ')|
              && forall i :: 0 <= i < |r| ==> r[i] == Trim(Split(text, ' ')[i])
  {
    if !Truthy(v) then [] else TrimEach(Split(ToText(v).value, ' '))
  }

  /** There is one argument more than there are spaces in a truthy value's text. */
  lemma CmdArgumentCount(v: JsValue)
    requires Truthy(v)
    ensures |CoerceCmd(v)| == Count(ToText(v).value, ' ') + 1
  {
    SplitCount(ToText(v).value, ' ');
  }

  /**
   * When no piece between the spaces carries white space at its ends, the
   * arguments joined by single spaces give back the original text.
   */
  lemma CmdRoundTrip(text: string)
    requires text != ""
    requires forall i :: 0 <= i < |Split(text, ' ')| ==> Split(text, ' ')[i] == "" || Solid(Split(text, ' ')[i])
    ensures Join(CoerceCmd(Str(text)), ' ') == text
  {
    var pieces := Split(text, ' ');
    assert CoerceCmd(Str(text)) == TrimEach(pieces);
    TrimEachKeepsSolid(pieces);
    SplitJoin(text, ' ');
  }

  lemma NumberIsNoLevel(v: JsValue)
    ensures v.Num? ==> IntToString(v.n) !in LogLevels
  {
    if v.Num? {
      IntToStringSign(v.n);
    }
  }

  /** `log-level` validation: exactly the five level names pass. */
  function ValidateLogLevel(v: JsValue): (r: Outcome<string>)
    ensures r.Pass? <==> v.Str? && v.s in LogLevels
  {
    NumberIsNoLevel(v);
    match ToText(v)
    case Failure(e) => Fail(e)
    case Success(text) =>
      if text in LogLevels then Pass
      else Fail("Invalid log level \"" + Interpolate(v) + "\". Supported values: info, warn, error, debug, trace")
  }
}
