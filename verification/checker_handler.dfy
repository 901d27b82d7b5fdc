/**
 * The message parser of the bot's checker handler: an older copy of the
 * document parser that yields bare check parameters instead of a typed reference.
 */
module CheckerHandler {
  import opened Wrappers
  import opened JsString
  import opened CheckerTypes
  import Parse

  /** `parseMessage`, using the same two patterns as the document parser. */
  function ParseMessage(text: string): (r: Option<DocumentCheckParams>)
    ensures r == (match Parse.ParseDocumentId(text)
                  case None => None
                  case Some(ref) => Some(ref.Params()))
  {
    if Utf16Length(text) > Parse.MAX_INPUT_LENGTH then None
    else
      var t := Trim(text);
      if Parse.IsCardId(t) then Some(DocumentCheckParams(None, t))
      else if !Parse.IsPaperId(t) then None
      else Some(DocumentCheckParams(Some(t[..2]), t[2..]))
  }

  /** The message parser accepts exactly the padded renderings of well-formed references. */
  lemma ParseMessageCharacterization(text: string, p: DocumentCheckParams)
    ensures ParseMessage(text) == Some(p) <==>
              exists r: DocumentRef ::
                && Utf16Length(text) <= Parse.MAX_INPUT_LENGTH
                && Parse.WellFormed(r) && r.Params() == p
                && Trim(text) == Parse.FormatDocumentRef(r)
  {
    if ParseMessage(text) == Some(p) {
      var r := Parse.ParseDocumentId(text).value;
      Parse.ParseCharacterization(text, r);
    }
    if exists r: DocumentRef ::
         && Utf16Length(text) <= Parse.MAX_INPUT_LENGTH
         && Parse.WellFormed(r) && r.Params() == p
         && Trim(text) == Parse.FormatDocumentRef(r) {
      var r: DocumentRef :|
        && Utf16Length(text) <= Parse.MAX_INPUT_LENGTH
        && Parse.WellFormed(r) && r.Params() == p
        && Trim(text) == Parse.FormatDocumentRef(r);
      Parse.ParseCharacterization(text, r);
    }
  }
}
