/** The POST form the remote checker expects, built from the check parameters. */
module BrowserForm {
  import opened Wrappers
  import opened CheckerTypes

  /** The day.month.year pattern of the status date in a remote answer. */
  const DATE_FORMAT: string := "dd.MM.yyyy"

  /** `ServiceType.Passport`. */
  const SERVICE_PASSPORT: string := "2"

  /** `IdentityDocument.LegacyPassport` and `IdentityDocument.ID`. */
  const DOCUMENT_LEGACY_PASSPORT: string := "1"
  const DOCUMENT_ID: string := "2"

  /** The eleven fields of the form, in the order they are posted. */
  datatype FormParams = FormParams(
    docService: string,
    doc1Select: string,
    doc1Series: string,
    doc1Number6: string,
    doc1Number9: string,
    docAge: string,
    doc2Select: string,
    doc2Series: string,
    doc2Number6: string,
    doc2Number9: string,
    docOther: string)

  /** The form's name/value pairs, as the page script appends them to the POST body. */
  function Entries(f: FormParams): (e: seq<(string, string)>)
    ensures |e| == 11
  {
    [ ("doc_service", f.docService), ("doc_1_select", f.doc1Select),
      ("doc_1_series", f.doc1Series), ("doc_1_number6", f.doc1Number6),
      ("doc_1_number9", f.doc1Number9), ("doc_age", f.docAge),
      ("doc_2_select", f.doc2Select), ("doc_2_series", f.doc2Series),
      ("doc_2_number6", f.doc2Number6), ("doc_2_number9", f.doc2Number9),
      ("doc_other", f.docOther) ]
  }

  /** The fields that do not depend on the request. */
  predicate HasFixedFields(f: FormParams) {
    && f.docService == SERVICE_PASSPORT && f.docAge == "0"
    && f.doc1Select == "" && f.doc1Series == "" && f.doc1Number6 == "" && f.doc1Number9 == ""
    && f.docOther == ""
  }

  /** `buildFormObject`. */
  function BuildFormObject(p: DocumentCheckParams): (f: FormParams)
    ensures HasFixedFields(f)
    ensures f.doc2Select == DOCUMENT_LEGACY_PASSPORT <==> p.HasSeries()
    ensures f.doc2Select == DOCUMENT_ID <==> !p.HasSeries()
    ensures p.HasSeries() ==> f.doc2Series == p.series.value
    ensures !p.HasSeries() ==> f.doc2Series == ""
    ensures f.doc2Number6 == "" || f.doc2Number9 == ""
    ensures f.doc2Number6 + f.doc2Number9 == p.number
    ensures p.HasSeries() ==> f.doc2Number9 == ""
    ensures !p.HasSeries() ==> f.doc2Number6 == ""
  {
    var hasSeries := p.HasSeries();
    FormParams(
      docService := SERVICE_PASSPORT,
      doc1Select := "",
      doc1Series := "",
      doc1Number6 := "",
      doc1Number9 := "",
      docAge := "0",
      doc2Select := if hasSeries then DOCUMENT_LEGACY_PASSPORT else DOCUMENT_ID,
      doc2Series := if hasSeries then p.series.value else "",
      doc2Number6 := if hasSeries then p.number else "",
      doc2Number9 := if hasSeries then "" else p.number,
      docOther := "")
  }

  /** How the remote side reads the form back: the selector says which number field counts. */
  function DecodeForm(f: FormParams): DocumentCheckParams {
    if f.doc2Select == DOCUMENT_LEGACY_PASSPORT then DocumentCheckParams(Some(f.doc2Series), f.doc2Number6)
    else DocumentCheckParams(None, f.doc2Number9)
  }

  /**
   * The form loses nothing the request says: a non-empty series and the number
   * come back as sent, and an empty series reads as no series.
   */
  lemma {:induction false} FormRoundTrip(p: DocumentCheckParams)
    ensures p.HasSeries() || p.series.None? ==> DecodeForm(BuildFormObject(p)) == p
    ensures DecodeForm(BuildFormObject(p)) ==
              if p.HasSeries() then p else DocumentCheckParams(None, p.number)
  {
    var f := BuildFormObject(p);
    if p.HasSeries() {
      assert f.doc2Number9 == "";
      assert f.doc2Number6 == f.doc2Number6 + f.doc2Number9;
    } else {
      assert f.doc2Number6 == "";
      assert f.doc2Number9 == f.doc2Number6 + f.doc2Number9;
    }
  }
}
