/**
 * The shared vocabulary of the document status checker: status codes, error
 * kinds, the request and result records, and what a status handler receives.
 */
module CheckerTypes {
  import opened Wrappers

  /** Opaque correlation handle of a query (the chat the answer goes to). */
  type RequestId = string

  /** A point in time, in milliseconds. */
  type Timestamp = int

  /** The statuses the remote checker is known to report. */
  datatype StatusCode = Shipped | InTransit | Ready {
    function Value(): int {
      match this
      case Shipped => 21
      case InTransit => 23
      case Ready => 24
    }
  }

  /** The named status a raw remote code stands for, if any. */
  function StatusCodeOf(v: int): (r: Option<StatusCode>)
    ensures r.Some? ==> r.value.Value() == v
    ensures r.None? ==> forall c: StatusCode :: c.Value() != v
  {
    if v == 21 then Some(Shipped)
    else if v == 23 then Some(InTransit)
    else if v == 24 then Some(Ready)
    else None
  }

  lemma StatusCodeValues()
    ensures Shipped.Value() == 21 && InTransit.Value() == 23 && Ready.Value() == 24
    ensures forall c: StatusCode :: StatusCodeOf(c.Value()) == Some(c)
  {
  }

  datatype ErrorType = QuotaError | CrawlError | HttpError | ApiError | TimeoutError {
    function Value(): int {
      match this
      case QuotaError => 1
      case CrawlError => 2
      case HttpError => 4
      case ApiError => 5
      case TimeoutError => 6
    }
  }

  /** The error kind a numeric value stands for, if any. */
  function ErrorTypeOf(v: int): (r: Option<ErrorType>)
    ensures r.Some? ==> r.value.Value() == v
    ensures r.None? ==> forall t: ErrorType :: t.Value() != v
  {
    if v == 1 then Some(QuotaError)
    else if v == 2 then Some(CrawlError)
    else if v == 4 then Some(HttpError)
    else if v == 5 then Some(ApiError)
    else if v == 6 then Some(TimeoutError)
    else None
  }

  /** The error kinds have pairwise distinct values, and no kind has value 3. */
  lemma ErrorTypeValues()
    ensures forall s: ErrorType, t: ErrorType :: s.Value() == t.Value() ==> s == t
    ensures forall t: ErrorType :: ErrorTypeOf(t.Value()) == Some(t)
    ensures ErrorTypeOf(3) == None
  {
  }

  /** A typed query failure; it keeps its kind and message as given. */
  datatype QueryError = QueryError(kind: ErrorType, message: string)

  /**
   * `QueryError.from`: the coercion of a thrown value to a query error. The
   * source calls it but never defines it; on a query error it is the identity.
   */
  function QueryErrorFrom(e: QueryError): QueryError {
    e
  }

  /**
   * A value thrown inside the provider: either a query error the code raised
   * itself, or a foreign error (a browser or runtime exception) that only has
   * a message and is handed on as is.
   */
  datatype Thrown = Typed(error: QueryError) | Untyped(message: string)

  /** What the user asked for: a number and, for legacy passports, a series. */
  datatype DocumentCheckParams = DocumentCheckParams(series: Option<string>, number: string) {
    /** JavaScript truthiness of `series`: present and not empty. */
    predicate HasSeries() {
      series.Some? && series.value != ""
    }
  }

  /**
   * A status answer; it carries the request it answers. `updatedAt` is none
   * for JavaScript's Invalid Date, which date parsing yields for text that
   * does not fit the pattern.
   */
  datatype DocumentStatus = DocumentStatus(
    updatedAt: Option<Timestamp>,
    code: int,
    message: string,
    request: DocumentCheckParams)

  datatype DocumentType = ID | LegacyPassport | BirthCertificate

  /** A classified document reference. */
  datatype DocumentRef = DocumentRef(docType: DocumentType, series: Option<string>, number: string) {
    /** The reference as check parameters: its kind is dropped. */
    function Params(): DocumentCheckParams {
      DocumentCheckParams(series, number)
    }
  }

  /** One call into the registered status handler. */
  datatype Delivery =
    | StatusResult(reqId: RequestId, status: DocumentStatus)
    | StatusError(reqId: RequestId, err: Thrown)
}
