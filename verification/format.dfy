/**
 * The user-facing texts of the bot's checker handler: the reply for each
 * error kind, and the header and day-count phrase of a status reply.
 */
module Format {
  import opened Wrappers
  import opened JsString
  import opened CheckerTypes

  const DP_DOC_URL: string := "https://pasport.org.ua/solutions/checker"
  const INTERNAL_ERR_SUFFIX: string := "\n\nПропоную вам поки в ручному режимі перевірити статус документу на сторінці ДП Документ:\n" + DP_DOC_URL

  /** The leading emoji of each reply; the info sign carries a variation selector. */
  const ICON_SHRUG: string := "🤷"
  const ICON_HOURGLASS: string := "⌛️"
  const ICON_MONKEY: string := "🙈"
  const ICON_EXPLODING_HEAD: string := "🤯"
  const ICON_PACKAGE: string := "📦"
  const ICON_TRUCK: string := "🚚"
  const ICON_CHECK: string := "✅"
  const ICON_INFO: string := "ℹ️"

  const API_ERROR_PREFIX: string := ICON_SHRUG + " Я нічого не знайшов, будь-ласка перевірте правильність введених даних.\n"
  const QUOTA_TEXT: string := ICON_HOURGLASS + " Занадто багато запитів. Зачекайте будь-ласка хвилинку поки попередній запит буде обробленно."
  const TIMEOUT_TEXT: string := ICON_HOURGLASS + " Сервер ДП Документ не відповідає. Спробуйте будь-ласка пізніше або зайдіть на сайт ДП Документ:\n\n" + DP_DOC_URL
  const HTTP_ERROR_HEADER: string := ICON_MONKEY + " Вибачте, але сервер ДП Документ повернув помилку."
  const CRAWL_ERROR_HEADER: string := ICON_EXPLODING_HEAD + " Вибачте, сталась внутрішня помилка."

  const SHIPPED_HEADER: string := ICON_PACKAGE + " <b>Документ відправлено до центру персоналізації</b>"
  const IN_TRANSIT_HEADER: string := ICON_TRUCK + " <b>Документ переданий для доставки.</b>"
  const READY_HEADER: string := ICON_CHECK + " <b>Документ готовий до видачі!</b>"
  const OTHER_HEADER_PREFIX: string := ICON_INFO + " <b>Статус документу (код "
  const OTHER_HEADER_SUFFIX: string := "):</b>"

  const TODAY: string := "сьогодні"
  const YESTERDAY: string := "вчора"
  const FEW_DAYS_AGO: string := " дні тому"
  const MANY_DAYS_AGO: string := " днів тому"

  const ANSWER_PREFIX: string := "\n\nВідповідь від ДП Документ на сайті:\n<i>"
  const ANSWER_SUFFIX: string := "</i>\n\n"
  const DATE_PREFIX: string := "🕒 Дата оновлення статусу: "
  const DISCLAIMER: string := "\n\n<i>Зверніть увагу, що відповідь від ДП Документ може відрізнятись від реального статусу вашого документу.</i>\n\n"
  const UNKNOWN_DATE: string := "не відомо"
  /** The day phrase of an Invalid Date: the day difference is `NaN`, which takes the default branch. */
  const NAN_DAYS_PHRASE: string := "NaN" + MANY_DAYS_AGO

  /** The frame `formatError` puts around the message of an HTTP or crawl error. */
  function InternalErrorText(header: string, message: string): string {
    header + "\n\n<code>" + message + "</code>" + INTERNAL_ERR_SUFFIX
  }

  lemma InternalErrorTextDecodable(header: string, m1: string, m2: string)
    requires InternalErrorText(header, m1) == InternalErrorText(header, m2)
    ensures m1 == m2
  {
    CancelSuffix(header + "\n\n<code>" + m1 + "</code>", header + "\n\n<code>" + m2 + "</code>", INTERNAL_ERR_SUFFIX);
    CancelSuffix(header + "\n\n<code>" + m1, header + "\n\n<code>" + m2, "</code>");
    CancelPrefix(header + "\n\n<code>", m1, m2);
  }

  /** `formatError`, after `QueryError.from`. */
  function FormatError(err: QueryError): (s: string)
    ensures err.kind == ApiError ==> s == API_ERROR_PREFIX + err.message
    ensures err.kind == QuotaError ==> s == QUOTA_TEXT
    ensures err.kind == TimeoutError ==> s == TIMEOUT_TEXT
    ensures err.kind == HttpError ==> s == InternalErrorText(HTTP_ERROR_HEADER, err.message)
    ensures err.kind == CrawlError ==> s == InternalErrorText(CRAWL_ERROR_HEADER, err.message)
  {
    var qe := QueryErrorFrom(err);
    match qe.kind
    case ApiError => API_ERROR_PREFIX + qe.message
    case QuotaError => QUOTA_TEXT
    case TimeoutError => TIMEOUT_TEXT
    case HttpError => InternalErrorText(HTTP_ERROR_HEADER, qe.message)
    case CrawlError => InternalErrorText(CRAWL_ERROR_HEADER, qe.message)
  }

  /** Whether the reply for an error of this kind quotes the error's message. */
  predicate QuotesMessage(kind: ErrorType) {
    kind == ApiError || kind == HttpError || kind == CrawlError
  }

  /** The quota and timeout replies are fixed texts: the message does not show. */
  lemma FormatErrorIgnoresMessage(kind: ErrorType, m1: string, m2: string)
    requires !QuotesMessage(kind)
    ensures FormatError(QueryError(kind, m1)) == FormatError(QueryError(kind, m2))
  {
  }

  /** The first character of each error reply; it tells the quoting kinds apart. */
  lemma FormatErrorFirstChar(err: QueryError)
    ensures |FormatError(err)| > 0
    ensures FormatError(err)[0] == (match err.kind
                                    case ApiError => '🤷'
                                    case QuotaError => '⌛'
                                    case TimeoutError => '⌛'
                                    case HttpError => '🙈'
                                    case CrawlError => '🤯')
  {
  }

  /**
   * The reply determines the error kind and, for the kinds that quote it,
   * the message: nothing the user needs is lost in formatting.
   */
  lemma FormatErrorDecodable(e1: QueryError, e2: QueryError)
    requires FormatError(e1) == FormatError(e2)
    ensures e1.kind == e2.kind
    ensures QuotesMessage(e1.kind) ==> e1.message == e2.message
  {
    FormatErrorFirstChar(e1);
    FormatErrorFirstChar(e2);
    assert |QUOTA_TEXT| != |TIMEOUT_TEXT|;
    assert e1.kind == e2.kind;
    match e1.kind
    case ApiError => CancelPrefix(API_ERROR_PREFIX, e1.message, e2.message);
    case HttpError => InternalErrorTextDecodable(HTTP_ERROR_HEADER, e1.message, e2.message);
    case CrawlError => InternalErrorTextDecodable(CRAWL_ERROR_HEADER, e1.message, e2.message);
    case _ =>
  }

  /** The header of a status reply: fixed for the three known codes, otherwise quoting the code. */
  function StatusHeader(code: int): (h: string)
    ensures code == 21 ==> h == SHIPPED_HEADER
    ensures code == 23 ==> h == IN_TRANSIT_HEADER
    ensures code == 24 ==> h == READY_HEADER
    ensures StatusCodeOf(code).None? ==> h == OTHER_HEADER_PREFIX + IntToString(code) + OTHER_HEADER_SUFFIX
  {
    if code == Shipped.Value() then SHIPPED_HEADER
    else if code == InTransit.Value() then IN_TRANSIT_HEADER
    else if code == Ready.Value() then READY_HEADER
    else OTHER_HEADER_PREFIX + IntToString(code) + OTHER_HEADER_SUFFIX
  }

  /** Distinct codes get distinct headers. */
  lemma StatusHeaderInjective(c1: int, c2: int)
    requires StatusHeader(c1) == StatusHeader(c2)
    ensures c1 == c2
  {
    var h := StatusHeader(c1);
    assert SHIPPED_HEADER[0] == '📦' && IN_TRANSIT_HEADER[0] == '🚚' && READY_HEADER[0] == '✅';
    assert (OTHER_HEADER_PREFIX + IntToString(c1) + OTHER_HEADER_SUFFIX)[0] == 'ℹ';
    assert (OTHER_HEADER_PREFIX + IntToString(c2) + OTHER_HEADER_SUFFIX)[0] == 'ℹ';
    if StatusCodeOf(c1).None? && StatusCodeOf(c2).None? {
      CancelSuffix(OTHER_HEADER_PREFIX + IntToString(c1), OTHER_HEADER_PREFIX + IntToString(c2), OTHER_HEADER_SUFFIX);
      CancelPrefix(OTHER_HEADER_PREFIX, IntToString(c1), IntToString(c2));
      IntToStringInjective(c1, c2);
    }
  }

  /** How long ago the status changed, from the calendar-day difference. */
  function DayPhrase(diffDays: int): (s: string)
    ensures diffDays == 0 ==> s == TODAY
    ensures diffDays == 1 ==> s == YESTERDAY
    ensures 2 <= diffDays <= 4 ==> s == IntToString(diffDays) + FEW_DAYS_AGO
    ensures !(0 <= diffDays <= 4) ==> s == IntToString(diffDays) + MANY_DAYS_AGO
  {
    if diffDays == 0 then TODAY
    else if diffDays == 1 then YESTERDAY
    else if 2 <= diffDays <= 4 then IntToString(diffDays) + FEW_DAYS_AGO
    else IntToString(diffDays) + MANY_DAYS_AGO
  }

  /** Distinct day counts, negative ones included, get distinct phrases. */
  lemma DayPhraseInjective(d1: int, d2: int)
    requires DayPhrase(d1) == DayPhrase(d2)
    ensures d1 == d2
  {
    IntToStringSign(d1);
    IntToStringSign(d2);
    assert TODAY[0] == 'с' && YESTERDAY[0] == 'в';
    assert (IntToString(d1) + FEW_DAYS_AGO)[0] == IntToString(d1)[0];
    assert (IntToString(d1) + MANY_DAYS_AGO)[0] == IntToString(d1)[0];
    assert (IntToString(d2) + FEW_DAYS_AGO)[0] == IntToString(d2)[0];
    assert (IntToString(d2) + MANY_DAYS_AGO)[0] == IntToString(d2)[0];
    PhraseLength(d1);
    PhraseLength(d2);
    if 2 <= d1 <= 4 && 2 <= d2 <= 4 {
      CancelSuffix(IntToString(d1), IntToString(d2), FEW_DAYS_AGO);
      IntToStringInjective(d1, d2);
    } else if !(0 <= d1 <= 4) && !(0 <= d2 <= 4) {
      CancelSuffix(IntToString(d1), IntToString(d2), MANY_DAYS_AGO);
      IntToStringInjective(d1, d2);
    }
  }

  /** A "few days" phrase is shorter than every "many days" phrase. */
  lemma PhraseLength(d: int)
    ensures 2 <= d <= 4 ==> |DayPhrase(d)| == 10
    ensures !(0 <= d <= 4) ==> |DayPhrase(d)| >= 11
  {
    IntToStringSign(d);
  }

  /** An Invalid Date shows a phrase that no day difference yields. */
  lemma NanPhraseIsNoDayPhrase(d: int)
    ensures DayPhrase(d) != NAN_DAYS_PHRASE
  {
    IntToStringSign(d);
    assert NAN_DAYS_PHRASE[0] == 'N';
    assert TODAY[0] == 'с' && YESTERDAY[0] == 'в';
    assert (IntToString(d) + FEW_DAYS_AGO)[0] == IntToString(d)[0];
    assert (IntToString(d) + MANY_DAYS_AGO)[0] == IntToString(d)[0];
  }

  /**
   * `formatResult`, with the sanitised message, and date-fns `format` and
   * `differenceInCalendarDays` against the current time supplied by the
   * caller. Both see an Invalid Date: `format` then throws, and the fallback
   * reads a `rawStatusDate` field that a status does not have, so the date
   * shows as unknown; the day difference is `NaN`.
   */
  function FormatResult(s: DocumentStatus, strippedMessage: string,
                        formatDate: Timestamp -> string, calendarDays: Timestamp -> int): (text: string)
    ensures StatusHeader(s.code) + ANSWER_PREFIX + strippedMessage <= text
    ensures s.updatedAt.Some? ==>
              var tail := DATE_PREFIX + formatDate(s.updatedAt.value)
                          + " (" + DayPhrase(calendarDays(s.updatedAt.value)) + ")" + DISCLAIMER;
              |tail| <= |text| && text[|text| - |tail|..] == tail
    ensures s.updatedAt.None? ==>
              var tail := DATE_PREFIX + UNKNOWN_DATE + " (" + NAN_DAYS_PHRASE + ")" + DISCLAIMER;
              |tail| <= |text| && text[|text| - |tail|..] == tail
  {
    var dateText := match s.updatedAt case Some(t) => formatDate(t) case None => UNKNOWN_DATE;
    var phrase := match s.updatedAt case Some(t) => DayPhrase(calendarDays(t)) case None => NAN_DAYS_PHRASE;
    var head := StatusHeader(s.code) + ANSWER_PREFIX + strippedMessage;
    var tail := DATE_PREFIX + dateText + " (" + phrase + ")" + DISCLAIMER;
    var text := head + ANSWER_SUFFIX + tail;
    assert text[..|head|] == head;
    assert text[|text| - |tail|..] == tail;
    text
  }
}
