/** The recommended-events search: the query parameters are cleaned before the request, the
    response is read with defaults, and a failure is turned into one user-facing message. */
module Search {
  import opened Wrappers
  import opened Text

  // ---------------------------------------------------------------------------------------------
  // Query parameters

  /** A `startTime`/`endTime` argument: a `Date` (the instant it holds) or a string. */
  datatype TimeArg = DateArg(instant: int) | TextArg(text: string)

  /** A time as sent: the ISO text of a `Date`, written as the instant it denotes (the conversion
      is injective), or the string as given. */
  datatype TimeParam = IsoOf(instant: int) | AsGiven(text: string)

  /** A `page`/`size` argument as `parseInt` reads it: absent (undefined), an integer, or NaN. */
  datatype NumArg = Absent | Parsed(n: int) | NaN

  datatype Params = Params(
    category: Option<string>, address: Option<string>, name: Option<string>, sortBy: Option<string>,
    startTime: Option<TimeArg>, endTime: Option<TimeArg>, page: NumArg, size: NumArg)

  datatype Query = Query(
    category: Option<string>, address: Option<string>, name: Option<string>, sortBy: Option<string>,
    startTime: Option<TimeParam>, endTime: Option<TimeParam>, page: int, size: int)

  const NoParams := Params(None, None, None, None, None, None, Absent, Absent)

  /** The value `parseInt(x) || fallback` gives, with `= fallback` as the destructuring default. */
  function ParsedOr(x: NumArg, fallback: int): int {
    if x.Parsed? && x.n != 0 then x.n else fallback
  }

  /** Whether a string filter is kept: `s && s.trim()` is truthy. */
  predicate Kept(s: Option<string>) {
    s.Some? && Trim(s.value) != ""
  }

  /** Whether a time argument is truthy: a `Date` always is, a string when it is not empty. */
  predicate TimeGiven(t: Option<TimeArg>) {
    t.Some? && (t.value.DateArg? || t.value.text != "")
  }

  function TimeToParam(t: TimeArg): TimeParam {
    match t
    case DateArg(i) => IsoOf(i)
    case TextArg(s) => AsGiven(s)
  }

  /** The value a string filter is sent with: its trimmed text when it has a non-space
      character, none otherwise. */
  function FilterValue(s: Option<string>): Option<string> {
    if s.Some? && !IsBlank(s.value) then Some(Trim(s.value)) else None
  }

  /** The value a time argument is sent with, when it is truthy. */
  function TimeValue(t: Option<TimeArg>): Option<TimeParam> {
    if TimeGiven(t) then Some(TimeToParam(t.value)) else None
  }

  /** The page sent: the parsed page when it is at least 1, and 1 otherwise. */
  function PageValue(page: NumArg): int {
    if page.Parsed? && page.n >= 1 then page.n else 1
  }

  /** The size sent: a parsed size clamped to 1..100, and 10 when it is absent, NaN or 0. */
  function SizeValue(size: NumArg): int {
    match size
    case Parsed(n) => if n > 100 then 100 else if n >= 1 then n else if n < 0 then 1 else 10
    case _ => 10
  }

  /** The whole query sent for the caller's arguments, field by field. */
  function Normalized(params: Option<Params>): Query {
    var p := params.GetOr(NoParams);
    Query(FilterValue(p.category), FilterValue(p.address), FilterValue(p.name), FilterValue(p.sortBy),
          TimeValue(p.startTime), TimeValue(p.endTime), PageValue(p.page), SizeValue(p.size))
  }

  /** One string filter: kept, trimmed, when it has a non-space character. */
  method CleanFilter(s: Option<string>) returns (r: Option<string>)
    ensures r.Some? <==> s.Some? && !IsBlank(s.value)
    ensures r.Some? ==> r.value == Trim(s.value)
    ensures r == FilterValue(s)
  {
    r := None;
    if Kept(s) {
      r := Some(Trim(s.value));
    }
    if s.Some? {
      TrimProperties(s.value);
    }
  }

  /** One time argument: a `Date` is sent as its ISO text, a non-empty string as it is. */
  method CleanTime(t: Option<TimeArg>) returns (r: Option<TimeParam>)
    ensures r.Some? <==> TimeGiven(t)
    ensures r.Some? ==> r.value == TimeToParam(t.value)
    ensures r == TimeValue(t)
  {
    r := None;
    if TimeGiven(t) {
      r := Some(TimeToParam(t.value));
    }
  }

  /** `Math.max(1, parseInt(page) || 1)`, with 1 as the default. */
  method CleanPage(page: NumArg) returns (r: int)
    ensures r >= 1
    ensures page.Parsed? && page.n >= 1 ==> r == page.n
    ensures !(page.Parsed? && page.n >= 1) ==> r == 1
    ensures r == PageValue(page)
  {
    var n := ParsedOr(if page.Absent? then Parsed(1) else page, 1);
    r := if n > 1 then n else 1;
  }

  /** `Math.max(1, Math.min(100, parseInt(size) || 10))`, with 10 as the default. */
  method CleanSize(size: NumArg) returns (r: int)
    ensures 1 <= r <= 100
    ensures size.Parsed? && 1 <= size.n <= 100 ==> r == size.n
    ensures size.Parsed? && size.n > 100 ==> r == 100
    ensures size.Parsed? && size.n < 0 ==> r == 1
    ensures size.Absent? || size.NaN? || size == Parsed(0) ==> r == 10
    ensures r == SizeValue(size)
  {
    var n := ParsedOr(if size.Absent? then Parsed(10) else size, 10);
    r := if n < 100 then (if n > 1 then n else 1) else 100;
  }

  /** The request parameters built from the caller's arguments (`params || {}`): each field is
      cleaned on its own, and no other field is sent. */
  method NormalizeParams(params: Option<Params>) returns (q: Query)
    ensures var p := params.GetOr(NoParams);
      (q.category.Some? <==> p.category.Some? && !IsBlank(p.category.value)) &&
      (q.address.Some? <==> p.address.Some? && !IsBlank(p.address.value)) &&
      (q.name.Some? <==> p.name.Some? && !IsBlank(p.name.value)) &&
      (q.sortBy.Some? <==> p.sortBy.Some? && !IsBlank(p.sortBy.value))
    ensures var p := params.GetOr(NoParams);
      (q.category.Some? ==> q.category.value == Trim(p.category.value)) &&
      (q.address.Some? ==> q.address.value == Trim(p.address.value)) &&
      (q.name.Some? ==> q.name.value == Trim(p.name.value)) &&
      (q.sortBy.Some? ==> q.sortBy.value == Trim(p.sortBy.value))
    ensures var p := params.GetOr(NoParams);
      (q.startTime.Some? <==> TimeGiven(p.startTime)) &&
      (q.startTime.Some? ==> q.startTime.value == TimeToParam(p.startTime.value)) &&
      (q.endTime.Some? <==> TimeGiven(p.endTime)) &&
      (q.endTime.Some? ==> q.endTime.value == TimeToParam(p.endTime.value))
    ensures params.None? ==> q == Query(None, None, None, None, None, None, 1, 10)
    ensures q.page >= 1 && 1 <= q.size <= 100
    ensures q == Normalized(params)
  {
    var p := params.GetOr(NoParams);
    var category := CleanFilter(p.category);
    var address := CleanFilter(p.address);
    var name := CleanFilter(p.name);
    var sortBy := CleanFilter(p.sortBy);
    var startTime := CleanTime(p.startTime);
    var endTime := CleanTime(p.endTime);
    var page := CleanPage(p.page);
    var size := CleanSize(p.size);
    q := Query(category, address, name, sortBy, startTime, endTime, page, size);
  }

  /** A filter that is already clean is sent again as it is. */
  lemma FilterValueStable(s: Option<string>)
    ensures FilterValue(FilterValue(s)) == FilterValue(s)
  {
    if s.Some? && !IsBlank(s.value) {
      TrimProperties(s.value);
      TrimIdempotent(s.value);
      TrimProperties(Trim(s.value));
    }
  }

  /** Cleaning is idempotent: the query sent, handed back as arguments (with the same times),
      is sent unchanged. */
  lemma {:induction false} NormalizedIdempotent(params: Option<Params>)
    ensures var p, q := params.GetOr(NoParams), Normalized(params);
      Normalized(Some(Params(q.category, q.address, q.name, q.sortBy, p.startTime, p.endTime,
                             Parsed(q.page), Parsed(q.size)))) == q
  {
    var p := params.GetOr(NoParams);
    var c, a, n, o := FilterValue(p.category), FilterValue(p.address), FilterValue(p.name), FilterValue(p.sortBy);
    var pg, sz := PageValue(p.page), SizeValue(p.size);
    var q := Query(c, a, n, o, TimeValue(p.startTime), TimeValue(p.endTime), pg, sz);
    assert Normalized(params) == q;
    var p' := Params(c, a, n, o, p.startTime, p.endTime, Parsed(pg), Parsed(sz));
    assert Normalized(Some(p')) == Query(FilterValue(c), FilterValue(a), FilterValue(n), FilterValue(o),
      TimeValue(p.startTime), TimeValue(p.endTime), PageValue(Parsed(pg)), SizeValue(Parsed(sz)));
    FilterValueStable(p.category);
    FilterValueStable(p.address);
    FilterValueStable(p.name);
    FilterValueStable(p.sortBy);
  }

  // ---------------------------------------------------------------------------------------------
  // The response

  /** The `data` object of the response body; a field of 0 counts as missing, as `||` treats it. */
  datatype ResData<E> = ResData(listEvents: Option<seq<E>>, pageNo: Option<int>, totalPages: Option<int>, pageSize: Option<int>)

  datatype ResponseBody<E> = ResponseBody(data: Option<ResData<E>>)

  datatype SearchResult<E> = SearchResult(events: seq<E>, page: int, totalPages: int, pageSize: int, raw: ResponseBody<E>)

  function NumberOr(x: Option<int>, fallback: int): int {
    if x.Some? && x.value != 0 then x.value else fallback
  }

  /** The result object: each missing (or zero) field takes its default. */
  function ReadResponse<E>(body: ResponseBody<E>): (r: SearchResult<E>)
    ensures r.raw == body
    ensures body.data.None? ==> r == SearchResult([], 1, 1, 10, body)
    ensures r.page != 0 && r.totalPages != 0 && r.pageSize != 0
    ensures body.data.Some? ==> var d := body.data.value;
      r.events == (if d.listEvents.Some? then d.listEvents.value else [])
    ensures body.data.Some? ==> var d := body.data.value;
      r.page == (if d.pageNo.Some? && d.pageNo.value != 0 then d.pageNo.value else 1)
    ensures body.data.Some? ==> var d := body.data.value;
      r.totalPages == (if d.totalPages.Some? && d.totalPages.value != 0 then d.totalPages.value else 1)
    ensures body.data.Some? ==> var d := body.data.value;
      r.pageSize == (if d.pageSize.Some? && d.pageSize.value != 0 then d.pageSize.value else 10)
  {
    match body.data
    case None => SearchResult([], 1, 1, 10, body)
    case Some(d) =>
      SearchResult(d.listEvents.GetOr([]), NumberOr(d.pageNo, 1), NumberOr(d.totalPages, 1), NumberOr(d.pageSize, 10), body)
  }

  /** A field of 0 reads as a missing one, as `||` treats it. */
  lemma ZeroFieldsReadAsMissing<E>(events: Option<seq<E>>)
    ensures var zeros, missing := ResData(events, Some(0), Some(0), Some(0)), ResData(events, None, None, None);
      ReadResponse(ResponseBody(Some(zeros))).(raw := ResponseBody(None)) ==
      ReadResponse(ResponseBody(Some(missing))).(raw := ResponseBody(None))
  {
  }

  /** An empty data object reads like no data object at all. */
  lemma EmptyDataLikeNoData<E>()
    ensures ReadResponse<E>(ResponseBody(Some(ResData(None, None, None, None)))).(raw := ResponseBody(None)) ==
            ReadResponse<E>(ResponseBody(None)).(raw := ResponseBody(None))
  {
  }

  // ---------------------------------------------------------------------------------------------
  // Failures

  /** What the catch block reads of an axios error: `code`, `message`, `response.status` and
      `response.data.message`. */
  datatype HttpError = HttpError(code: Option<string>, message: string, status: Option<int>, serverMessage: Option<string>)

  /** The error thrown to the caller. */
  datatype SearchError = SearchError(message: string, originalError: HttpError, statusCode: Option<int>)

  const GenericText := "Có lỗi xảy ra khi tìm kiếm"
  const TimeoutText := "Timeout - Server phản hồi quá chậm"
  const NetworkText := "Không thể kết nối đến server. Kiểm tra mạng hoặc API URL."
  const NotFoundText := "Không tìm thấy API endpoint"
  const ServerText := "Lỗi server nội bộ"

  /** The error message chain: timeout, then network failure, then 404, then 500, then the
      server's own message, then the generic text. */
  function ErrorMessage(e: HttpError): (m: string)
    ensures e.code == Some("ECONNABORTED") ==> m == TimeoutText
    ensures e.code != Some("ECONNABORTED") && Contains(e.message, "Network Error") ==> m == NetworkText
    ensures e.code != Some("ECONNABORTED") && !Contains(e.message, "Network Error") ==>
      (e.status == Some(404) ==> m == NotFoundText) &&
      (e.status == Some(500) ==> m == ServerText) &&
      (e.status != Some(404) && e.status != Some(500) ==>
        m == if e.serverMessage.Some? && e.serverMessage.value != "" then e.serverMessage.value else GenericText)
  {
    if e.code == Some("ECONNABORTED") then TimeoutText
    else if Contains(e.message, "Network Error") then NetworkText
    else match e.status
      case Some(404) => NotFoundText
      case Some(500) => ServerText
      case _ => if e.serverMessage.Some? && e.serverMessage.value != "" then e.serverMessage.value else GenericText
  }

  /** The catch block: the message starts as the generic text and is overwritten by the first
      test that holds. */
  method ClassifyError(e: HttpError) returns (err: SearchError)
    ensures err.originalError == e && err.statusCode == e.status
    ensures err.message == ErrorMessage(e)
  {
    var errorMessage := GenericText;
    if e.code == Some("ECONNABORTED") {
      errorMessage := TimeoutText;
    } else if Contains(e.message, "Network Error") {
      errorMessage := NetworkText;
    } else if e.status == Some(404) {
      errorMessage := NotFoundText;
    } else if e.status == Some(500) {
      errorMessage := ServerText;
    } else if e.serverMessage.Some? && e.serverMessage.value != "" {
      errorMessage := e.serverMessage.value;
    }
    err := SearchError(errorMessage, e, e.status);
  }

  datatype Reply<E> = Found(result: SearchResult<E>) | Failed(error: SearchError)

  /** The whole call: the cleaned query is sent, and `response` is the server's answer. */
  method GetRecommendedEvents<E>(params: Option<Params>, response: Result<E>) returns (sent: Query, reply: Reply<E>)
    ensures response.Ok? ==> reply == Found(ReadResponse(response.body))
    ensures response.Err? ==>
      reply == Failed(SearchError(ErrorMessage(response.error), response.error, response.error.status))
    ensures sent == Normalized(params)
    ensures sent.page >= 1 && 1 <= sent.size <= 100
  {
    sent := NormalizeParams(params);
    match response {
      case Ok(body) =>
        reply := Found(ReadResponse(body));
      case Err(e) =>
        var err := ClassifyError(e);
        reply := Failed(err);
    }
  }

  /** The HTTP exchange: a response body, or an axios error. */
  datatype Result<E> = Ok(body: ResponseBody<E>) | Err(error: HttpError)
}
