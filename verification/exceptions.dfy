/**
 * The error taxonomy of cocapi/utils/exceptions.py: request errors keyed by
 * HTTP status, and lookup errors for unknown reference data.
 */
module Exceptions {
  import opened Wrappers
  import opened Json
  import opened Text

  /** `ClientRequestError` and its six subclasses. */
  datatype RequestErrorClass =
    | ClientRequestError
    | IncorrectParameters
    | AccessDenied
    | ResourceNotFound
    | TooManyRequests
    | UnknownError
    | ServiceUnavailable

  /** The class attribute `CODE`. */
  function Code(c: RequestErrorClass): Option<int> {
    match c
    case ClientRequestError => None
    case IncorrectParameters => Some(400)
    case AccessDenied => Some(403)
    case ResourceNotFound => Some(404)
    case TooManyRequests => Some(429)
    case UnknownError => Some(500)
    case ServiceUnavailable => Some(503)
  }

  /** The class attribute `DETAILS`. */
  function Details(c: RequestErrorClass): Option<string> {
    match c
    case ClientRequestError => None
    case IncorrectParameters => Some(IncorrectParametersDetails())
    case AccessDenied => Some(AccessDeniedDetails())
    case ResourceNotFound => Some(ResourceNotFoundDetails())
    case TooManyRequests => Some(TooManyRequestsDetails())
    case UnknownError => Some(UnknownErrorDetails())
    case ServiceUnavailable => Some(ServiceUnavailableDetails())
  }

  function IncorrectParametersDetails(): (s: string)
    ensures |s| > 0
  {
    "Client provided " + "incorrect parameters " + "for the request"
  }

  function AccessDeniedDetails(): (s: string)
    ensures |s| > 0
  {
    "Access denied, " + "either because of " + "missing/incorrect " + "credentials or used " + "API token does not " + "grant access to the " + "requested resource"
  }

  function ResourceNotFoundDetails(): (s: string)
    ensures |s| > 0
  {
    "Resource was not found"
  }

  function TooManyRequestsDetails(): (s: string)
    ensures |s| > 0
  {
    "Request was " + "throttled, because " + "amount of requests " + "was above the " + "threshold defined " + "for the used API " + "token"
  }

  function UnknownErrorDetails(): (s: string)
    ensures |s| > 0
  {
    "Unknown error " + "happened when " + "handling the request"
  }

  function ServiceUnavailableDetails(): (s: string)
    ensures |s| > 0
  {
    "Service is " + "temprorarily " + "unavailable because " + "of maintenance"
  }

  const MessageHead := "Error while making " + "request! Server " + "returned "
  const MessageMiddle := " for "
  const MessageTail := ". Check ``data`` for " + "additional details!"

  /** `MESSAGE.format(status_code=..., url=...)` */
  function StatusMessage(status: int, url: string): string {
    MessageHead + IntToString(status) + MessageMiddle + url + MessageTail
  }

  /** The parts of the failed response an error keeps. */
  datatype ResponseInfo = ResponseInfo(status: int, url: string)

  /** A raised `ClientRequestError` (or subclass) instance. */
  datatype RequestError = RequestError(cls: RequestErrorClass, response: ResponseInfo, message: string, data: Json)

  /**
   * `cls(response, data=data)`: the message is the class's `DETAILS` when it
   * has one, otherwise the generic message naming the status and the url.
   */
  function NewRequestError(cls: RequestErrorClass, response: ResponseInfo, data: Json): (e: RequestError)
    ensures e.cls == cls && e.response == response && e.data == data
    ensures Details(cls).Some? ==> e.message == Details(cls).value
    ensures Details(cls).None? ==> e.message == StatusMessage(response.status, response.url)
  {
    var message := if Details(cls).Some? && |Details(cls).value| > 0 then Details(cls).value
                   else StatusMessage(response.status, response.url);
    RequestError(cls, response, message, data)
  }

  /** Every subclass carries a code and fixed details; only the base class has neither. */
  lemma SubclassesHaveCodeAndDetails(c: RequestErrorClass)
    ensures Code(c).Some? <==> c != ClientRequestError
    ensures Details(c).Some? <==> c != ClientRequestError
  {
  }

  /** A subclass's message is its details whatever the response and data. */
  lemma SubclassMessageIgnoresResponse(c: RequestErrorClass, r1: ResponseInfo, r2: ResponseInfo, d1: Json, d2: Json)
    requires c != ClientRequestError
    ensures NewRequestError(c, r1, d1).message == NewRequestError(c, r2, d2).message
  {
  }

  /** The codes of the subclasses are pairwise distinct, so a code names one class. */
  lemma CodeIdentifiesClass(a: RequestErrorClass, b: RequestErrorClass)
    requires Code(a).Some? && Code(a) == Code(b)
    ensures a == b
  {
  }

  /** The generic message gives back the url and the rendered status it was built from. */
  lemma StatusMessageInjective(s1: int, u1: string, s2: int, u2: string)
    requires StatusMessage(s1, u1) == StatusMessage(s2, u2)
    ensures IntToString(s1) == IntToString(s2) && u1 == u2
  {
    assert MessageMiddle == [' '] + "for ";
    IntToStringFree(s1, ' ');
    IntToStringFree(s2, ' ');
    FramedPairInjective(MessageHead, MessageTail, ' ', "for ", IntToString(s1), u1, IntToString(s2), u2);
  }

  /** Two fields framed by fixed text, the first free of the separator that follows it, are recoverable. */
  lemma FramedPairInjective(head: string, tail: string, sep: char, mid: string, x1: string, y1: string, x2: string, y2: string)
    requires sep !in x1 && sep !in x2
    requires head + x1 + ([sep] + mid) + y1 + tail == head + x2 + ([sep] + mid) + y2 + tail
    ensures x1 == x2 && y1 == y2
  {
    var r1 := mid + y1;
    var r2 := mid + y2;
    assert head + x1 + ([sep] + mid) + y1 + tail == head + (x1 + [sep] + r1) + tail;
    assert head + x2 + ([sep] + mid) + y2 + tail == head + (x2 + [sep] + r2) + tail;
    CancelAround(head, x1 + [sep] + r1, x2 + [sep] + r2, tail);
    CancelAtSeparator(x1, r1, x2, r2, sep);
    CancelAround(mid, y1, y2, "");
  }

  /** `UnknownDataError` and its five subclasses. */
  datatype DataErrorClass =
    | UnknownDataError
    | UnknownLocationError
    | UnknownClanLabelError
    | UnknownClanLeagueError
    | UnknownPlayerLabelError
    | UnknownPlayerLeagueError

  /** The text around `{data}` in the class attribute `MESSAGE` (absent for the base class). */
  function MessageAround(c: DataErrorClass): Option<(string, string)> {
    match c
    case UnknownDataError => None
    case UnknownLocationError => Some(("Got an unknown " + "location '", "!'"))
    case UnknownClanLabelError => Some(("Got an unknown clan " + "label '", "!'"))
    case UnknownClanLeagueError => Some(("Got an unknown clan " + "league '", "!'"))
    case UnknownPlayerLabelError => Some(("Got an unknown " + "player label '", "!'"))
    case UnknownPlayerLeagueError => Some(("Got an unknown " + "player league '", "'!"))
  }

  /** A raised `UnknownDataError` (or subclass) instance; `message` is `None` for the base class. */
  datatype DataError = DataError(cls: DataErrorClass, data: string, message: Option<string>)

  /** `cls(data)` */
  function NewDataError(cls: DataErrorClass, data: string): (e: DataError)
    ensures e.cls == cls && e.data == data
    ensures e.message.None? <==> cls == UnknownDataError
    ensures cls != UnknownDataError ==>
      e.message == Some(MessageAround(cls).value.0 + data + MessageAround(cls).value.1)
  {
    match MessageAround(cls)
    case None => DataError(cls, data, None)
    case Some((before, after)) => DataError(cls, data, Some(before + data + after))
  }

  /** Messages of one class differ whenever the offending data differ. */
  lemma DataMessageInjective(c: DataErrorClass, d1: string, d2: string)
    requires c != UnknownDataError
    requires NewDataError(c, d1).message == NewDataError(c, d2).message
    ensures d1 == d2
  {
    var (before, after) := MessageAround(c).value;
    CancelAround(before, d1, d2, after);
  }

  /**
   * The message of a subclass quotes the data verbatim: the lead-in, then
   * the data, then the closing text, whatever the data holds.
   */
  lemma DataMessageQuotesData(c: DataErrorClass, d: string)
    requires c != UnknownDataError
    ensures var m := NewDataError(c, d).message.value;
      var (before, after) := MessageAround(c).value;
      && |m| == |before| + |d| + |after|
      && m[..|before|] == before
      && m[|before|..|before| + |d|] == d
      && m[|before| + |d|..] == after
  {
  }
}
