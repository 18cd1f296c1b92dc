/** `normalizeError` of src/http.js: the wire message for a failure of the
    HTTP client, chosen in the order response, code, request, fallback. */
module Http {
  import opened Wrappers
  import opened JsValues

  /** The message for a request that got no response, written as its
      "Network" prefix and the rest. */
  const TimeoutMessage := "Network" + "/timeout error contacting Mealie API"

  /** Which of the four branches of `normalizeError` a failure takes. */
  datatype FailureKind = HttpStatus | NetworkCode | NoResponse | Unclassified

  function Classify(err: JsError): FailureKind
  {
    if err.response.Some? then HttpStatus
    else if Truthy(err.code) then NetworkCode
    else if err.request then NoResponse
    else Unclassified
  }

  function NormalizeError(err: JsError): string
  {
    if err.response.Some? then
      var response := err.response.value;
      "HTTP " + IntToString(response.status) + ": " + StringifyOrUndefined(response.data)
    else if Truthy(err.code) then
      "Network/TLS error " + JsString(err.code) + ": " + err.message
    else if err.request then
      TimeoutMessage
    else if err.message != "" then
      err.message
    else
      ErrorToString(err)
  }

  /** Each kind of failure reads only some fields of the error: two
      failures of the same kind that agree on those fields get the same
      message, whatever their other fields hold. */
  lemma NormalizeErrorReads(a: JsError, b: JsError)
    requires Classify(a) == Classify(b)
    ensures Classify(a) == HttpStatus && a.response == b.response ==> NormalizeError(a) == NormalizeError(b)
    ensures Classify(a) == NetworkCode && a.code == b.code && a.message == b.message ==> NormalizeError(a) == NormalizeError(b)
    ensures Classify(a) == NoResponse ==> NormalizeError(a) == NormalizeError(b)
    ensures Classify(a) == Unclassified && a.name == b.name && a.message == b.message ==> NormalizeError(a) == NormalizeError(b)
  {
  }

  predicate HasSuffix(s: string, suffix: string)
  {
    |suffix| <= |s| && s[|s| - |suffix|..] == suffix
  }

  lemma SuffixOfConcat(front: string, suffix: string)
    ensures HasSuffix(front + suffix, suffix)
  {
    assert (front + suffix)[|front|..] == suffix;
  }

  /** The detail from upstream is kept at the end of the message: the
      serialised body of an HTTP-status failure, the client's own message
      of a network failure, and the message of an unclassified error that
      has one. */
  lemma MessageKeepsDetail(err: JsError)
    ensures Classify(err) == HttpStatus ==> HasSuffix(NormalizeError(err), ": " + StringifyOrUndefined(err.response.value.data))
    ensures Classify(err) == NetworkCode ==> HasSuffix(NormalizeError(err), ": " + err.message)
    ensures Classify(err) == Unclassified && err.message != "" ==> NormalizeError(err) == err.message
  {
    match Classify(err)
    case HttpStatus =>
      var response := err.response.value;
      assert NormalizeError(err) == ("HTTP " + IntToString(response.status)) + (": " + StringifyOrUndefined(response.data));
      SuffixOfConcat("HTTP " + IntToString(response.status), ": " + StringifyOrUndefined(response.data));
    case NetworkCode =>
      assert NormalizeError(err) == ("Network/TLS error " + JsString(err.code)) + (": " + err.message);
      SuffixOfConcat("Network/TLS error " + JsString(err.code), ": " + err.message);
    case NoResponse =>
    case Unclassified =>
  }

  /** A response decides the message whatever `code` and `request` hold. */
  lemma ResponseTakesPrecedence(err: JsError, code: Option<Json>, request: bool)
    requires err.response.Some?
    ensures NormalizeError(err.(code := code, request := request)) == NormalizeError(err)
  {
  }

  /** Without a response, a truthy code decides the message whatever
      `request` holds. */
  lemma CodeTakesPrecedenceOverRequest(err: JsError, request: bool)
    requires err.response.None? && Truthy(err.code)
    ensures NormalizeError(err.(request := request)) == NormalizeError(err)
  {
  }

  predicate HasPrefix(s: string, prefix: string)
  {
    |prefix| <= |s| && s[..|prefix|] == prefix
  }

  lemma PrefixOfConcat(prefix: string, rest: string)
    ensures HasPrefix(prefix + rest, prefix)
  {
    assert (prefix + rest)[..|prefix|] == prefix;
  }

  lemma TimeoutMessagePrefix()
    ensures HasPrefix(TimeoutMessage, "Network")
  {
    PrefixOfConcat("Network", "/timeout error contacting Mealie API");
  }

  lemma HttpStatusPrefix(err: JsError)
    requires Classify(err) == HttpStatus
    ensures HasPrefix(NormalizeError(err), "HTTP ")
  {
    var response := err.response.value;
    var rest := IntToString(response.status) + ": " + StringifyOrUndefined(response.data);
    assert NormalizeError(err) == "HTTP " + rest;
    PrefixOfConcat("HTTP ", rest);
  }

  lemma NetworkCodePrefix(err: JsError)
    requires Classify(err) == NetworkCode
    ensures HasPrefix(NormalizeError(err), "Network")
  {
    var rest := "/TLS error " + JsString(err.code) + ": " + err.message;
    assert NormalizeError(err) == "Network" + rest;
    PrefixOfConcat("Network", rest);
  }

  /** HTTP-status failures read "HTTP ...", network and timeout failures
      "Network...". */
  lemma MessagePrefixes(err: JsError)
    ensures Classify(err) == HttpStatus ==> HasPrefix(NormalizeError(err), "HTTP ")
    ensures Classify(err) in {NetworkCode, NoResponse} ==> HasPrefix(NormalizeError(err), "Network")
  {
    match Classify(err)
    case HttpStatus => HttpStatusPrefix(err);
    case NetworkCode => NetworkCodePrefix(err);
    case NoResponse => TimeoutMessagePrefix();
    case Unclassified =>
  }

  /** So an HTTP-status failure never reads like a network or timeout one. */
  lemma HttpAndNetworkFailuresDiffer(a: JsError, b: JsError)
    requires Classify(a) == HttpStatus && Classify(b) in {NetworkCode, NoResponse}
    ensures NormalizeError(a) != NormalizeError(b)
  {
    MessagePrefixes(a);
    MessagePrefixes(b);
    assert NormalizeError(a)[0] == 'H' && NormalizeError(b)[0] == 'N';
  }
}
