/** The HTTP worker: turns one item of request metadata into an HTTP request,
    and turns the completion of that request into exactly one commit. */
module HttpWorker {
  import opened Wrappers
  import opened JavaValues

  const URL := "url"
  const URL_SUFIX := "url-sufix"
  const HEADERS := "headers"
  const METHOD_TYPE := "method-type"
  const BODY := "body"
  const GET := "GET"
  const POST := "POST"
  const PUT := "PUT"
  const DELETE := "DELETE"
  const HEAD := "HEAD"
  const METHOD_TYPES: seq<string> := [GET, POST, PUT, DELETE, HEAD]

  /** One work item: the request metadata handed to `accept`. */
  type Metadata = map<string, Value>

  /** The exceptions that `accept` lets escape before any request is sent. */
  datatype Error =
    | ClassCast(key: string)              // the value under `key` has the wrong Java type
    | InvalidHeader                       // a header value is not a string
    | MissingMethodType                   // "Method type is mandatory."
    | UnsupportedMethodType(methodType: string)
    | NoUrl                               // neither url nor url-sufix
    | BothUrls                            // both url and url-sufix
    | MissingBaseUrl                      // url-sufix without a configured base-url

  /** The worker's configuration, fixed at construction. */
  datatype WorkerSettings = WorkerSettings(
    baseUrl: Option<string>,
    headers: map<string, string>,
    errorCodes: seq<int>)

  /** The request handed to the HTTP client. */
  datatype Request = Request(
    methodType: string,
    url: string,
    headers: map<string, string>,
    body: Option<string>)

  /** How the HTTP client finished: with a response carrying a status code, or
      with a throwable. */
  datatype Completion = Completed(status: int) | Threw

  /** Which of the two commit callbacks a completion runs. */
  datatype Outcome = Succeeded | Failed

  // ---------------------------------------------------------------------------
  // Reading the metadata

  /** `(String) requestMetadata.get(key)`: `null` for an absent key or a null value,
      a `ClassCastException` for any value that is not a string. */
  function StringEntry(md: Metadata, key: string): (r: Result<Option<string>, Error>)
    ensures r == Success(None) <==> Get(md, key).Null?
    ensures (exists s :: r == Success(Some(s))) <==> Get(md, key).Str?
    ensures r.Success? && r.value.Some? ==> Get(md, key) == Str(r.value.value)
    ensures r.Failure? ==> r.error == ClassCast(key)
  {
    match Get(md, key)
    case Null => Success(None)
    case Str(s) => Success(Some(s))
    case _ => Failure(ClassCast(key))
  }

  /** All values of a header map are strings. */
  predicate AllStrings(headers: map<string, Value>) {
    forall name :: name in headers ==> headers[name].Str?
  }

  /** The headers of one item, as `getHeaders` builds them: absent or null
      `headers` give no headers; a value that is not a map is a cast error; a map
      with any value that is not a string is rejected; otherwise the same pairs. */
  function HeadersOf(md: Metadata): (r: Result<map<string, string>, Error>)
    ensures Get(md, HEADERS).Null? ==> r == Success(map[])
    ensures !Get(md, HEADERS).Null? && !Get(md, HEADERS).Obj? ==> r == Failure(ClassCast(HEADERS))
    ensures Get(md, HEADERS).Obj? ==>
      (r.Success? <==> AllStrings(Get(md, HEADERS).m)) &&
      (r.Failure? ==> r.error == InvalidHeader)
    ensures r.Success? && Get(md, HEADERS).Obj? ==>
      r.value.Keys == Get(md, HEADERS).m.Keys &&
      forall name :: name in r.value ==> Get(md, HEADERS).m[name] == Str(r.value[name])
  {
    match Get(md, HEADERS)
    case Null => Success(map[])
    case Obj(headers) =>
      if AllStrings(headers) then Success(map name | name in headers :: headers[name].s)
      else Failure(InvalidHeader)
    case _ => Failure(ClassCast(HEADERS))
  }

  /** `getHeaders`: copies the header entries one at a time into a fresh map,
      rejecting the first one whose value is not a string. */
  method GetHeaders(md: Metadata) returns (r: Result<map<string, string>, Error>)
    ensures r == HeadersOf(md)
  {
    var raw := Get(md, HEADERS);
    if raw.Null? {
      return Success(map[]);
    }
    if !raw.Obj? {
      return Failure(ClassCast(HEADERS));
    }
    var headers := raw.m;
    var result: map<string, string> := map[];
    var pending := headers.Keys;
    while pending != {}
      invariant pending <= headers.Keys
      invariant result.Keys == headers.Keys - pending
      invariant forall name :: name in result ==> headers[name] == Str(result[name])
      decreases pending
    {
      var name :| name in pending;
      if !headers[name].Str? {
        return Failure(InvalidHeader);
      }
      result := result[name := headers[name].s];
      pending := pending - {name};
    }
    assert AllStrings(headers);
    assert result == map name | name in headers :: headers[name].s;
    return Success(result);
  }

  /** `getMethodType`: the method type is mandatory and must be one of the five
      supported ones; an accepted method type is returned unchanged. */
  function GetMethodType(md: Metadata): (r: Result<string, Error>)
    ensures r.Success? <==> Get(md, METHOD_TYPE).Str? && Get(md, METHOD_TYPE).s in METHOD_TYPES
    ensures r.Success? ==> Get(md, METHOD_TYPE) == Str(r.value)
    ensures Get(md, METHOD_TYPE).Null? ==> r == Failure(MissingMethodType)
    ensures !Get(md, METHOD_TYPE).Null? && !Get(md, METHOD_TYPE).Str? ==> r == Failure(ClassCast(METHOD_TYPE))
    ensures Get(md, METHOD_TYPE).Str? && Get(md, METHOD_TYPE).s !in METHOD_TYPES ==>
      r == Failure(UnsupportedMethodType(Get(md, METHOD_TYPE).s))
  {
    var methodType :- StringEntry(md, METHOD_TYPE);
    if methodType.None? then Failure(MissingMethodType)
    else if methodType.value !in METHOD_TYPES then Failure(UnsupportedMethodType(methodType.value))
    else Success(methodType.value)
  }

  /** POST and PUT are the method types that carry a body. */
  predicate HasBody(methodType: string) {
    methodType == POST || methodType == PUT
  }

  /** `getBodyIfNeeded`: the body is read from the metadata only for POST and PUT;
      for every other method type there is none, whatever the metadata holds. */
  function GetBodyIfNeeded(md: Metadata, methodType: string): (r: Result<Option<string>, Error>)
    ensures !HasBody(methodType) ==> r == Success(None)
    ensures HasBody(methodType) ==> r == StringEntry(md, BODY)
    ensures r.Success? && r.value.Some? ==> HasBody(methodType) && Get(md, BODY) == Str(r.value.value)
  {
    if HasBody(methodType) then StringEntry(md, BODY) else Success(None)
  }

  /** `getCalculatedUrl`: exactly one of `url` and `url-sufix` must be given; `url`
      is used as it is, `url-sufix` is appended to the configured base URL, which
      must then exist. */
  function GetCalculatedUrl(baseUrl: Option<string>, url: Option<string>, urlSufix: Option<string>)
    : (r: Result<string, Error>)
    ensures url.None? && urlSufix.None? ==> r == Failure(NoUrl)
    ensures url.Some? && urlSufix.Some? ==> r == Failure(BothUrls)
    ensures url.Some? && urlSufix.None? ==> r == Success(url.value)
    ensures url.None? && urlSufix.Some? && baseUrl.None? ==> r == Failure(MissingBaseUrl)
    ensures url.None? && urlSufix.Some? && baseUrl.Some? ==> r == Success(baseUrl.value + urlSufix.value)
  {
    if url.None? && urlSufix.None? then Failure(NoUrl)
    else if url.Some? && urlSufix.Some? then Failure(BothUrls)
    else if url.Some? then Success(url.value)
    else if baseUrl.None? then Failure(MissingBaseUrl)
    else Success(baseUrl.value + urlSufix.value)
  }

  // ---------------------------------------------------------------------------
  // Merging headers

  /** The headers sent with a request: every configured and every request header,
      where a header given in both takes the request's value. */
  function MergeHeaders(configured: map<string, string>, requested: map<string, string>)
    : (r: map<string, string>)
    ensures r.Keys == configured.Keys + requested.Keys
    ensures forall name :: name in requested ==> r[name] == requested[name]
    ensures forall name :: name in configured && name !in requested ==> r[name] == configured[name]
  {
    configured + requested
  }

  /** `Map.putAll`: copies every entry of `source` into `target`, one at a time. */
  method PutAll(target: map<string, string>, source: map<string, string>) returns (r: map<string, string>)
    ensures r == MergeHeaders(target, source)
  {
    r := target;
    var pending := source.Keys;
    while pending != {}
      invariant pending <= source.Keys
      invariant r.Keys == target.Keys + (source.Keys - pending)
      invariant forall name :: name in source && name !in pending ==> r[name] == source[name]
      invariant forall name :: name in target && name !in source ==> r[name] == target[name]
      invariant forall name :: name in pending && name !in target ==> name !in r
      decreases pending
    {
      var name :| name in pending;
      r := r[name := source[name]];
      pending := pending - {name};
    }
  }

  /** `getCalculatedHeaders`: a fresh map into which the configured headers and
      then the request headers are put. */
  method GetCalculatedHeaders(w: WorkerSettings, requestHeaders: map<string, string>)
    returns (r: map<string, string>)
    ensures r == MergeHeaders(w.headers, requestHeaders)
  {
    r := map[];
    r := PutAll(r, w.headers);
    r := PutAll(r, requestHeaders);
  }

  // ---------------------------------------------------------------------------
  // Building the request

  /** The HTTP client's request builder, as far as `createRequest` uses it: a
      method type and URL fixed when it is made, a body, and headers where setting
      a header replaces any earlier value under that name. */
  class RequestBuilder {
    const methodType: string
    const url: string
    var headers: map<string, string>
    var body: Option<string>

    constructor (methodType: string, url: string)
      ensures this.methodType == methodType && this.url == url
      ensures headers == map[] && body == None
    {
      this.methodType := methodType;
      this.url := url;
      headers := map[];
      body := None;
    }

    method SetBody(content: string)
      modifies this
      ensures body == Some(content) && headers == old(headers)
    {
      body := Some(content);
    }

    method SetHeader(name: string, value: string)
      modifies this
      ensures headers == old(headers)[name := value] && body == old(body)
    {
      headers := headers[name := value];
    }

    function Build(): (r: Request)
      reads this
      ensures r.methodType == methodType && r.url == url
      ensures r.headers == headers && r.body == body
    {
      Request(methodType, url, headers, body)
    }
  }

  /** The request `createRequest` builds: a supported method type and the given
      URL, every given header, and the body only for POST and PUT. */
  function RequestOf(methodType: string, url: string, headers: map<string, string>, body: Option<string>)
    : (r: Result<Request, Error>)
    ensures r.Success? <==> methodType in METHOD_TYPES
    ensures r.Failure? ==> r.error == UnsupportedMethodType(methodType)
    ensures r.Success? ==> r.value.methodType == methodType && r.value.url == url && r.value.headers == headers
    ensures r.Success? ==> r.value.body == if HasBody(methodType) then body else None
  {
    if methodType !in METHOD_TYPES then Failure(UnsupportedMethodType(methodType))
    else Success(Request(methodType, url, headers, if HasBody(methodType) then body else None))
  }

  /** `createRequest`: picks the builder for the method type, sets a non-null body
      for POST and PUT, then sets every header on the builder. */
  method CreateRequest(methodType: string, url: string, headers: map<string, string>, body: Option<string>)
    returns (r: Result<Request, Error>)
    ensures r == RequestOf(methodType, url, headers, body)
  {
    var request: RequestBuilder;
    if methodType == GET {
      request := new RequestBuilder(GET, url);
    } else if methodType == POST {
      request := new RequestBuilder(POST, url);
      if body.Some? {
        request.SetBody(body.value);
      }
    } else if methodType == PUT {
      request := new RequestBuilder(PUT, url);
      if body.Some? {
        request.SetBody(body.value);
      }
    } else if methodType == DELETE {
      request := new RequestBuilder(DELETE, url);
    } else if methodType == HEAD {
      request := new RequestBuilder(HEAD, url);
    } else {
      return Failure(UnsupportedMethodType(methodType));
    }
    ghost var body0 := request.body;
    assert body0 == if HasBody(methodType) then body else None;
    var pending := headers.Keys;
    while pending != {}
      invariant fresh(request)
      invariant pending <= headers.Keys
      invariant request.methodType == methodType && request.url == url && request.body == body0
      invariant request.headers.Keys == headers.Keys - pending
      invariant forall name :: name in request.headers ==> request.headers[name] == headers[name]
      decreases pending
    {
      var name :| name in pending;
      request.SetHeader(name, headers[name]);
      pending := pending - {name};
    }
    assert request.headers == headers;
    return Success(request.Build());
  }

  // ---------------------------------------------------------------------------
  // accept

  /** A value that `(String)` casts without an exception. */
  predicate NullOrStr(v: Value) {
    v.Null? || v.Str?
  }

  /** The first three steps of `accept` pass: both URL casts and the headers. */
  predicate CastsPass(md: Metadata) {
    NullOrStr(Get(md, URL)) && NullOrStr(Get(md, URL_SUFIX)) && HeadersOf(md).Success?
  }

  /** The method type is accepted, and the body cast passes where it is made. */
  predicate MethodAndBodyPass(md: Metadata) {
    GetMethodType(md).Success? && (HasBody(Get(md, METHOD_TYPE).s) ==> NullOrStr(Get(md, BODY)))
  }

  /** Every check of `accept` passes: the casts, the method type, the body, and
      exactly one of `url` and `url-sufix`, with a base URL for the suffix. */
  predicate Sendable(w: WorkerSettings, md: Metadata) {
    && CastsPass(md)
    && MethodAndBodyPass(md)
    && Get(md, URL).Str? != Get(md, URL_SUFIX).Str?
    && (Get(md, URL_SUFIX).Str? ==> w.baseUrl.Some?)
  }

  /** The request `accept` sends for one item, or the exception it throws first:
      the two URL casts, the headers, the method type, the body, the URL, then
      the merged headers and the request itself. */
  function RequestFor(w: WorkerSettings, md: Metadata): (r: Result<Request, Error>)
    ensures StringEntry(md, URL).Failure? ==> r == Failure(ClassCast(URL))
    ensures StringEntry(md, URL).Success? && StringEntry(md, URL_SUFIX).Failure? ==>
      r == Failure(ClassCast(URL_SUFIX))
    ensures StringEntry(md, URL).Success? && StringEntry(md, URL_SUFIX).Success? && HeadersOf(md).Failure? ==>
      r == Failure(HeadersOf(md).error)
    ensures CastsPass(md) && GetMethodType(md).Failure? ==> r == Failure(GetMethodType(md).error)
    ensures CastsPass(md) && GetMethodType(md).Success? && !MethodAndBodyPass(md) ==> r == Failure(ClassCast(BODY))
    ensures CastsPass(md) && MethodAndBodyPass(md) && Get(md, URL).Null? && Get(md, URL_SUFIX).Null? ==>
      r == Failure(NoUrl)
    ensures CastsPass(md) && MethodAndBodyPass(md) && Get(md, URL).Str? && Get(md, URL_SUFIX).Str? ==>
      r == Failure(BothUrls)
    ensures CastsPass(md) && MethodAndBodyPass(md) && Get(md, URL).Null? && Get(md, URL_SUFIX).Str? && w.baseUrl.None? ==>
      r == Failure(MissingBaseUrl)
    ensures r.Success? <==> Sendable(w, md)
    ensures r.Success? ==> r.value.methodType in METHOD_TYPES && Get(md, METHOD_TYPE) == Str(r.value.methodType)
    ensures r.Success? ==>
      HeadersOf(md).Success? && r.value.headers.Keys == w.headers.Keys + HeadersOf(md).value.Keys
    ensures r.Success? && r.value.body.Some? ==> HasBody(r.value.methodType)
  {
    var url :- StringEntry(md, URL);
    var urlSufix :- StringEntry(md, URL_SUFIX);
    var requestHeaders :- HeadersOf(md);
    var methodType :- GetMethodType(md);
    var body :- GetBodyIfNeeded(md, methodType);
    var calculatedUrl :- GetCalculatedUrl(w.baseUrl, url, urlSufix);
    RequestOf(methodType, calculatedUrl, MergeHeaders(w.headers, requestHeaders), body)
  }

  /** Which commit a completion runs: a throwable, or a status code among the
      error codes, fails; every other status code succeeds. */
  function Classify(errorCodes: seq<int>, completion: Completion): (o: Outcome)
    ensures o == Failed <==> completion.Threw? || completion.status in errorCodes
    ensures o == Succeeded <==> completion.Completed? && completion.status !in errorCodes
  {
    match completion
    case Threw => Failed
    case Completed(status) => if status in errorCodes then Failed else Succeeded
  }

  /** The two commit callbacks handed to `accept`, as counters of how often each ran. */
  class Commits {
    var successes: nat
    var failures: nat

    constructor ()
      ensures successes == 0 && failures == 0
    {
      successes, failures := 0, 0;
    }

    method CommitSuccess()
      modifies this
      ensures successes == old(successes) + 1 && failures == old(failures)
    {
      successes := successes + 1;
    }

    method CommitFailure()
      modifies this
      ensures failures == old(failures) + 1 && successes == old(successes)
    {
      failures := failures + 1;
    }
  }

  /** The completion handler's `onCompleted`: fails on an error code, succeeds otherwise. */
  method OnCompleted(errorCodes: seq<int>, status: int, commits: Commits)
    modifies commits
    ensures status in errorCodes ==>
      commits.failures == old(commits.failures) + 1 && commits.successes == old(commits.successes)
    ensures status !in errorCodes ==>
      commits.successes == old(commits.successes) + 1 && commits.failures == old(commits.failures)
  {
    if status in errorCodes {
      commits.CommitFailure();
    } else {
      commits.CommitSuccess();
    }
  }

  /** The completion handler's `onThrowable`: always fails. */
  method OnThrowable(commits: Commits)
    modifies commits
    ensures commits.failures == old(commits.failures) + 1 && commits.successes == old(commits.successes)
  {
    commits.CommitFailure();
  }

  /** `accept`: validates and assembles the request; if that throws, no commit
      runs; otherwise the request is sent and its completion runs exactly one of
      the two commits, the one `Classify` names. */
  method Accept(w: WorkerSettings, md: Metadata, completion: Completion, commits: Commits)
    returns (r: Result<Request, Error>)
    modifies commits
    ensures r == RequestFor(w, md)
    ensures r.Failure? ==>
      commits.successes == old(commits.successes) && commits.failures == old(commits.failures)
    ensures r.Success? ==>
      commits.successes + commits.failures == old(commits.successes) + old(commits.failures) + 1
    ensures r.Success? && Classify(w.errorCodes, completion) == Failed ==>
      commits.failures == old(commits.failures) + 1
    ensures r.Success? && Classify(w.errorCodes, completion) == Succeeded ==>
      commits.successes == old(commits.successes) + 1
  {
    var url :- StringEntry(md, URL);
    var urlSufix :- StringEntry(md, URL_SUFIX);
    var requestHeaders :- GetHeaders(md);
    var methodType :- GetMethodType(md);
    var body :- GetBodyIfNeeded(md, methodType);
    var calculatedUrl :- GetCalculatedUrl(w.baseUrl, url, urlSufix);
    var calculatedHeaders := GetCalculatedHeaders(w, requestHeaders);
    r := CreateRequest(methodType, calculatedUrl, calculatedHeaders, body);
    if r.Failure? {
      return;
    }
    match completion
    case Completed(status) => OnCompleted(w.errorCodes, status, commits);
    case Threw => OnThrowable(commits);
  }

  // ---------------------------------------------------------------------------
  // What an accepted item promises

  /** An item without a method type, or with one outside the five supported
      ones, is never sent. */
  lemma RejectsBadMethodType(w: WorkerSettings, md: Metadata)
    requires !Get(md, METHOD_TYPE).Str? || Get(md, METHOD_TYPE).s !in METHOD_TYPES
    ensures RequestFor(w, md).Failure?
  {
  }

  /** An item without either URL key, or with both, is never sent. */
  lemma RejectsUrlChoice(w: WorkerSettings, md: Metadata)
    requires Get(md, URL).Null? == Get(md, URL_SUFIX).Null?
    ensures RequestFor(w, md).Failure?
  {
  }

  /** Everything a sent request is made of, traced back to the item and the
      worker's settings. */
  lemma SentRequest(w: WorkerSettings, md: Metadata)
    requires RequestFor(w, md).Success?
    ensures var req := RequestFor(w, md).value;
      && Get(md, METHOD_TYPE) == Str(req.methodType)
      && req.methodType in {GET, POST, PUT, DELETE, HEAD}
      && (req.body.Some? ==> HasBody(req.methodType) && Get(md, BODY) == Str(req.body.value))
      && (HasBody(req.methodType) && Get(md, BODY).Str? ==> req.body == Some(Get(md, BODY).s))
      && (Get(md, URL).Str? ==> req.url == Get(md, URL).s)
      && (Get(md, URL_SUFIX).Str? ==> w.baseUrl.Some? && req.url == w.baseUrl.value + Get(md, URL_SUFIX).s)
      && req.headers == MergeHeaders(w.headers, HeadersOf(md).value)
  {
  }
}
