/** The HTTP client every lock call goes through (src/api/apiClient.ts): it
    composes the fetch request and classifies the response into a value or a
    thrown error. The network itself is an input: `Exchange` is what `fetch`
    and `response.json()` produced. */
module ApiClient {
  import opened Wrappers
  import Text

  /** A thrown JavaScript `Error`, identified by its message. */
  datatype Error = Error(message: string)

  datatype Method = Get | Post | Put | Delete

  /** The caller's `RequestInit`: method, extra headers and an optional body.
      `D` is the body after `JSON.stringify`, which is not modelled. */
  datatype RequestInit<D> = RequestInit(verb: Method, headers: map<string, string>, body: Option<D>)

  /** The arguments `request` passes to `fetch`. */
  datatype FetchCall<D> = FetchCall(url: string, verb: Method, credentials: string,
                                    headers: map<string, string>, body: Option<D>)

  /** The JSON envelope of every API response. */
  datatype Payload<T> = Payload(success: bool, message: string, data: T)

  /** What the network delivered: `fetch` rejected with an error, or a response
      with a status code and a decoded payload. */
  datatype Exchange<T> = Rejected(error: Error) | Responded(status: int, payload: Payload<T>)

  /** The shared client is constructed without a base URL. */
  const DefaultBaseUrl := ""

  const ContentType := "Content-Type"
  const JsonMediaType := "application/json"
  const IncludeCredentials := "include"

  /** The message of the error that marks HTTP 423 Locked. */
  const BusyMessage := "MACHINE_BUSY"
  const HttpErrorPrefix := "HTTP error! status: "
  const DefaultApiError := "API error"

  /** `response.ok`: a status in the 2xx range. */
  predicate IsOk(status: int) {
    200 <= status <= 299
  }

  /** `getAssetUrl`: absolute and relative paths alike are returned as they are. */
  function GetAssetUrl(relativePath: string): (url: string)
    ensures url == relativePath
  {
    if |relativePath| >= 4 && relativePath[..4] == "http" then relativePath else relativePath
  }

  /** `{ "Content-Type": "application/json", ...headers }`. */
  function ComposeHeaders(headers: map<string, string>): map<string, string> {
    map[ContentType := JsonMediaType] + headers
  }

  /** The `fetch` call `request(endpoint, init)` issues. */
  function Prepare<D>(baseUrl: string, endpoint: string, init: RequestInit<D>): FetchCall<D> {
    FetchCall(baseUrl + endpoint, init.verb, IncludeCredentials, ComposeHeaders(init.headers), init.body)
  }

  /** `post(endpoint, data)` / `put(endpoint, data)`: a body only when `data` is defined. */
  function WithData<D>(m: Method, endpoint: string, data: Option<D>): FetchCall<D> {
    Prepare(DefaultBaseUrl, endpoint, RequestInit(m, map[], data))
  }

  /** `get(endpoint)` / `delete(endpoint)`: never a body. */
  function WithoutData<D>(m: Method, endpoint: string): FetchCall<D> {
    Prepare(DefaultBaseUrl, endpoint, RequestInit(m, map[], None))
  }

  /** The error `request` throws for a non-OK status other than 423. */
  function HttpError(status: int): Error {
    Error(HttpErrorPrefix + Text.IntToString(status))
  }

  /** The guards of `request` after `fetch` resolved: 423 first, then any
      other non-OK status, then the payload's own success flag. */
  function Classify<T>(x: Exchange<T>): Result<T, Error> {
    match x
    case Rejected(e) => Err(e)
    case Responded(status, payload) =>
      if status == 423 then Err(Error(BusyMessage))
      else if !IsOk(status) then Err(HttpError(status))
      else if !payload.success then Err(Error(if payload.message != "" then payload.message else DefaultApiError))
      else Ok(payload.data)
  }

  // ---------------------------------------------------------------------------
  // Properties
  // ---------------------------------------------------------------------------

  /** Every request sends the session cookies and a JSON content type unless
      the caller supplies its own; caller headers are kept and win. */
  lemma RequestCredentialsAndHeaders<D>(baseUrl: string, endpoint: string, init: RequestInit<D>)
    ensures var c := Prepare(baseUrl, endpoint, init);
      && c.credentials == IncludeCredentials
      && c.url == baseUrl + endpoint
      && c.headers.Keys == init.headers.Keys + {ContentType}
      && (forall h :: h in init.headers ==> c.headers[h] == init.headers[h])
      && (ContentType !in init.headers ==> c.headers[ContentType] == JsonMediaType)
  {
  }

  /** `post`, `put`: a body is sent exactly when data is given; `get` and `delete` send none. */
  lemma BodyOnlyWithData<D>(endpoint: string, data: Option<D>)
    ensures WithData(Post, endpoint, data).body == data
    ensures WithData(Put, endpoint, data).body == data
    ensures WithoutData<D>(Get, endpoint).body.None?
    ensures WithoutData<D>(Delete, endpoint).body.None?
  {
  }

  /** Status 423 is reported as busy whatever the payload says. */
  lemma LockedStatusIsBusy<T>(payload: Payload<T>)
    ensures Classify(Responded(423, payload)) == Err(Error(BusyMessage))
  {
  }

  /** A value is returned exactly for an OK status with a successful payload,
      and it is that payload's data. */
  lemma ClassifySucceeds<T>(x: Exchange<T>)
    ensures Classify(x).Ok? <==> x.Responded? && IsOk(x.status) && x.payload.success
    ensures Classify(x).Ok? ==> Classify(x).value == x.payload.data
  {
  }

  /** Any other non-OK status is an error that carries the status code. */
  lemma {:induction false} OtherStatusCarriesCode<T>(status: int, payload: Payload<T>)
    requires status != 423 && !IsOk(status)
    ensures Classify(Responded(status, payload)) == Err(HttpError(status))
    ensures forall other :: HttpError(other) == HttpError(status) ==> other == status
  {
    forall other | HttpError(other) == HttpError(status) ensures other == status {
      var p := HttpErrorPrefix;
      assert (p + Text.IntToString(other))[|p|..] == Text.IntToString(other);
      assert (p + Text.IntToString(status))[|p|..] == Text.IntToString(status);
      Text.IntToStringInjective(other, status);
    }
  }

  /** An OK response whose payload reports failure throws the payload's
      message, or "API error" when the message is empty. */
  lemma PayloadFailureMessage<T>(status: int, payload: Payload<T>)
    requires IsOk(status) && !payload.success
    ensures Classify(Responded(status, payload))
         == Err(Error(if payload.message == "" then DefaultApiError else payload.message))
  {
  }

  /** The busy error arises exactly from status 423, from an OK response whose
      failed payload carries that very message, or from a rejected fetch with it:
      the HTTP-status error can never be mistaken for it. */
  lemma {:induction false} BusyErrorSources<T>(x: Exchange<T>)
    ensures Classify(x) == Err(Error(BusyMessage)) <==>
      || (x.Rejected? && x.error.message == BusyMessage)
      || (x.Responded? && x.status == 423)
      || (x.Responded? && IsOk(x.status) && !x.payload.success && x.payload.message == BusyMessage)
  {
    if x.Responded? && x.status != 423 && !IsOk(x.status) {
      var m := HttpError(x.status).message;
      assert m[0] == 'H';
      assert BusyMessage[0] == 'M';
    }
  }
}
