/** `formatCloudError`: the diagnostic text shown when a test transcription
    against a custom endpoint fails, and a reader that recovers from that
    text everything the text shows of the error. */
module CloudErrors {
  import opened Results
  import opened Text

  /** The `URLError` codes `formatCloudError` distinguishes; every other code is `OtherUrlCode`. */
  datatype UrlErrorCode = CannotFindHost | NotConnectedToInternet | TimedOut | SecureConnectionFailed | OtherUrlCode

  /** The error wrapped by `.networkError`, with its `localizedDescription`. */
  datatype NetworkCause =
    | UrlError(code: UrlErrorCode, description: string)
    | OtherError(description: string)
  {
    /** A cause `formatCloudError` answers with a fixed advice. */
    predicate Recognised() {
      UrlError? && code != OtherUrlCode
    }
  }

  /** The cases of `CloudTranscriptionError` that `formatCloudError` handles. */
  datatype CloudTranscriptionError =
    | ApiRequestFailed(statusCode: int, message: string)
    | NetworkError(cause: NetworkCause)
    | AudioFileNotFound
    | NoTranscriptionReturned
    | RateLimitExceeded
    | InvalidApiKey
    | RequestTooLarge
    | ModelNotAvailable
    | UnsupportedProvider
    | MissingApiKey
    | DataEncodingError
  {
    /** A case whose text is fixed: it carries nothing the text could show. */
    predicate IsConstant() {
      !ApiRequestFailed? && !NetworkError?
    }
  }

  /** Most texts state a problem and then what to do about it; the two
      sentences are joined by one space. */
  function Advice(problem: string, remedy: string): string {
    problem + " " + remedy
  }

  const HttpPrefix := "HTTP "
  const NetworkErrorPrefix := "Network error: "
  const HintSeparator := " - "
  const ResponsePrefix := "\nServer response: "

  const AuthHint := HintSeparator + Advice("Authentication failed.", "Check your API key.")
  const ForbiddenHint := HintSeparator + Advice("Access forbidden.", "Verify API key permissions.")
  const NotFoundHint := HintSeparator + Advice("Endpoint not found.", "Check the API endpoint URL.")
  const InvalidRequestHint := HintSeparator + Advice("Invalid request.", "Check model name and parameters.")
  const ServerHint := HintSeparator + Advice("Server error.", "The API service may be down.")

  const CannotFindHostText := Advice("Cannot find host.", "Check the API endpoint URL.")
  const NotConnectedText := "No internet connection."
  const TimedOutText := Advice("Request timed out.", "The server may be slow or unreachable.")
  const SecureConnectionText := Advice("SSL/TLS connection failed.", "Check if HTTPS is required.")

  const AudioFileNotFoundText := "Audio file not found (internal error)"
  const NoTranscriptionText := Advice("No transcription in response.", "The endpoint may not be OpenAI-compatible.")
  const RateLimitText := Advice("Rate limit exceeded.", "Try again later.")
  const InvalidApiKeyText := Advice("Invalid API key.", "Check your credentials.")
  const RequestTooLargeText := "Request too large."
  const ModelNotAvailableText := Advice("Model not available.", "Check the model name.")
  const UnsupportedProviderText := "Unsupported provider."
  const MissingApiKeyText := "Missing API key."
  const DataEncodingText := "Data encoding error."

  // The characters that tell the texts apart. The verifier unfolds a string
  // literal one character at a time from its end, so each text's facts are
  // proved in a lemma of their own and used from there.

  lemma AuthHintOpening()
    ensures AuthHint[3] == 'A' && AuthHint[4] == 'u'
  {
  }

  lemma ForbiddenHintOpening()
    ensures ForbiddenHint[3] == 'A' && ForbiddenHint[4] == 'c'
  {
  }

  lemma NotFoundHintOpening()
    ensures NotFoundHint[3] == 'E'
  {
  }

  lemma InvalidRequestHintOpening()
    ensures InvalidRequestHint[3] == 'I'
  {
  }

  lemma ServerHintOpening()
    ensures ServerHint[3] == 'S'
  {
  }

  lemma CannotFindHostTextOpening()
    ensures CannotFindHostText[0] == 'C'
  {
  }

  lemma NotConnectedTextOpening()
    ensures NotConnectedText[0] == 'N' && NotConnectedText[1] == 'o' && NotConnectedText[3] == 'i'
  {
  }

  lemma TimedOutTextOpening()
    ensures TimedOutText[0] == 'R' && TimedOutText[1] == 'e' && TimedOutText[9] == 'i'
  {
  }

  lemma SecureConnectionTextOpening()
    ensures SecureConnectionText[0] == 'S'
  {
  }

  lemma AudioFileNotFoundTextOpening()
    ensures AudioFileNotFoundText[0] == 'A'
  {
  }

  lemma NoTranscriptionTextOpening()
    ensures NoTranscriptionText[0] == 'N' && NoTranscriptionText[1] == 'o' && NoTranscriptionText[3] == 't'
  {
  }

  lemma RateLimitTextOpening()
    ensures RateLimitText[0] == 'R' && RateLimitText[1] == 'a'
  {
  }

  lemma InvalidApiKeyTextOpening()
    ensures InvalidApiKeyText[0] == 'I'
  {
  }

  lemma RequestTooLargeTextOpening()
    ensures RequestTooLargeText[0] == 'R' && RequestTooLargeText[1] == 'e' && RequestTooLargeText[9] == 'o'
  {
  }

  lemma ModelNotAvailableTextOpening()
    ensures ModelNotAvailableText[0] == 'M' && ModelNotAvailableText[1] == 'o'
  {
  }

  lemma UnsupportedProviderTextOpening()
    ensures UnsupportedProviderText[0] == 'U'
  {
  }

  lemma MissingApiKeyTextOpening()
    ensures MissingApiKeyText[0] == 'M' && MissingApiKeyText[1] == 'i'
  {
  }

  lemma DataEncodingTextOpening()
    ensures DataEncodingText[0] == 'D'
  {
  }


  /** A fixed text: it reads neither as an HTTP diagnostic nor as a
      network error reporting a description. */
  predicate Plain(t: string) {
    |t| > 0 && t[0] != 'H' && !StartsWith(t, NetworkErrorPrefix)
  }

  /** The hint that follows the status code: one per recognised status,
      one for every code from 500 up, and none otherwise. */
  function StatusHint(statusCode: int): (h: string)
    ensures statusCode == 401 ==> h == AuthHint
    ensures statusCode == 403 ==> h == ForbiddenHint
    ensures statusCode == 404 ==> h == NotFoundHint
    ensures statusCode == 422 ==> h == InvalidRequestHint
    ensures statusCode >= 500 ==> h == ServerHint
    ensures h == "" <==> statusCode !in {401, 403, 404, 422} && statusCode < 500
    ensures h != "" ==> h[0] == ' '
  {
    if statusCode == 401 then AuthHint
    else if statusCode == 403 then ForbiddenHint
    else if statusCode == 404 then NotFoundHint
    else if statusCode == 422 then InvalidRequestHint
    else if statusCode >= 500 then ServerHint
    else ""
  }

  /** The five hints differ from each other, so the hint tells which
      kind of status the endpoint answered with. */
  lemma HintsDistinct()
    ensures AuthHint != ForbiddenHint && AuthHint != NotFoundHint
    ensures AuthHint != InvalidRequestHint && AuthHint != ServerHint
    ensures ForbiddenHint != NotFoundHint && ForbiddenHint != InvalidRequestHint
    ensures ForbiddenHint != ServerHint && NotFoundHint != InvalidRequestHint
    ensures NotFoundHint != ServerHint && InvalidRequestHint != ServerHint
  {
    AuthHintOpening();
    ForbiddenHintOpening();
    NotFoundHintOpening();
    InvalidRequestHintOpening();
    ServerHintOpening();
  }

  /** The server's response body, on a line of its own, when there is one. */
  function ResponseSuffix(message: string): (s: string)
    ensures s == "" <==> message == ""
    ensures s != "" ==> s[0] == '\n'
  {
    if message == "" then "" else ResponsePrefix + message
  }

  /** The text for `.apiRequestFailed`: the status line with its hint, then
      the server's response when there is one. */
  function HttpDiagnostic(statusCode: int, message: string): (r: string)
    ensures StartsWith(r, HttpPrefix)
  {
    HttpPrefix + (Decimal(statusCode) + (StatusHint(statusCode) + ResponseSuffix(message)))
  }

  /** The fixed advice for a recognised `URLError` code. */
  function UrlAdvice(code: UrlErrorCode): (t: string)
    requires code != OtherUrlCode
    ensures Plain(t)
  {
    match code
    case CannotFindHost =>
      CannotFindHostTextOpening();
      CannotFindHostText
    case NotConnectedToInternet =>
      NotConnectedTextOpening();
      NotConnectedText
    case TimedOut =>
      TimedOutTextOpening();
      TimedOutText
    case SecureConnectionFailed =>
      SecureConnectionTextOpening();
      SecureConnectionText
  }

  /** The text for `.networkError`: a fixed advice for the four recognised
      `URLError` codes, otherwise the wrapped error's own description. */
  function NetworkMessage(cause: NetworkCause): (r: string)
    ensures |r| > 0 && r[0] != 'H'
    ensures StartsWith(r, NetworkErrorPrefix) <==> !cause.Recognised()
    ensures !cause.Recognised() ==> r[|NetworkErrorPrefix|..] == cause.description
  {
    match cause
    case UrlError(code, description) =>
      if code != OtherUrlCode then UrlAdvice(code) else NetworkErrorPrefix + description
    case OtherError(description) => NetworkErrorPrefix + description
  }

  /** The text of a case that carries nothing. */
  function ConstantText(e: CloudTranscriptionError): (t: string)
    requires e.IsConstant()
    ensures Plain(t)
  {
    match e
    case AudioFileNotFound =>
      AudioFileNotFoundTextOpening();
      AudioFileNotFoundText
    case NoTranscriptionReturned =>
      NoTranscriptionTextOpening();
      NoTranscriptionText
    case RateLimitExceeded =>
      RateLimitTextOpening();
      RateLimitText
    case InvalidApiKey =>
      InvalidApiKeyTextOpening();
      InvalidApiKeyText
    case RequestTooLarge =>
      RequestTooLargeTextOpening();
      RequestTooLargeText
    case ModelNotAvailable =>
      ModelNotAvailableTextOpening();
      ModelNotAvailableText
    case UnsupportedProvider =>
      UnsupportedProviderTextOpening();
      UnsupportedProviderText
    case MissingApiKey =>
      MissingApiKeyTextOpening();
      MissingApiKeyText
    case DataEncodingError =>
      DataEncodingTextOpening();
      DataEncodingText
  }

  function FormatCloudError(e: CloudTranscriptionError): (r: string)
    ensures |r| > 0
    ensures e.ApiRequestFailed? <==> StartsWith(r, HttpPrefix)
    ensures StartsWith(r, NetworkErrorPrefix) <==> e.NetworkError? && !e.cause.Recognised()
  {
    match e
    case ApiRequestFailed(statusCode, message) =>
      var r := HttpDiagnostic(statusCode, message);
      assert r[0] == 'H';
      r
    case NetworkError(cause) => NetworkMessage(cause)
    case _ => ConstantText(e)
  }

  /** What the text of `e` shows of it: the description of a recognised
      `URLError` is dropped, and an unrecognised `URLError` reads like any
      other wrapped error. */
  function Shown(e: CloudTranscriptionError): CloudTranscriptionError {
    match e
    case NetworkError(UrlError(code, description)) =>
      if code == OtherUrlCode then NetworkError(OtherError(description))
      else NetworkError(UrlError(code, ""))
    case _ => e
  }

  /** Reads what follows the hint: nothing, or the response line. */
  function ParseResponse(tail: string): (m: Option<string>)
    ensures m == Some("") <==> tail == []
  {
    if tail == [] then Some("")
    else if |tail| > |ResponsePrefix| && tail[..|ResponsePrefix|] == ResponsePrefix then
      Some(tail[|ResponsePrefix|..])
    else None
  }

  /** Reads what follows the status code: the hint that code must carry,
      then the response. */
  function ParseAfterCode(statusCode: int, after: string): Option<string> {
    var hint := StatusHint(statusCode);
    if |after| < |hint| || after[..|hint|] != hint then None
    else ParseResponse(after[|hint|..])
  }

  /** Reads an HTTP diagnostic back: the status code after "HTTP ", the hint
      that code must carry, then either nothing or the server response. */
  function ParseHttpDiagnostic(r: string): (p: Option<(int, string)>)
    ensures p.Some? ==> StartsWith(r, HttpPrefix)
  {
    if !StartsWith(r, HttpPrefix) then None
    else
      var token := NumberToken(r[5..]);
      match ParseDecimal(token)
      case None => None
      case Some(statusCode) =>
        match ParseAfterCode(statusCode, r[5..][|token|..])
        case None => None
        case Some(message) => Some((statusCode, message))
  }

  /** Recognises the advice given for a recognised `URLError` code. */
  function ParseUrlAdvice(r: string): Option<UrlErrorCode> {
    if r == CannotFindHostText then Some(CannotFindHost)
    else if r == NotConnectedText then Some(NotConnectedToInternet)
    else if r == TimedOutText then Some(TimedOut)
    else if r == SecureConnectionText then Some(SecureConnectionFailed)
    else None
  }

  /** Recognises the fixed text of a case without associated values. */
  function ParseConstantText(r: string): Option<CloudTranscriptionError> {
    if r == AudioFileNotFoundText then Some(AudioFileNotFound)
    else if r == NoTranscriptionText then Some(NoTranscriptionReturned)
    else if r == RateLimitText then Some(RateLimitExceeded)
    else if r == InvalidApiKeyText then Some(InvalidApiKey)
    else if r == RequestTooLargeText then Some(RequestTooLarge)
    else if r == ModelNotAvailableText then Some(ModelNotAvailable)
    else if r == UnsupportedProviderText then Some(UnsupportedProvider)
    else if r == MissingApiKeyText then Some(MissingApiKey)
    else if r == DataEncodingText then Some(DataEncodingError)
    else None
  }

  /** Recognises one of the fixed texts. */
  function ParseFixedText(r: string): Option<CloudTranscriptionError> {
    match ParseUrlAdvice(r)
    case Some(code) => Some(NetworkError(UrlError(code, "")))
    case None => ParseConstantText(r)
  }

  /** Reads a diagnostic text back into the error it shows. */
  function ParseCloudError(r: string): (e: Option<CloudTranscriptionError>)
    ensures e.Some? && e.value.ApiRequestFailed? <==> ParseHttpDiagnostic(r).Some?
  {
    if StartsWith(r, HttpPrefix) then
      match ParseHttpDiagnostic(r)
      case None => None
      case Some((statusCode, message)) => Some(ApiRequestFailed(statusCode, message))
    else if StartsWith(r, NetworkErrorPrefix) then
      Some(NetworkError(OtherError(r[|NetworkErrorPrefix|..])))
    else ParseFixedText(r)
  }

  lemma ResponseRoundTrip(message: string)
    ensures ParseResponse(ResponseSuffix(message)) == Some(message)
  {
    if message != "" {
      var suffix := ResponseSuffix(message);
      assert suffix[..|ResponsePrefix|] == ResponsePrefix;
      assert suffix[|ResponsePrefix|..] == message;
    }
  }

  lemma AfterCodeRoundTrip(statusCode: int, message: string)
    ensures ParseAfterCode(statusCode, StatusHint(statusCode) + ResponseSuffix(message)) == Some(message)
  {
    var hint := StatusHint(statusCode);
    var after := hint + ResponseSuffix(message);
    assert after[..|hint|] == hint;
    assert after[|hint|..] == ResponseSuffix(message);
    ResponseRoundTrip(message);
  }

  /** The HTTP diagnostic loses nothing: status code and server response
      are recovered from the text. */
  lemma HttpDiagnosticRoundTrip(statusCode: int, message: string)
    ensures ParseHttpDiagnostic(FormatCloudError(ApiRequestFailed(statusCode, message)))
            == Some((statusCode, message))
  {
    var digits := Decimal(statusCode);
    var tail := StatusHint(statusCode) + ResponseSuffix(message);
    var r := HttpDiagnostic(statusCode, message);
    assert r == HttpPrefix + (digits + tail);
    assert r[..5] == HttpPrefix;
    assert r[5..] == digits + tail;
    assert tail == [] || tail[0] == ' ' || tail[0] == '\n';
    NumberTokenOfDecimal(statusCode, tail);
    DecimalRoundTrip(statusCode);
    assert r[5..][|digits|..] == tail;
    AfterCodeRoundTrip(statusCode, message);
  }

  /** Only the HTTP case reads back as an HTTP diagnostic. */
  lemma ParseRecognisesOnlyHttp(e: CloudTranscriptionError)
    ensures ParseHttpDiagnostic(FormatCloudError(e)).Some? <==> e.ApiRequestFailed?
  {
    if e.ApiRequestFailed? {
      HttpDiagnosticRoundTrip(e.statusCode, e.message);
    }
  }

  /** Different status codes or server responses give different diagnostics. */
  lemma HttpDiagnosticInjective(c1: int, m1: string, c2: int, m2: string)
    requires (c1, m1) != (c2, m2)
    ensures FormatCloudError(ApiRequestFailed(c1, m1)) != FormatCloudError(ApiRequestFailed(c2, m2))
  {
    HttpDiagnosticRoundTrip(c1, m1);
    HttpDiagnosticRoundTrip(c2, m2);
  }

  /** Every text reads back as what it shows of its error: the status code
      and response of an HTTP failure, the description of an unrecognised
      network failure, and which of the fixed cases it is otherwise. */
  lemma CloudErrorRoundTrip(e: CloudTranscriptionError)
    ensures ParseCloudError(FormatCloudError(e)) == Some(Shown(e))
  {
    var r := FormatCloudError(e);
    match e
    case ApiRequestFailed(statusCode, message) =>
      HttpDiagnosticRoundTrip(statusCode, message);
    case NetworkError(cause) =>
      if cause.Recognised() {
        UrlAdviceRecognised(cause.code);
      }
    case _ =>
      ConstantTextRecognised(e);
  }

  /** Each advice for a recognised `URLError` code reads back as that code. */
  lemma UrlAdviceRecognised(code: UrlErrorCode)
    requires code != OtherUrlCode
    ensures ParseUrlAdvice(UrlAdvice(code)) == Some(code)
    ensures ParseFixedText(UrlAdvice(code)) == Some(NetworkError(UrlError(code, "")))
  {
    CannotFindHostTextOpening();
    NotConnectedTextOpening();
    TimedOutTextOpening();
    SecureConnectionTextOpening();
  }

  /** No fixed text of the other cases is taken for a `URLError` advice. */
  lemma ConstantTextIsNoAdvice(e: CloudTranscriptionError)
    requires e.IsConstant()
    ensures ParseUrlAdvice(ConstantText(e)) == None
  {
    CannotFindHostTextOpening();
    NotConnectedTextOpening();
    TimedOutTextOpening();
    SecureConnectionTextOpening();
    match e
    case AudioFileNotFound => AudioFileNotFoundTextOpening();
    case NoTranscriptionReturned => NoTranscriptionTextOpening();
    case RateLimitExceeded => RateLimitTextOpening();
    case InvalidApiKey => InvalidApiKeyTextOpening();
    case RequestTooLarge => RequestTooLargeTextOpening();
    case ModelNotAvailable => ModelNotAvailableTextOpening();
    case UnsupportedProvider => UnsupportedProviderTextOpening();
    case MissingApiKey => MissingApiKeyTextOpening();
    case DataEncodingError => DataEncodingTextOpening();
  }

  /** Each fixed text of the other cases reads back as its case. */
  lemma ConstantTextRecognised(e: CloudTranscriptionError)
    requires e.IsConstant()
    ensures ParseFixedText(ConstantText(e)) == Some(e)
  {
    ConstantTextIsNoAdvice(e);
    AudioFileNotFoundTextOpening();
    NoTranscriptionTextOpening();
    RateLimitTextOpening();
    InvalidApiKeyTextOpening();
    RequestTooLargeTextOpening();
    ModelNotAvailableTextOpening();
    UnsupportedProviderTextOpening();
    MissingApiKeyTextOpening();
    DataEncodingTextOpening();
    match e
    case AudioFileNotFound =>
    case NoTranscriptionReturned =>
    case RateLimitExceeded =>
    case InvalidApiKey =>
    case RequestTooLarge =>
    case ModelNotAvailable =>
    case UnsupportedProvider =>
    case MissingApiKey =>
    case DataEncodingError =>
  }

  /** Two errors give the same text exactly when the text shows the same
      of both. */
  lemma FormatCloudErrorDistinguishes(e1: CloudTranscriptionError, e2: CloudTranscriptionError)
    ensures FormatCloudError(e1) == FormatCloudError(e2) <==> Shown(e1) == Shown(e2)
  {
    CloudErrorRoundTrip(e1);
    CloudErrorRoundTrip(e2);
    if Shown(e1) == Shown(e2) {
      ShownKeepsText(e1);
      ShownKeepsText(e2);
    }
  }

  /** Dropping what the text does not show does not change the text. */
  lemma ShownKeepsText(e: CloudTranscriptionError)
    ensures FormatCloudError(Shown(e)) == FormatCloudError(e)
  {
  }
}
