/** Caption request with one primary attempt and one fallback attempt (services/geminiService.ts). */
module GeminiService {
  import opened Types

  const PRIMARY_MODEL := "gemini-2.5-flash"
  const FALLBACK_MODEL := "gemini-2.5-flash-lite-latest"
  const PROMPT := "Analyze this image and provide a concise, descriptive caption. Focus on the main subject and action."

  datatype CaptionError = MissingApiKey | ServiceUnavailable | NoCaption

  function ErrorMessage(e: CaptionError): string
  {
    match e
    case MissingApiKey => "API Key is missing. Please check your environment configuration."
    case ServiceUnavailable => "AI service is temporarily unavailable. Please try again later."
    case NoCaption => "Unable to generate caption from available models."
  }

  /** One call to the remote model: which model, and the inline image and prompt it is sent. */
  datatype Request = Request(model: string, mimeType: string, data: string, prompt: string)

  /** How a remote call ends: with some text (possibly empty), or by throwing. */
  datatype Reply = Text(text: string) | Threw

  /** The outcome of one caption request, with every remote call it made, in order. */
  datatype Attempt = Attempt(result: Result<CaptionResult, CaptionError>, calls: seq<Request>)

  // The data-URI header ^data:image\/\w+;base64, that is stripped before sending.

  const DATA_IMAGE := "data:image/"
  const BASE64_MARK := ";base64,"

  /** The characters \w matches. */
  predicate IsWordChar(c: char)
  {
    'a' <= c <= 'z' || 'A' <= c <= 'Z' || '0' <= c <= '9' || c == '_'
  }

  predicate IsWord(w: string)
  {
    |w| > 0 && forall i :: 0 <= i < |w| ==> IsWordChar(w[i])
  }

  function Header(w: string): string
  {
    DATA_IMAGE + w + BASE64_MARK
  }

  /** Length of the longest run of word characters at the start of s. */
  function WordRun(s: string): (n: nat)
    ensures n <= |s|
    ensures forall i :: 0 <= i < n ==> IsWordChar(s[i])
    ensures n < |s| ==> !IsWordChar(s[n])
  {
    if s == [] || !IsWordChar(s[0]) then 0 else 1 + WordRun(s[1..])
  }

  /** Length of the header at the start of s, or 0 when s does not start with one. */
  function HeaderLength(s: string): (n: nat)
    ensures n <= |s|
    ensures n > 0 ==> n > |DATA_IMAGE| + |BASE64_MARK|
    ensures n > 0 ==> IsWord(s[|DATA_IMAGE|..n - |BASE64_MARK|])
    ensures n > 0 ==> s[..n] == Header(s[|DATA_IMAGE|..n - |BASE64_MARK|])
  {
    if |s| < |DATA_IMAGE| || s[..|DATA_IMAGE|] != DATA_IMAGE then 0
    else
      var rest := s[|DATA_IMAGE|..];
      var w := WordRun(rest);
      var end := |DATA_IMAGE| + w;
      if w > 0 && end + |BASE64_MARK| <= |s| && s[end..end + |BASE64_MARK|] == BASE64_MARK then
        assert s[|DATA_IMAGE|..end] == rest[..w];
        assert s[..end + |BASE64_MARK|] == s[..|DATA_IMAGE|] + s[|DATA_IMAGE|..end] + s[end..end + |BASE64_MARK|];
        end + |BASE64_MARK|
      else 0
  }

  /** The payload sent: the input with a leading data-URI header removed. */
  function StripDataImagePrefix(s: string): (r: string)
    ensures |r| <= |s| && r == s[|s| - |r|..]
    ensures r != s ==> |s| - |r| > |DATA_IMAGE| + |BASE64_MARK|
    ensures r != s ==> IsWord(s[|DATA_IMAGE|..|s| - |r| - |BASE64_MARK|])
    ensures r != s ==> s == Header(s[|DATA_IMAGE|..|s| - |r| - |BASE64_MARK|]) + r
  {
    var n := HeaderLength(s);
    assert s == s[..n] + s[n..];
    s[n..]
  }

  /** Whatever follows a header is exactly what is sent. */
  lemma StripsHeader(w: string, data: string)
    requires IsWord(w)
    ensures StripDataImagePrefix(Header(w) + data) == data
  {
    var s := Header(w) + data;
    var rest := s[|DATA_IMAGE|..];
    assert s[..|DATA_IMAGE|] == DATA_IMAGE;
    assert rest == w + BASE64_MARK + data;
    assert forall i :: 0 <= i < |w| ==> rest[i] == w[i];
    assert rest[|w|] == ';';
    var end := |DATA_IMAGE| + |w|;
    assert WordRun(rest) == |w|;
    assert s[end..end + |BASE64_MARK|] == BASE64_MARK;
    assert HeaderLength(s) == end + |BASE64_MARK|;
  }

  function PrimaryRequest(image: string, mimeType: string): Request
  {
    Request(PRIMARY_MODEL, mimeType, StripDataImagePrefix(image), PROMPT)
  }

  /** A reply the service accepts: text that is not empty. */
  predicate Usable(reply: Reply)
  {
    reply.Text? && reply.text != ""
  }

  /** The request's outcome when the remote model answers each request as remote does. */
  function Orchestrate(apiKey: string, image: string, mimeType: string, remote: Request -> Reply): (a: Attempt)
    ensures apiKey == "" ==> a == Attempt(Failure(MissingApiKey), [])
    ensures a.result == Failure(MissingApiKey) <==> apiKey == ""
    ensures apiKey != "" && Usable(remote(PrimaryRequest(image, mimeType))) ==>
      a.result == Success(CaptionResult(remote(PrimaryRequest(image, mimeType)).text, PRIMARY_MODEL))
    ensures |a.calls| == 2 && Usable(remote(a.calls[1])) ==>
      a.result == Success(CaptionResult(remote(a.calls[1]).text, FALLBACK_MODEL))
    ensures apiKey != "" ==> 1 <= |a.calls| <= 2 && a.calls[0] == PrimaryRequest(image, mimeType)
    ensures apiKey != "" ==> (|a.calls| == 2 <==> !Usable(remote(PrimaryRequest(image, mimeType))))
    ensures |a.calls| == 2 ==> a.calls[1] == a.calls[0].(model := FALLBACK_MODEL)
    ensures a.result.Success? ==>
      a.calls != [] && a.result.value.text != "" &&
      a.result.value.model == a.calls[|a.calls| - 1].model &&
      remote(a.calls[|a.calls| - 1]) == Text(a.result.value.text)
    ensures a.result == Failure(ServiceUnavailable) <==> |a.calls| == 2 && remote(a.calls[1]) == Threw
    ensures a.result == Failure(NoCaption) <==> |a.calls| == 2 && remote(a.calls[1]) == Text("")
  {
    if apiKey == "" then Attempt(Failure(MissingApiKey), [])
    else
      var primary := PrimaryRequest(image, mimeType);
      var first := remote(primary);
      if Usable(first) then Attempt(Success(CaptionResult(first.text, PRIMARY_MODEL)), [primary])
      else
        var fallback := primary.(model := FALLBACK_MODEL);
        var second := remote(fallback);
        var result :=
          if second.Threw? then Failure(ServiceUnavailable)
          else if second.text != "" then Success(CaptionResult(second.text, FALLBACK_MODEL))
          else Failure(NoCaption);
        Attempt(result, [primary, fallback])
  }

  /** generateCaption, with the remote model passed in and the calls it receives recorded. */
  method GenerateCaption(apiKey: string, base64Image: string, mimeType: string, remote: Request -> Reply)
    returns (r: Result<CaptionResult, CaptionError>, calls: seq<Request>)
    ensures Attempt(r, calls) == Orchestrate(apiKey, base64Image, mimeType, remote)
  {
    calls := [];
    if apiKey == "" {
      return Failure(MissingApiKey), calls;
    }
    var cleanBase64 := StripDataImagePrefix(base64Image);

    // attempt 1: the primary model
    var request := Request(PRIMARY_MODEL, mimeType, cleanBase64, PROMPT);
    calls := calls + [request];
    var response := remote(request);
    if response.Text? && response.text != "" {
      return Success(CaptionResult(response.text, PRIMARY_MODEL)), calls;
    }

    // attempt 2: the fallback model, same payload and prompt
    request := Request(FALLBACK_MODEL, mimeType, cleanBase64, PROMPT);
    calls := calls + [request];
    response := remote(request);
    if response.Threw? {
      return Failure(ServiceUnavailable), calls;
    }
    if response.text != "" {
      return Success(CaptionResult(response.text, FALLBACK_MODEL)), calls;
    }
    return Failure(NoCaption), calls;
  }
}
