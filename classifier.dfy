/**
 * The style classifier (`checkGhibliStyle` in background.js) as functions of what it reads:
 * the stored settings, the outcome of fetching the image, and the classification service's reply.
 * The network calls themselves are not modelled; their outcomes are parameters.
 */
module Classifier {
  import opened Wrappers
  import opened Text
  import opened Base64
  import opened Settings

  const ModelMethod := "gemini-2.0-flash:generateContent?key="
  const Instruction := "Is this image in Studio Ghibli art style? Answer only with 'true' or 'false'."
  const DefaultMimeType := "image/jpeg"
  const PositiveConfidence: real := 0.8
  const NegativeConfidence: real := 0.2

  const KeyMissing := "API key not set"
  const FetchFailedMessage := "Failed to fetch image"
  const InvalidBase64Message := "Invalid base64 encoding"

  /** What fetching and reading the image gave: its blob type and the data URL of its bytes. */
  datatype ImageFetch =
    | FetchFailed                               // fetch, blob() or the FileReader failed
    | Fetched(blobType: string, dataUrl: string)

  /** One part of a request content: text, or an image given inline. */
  datatype Part = TextPart(text: string) | InlineData(mimeType: string, data: string)

  datatype Content = Content(parts: seq<Part>)

  /** The POST the classifier sends: the URL and the `contents` of its JSON body. */
  datatype Request = Request(endpoint: string, contents: seq<Content>)

  /** The JSON body of a successful reply: unparsable (with the exception's message) or parsed. */
  datatype JsonBody =
    | Unparsable(message: string)
    | Parsed(firstText: Option<string>)        // candidates[0].content.parts[0].text, if present

  /** What the classification service gave back. */
  datatype ApiReply =
    | Unreachable(message: string)             // fetch rejected; the message of its error
    | Responded(status: nat, bodyText: string, json: JsonBody)

  /** The classifier's result: a judgement, or the error that ended the attempt. */
  datatype Verdict =
    | Judged(isGhibli: bool, confidence: real, rawResponse: Option<string>)
    | Failed(error: string)
  {
    /** The flag the caller acts upon: `result.isGhibli`. */
    predicate IsGhibli()
    {
      Judged? && isGhibli
    }
  }

  /** The cleaned image payload and its MIME type. */
  datatype ImagePayload = ImagePayload(mimeType: string, data: string)

  /** `blob.type || 'image/jpeg'`. */
  function MimeTypeOf(blobType: string): (m: string)
    ensures m != ""
    ensures blobType != "" ==> m == blobType
    ensures blobType == "" ==> m == DefaultMimeType
  {
    if blobType == "" then DefaultMimeType else blobType
  }

  /** The inner `try` of the classifier: read the payload, clean it, check its alphabet. */
  function PrepareImage(f: ImageFetch): (r: Result<ImagePayload>)
    ensures r.Success? ==> Accepted(r.value.data) && NoWhitespace(r.value.data) && r.value.mimeType != ""
    ensures r.Success? <==>
              f.Fetched? && PayloadOf(f.dataUrl).Some? && Accepted(Sanitize(PayloadOf(f.dataUrl).value))
    ensures r.Failure? ==> r.error == FetchFailedMessage || r.error == InvalidBase64Message
    ensures r.Failure? && r.error == InvalidBase64Message <==>
              f.Fetched? && PayloadOf(f.dataUrl).Some? && !Accepted(Sanitize(PayloadOf(f.dataUrl).value))
  {
    match f
    case FetchFailed => Failure(FetchFailedMessage)
    case Fetched(blobType, dataUrl) =>
      match PayloadOf(dataUrl)
      // `undefined.trim()` throws, and the inner catch reports it as a failed fetch
      case None => Failure(FetchFailedMessage)
      case Some(raw) =>
        var data := Sanitize(raw);
        if Accepted(data) then Success(ImagePayload(MimeTypeOf(blobType), data))
        else Failure(InvalidBase64Message)
  }

  /** The endpoint URL: base URL, model method, then the key as query parameter. */
  function Endpoint(base: string, key: string): (e: string)
    ensures IsPrefix(base, e)
    ensures |e| == |base| + |ModelMethod| + |key|
    ensures e[|base|..|base| + |ModelMethod|] == ModelMethod
    ensures e[|e| - |key|..] == key
  {
    base + ModelMethod + key
  }

  /** The request body: one content whose parts are the instruction and then the inline image. */
  function Body(p: ImagePayload): seq<Content>
  {
    [Content([TextPart(Instruction), InlineData(p.mimeType, p.data)])]
  }

  predicate HasApiKey(s: Settings)
  {
    Truthy(s.apiKey)
  }

  /**
   * Everything before the POST: the key check, then the image, then the request. A failure here
   * ends the classifier without contacting the classification service.
   */
  function BuildRequest(s: Settings, f: ImageFetch): (r: Result<Request>)
    ensures !HasApiKey(s) ==> r == Failure(KeyMissing)
    ensures HasApiKey(s) ==>
              (r.Success? <==> PrepareImage(f).Success?) && (r.Failure? ==> r.error == PrepareImage(f).error)
    ensures r.Failure? ==> r.error in {KeyMissing, FetchFailedMessage, InvalidBase64Message}
    ensures r.Success? ==>
              && HasApiKey(s) && PrepareImage(f).Success?
              && r.value.endpoint == Endpoint(OrDefault(s.apiBaseUrl, DefaultApiBaseUrl), s.apiKey.value)
              && |r.value.contents| == 1
              && |r.value.contents[0].parts| == 2
              && r.value.contents[0].parts[0] == TextPart(Instruction)
              && r.value.contents[0].parts[1].InlineData?
              && r.value.contents[0].parts[1].mimeType == MimeTypeOf(f.blobType)
              && r.value.contents[0].parts[1].data == Sanitize(PayloadOf(f.dataUrl).value)
              && Accepted(r.value.contents[0].parts[1].data)
  {
    if !HasApiKey(s) then Failure(KeyMissing)
    else
      match PrepareImage(f)
      case Failure(e) => Failure(e)
      case Success(p) =>
        Success(Request(Endpoint(OrDefault(s.apiBaseUrl, DefaultApiBaseUrl), s.apiKey.value), Body(p)))
  }

  /** `response.ok`. */
  predicate IsOkStatus(status: nat)
  {
    200 <= status <= 299
  }

  /** The reply says yes: its text exists and, lower-cased, contains `true`. */
  predicate IsPositive(text: Option<string>)
  {
    text.Some? && Contains(ToLower(text.value), "true")
  }

  /** The fixed two-point confidence heuristic. */
  function ConfidenceOf(positive: bool): (c: real)
    ensures positive ==> c == PositiveConfidence
    ensures !positive ==> c == NegativeConfidence
    ensures 0.0 < c < 1.0
  {
    if positive then PositiveConfidence else NegativeConfidence
  }

  /** What the classifier makes of the service's reply, given the effective threshold. */
  function Interpret(threshold: real, reply: ApiReply): (v: Verdict)
    ensures v.Judged? ==> v.confidence == PositiveConfidence || v.confidence == NegativeConfidence
    ensures v.IsGhibli() ==> v.confidence == PositiveConfidence && v.confidence >= threshold
    ensures v.Judged? <==> reply.Responded? && IsOkStatus(reply.status) && reply.json.Parsed?
    ensures v.Judged? ==>
              && v.confidence == ConfidenceOf(IsPositive(reply.json.firstText))
              && v.isGhibli == (IsPositive(reply.json.firstText) && v.confidence >= threshold)
              && v.rawResponse == reply.json.firstText
    ensures reply.Unreachable? ==> v == Failed(reply.message)
    ensures reply.Responded? && !IsOkStatus(reply.status) ==>
              v == Failed("API request failed with status " + NatToString(reply.status) + ": " + reply.bodyText)
    ensures reply.Responded? && IsOkStatus(reply.status) && reply.json.Unparsable? ==>
              v == Failed(reply.json.message)
  {
    match reply
    case Unreachable(message) => Failed(message)
    case Responded(status, bodyText, json) =>
      if !IsOkStatus(status) then
        Failed("API request failed with status " + NatToString(status) + ": " + bodyText)
      else
        match json
        case Unparsable(message) => Failed(message)
        case Parsed(text) =>
          var positive := IsPositive(text);
          var confidence := ConfidenceOf(positive);
          Judged(positive && confidence >= threshold, confidence, text)
  }

  /** `checkGhibliStyle`: settings, image and reply to verdict. */
  function Classify(s: Settings, f: ImageFetch, reply: ApiReply): (v: Verdict)
    ensures v.IsGhibli() ==> BuildRequest(s, f).Success?
  {
    match BuildRequest(s, f)
    case Failure(e) => Failed(e)
    case Success(_) => Interpret(EffectiveThreshold(s.confidenceThreshold), reply)
  }

  // ---------------------------------------------------------------------------
  // Properties
  // ---------------------------------------------------------------------------

  /**
   * Without an API key the result is the key error, whatever the image and the service would
   * have given: neither is consulted.
   */
  lemma MissingKeyShortCircuit(s: Settings, f1: ImageFetch, f2: ImageFetch, r1: ApiReply, r2: ApiReply)
    requires !HasApiKey(s)
    ensures Classify(s, f1, r1) == Classify(s, f2, r2) == Failed(KeyMissing)
    ensures !Classify(s, f1, r1).IsGhibli()
  {
  }

  /** When no request can be built the reply is never consulted: no POST is made. */
  lemma NoRequestNoReplyConsulted(s: Settings, f: ImageFetch, r1: ApiReply, r2: ApiReply)
    requires BuildRequest(s, f).Failure?
    ensures Classify(s, f, r1) == Classify(s, f, r2) == Failed(BuildRequest(s, f).error)
  {
  }

  /**
   * The verdict rule: the image counts as Ghibli exactly when the request was built, the service
   * answered with success, its text contains `true` in any case, and the effective threshold is
   * at most 0.8.
   */
  lemma ClassifyGhibliIff(s: Settings, f: ImageFetch, reply: ApiReply)
    ensures Classify(s, f, reply).IsGhibli() <==>
              && BuildRequest(s, f).Success?
              && reply.Responded? && IsOkStatus(reply.status)
              && reply.json.Parsed? && IsPositive(reply.json.firstText)
              && EffectiveThreshold(s.confidenceThreshold) <= PositiveConfidence
  {
  }

  /** `true` occurs at index `i` of `s` in any mix of upper and lower case. */
  ghost predicate TrueAnyCaseAt(s: string, i: nat)
  {
    i + 4 <= |s| && forall j :: 0 <= j < 4 ==> s[i + j] == "true"[j] || s[i + j] == "TRUE"[j]
  }

  /** A reply text is positive exactly when it contains `true` case-insensitively. */
  lemma PositiveIffTrueAnyCase(s: string)
    ensures IsPositive(Some(s)) <==> exists i: nat :: TrueAnyCaseAt(s, i)
  {
    var low := ToLower(s);
    ContainsIff(low, "true");
    forall i: nat ensures OccursAt(low, "true", i) <==> TrueAnyCaseAt(s, i) {
      if i + 4 <= |s| {
        assert OccursAt(low, "true", i) <==> forall j :: 0 <= j < 4 ==> low[i + j] == "true"[j] by {
          if forall j :: 0 <= j < 4 ==> low[i + j] == "true"[j] {
            assert low[i..i + 4] == "true";
          }
        }
        forall j | 0 <= j < 4
          ensures low[i + j] == "true"[j] <==> s[i + j] == "true"[j] || s[i + j] == "TRUE"[j]
        {
          assert low[i + j] == LowerChar(s[i + j]);
        }
      }
    }
    if exists i: nat :: TrueAnyCaseAt(s, i) {
      var i: nat :| TrueAnyCaseAt(s, i);
      assert OccursAt(low, "true", i);
    }
  }

  /** A negative reply never yields a Ghibli verdict, whatever the threshold. */
  lemma NegativeNeverGhibli(s: Settings, f: ImageFetch, reply: ApiReply)
    requires reply.Responded? && reply.json.Parsed? && !IsPositive(reply.json.firstText)
    ensures !Classify(s, f, reply).IsGhibli()
  {
  }

  /** Reply text `false`: not Ghibli, confidence 0.2. */
  lemma ReplyFalse(s: Settings, f: ImageFetch)
    requires BuildRequest(s, f).Success?
    ensures Classify(s, f, Responded(200, "", Parsed(Some("false")))) ==
              Judged(false, NegativeConfidence, Some("false"))
  {
    assert !Contains(ToLower("false"), "true") by {
      ContainsIff(ToLower("false"), "true");
      assert ToLower("false") == "false";
      forall i: nat ensures !OccursAt("false", "true", i) {
        if i + 4 <= 5 {
          assert "false"[i..i + 4][0] == "false"[i] != 't' == "true"[0];
        }
      }
    }
  }

  /** Reply text `True` (any case) with a threshold at most 0.8: Ghibli, confidence 0.8. */
  lemma ReplyTrue(s: Settings, f: ImageFetch)
    requires BuildRequest(s, f).Success?
    requires EffectiveThreshold(s.confidenceThreshold) <= PositiveConfidence
    ensures Classify(s, f, Responded(200, "", Parsed(Some("True")))) ==
              Judged(true, PositiveConfidence, Some("True"))
  {
    assert ToLower("True") == "true";
    assert IsPrefix("true", "true");
  }

  /** A bare `true` answer is defeated by a threshold above the fixed 0.8 confidence. */
  lemma HighThresholdBlocksAll(s: Settings, f: ImageFetch, reply: ApiReply)
    requires EffectiveThreshold(s.confidenceThreshold) > PositiveConfidence
    ensures !Classify(s, f, reply).IsGhibli()
  {
  }

  /**
   * For a data URL as `readAsDataURL` writes it (RFC 2397, base64 of RFC 4648 section 4) over a
   * non-empty image, the payload sent is exactly the encoding of the image's bytes: the
   * "Invalid base64 encoding" error cannot arise from such a data URL.
   */
  lemma EncodedImageIsSent(s: Settings, blobType: string, mime: string, bytes: seq<Byte>)
    requires HasApiKey(s)
    requires ',' !in mime && |bytes| > 0
    ensures BuildRequest(s, Fetched(blobType, DataUrl(mime, Encode(bytes)))) ==
              Success(Request(Endpoint(OrDefault(s.apiBaseUrl, DefaultApiBaseUrl), s.apiKey.value),
                              [Content([TextPart(Instruction), InlineData(MimeTypeOf(blobType), Encode(bytes))])]))
  {
    var data := Encode(bytes);
    var f := Fetched(blobType, DataUrl(mime, data));
    PayloadOfDataUrl(mime, data);
    RemoveWhitespaceKeeps(data);
    assert Sanitize(data) == data;
    EncodeAccepted(bytes);
    assert PrepareImage(f) == Success(ImagePayload(MimeTypeOf(blobType), data));
  }
}
