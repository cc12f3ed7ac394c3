/** The remix client: one primary audio-to-audio request, and when its
    response carries no audio, a fallback of text analysis followed by speech
    synthesis. The three remote requests are oracle inputs (`Reply`): what the
    service answered, or what it threw. Every run records the requests it made,
    in order, so that "no call was made" and "the fallback ran once" can be
    stated. */
module GeminiService {
  import opened Types

  /** An `Error` thrown by the client or by the remote SDK. */
  datatype ThrownError = ThrownError(message: string)

  const API_KEY_NOT_FOUND := ThrownError("API Key not found")
  const FALLBACK_AUDIO_FAILED := ThrownError("Failed to generate fallback audio.")

  const PRIMARY_DESCRIPTION := "AI Audio Remix Generated"
  const FALLBACK_LABEL := "Generated via Text-to-Speech Interpretation: "
  const ELLIPSIS := "..."
  /** How many characters of the synthesized text the fallback description keeps. */
  const DESCRIPTION_PREFIX := 50
  const DEFAULT_REMIX_TEXT := "Dynamic beatbox rhythm."
  /** The media type given to every generated Blob. */
  const BLOB_TYPE := "audio/mp3"

  // Model identifiers and voice profiles: opaque configuration.
  const PRIMARY_MODEL := "gemini-2.5-flash-native-audio-preview-09-2025"
  const ANALYSIS_MODEL := "gemini-2.5-flash"
  const TTS_MODEL := "gemini-2.5-flash-preview-tts"
  const PRIMARY_VOICE := "Fenrir"
  const TTS_VOICE := "Kore"

  // ---------------------------------------------------------------------------
  // Response shapes of `generateContent`; every level may be absent.

  datatype InlineData = InlineData(mimeType: Option<string>, data: Option<string>)
  datatype Part = Part(text: Option<string>, inlineData: Option<InlineData>)
  datatype Content = Content(parts: Option<seq<Part>>)
  datatype Candidate = Candidate(content: Option<Content>)
  /** `text` is the SDK's derived text of the response, taken as given. */
  datatype Response = Response(candidates: Option<seq<Candidate>>, text: Option<string>)

  /** What one remote request did: answered with a response, or threw. */
  datatype Reply = Returned(response: Response) | Threw(error: ThrownError)

  /** One request sent to the remote service (the prompt texts are left out). */
  datatype Input = AudioInput(data: string, mimeType: string) | TextInput(text: string)
  datatype RemoteCall = GenerateContent(model: string, input: Input, voice: Option<string>)

  function PrimaryCall(audio: string, mimeType: string): RemoteCall
  {
    GenerateContent(PRIMARY_MODEL, AudioInput(audio, mimeType), Some(PRIMARY_VOICE))
  }

  function AnalysisCall(audio: string, mimeType: string): RemoteCall
  {
    GenerateContent(ANALYSIS_MODEL, AudioInput(audio, mimeType), None)
  }

  function SynthesisCall(text: string): RemoteCall
  {
    GenerateContent(TTS_MODEL, TextInput(text), Some(TTS_VOICE))
  }

  /** The result of one invocation, and the remote requests it made in order. */
  datatype Outcome = Outcome(result: Result<RemixResult, ThrownError>, calls: seq<RemoteCall>)

  // ---------------------------------------------------------------------------
  // Inspecting responses

  /** `response.candidates?.[0]?.content?.parts`: the chain stops at the
      first missing link, and an empty candidate list has no first element. */
  function CandidateParts(r: Response): (parts: Option<seq<Part>>)
    ensures parts.Some? <==>
      && r.candidates.Some? && |r.candidates.value| > 0
      && r.candidates.value[0].content.Some?
      && r.candidates.value[0].content.value.parts.Some?
    ensures parts.Some? ==> parts == r.candidates.value[0].content.value.parts
  {
    match r.candidates
    case None => None
    case Some(cs) =>
      if |cs| == 0 then None
      else match cs[0].content
        case None => None
        case Some(c) => c.parts
  }

  /** `part.inlineData?.data` */
  function InlineDataOf(p: Part): Option<string>
  {
    match p.inlineData
    case None => None
    case Some(d) => d.data
  }

  /** Part `k` is the first part that has an `inlineData` object. */
  ghost predicate IsFirstInlinePart(parts: seq<Part>, k: int)
  {
    && 0 <= k < |parts|
    && parts[k].inlineData.Some?
    && forall j :: 0 <= j < k ==> parts[j].inlineData.None?
  }

  /** `parts.find(p => p.inlineData)`, as an index. */
  function FindInlinePart(parts: seq<Part>): (k: Option<nat>)
    ensures k.Some? ==> IsFirstInlinePart(parts, k.value)
    ensures k.None? ==> forall j :: 0 <= j < |parts| ==> parts[j].inlineData.None?
  {
    if |parts| == 0 then None
    else if parts[0].inlineData.Some? then Some(0)
    else match FindInlinePart(parts[1..])
      case None => None
      case Some(k) => Some(k + 1)
  }

  /** The audio payload the primary path accepts: the data of the first part
      that has `inlineData`, when that data is present and non-empty. */
  function PrimaryAudio(r: Response): (audio: Option<string>)
    ensures audio.Some? ==> audio.value != "" && CandidateParts(r).Some?
    ensures forall k :: CandidateParts(r).Some? && IsFirstInlinePart(CandidateParts(r).value, k) ==>
      audio == (if Truthy(InlineDataOf(CandidateParts(r).value[k])) then InlineDataOf(CandidateParts(r).value[k]) else None)
    ensures CandidateParts(r).Some? && (forall j :: 0 <= j < |CandidateParts(r).value| ==> CandidateParts(r).value[j].inlineData.None?) ==>
      audio.None?
  {
    match CandidateParts(r)
    case None => None
    case Some(parts) =>
      match FindInlinePart(parts)
      case None => None
      case Some(k) =>
        assert forall k' :: IsFirstInlinePart(parts, k') ==> k' == k;
        if Truthy(InlineDataOf(parts[k])) then InlineDataOf(parts[k]) else None
  }

  /** The audio payload the fallback accepts from the synthesis response:
      only the first part of the first candidate is looked at. */
  function TtsAudio(r: Response): (audio: Option<string>)
    ensures audio.Some? <==>
      CandidateParts(r).Some? && |CandidateParts(r).value| > 0 && Truthy(InlineDataOf(CandidateParts(r).value[0]))
    ensures audio.Some? ==> audio == InlineDataOf(CandidateParts(r).value[0])
  {
    match CandidateParts(r)
    case None => None
    case Some(parts) =>
      if |parts| > 0 && Truthy(InlineDataOf(parts[0])) then InlineDataOf(parts[0]) else None
  }

  /** `analysisResponse.text || "Dynamic beatbox rhythm."` */
  function RemixText(analysisText: Option<string>): (text: string)
    ensures text != ""
    ensures Truthy(analysisText) ==> text == analysisText.value
    ensures !Truthy(analysisText) ==> text == DEFAULT_REMIX_TEXT
  {
    if Truthy(analysisText) then analysisText.value else DEFAULT_REMIX_TEXT
  }

  function Min(a: int, b: int): int
  {
    if a < b then a else b
  }

  /** The fallback description: the label, at most the first 50 characters of
      the synthesized text (`substring(0, 50)`), and an ellipsis that is
      appended whatever the length of the text. */
  function FallbackDescription(text: string): (d: string)
    ensures |d| == |FALLBACK_LABEL| + Min(DESCRIPTION_PREFIX, |text|) + |ELLIPSIS|
    ensures d[..|FALLBACK_LABEL|] == FALLBACK_LABEL
    ensures d[|FALLBACK_LABEL|..|FALLBACK_LABEL| + Min(DESCRIPTION_PREFIX, |text|)] == text[..Min(DESCRIPTION_PREFIX, |text|)]
    ensures d[|d| - |ELLIPSIS|..] == ELLIPSIS
  {
    FALLBACK_LABEL + text[..Min(DESCRIPTION_PREFIX, |text|)] + ELLIPSIS
  }

  // ---------------------------------------------------------------------------
  // The two paths

  /** The requests of one invocation are a prefix of
      primary, analysis, synthesis: each is made at most once, in that order,
      and the first two carry the caller's audio. */
  predicate CallsInOrder(calls: seq<RemoteCall>, audio: string, mimeType: string)
  {
    && |calls| <= 3
    && (|calls| >= 1 ==> calls[0] == PrimaryCall(audio, mimeType))
    && (|calls| >= 2 ==> calls[1] == AnalysisCall(audio, mimeType))
    && (|calls| == 3 ==> calls[2].model == TTS_MODEL && calls[2].input.TextInput?)
  }

  /** A failure is the error of the last request made, rethrown unchanged,
      or one of the client's own two errors. */
  predicate FailureExplained(e: ThrownError, calls: seq<RemoteCall>, primary: Reply, analysis: Reply, tts: Reply)
  {
    || (|calls| == 0 && e == API_KEY_NOT_FOUND)
    || (|calls| == 1 && primary == Threw(e))
    || (|calls| == 2 && analysis == Threw(e))
    || (|calls| == 3 && tts == Threw(e))
    || (|calls| == 3 && tts.Returned? && TtsAudio(tts.response).None? && e == FALLBACK_AUDIO_FAILED)
  }

  /** `fallbackRemix`: analyse the audio, substitute the default phrase when no
      text comes back, synthesize that text, and fail only when the synthesis
      response has no audio in its first part. */
  function FallbackRemix(audio: string, mimeType: string, analysis: Reply, tts: Reply): (o: Outcome)
    ensures 1 <= |o.calls| <= 2 && o.calls[0] == AnalysisCall(audio, mimeType)
    ensures |o.calls| == 2 <==> analysis.Returned?
    ensures analysis.Returned? ==> o.calls[1] == SynthesisCall(RemixText(analysis.response.text))
    ensures analysis.Threw? ==> o.result == Failure(analysis.error)
    ensures analysis.Returned? && tts.Threw? ==> o.result == Failure(tts.error)
    ensures analysis.Returned? && tts.Returned? && TtsAudio(tts.response).None? ==> o.result == Failure(FALLBACK_AUDIO_FAILED)
    ensures o.result.Success? <==> analysis.Returned? && tts.Returned? && TtsAudio(tts.response).Some?
    ensures o.result.Success? ==>
      o.result.value == RemixResult(BlobUrl(TtsAudio(tts.response).value, BLOB_TYPE),
                                    FallbackDescription(RemixText(analysis.response.text)))
  {
    match analysis
    case Threw(e) => Outcome(Failure(e), [AnalysisCall(audio, mimeType)])
    case Returned(analysisResponse) =>
      var text := RemixText(analysisResponse.text);
      var calls := [AnalysisCall(audio, mimeType), SynthesisCall(text)];
      match tts
      case Threw(e) => Outcome(Failure(e), calls)
      case Returned(ttsResponse) =>
        match TtsAudio(ttsResponse)
        case None => Outcome(Failure(FALLBACK_AUDIO_FAILED), calls)
        case Some(payload) =>
          Outcome(Success(RemixResult(BlobUrl(payload, BLOB_TYPE), FallbackDescription(text))), calls)
  }

  /** `processAudioRemix`: check the key, try the primary request, and run the
      fallback when its response carries no accepted audio. Errors, including
      those of the fallback, are rethrown unchanged. */
  function ProcessAudioRemix(apiKey: Option<string>, audio: string, mimeType: string,
                             primary: Reply, analysis: Reply, tts: Reply): (o: Outcome)
    ensures o.calls == [] <==> !Truthy(apiKey)
    ensures !Truthy(apiKey) ==> o.result == Failure(API_KEY_NOT_FOUND)
    ensures CallsInOrder(o.calls, audio, mimeType)
    ensures o.result.Failure? ==> FailureExplained(o.result.error, o.calls, primary, analysis, tts)
    ensures |o.calls| == 1 && o.result.Success? ==>
      primary.Returned? && PrimaryAudio(primary.response).Some? &&
      o.result.value == RemixResult(BlobUrl(PrimaryAudio(primary.response).value, BLOB_TYPE), PRIMARY_DESCRIPTION)
    ensures |o.calls| >= 2 <==> Truthy(apiKey) && primary.Returned? && PrimaryAudio(primary.response).None?
    ensures o.result.Success? ==> o.result.value.audioUrl.BlobUrl? && o.result.value.audioUrl.mediaType == BLOB_TYPE
    ensures o.result.Success? ==> (o.result.value.description == PRIMARY_DESCRIPTION <==> |o.calls| == 1)
    ensures |o.calls| >= 2 ==>
      var fallback := FallbackRemix(audio, mimeType, analysis, tts);
      o.calls[1..] == fallback.calls && o.result == fallback.result
  {
    if !Truthy(apiKey) then
      Outcome(Failure(API_KEY_NOT_FOUND), [])
    else
      var first := PrimaryCall(audio, mimeType);
      match primary
      case Threw(e) => Outcome(Failure(e), [first])
      case Returned(response) =>
        match PrimaryAudio(response)
        case Some(payload) =>
          Outcome(Success(RemixResult(BlobUrl(payload, BLOB_TYPE), PRIMARY_DESCRIPTION)), [first])
        case None =>
          var fallback := FallbackRemix(audio, mimeType, analysis, tts);
          assert fallback.result.Success? ==> fallback.result.value.description != PRIMARY_DESCRIPTION by {
            if analysis.Returned? { FallbackDescriptionIsNotPrimary(RemixText(analysis.response.text)); }
          }
          Outcome(fallback.result, [first] + fallback.calls)
  }

  /** The two paths can be told apart by their descriptions. */
  lemma FallbackDescriptionIsNotPrimary(text: string)
    ensures FallbackDescription(text) != PRIMARY_DESCRIPTION
  {
  }

  // ---------------------------------------------------------------------------
  // base64ToBlob

  newtype byte = x: int | 0 <= x < 256

  datatype Blob = Blob(bytes: seq<byte>, mediaType: string)

  /** What a `Uint8Array` keeps of `charCodeAt(i)`: the code modulo 256. */
  function ToUint8(c: char): byte
  {
    (c as int % 256) as byte
  }

  /** A string as `atob` returns it: one character per byte. */
  predicate IsBinaryString(s: string)
  {
    forall i :: 0 <= i < |s| ==> s[i] as int < 256
  }

  /** `String.fromCharCode` applied to each byte: the inverse of the copy loop. */
  function BytesToBinaryString(bytes: seq<byte>): (s: string)
    ensures |s| == |bytes| && IsBinaryString(s)
    ensures forall i :: 0 <= i < |bytes| ==> s[i] as int == bytes[i] as int
  {
    seq(|bytes|, i requires 0 <= i < |bytes| => bytes[i] as int as char)
  }

  /** `base64ToBlob` after `atob`: `decoded` is the binary string that
      `window.atob(base64)` returned, copied byte by byte into a new array. */
  method Base64ToBlob(decoded: string, mediaType: string) returns (blob: Blob)
    ensures |blob.bytes| == |decoded|
    ensures forall i :: 0 <= i < |decoded| ==> blob.bytes[i] == ToUint8(decoded[i])
    ensures blob.mediaType == mediaType
  {
    var len := |decoded|;
    var bytes := new byte[len];
    for i := 0 to len
      invariant forall j :: 0 <= j < i ==> bytes[j] == ToUint8(decoded[j])
    {
      bytes[i] := ToUint8(decoded[i]);
    }
    blob := Blob(bytes[..], mediaType);
  }

  /** The copy loop loses nothing on a binary string: reading the bytes back
      as character codes gives the decoded string again. */
  lemma BinaryStringRoundTrip(decoded: string, blob: Blob)
    requires IsBinaryString(decoded)
    requires |blob.bytes| == |decoded|
    requires forall i :: 0 <= i < |decoded| ==> blob.bytes[i] == ToUint8(decoded[i])
    ensures BytesToBinaryString(blob.bytes) == decoded
  {
  }

  // ---------------------------------------------------------------------------
  // Properties of whole invocations

  /** Only the first part that has `inlineData` decides: when its data is
      missing or empty, the fallback runs even if a later part carries audio. */
  lemma LaterAudioPartIgnored(r: Response, k: nat, apiKey: Option<string>, audio: string, mimeType: string,
                              analysis: Reply, tts: Reply)
    requires CandidateParts(r).Some? && IsFirstInlinePart(CandidateParts(r).value, k)
    requires !Truthy(InlineDataOf(CandidateParts(r).value[k]))
    requires Truthy(apiKey)
    ensures PrimaryAudio(r).None?
    ensures var o := ProcessAudioRemix(apiKey, audio, mimeType, Returned(r), analysis, tts);
      o.calls[1..] == FallbackRemix(audio, mimeType, analysis, tts).calls
      && o.result == FallbackRemix(audio, mimeType, analysis, tts).result
  {
  }

  /** The primary path searches every part for audio, the synthesis path looks
      at the first part only: a response whose audio is in its second part is
      accepted by the one and refused by the other. */
  lemma PrimaryAndSynthesisRulesDiffer()
    ensures var r := Response(Some([Candidate(Some(Content(Some([
                       Part(Some("Here is your remix"), None),
                       Part(None, Some(InlineData(Some("audio/pcm"), Some("UklGRg=="))))]))))]), None);
      PrimaryAudio(r) == Some("UklGRg==") && TtsAudio(r) == None
  {
  }

  /** An absent or empty key stops the invocation before any request. */
  lemma MissingKeyMakesNoCall(apiKey: Option<string>, audio: string, mimeType: string,
                              primary: Reply, analysis: Reply, tts: Reply)
    requires apiKey == None || apiKey == Some("")
    ensures ProcessAudioRemix(apiKey, audio, mimeType, primary, analysis, tts)
         == Outcome(Failure(API_KEY_NOT_FOUND), [])
  {
  }

  /** A short synthesized text is kept whole in the fallback description, and
      the ellipsis is still appended. */
  lemma ShortTextKeptWhole(text: string)
    requires |text| <= DESCRIPTION_PREFIX
    ensures FallbackDescription(text) == FALLBACK_LABEL + text + ELLIPSIS
  {
  }

  /** A primary response with audio: the fixed description, and neither
      fallback request is made, whatever those requests would have answered. */
  lemma ScenarioPrimaryAudio(analysis: Reply, tts: Reply)
    ensures var primary := Returned(Response(Some([Candidate(Some(Content(Some([
                             Part(None, Some(InlineData(Some("audio/wav"), Some("UklGRg=="))))]))))]), None));
      ProcessAudioRemix(Some("key"), "AAAA", "audio/wav", primary, analysis, tts)
      == Outcome(Success(RemixResult(BlobUrl("UklGRg==", "audio/mp3"), "AI Audio Remix Generated")),
                 [PrimaryCall("AAAA", "audio/wav")])
  {
  }

  /** A text-only primary response: the analysis text is synthesized and
      quoted in the description. */
  /** The description the fallback gives for a short analysis text. */
  lemma TextOnlyDescription()
    ensures FallbackDescription("Boom bap tsh ka-pow")
      == "Generated via Text-to-Speech Interpretation: Boom bap tsh ka-pow..."
  {
    ShortTextKeptWhole("Boom bap tsh ka-pow");
  }

  lemma ScenarioTextOnlyPrimary()
    ensures var primary := Returned(Response(Some([Candidate(Some(Content(Some([
                             Part(Some("Sorry, I can't do that"), None)]))))]), Some("Sorry, I can't do that")));
      var analysis := Returned(Response(None, Some("Boom bap tsh ka-pow")));
      var tts := Returned(Response(Some([Candidate(Some(Content(Some([
                   Part(None, Some(InlineData(Some("audio/pcm"), Some("AAEC"))))]))))]), None));
      ProcessAudioRemix(Some("key"), "AAAA", "audio/wav", primary, analysis, tts)
      == Outcome(Success(RemixResult(BlobUrl("AAEC", "audio/mp3"),
                                     "Generated via Text-to-Speech Interpretation: Boom bap tsh ka-pow...")),
                 [PrimaryCall("AAAA", "audio/wav"), AnalysisCall("AAAA", "audio/wav"),
                  SynthesisCall("Boom bap tsh ka-pow")])
  {
    var text := "Boom bap tsh ka-pow";
    TextOnlyDescription();
    var primaryParts := [Part(Some("Sorry, I can't do that"), None)];
    assert FindInlinePart(primaryParts) == None;
    var ttsParts := [Part(None, Some(InlineData(Some("audio/pcm"), Some("AAEC"))))];
    assert TtsAudio(Response(Some([Candidate(Some(Content(Some(ttsParts))))]), None)) == Some("AAEC");
  }

  /** A primary request that throws: the error is rethrown and no fallback
      request is made. */
  lemma ScenarioPrimaryThrows(e: ThrownError, analysis: Reply, tts: Reply)
    ensures ProcessAudioRemix(Some("key"), "AAAA", "audio/wav", Threw(e), analysis, tts)
         == Outcome(Failure(e), [PrimaryCall("AAAA", "audio/wav")])
  {
  }
}
