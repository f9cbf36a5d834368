/**
 * The voice provider's REST wrapper: composing an outbound-call request
 * (voice resolution, telephony leg, optional end-of-call callback) and
 * reading a finished call's messages. The HTTP exchange itself is a
 * parameter: the provider's reply to a request.
 */
module Ultravox {
  import opened Types
  import opened Text
  import opened Qualification

  // ---------------------------------------------------------------------
  // Voice resolution
  // ---------------------------------------------------------------------

  predicate IsHexDigit(c: char) {
    IsDigit(c) || 'a' <= c <= 'f' || 'A' <= c <= 'F'
  }

  predicate IsUuidHyphenPosition(i: int) {
    i == 8 || i == 13 || i == 18 || i == 23
  }

  /** The case-insensitive 8-4-4-4-12 hexadecimal UUID shape, anchored at both ends. */
  predicate IsUuid(v: string) {
    |v| == 36 &&
    forall i :: 0 <= i < |v| ==> if IsUuidHyphenPosition(i) then v[i] == '-' else IsHexDigit(v[i])
  }

  /** How the request names its voice: a provider voice name or id, or an inline ElevenLabs definition. */
  datatype VoiceConfig =
    | VoiceName(name: string)
    | ElevenLabsVoice(name: string, voiceId: string, model: string)

  const DefaultVoice: string := "terrence"
  const DefaultLanguageHint: string := "en-US"
  const CustomVoiceName: string := "Custom Voice"
  const ElevenLabsModel: string := "eleven_turbo_v2_5"
  /** Ids shorter than this that are not UUIDs are taken for ElevenLabs ids. */
  const ElevenLabsIdLimit: nat := 30

  /** The voice entry of a request: short non-UUID ids are wrapped as ElevenLabs definitions, anything else is passed on. */
  function ResolveVoice(voice: string): (r: VoiceConfig)
    ensures r.ElevenLabsVoice? <==> 0 < |voice| < ElevenLabsIdLimit
    ensures r.ElevenLabsVoice? ==> r == ElevenLabsVoice(CustomVoiceName, voice, ElevenLabsModel)
    ensures r.VoiceName? ==> r.name == voice
  {
    if !IsUuid(voice) && voice != "" && |voice| < ElevenLabsIdLimit then
      ElevenLabsVoice(CustomVoiceName, voice, ElevenLabsModel)
    else
      VoiceName(voice)
  }

  /** A UUID, in either letter case, is passed through unchanged. */
  lemma UuidPassesThrough(voice: string)
    requires IsUuid(voice)
    ensures ResolveVoice(voice) == VoiceName(voice)
  {
  }

  /** The default voice name is short and not a UUID, so it is sent as an ElevenLabs id. */
  lemma DefaultVoiceIsWrapped()
    ensures ResolveVoice(DefaultVoice) == ElevenLabsVoice(CustomVoiceName, "terrence", ElevenLabsModel)
  {
  }

  // ---------------------------------------------------------------------
  // Outbound call
  // ---------------------------------------------------------------------

  datatype CallMetadata = CallMetadata(leadId: string, agentId: string)

  /** The arguments of `createOutboundCall`; `None` is an argument left out, `""` an unset text. */
  datatype OutboundOptions = OutboundOptions(
    phoneNumber: string,
    systemPrompt: string,
    voice: Option<string>,
    languageHint: Option<string>,
    twilioFrom: string,
    callbackUrl: string,
    metadata: CallMetadata)

  /** The process environment; `""` is an unset variable. */
  datatype ServerEnv = ServerEnv(apiKey: string, twilioPhoneNumber: string, backendUrl: string)

  /** The body posted to the provider's `/calls` endpoint. */
  datatype CallRequest = CallRequest(
    systemPrompt: string,
    voice: VoiceConfig,
    languageHint: string,
    to: string,
    from: string,
    userSpeaksFirst: bool,
    recordingEnabled: bool,
    metadata: CallMetadata,
    endedCallbackUrl: Option<string>)

  /**
   * The provider's answer to a request: the created call, a non-ok status
   * with its body, or an exception with its message (the request never
   * got a response, or the response body was not JSON).
   */
  datatype ProviderReply =
    | Created(callId: string, joinUrl: string)
    | Rejected(status: nat, body: string)
    | Thrown(message: string)

  datatype CreatedCall = CreatedCall(callId: string, joinUrl: string)

  datatype DispatchError = MissingApiKey | ProviderError(status: nat, body: string) | RequestFailed(message: string)

  /** The path the backend serves the end-of-call webhook on. */
  const CallEndedPath: string := "/webhooks/ultravox/call-ended"

  /** The message of the error `createOutboundCall` throws. */
  function DispatchErrorMessage(e: DispatchError): string {
    match e
    case MissingApiKey => "ULTRAVOX_API_KEY is not configured"
    case ProviderError(status, body) => "Ultravox API error: " + NatToString(status) + " - " + body
    case RequestFailed(message) => message
  }

  /**
   * `createOutboundCall`: with no API key nothing is sent; otherwise the
   * request `sent` is posted and the reply decides the result.
   */
  method CreateOutboundCall(opts: OutboundOptions, env: ServerEnv, provider: CallRequest -> ProviderReply)
    returns (sent: Option<CallRequest>, result: Result<CreatedCall, DispatchError>)
    ensures sent.Some? <==> env.apiKey != ""
    ensures sent.None? ==> result == Failure(MissingApiKey)
    ensures sent.Some? ==>
      var req := sent.value;
      && req.to == opts.phoneNumber
      && req.from == (if opts.twilioFrom != "" then opts.twilioFrom else env.twilioPhoneNumber)
      && req.systemPrompt == opts.systemPrompt
      && req.voice == ResolveVoice(opts.voice.GetOr(DefaultVoice))
      && req.languageHint == opts.languageHint.GetOr(DefaultLanguageHint)
      && req.userSpeaksFirst && req.recordingEnabled
      && req.metadata == opts.metadata
      && (req.endedCallbackUrl.Some? <==> opts.callbackUrl != "")
      && (opts.callbackUrl != "" ==> req.endedCallbackUrl == Some(opts.callbackUrl + CallEndedPath))
    ensures sent.Some? ==>
      match provider(sent.value)
      case Created(id, url) => result == Success(CreatedCall(id, url))
      case Rejected(status, body) => result == Failure(ProviderError(status, body))
      case Thrown(message) => result == Failure(RequestFailed(message))
  {
    if env.apiKey == "" {
      return None, Failure(MissingApiKey);
    }
    var voice := opts.voice.GetOr(DefaultVoice);
    var voiceConfig := VoiceName(voice);
    var isUuid := IsUuid(voice);
    if !isUuid && voice != "" && |voice| < ElevenLabsIdLimit {
      voiceConfig := ElevenLabsVoice(CustomVoiceName, voice, ElevenLabsModel);
    }
    var from := if opts.twilioFrom != "" then opts.twilioFrom else env.twilioPhoneNumber;
    var request := CallRequest(opts.systemPrompt, voiceConfig, opts.languageHint.GetOr(DefaultLanguageHint),
                               opts.phoneNumber, from, true, true, opts.metadata, None);
    if opts.callbackUrl != "" {
      request := request.(endedCallbackUrl := Some(opts.callbackUrl + CallEndedPath));
    }
    sent := Some(request);
    match provider(request)
    case Created(id, url) =>
      result := Success(CreatedCall(id, url));
    case Rejected(status, body) =>
      result := Failure(ProviderError(status, body));
    case Thrown(message) =>
      result := Failure(RequestFailed(message));
  }

  // ---------------------------------------------------------------------
  // Call messages
  // ---------------------------------------------------------------------

  /** The provider's answer to a messages request: a JSON body (whose `results` may be missing), a non-ok status, or a network error. */
  datatype MessagesReply =
    | Delivered(results: Option<seq<Message>>)
    | HttpStatus(status: nat)
    | Unreachable(message: string)

  const NotFound: nat := 404

  /**
   * `getCallMessages`: an empty id and a 404 both give an empty message
   * list; any other failure is an error with a message.
   */
  function GetCallMessages(callId: string, fetch: string -> MessagesReply): (r: Result<Option<seq<Message>>, string>)
    ensures callId == "" ==> r == Success(Some([]))
    ensures r.Failure? <==>
      callId != "" && (fetch(callId).Unreachable? || (fetch(callId).HttpStatus? && fetch(callId).status != NotFound))
    ensures callId != "" && fetch(callId) == HttpStatus(NotFound) ==> r == Success(Some([]))
    ensures callId != "" && fetch(callId).Delivered? ==> r == Success(fetch(callId).results)
  {
    if callId == "" then Success(Some([]))
    else
      match fetch(callId)
      case Delivered(results) => Success(results)
      case HttpStatus(status) =>
        if status == NotFound then Success(Some([]))
        else Failure("Failed to get call messages: " + NatToString(status))
      case Unreachable(message) => Failure(message)
  }
}
