/**
 * The backend's three call endpoints as transitions over the database and
 * the telephony account: placing an outbound call, the provider's
 * end-of-call webhook, and ending a live call by phone number. Each
 * handler runs to completion; clocks are passed in as `now`, and every
 * provider or database answer is a parameter.
 */
module Server {
  import opened Types
  import opened Text
  import opened Phone
  import opened Qualification
  import opened Ultravox
  import opened Store
  import Twilio

  /** An HTTP response: a 200 carrying `value`, or an error status with its message. */
  datatype Reply<+T> = Ok(value: T) | Error(code: nat, message: string)

  const BadRequest: nat := 400
  const NotFoundStatus: nat := 404
  const ServerError: nat := 500

  const PhoneRequired: string := "Phone number is required"

  // ---------------------------------------------------------------------
  // POST /outbound-call
  // ---------------------------------------------------------------------

  /** The request body; `""` is a field that is missing or empty. */
  datatype OutboundBody = OutboundBody(
    phoneNumber: string,
    leadId: string,
    agentId: string,
    systemPrompt: string,
    voice: string,
    languageHint: string)

  datatype Initiated = Initiated(callSid: string, joinUrl: string, dbCallId: Option<string>)

  const DefaultSystemPrompt: string :=
    "You are a friendly sales representative for VOCA Solar. \n"
    + "Your goal is to introduce yourself and gauge the customer's interest in solar energy solutions.\n"
    + "Be natural, conversational, and listen carefully to their responses.\n"
    + "Ask about their current energy costs and if they've considered solar before.\n"
    + "If they're interested, offer to schedule a follow-up call with a specialist.\n"
    + "Speak naturally and don't be pushy."

  const InitialSummary: string := "Call initiated via Ultravox"

  /** The shortest normalised number, `+` included, the endpoint dials. */
  const MinDialLength: nat := 10

  /** The endpoint accepts the number: present, and at least ten characters once normalised. */
  predicate Dialable(phone: string)
    ensures Dialable(phone) ==> |Clean(phone)| >= MinDialLength - |DefaultCountryCode|
  {
    phone != "" && |FormatToE164(phone, DefaultCountryCode).value| >= MinDialLength
  }

  /**
   * Which numbers pass validation, in terms of the cleaned digits: an
   * international `+` number needs ten characters, a `00` number eleven,
   * and anything else only seven digits, since the default code adds three.
   */
  lemma DialableByCleanedLength(phone: string)
    requires phone != ""
    ensures var c := Clean(phone);
            Dialable(phone) <==>
              if StartsWith(c, "+") then |c| >= 10
              else if StartsWith(c, "00") then |c| >= 11
              else |c| >= 7
  {
  }

  /** The three-digit number `123` is refused. */
  lemma ShortNumberRefused()
    ensures !Dialable("123")
  {
    FormatTooShort();
  }

  /** The request body's fields with the endpoint's defaults applied. */
  function OutboundOptionsFor(body: OutboundBody, env: ServerEnv): OutboundOptions
    requires body.phoneNumber != ""
  {
    OutboundOptions(
      FormatToE164(body.phoneNumber, DefaultCountryCode).value,
      if body.systemPrompt != "" then body.systemPrompt else DefaultSystemPrompt,
      Some(if body.voice != "" then body.voice else DefaultVoice),
      Some(if body.languageHint != "" then body.languageHint else DefaultLanguageHint),
      env.twilioPhoneNumber,
      env.backendUrl,
      CallMetadata(body.leadId, body.agentId))
  }

  /** The provider request the endpoint sends for `body`. */
  function OutboundRequest(body: OutboundBody, env: ServerEnv): CallRequest
    requires body.phoneNumber != ""
  {
    var opts := OutboundOptionsFor(body, env);
    CallRequest(opts.systemPrompt, ResolveVoice(opts.voice.value), opts.languageHint.value, opts.phoneNumber,
                env.twilioPhoneNumber, true, true, opts.metadata,
                if env.backendUrl != "" then Some(env.backendUrl + CallEndedPath) else None)
  }

  /** The 400 message for a number too short once normalised; `null` is shown for a number that normalises to nothing. */
  function InvalidNumberMessage(phone: string): string {
    "Invalid phone number format. Got: " + phone + ", formatted: "
    + FormatToE164(phone, DefaultCountryCode).GetOr("null") + ". Expected E.164 format like +919876543210"
  }

  const InitiateFailed: string := "Failed to initiate call"

  /** The 500 message: the thrown error's message, or a fixed text when that message is empty. */
  function FailureMessage(e: DispatchError): (m: string)
    ensures m != ""
    ensures DispatchErrorMessage(e) != "" ==> m == DispatchErrorMessage(e)
  {
    var message := DispatchErrorMessage(e);
    if message != "" then message else InitiateFailed
  }

  /**
   * The message of the endpoint's error reply: the missing number, the
   * invalid number, or the reason the provider call failed. Every
   * refusal carries a non-empty message, and only an accepted call has none.
   */
  function OutboundError(body: OutboundBody, env: ServerEnv, provider: CallRequest -> ProviderReply): (m: string)
    ensures m != "" <==> !OutboundAccepted(body, env, provider)
    ensures body.phoneNumber == "" ==> m == PhoneRequired
    ensures body.phoneNumber != "" && !Dialable(body.phoneNumber) ==> m == InvalidNumberMessage(body.phoneNumber)
  {
    if body.phoneNumber == "" then PhoneRequired
    else if !Dialable(body.phoneNumber) then InvalidNumberMessage(body.phoneNumber)
    else if env.apiKey == "" then FailureMessage(MissingApiKey)
    else match provider(OutboundRequest(body, env))
      case Created(_, _) => ""
      case Rejected(status, text) => FailureMessage(ProviderError(status, text))
      case Thrown(message) => FailureMessage(RequestFailed(message))
  }

  /** The endpoint answers 200: the number is dialable, the key is set and the provider creates the call. */
  predicate OutboundAccepted(body: OutboundBody, env: ServerEnv, provider: CallRequest -> ProviderReply) {
    Dialable(body.phoneNumber) && env.apiKey != "" && provider(OutboundRequest(body, env)).Created?
  }

  /**
   * `POST /outbound-call`: validate the number, ask the provider for a
   * call, then log one `ongoing` row for it. A failed insert is only
   * logged; a provider error is a 500 and logs nothing.
   */
  method OutboundCall(db: Database, body: OutboundBody, env: ServerEnv, now: string,
                      provider: CallRequest -> ProviderReply, insert: InsertOutcome)
    returns (sent: Option<CallRequest>, reply: Reply<Initiated>)
    modifies db
    ensures db.leads == old(db.leads)
    ensures !Dialable(body.phoneNumber) ==>
      sent.None? && reply.Error? && reply.code == BadRequest && db.calls == old(db.calls)
    ensures body.phoneNumber == "" ==> reply == Error(BadRequest, PhoneRequired)
    ensures Dialable(body.phoneNumber) ==> (sent.Some? <==> env.apiKey != "")
    ensures sent.Some? ==>
      var req := sent.value;
      && req.to == FormatToE164(body.phoneNumber, DefaultCountryCode).value
      && req.from == env.twilioPhoneNumber
      && req.systemPrompt == (if body.systemPrompt != "" then body.systemPrompt else DefaultSystemPrompt)
      && req.voice == ResolveVoice(if body.voice != "" then body.voice else DefaultVoice)
      && req.languageHint == (if body.languageHint != "" then body.languageHint else DefaultLanguageHint)
      && req.metadata == CallMetadata(body.leadId, body.agentId)
      && req.endedCallbackUrl == (if env.backendUrl != "" then Some(env.backendUrl + CallEndedPath) else None)
      && req.userSpeaksFirst && req.recordingEnabled
    ensures sent.Some? ==> sent.value == OutboundRequest(body, env)
    ensures reply.Ok? <==> sent.Some? && provider(sent.value).Created?
    ensures reply.Ok? <==> OutboundAccepted(body, env, provider)
    ensures reply.Ok? ==>
      var created := provider(sent.value);
      && reply.value.callSid == created.callId && reply.value.joinUrl == created.joinUrl
      && (insert.Inserted? ==>
            reply.value.dbCallId == Some(insert.id)
            && db.calls == old(db.calls) + [CallRow(insert.id, body.leadId, Some(created.callId), now,
                                                    None, None, Ongoing, InitialSummary)])
      && (insert.InsertFailed? ==> reply.value.dbCallId == None && db.calls == old(db.calls))
    ensures Dialable(body.phoneNumber) && reply.Error? ==> reply.code == ServerError && db.calls == old(db.calls)
    ensures reply.Error? ==> reply.message == OutboundError(body, env, provider)
  {
    if body.phoneNumber == "" {
      return None, Error(BadRequest, PhoneRequired);
    }
    var formatted := FormatToE164(body.phoneNumber, DefaultCountryCode);
    if formatted.None? || |formatted.value| < MinDialLength {
      return None, Error(BadRequest, InvalidNumberMessage(body.phoneNumber));
    }
    var opts := OutboundOptionsFor(body, env);
    var result;
    sent, result := CreateOutboundCall(opts, env, provider);
    match result
    case Failure(e) =>
      reply := Error(ServerError, FailureMessage(e));
    case Success(created) =>
      var row := CallRow("", body.leadId, Some(created.callId), now, None, None, Ongoing, InitialSummary);
      var dbCallId := db.InsertCall(row, insert);
      reply := Ok(Initiated(created.callId, created.joinUrl, dbCallId));
  }

  // ---------------------------------------------------------------------
  // POST /webhooks/ultravox/call-ended
  // ---------------------------------------------------------------------

  /** The webhook body; a missing `callId` is `""`. */
  datatype CallEndedBody = CallEndedBody(callId: string, duration: Option<int>)

  const SummaryLimit: nat := 500
  const EmptySummary: string := "Call completed"

  /** The stored summary: the transcript's first 500 characters, or a fixed text for an empty transcript. */
  function CallSummary(transcript: string): (r: string)
    ensures 1 <= |r| <= SummaryLimit
    ensures transcript == "" ==> r == EmptySummary
    ensures transcript != "" ==> StartsWith(transcript, r) && |r| == if |transcript| < SummaryLimit then |transcript| else SummaryLimit
  {
    if transcript == "" then EmptySummary
    else if |transcript| <= SummaryLimit then transcript
    else transcript[..SummaryLimit]
  }

  /** The lead status written for a classified call: the three levels the classifier produces, never `New` or `Scheduled`. */
  function LeadStatusOf(level: InterestLevel): (r: LeadStatus)
    requires level != Unknown
    ensures r != New && r != Scheduled
    ensures r == LeadStatus.NotInterested <==> level == InterestLevel.NotInterested
    ensures r == LeadStatus.Interested <==> level == InterestLevel.Interested
    ensures r == LeadStatus.Contacted <==> level == InterestLevel.Contacted
  {
    match level
    case NotInterested => LeadStatus.NotInterested
    case Interested => LeadStatus.Interested
    case Contacted => LeadStatus.Contacted
  }

  /**
   * The provider's end-of-call webhook: classify the transcript, complete
   * the call's rows, and, when exactly one row with a lead resolves,
   * write the classification to that lead. Only a failed transcript fetch
   * is an error.
   */
  method CallEnded(db: Database, hook: CallEndedBody, now: string, fetch: string -> MessagesReply,
                   updateOk: bool, leadUpdateOk: bool)
    returns (reply: Reply<()>)
    modifies db
    ensures GetCallMessages(hook.callId, fetch).Failure? ==>
      reply == Error(ServerError, GetCallMessages(hook.callId, fetch).error)
      && db.calls == old(db.calls) && db.leads == old(db.leads)
    ensures GetCallMessages(hook.callId, fetch).Success? ==>
      var x := Qualify(GetCallMessages(hook.callId, fetch).value.GetOr([]));
      && reply == Ok(())
      && db.calls == (if updateOk then CompleteByProviderId(old(db.calls), hook.callId, now, hook.duration, CallSummary(x.transcript))
                      else old(db.calls))
      && var row := SingleRow(db.calls, hook.callId);
         if row.Some? && row.value.leadId != "" && leadUpdateOk && row.value.leadId in old(db.leads) then
           db.leads == old(db.leads)[row.value.leadId := old(db.leads)[row.value.leadId].(
                                       status := LeadStatusOf(x.interestLevel), notes := Some(x.notes))]
         else db.leads == old(db.leads)
  {
    var messages := GetCallMessages(hook.callId, fetch);
    if messages.Failure? {
      return Error(ServerError, messages.error);
    }
    var extracted := ExtractLeadDataFromTranscript(messages.value.GetOr([]));
    db.CompleteProviderCall(hook.callId, now, hook.duration, CallSummary(extracted.transcript), updateOk);
    var callRecord := SingleRow(db.calls, hook.callId);
    if callRecord.Some? && callRecord.value.leadId != "" && extracted.interestLevel != Unknown {
      var notes := if extracted.notes != "" then extracted.notes
                   else "Call completed. Interest: " + InterestLabel(extracted.interestLevel);
      db.UpdateLead(callRecord.value.leadId, LeadStatusOf(extracted.interestLevel), notes, leadUpdateOk);
    }
    reply := Ok(());
  }

  /** The interest level as the source spells it. */
  function InterestLabel(level: InterestLevel): string {
    match level
    case Unknown => "unknown"
    case NotInterested => "Not Interested"
    case Interested => "Interested"
    case Contacted => "Contacted"
  }

  /** A webhook for a call no row belongs to changes no lead, whatever the transcript says. */
  lemma UnknownCallChangesNoLead(calls: seq<CallRow>, callId: string, endedAt: string, duration: Option<int>, summary: string)
    requires forall i :: 0 <= i < |calls| ==> !HasProviderId(calls[i], callId)
    ensures CompleteByProviderId(calls, callId, endedAt, duration, summary) == calls
    ensures SingleRow(CompleteByProviderId(calls, callId, endedAt, duration, summary), callId).None?
  {
    var after := CompleteByProviderId(calls, callId, endedAt, duration, summary);
    assert after == calls;
    UnknownProviderIdHasNoRow(calls, callId);
  }

  // ---------------------------------------------------------------------
  // POST /end-call
  // ---------------------------------------------------------------------

  /** A present number always normalises to a non-empty text, so the raw number is never the fallback. */
  lemma NormalisedNumberPresent(phone: string)
    requires phone != ""
    ensures FormatToE164(phone, DefaultCountryCode).Some?
    ensures FormatToE164(phone, DefaultCountryCode).value != ""
  {
    assert DefaultCountryCode[1..] == "91";
    FormatShape(phone, DefaultCountryCode);
  }

  /**
   * `POST /end-call`: end the live call of the normalised number. Every
   * failure of the termination service, a missing configuration included,
   * is reported as 404.
   */
  method EndCall(client: Twilio.TwilioAccount?, phone: string, fault: Twilio.Fault) returns (reply: Reply<string>)
    modifies client
    ensures phone == "" ==> reply == Error(BadRequest, PhoneRequired) && (client != null ==> client.calls == old(client.calls))
    ensures phone != "" ==> reply.Ok? || reply.code == NotFoundStatus
    ensures phone != "" && client == null ==> reply == Error(NotFoundStatus, Twilio.ConfigMissing)
    ensures phone != "" && client != null ==>
      match Twilio.Search(old(client.calls), FormatToE164(phone, DefaultCountryCode).value, fault, 0)
      case Success(Some(c)) =>
        if fault.UpdateFails? then reply == Error(NotFoundStatus, fault.message) && client.calls == old(client.calls)
        else reply == Ok(c.sid) && client.calls == Twilio.CompleteCall(old(client.calls), c.sid)
      case Success(None) => reply == Error(NotFoundStatus, Twilio.NoActiveCall) && client.calls == old(client.calls)
      case Failure(message) => reply == Error(NotFoundStatus, message) && client.calls == old(client.calls)
    ensures phone != "" && client != null ==>
      client.calls == Twilio.AfterTermination(old(client.calls), FormatToE164(phone, DefaultCountryCode).value, fault)
  {
    if phone == "" {
      return Error(BadRequest, PhoneRequired);
    }
    NormalisedNumberPresent(phone);
    var formatted := FormatToE164(phone, DefaultCountryCode);
    var target := if formatted.Some? && formatted.value != "" then formatted.value else phone;
    var result := Twilio.EndCallByPhoneNumber(client, target, fault);
    match result
    case Ended(sid) => reply := Ok(sid);
    case NotEnded(error) => reply := Error(NotFoundStatus, error);
  }
}
