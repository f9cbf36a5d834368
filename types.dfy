/**
 * Shared entities of the lead-generation dashboard: the records the
 * frontend and the backend pass around, and the small wrappers used for
 * optional values and error results.
 */
module Types {

  datatype Option<+T> = None | Some(value: T) {
    /** JavaScript's `x || fallback` on an optional value. */
    function GetOr(fallback: T): T {
      match this
      case Some(v) => v
      case None => fallback
    }
  }

  datatype Result<+T, +E> = Success(value: T) | Failure(error: E)

  /** Pipeline position of a lead. */
  datatype LeadStatus = New | Contacted | Interested | NotInterested | Scheduled

  /** Where a lead came from. */
  datatype LeadSource = Maps | Manual | Upload

  datatype Lead = Lead(
    id: string,
    name: string,
    businessName: string,
    address: Option<string>,
    phone: string,
    email: string,
    status: LeadStatus,
    notes: Option<string>,
    source: Option<LeadSource>)

  datatype Tone = Friendly | Professional | Assertive

  datatype LanguageStyle = Tanglish | FormalTamil | CasualChennai

  /** An agent persona; `script` may hold `{customer_name}` and `{business_name}`. */
  datatype AgentConfig = AgentConfig(
    id: string,
    name: string,
    tone: Tone,
    script: string,
    voiceId: string,
    languageStyle: Option<LanguageStyle>)

  datatype CallStatus = Completed | Missed | Failed | Ongoing

  /** One row of the call history as the history screen receives it. */
  datatype CallHistoryItem = CallHistoryItem(
    id: string,
    ultravoxCallId: Option<string>,
    startedAt: string,
    durationSeconds: nat,
    summary: Option<string>,
    status: CallStatus,
    agentName: Option<string>,
    leadName: Option<string>,
    leadBusiness: Option<string>)
}
