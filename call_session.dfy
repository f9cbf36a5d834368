/**
 * The dashboard's call centre (`LiveCallSimulator`): the component's state
 * as a class whose fields the handlers update, and the outbound-call body
 * it composes from the selected agent and the lead. The backend is reached
 * by calling the server's handlers directly, unless the transport fails.
 */
module CallSession {
  import opened Types
  import opened Text
  import opened Store
  import opened Ultravox
  import opened Server
  import Phone
  import Twilio

  // ---------------------------------------------------------------------
  // Request body
  // ---------------------------------------------------------------------

  const CustomerPlaceholder: string := "{customer_name}"
  const BusinessPlaceholder: string := "{business_name}"
  const TamilLanguageHint: string := "ta-IN"

  /** The first agent with the id. */
  function FindAgent(agents: seq<AgentConfig>, id: string): (r: Option<AgentConfig>)
    ensures r.None? <==> forall i :: 0 <= i < |agents| ==> agents[i].id != id
    ensures r.Some? ==> r.value.id == id && r.value in agents
    ensures r.Some? ==> exists k :: 0 <= k < |agents| && agents[k] == r.value && forall j :: 0 <= j < k ==> agents[j].id != id
    decreases |agents|
  {
    if agents == [] then None
    else if agents[0].id == id then Some(agents[0])
    else
      var r := FindAgent(agents[1..], id);
      if r.Some? then
        ghost var k :| 0 <= k < |agents[1..]| && agents[1..][k] == r.value
                       && forall j :: 0 <= j < k ==> agents[1..][j].id != id;
        assert agents[k + 1] == r.value;
        r
      else r
  }

  /** The agent's script with the first `{customer_name}` and then the first `{business_name}` filled in; `""` without an agent. */
  function PromptFor(agent: Option<AgentConfig>, lead: Lead): (r: string)
    ensures agent.None? ==> r == ""
    ensures agent.Some? ==>
              (!Contains(agent.value.script, CustomerPlaceholder) && !Contains(agent.value.script, BusinessPlaceholder)
               ==> r == agent.value.script)
  {
    match agent
    case None => ""
    case Some(a) => ReplaceFirst(ReplaceFirst(a.script, CustomerPlaceholder, lead.name), BusinessPlaceholder, lead.businessName)
  }

  /** The body `startCall` posts to `/outbound-call`; an undefined prompt is `""`. */
  function RequestBody(lead: Lead, agents: seq<AgentConfig>, selectedAgentId: string): (b: OutboundBody)
    ensures b.phoneNumber == lead.phone && b.leadId == lead.id && b.agentId == selectedAgentId
    ensures b.voice != ""
    ensures b.languageHint == TamilLanguageHint || b.languageHint == DefaultLanguageHint
    ensures b.languageHint == TamilLanguageHint <==>
              var a := FindAgent(agents, selectedAgentId); a.Some? && a.value.languageStyle == Some(FormalTamil)
  {
    var agent := FindAgent(agents, selectedAgentId);
    OutboundBody(
      lead.phone,
      lead.id,
      selectedAgentId,
      PromptFor(agent, lead),
      if agent.Some? && agent.value.voiceId != "" then agent.value.voiceId else DefaultVoice,
      if agent.Some? && agent.value.languageStyle == Some(FormalTamil) then TamilLanguageHint else DefaultLanguageHint)
  }

  /** The selected agent's voice is used when it has one, the default voice otherwise. */
  lemma RequestVoice(lead: Lead, agents: seq<AgentConfig>, selectedAgentId: string)
    ensures var a := FindAgent(agents, selectedAgentId);
            RequestBody(lead, agents, selectedAgentId).voice ==
              if a.Some? && a.value.voiceId != "" then a.value.voiceId else DefaultVoice
  {
  }

  /** A script without placeholders is sent as it is. */
  lemma PlainScriptSentVerbatim(lead: Lead, agent: AgentConfig)
    requires !Contains(agent.script, CustomerPlaceholder) && !Contains(agent.script, BusinessPlaceholder)
    ensures PromptFor(Some(agent), lead) == agent.script
  {
    ReplaceFirstAbsent(agent.script, CustomerPlaceholder, lead.name);
    ReplaceFirstAbsent(agent.script, BusinessPlaceholder, lead.businessName);
  }

  /** The first `{customer_name}` is replaced by the lead's name, the rest of the script kept around it. */
  lemma CustomerNameFilledIn(lead: Lead, agent: AgentConfig, i: nat)
    requires HasAt(agent.script, i, CustomerPlaceholder)
    requires forall j :: 0 <= j < i ==> !HasAt(agent.script, j, CustomerPlaceholder)
    requires var s := agent.script; !Contains(s[..i] + lead.name + s[i + |CustomerPlaceholder|..], BusinessPlaceholder)
    ensures var s := agent.script;
            PromptFor(Some(agent), lead) == s[..i] + lead.name + s[i + |CustomerPlaceholder|..]
  {
    var s := agent.script;
    ReplaceFirstAt(s, CustomerPlaceholder, lead.name, i);
    ReplaceFirstAbsent(s[..i] + lead.name + s[i + |CustomerPlaceholder|..], BusinessPlaceholder, lead.businessName);
  }

  /** Without a selected agent the backend falls back to its own prompt, the default voice and English. */
  lemma NoAgentUsesServerDefaults(lead: Lead, agents: seq<AgentConfig>, selectedAgentId: string, env: ServerEnv)
    requires FindAgent(agents, selectedAgentId).None?
    requires lead.phone != ""
    ensures var req := OutboundRequest(RequestBody(lead, agents, selectedAgentId), env);
            && req.systemPrompt == DefaultSystemPrompt
            && req.voice == ResolveVoice(DefaultVoice)
            && req.languageHint == DefaultLanguageHint
  {
  }

  // ---------------------------------------------------------------------
  // Component state
  // ---------------------------------------------------------------------

  /** Whether the browser reaches the backend at all. */
  datatype Transport = Reachable | Unreachable(message: string)

  /** What the backend, the voice provider and the database answer to one `/outbound-call` request. */
  datatype Backend = Backend(transport: Transport, env: ServerEnv, provider: CallRequest -> ProviderReply, insert: InsertOutcome)

  const ClientInitialSummary: string := "Call initiated"
  const ManualBusinessName: string := "Manual Call"
  const ManualNotes: string := "Manual call entry"

  function InitiatingLog(lead: Lead): string {
    "Initiating outbound call to " + (if lead.phone != "" then lead.phone else "Unknown") + " via Twilio..."
  }

  /** The log line for a refused call attempt, carrying the backend's error message. */
  function ErrorLog(message: string): string {
    "Error: " + message
  }

  /** The log line when the backend cannot be reached; `message` is the exception as rendered in a template. */
  function BackendFailedLog(message: string): string {
    "Backend Connection Failed: " + message
  }

  function ManualLeadLog(name: string): string {
    "Creating manual lead for " + name + "..."
  }

  /** The row the client logs before dispatch; the database assigns its id. */
  function ClientRow(lead: Lead, now: string): CallRow {
    CallRow("", lead.id, None, now, None, None, Ongoing, ClientInitialSummary)
  }

  /** The lead `handleManualCall` creates from the form. */
  function ManualLead(name: string, phone: string, businessName: string): (l: Lead)
    ensures l.status == New && l.source == Some(Manual)
    ensures l.name == name && l.phone == phone
    ensures l.businessName == if businessName != "" then businessName else ManualBusinessName
  {
    Lead("", name, if businessName != "" then businessName else ManualBusinessName, Some(""), phone, "",
         New, Some(ManualNotes), Some(Manual))
  }

  /** The backend answers 200 to the call attempt. */
  predicate Accepted(lead: Lead, agents: seq<AgentConfig>, selectedAgentId: string, backend: Backend) {
    backend.transport.Reachable? && OutboundAccepted(RequestBody(lead, agents, selectedAgentId), backend.env, backend.provider)
  }

  /** The provider's id for an accepted call attempt. */
  function CreatedCallId(lead: Lead, agents: seq<AgentConfig>, selectedAgentId: string, backend: Backend): string
    requires Accepted(lead, agents, selectedAgentId, backend)
  {
    backend.provider(OutboundRequest(RequestBody(lead, agents, selectedAgentId), backend.env)).callId
  }

  /** The backend's error message for a reachable attempt; empty exactly when the call is accepted. */
  function RefusalMessage(lead: Lead, agents: seq<AgentConfig>, selectedAgentId: string, backend: Backend): (m: string)
    requires backend.transport.Reachable?
    ensures m == "" <==> Accepted(lead, agents, selectedAgentId, backend)
  {
    OutboundError(RequestBody(lead, agents, selectedAgentId), backend.env, backend.provider)
  }

  /**
   * The line logged once the attempt is answered: the provider's call id
   * when accepted, the backend's error message when refused, the
   * exception when the backend cannot be reached.
   */
  function OutcomeLog(lead: Lead, agents: seq<AgentConfig>, selectedAgentId: string, backend: Backend): string {
    match backend.transport
    case Unreachable(message) => BackendFailedLog(message)
    case Reachable =>
      if Accepted(lead, agents, selectedAgentId, backend)
      then "Call Initiated! SID: " + CreatedCallId(lead, agents, selectedAgentId, backend)
      else ErrorLog(RefusalMessage(lead, agents, selectedAgentId, backend))
  }

  /** The row the backend logs for the attempt: one when it is accepted and its insert succeeds. */
  function ServerRows(lead: Lead, agents: seq<AgentConfig>, selectedAgentId: string, backend: Backend, now: string): seq<CallRow> {
    if Accepted(lead, agents, selectedAgentId, backend) && backend.insert.Inserted? then
      [CallRow(backend.insert.id, lead.id, Some(CreatedCallId(lead, agents, selectedAgentId, backend)),
               now, None, None, Ongoing, InitialSummary)]
    else []
  }

  class LiveCallSimulator {
    var connected: bool
    var speaking: bool
    var connecting: bool
    var activeLead: Option<Lead>
    var selectedAgentId: string
    /** The session log, oldest first; timestamps are not modelled. */
    var logs: seq<string>
    var currentCallId: Option<string>
    var showManualCallModal: bool
    var manualName: string
    var manualPhone: string
    var manualBusinessName: string

    constructor (agents: seq<AgentConfig>)
      ensures !connected && !speaking && !connecting && activeLead.None?
      ensures selectedAgentId == if |agents| > 0 then agents[0].id else ""
      ensures logs == [] && currentCallId.None?
      ensures !showManualCallModal && manualName == "" && manualPhone == "" && manualBusinessName == ""
    {
      connected, speaking, connecting := false, false, false;
      activeLead := None;
      selectedAgentId := if |agents| > 0 then agents[0].id else "";
      logs := [];
      currentCallId := None;
      showManualCallModal := false;
      manualName, manualPhone, manualBusinessName := "", "", "";
    }

    /** The selection effect: an id no agent has is replaced by the first agent's. */
    method SyncSelectedAgent(agents: seq<AgentConfig>)
      modifies this`selectedAgentId
      ensures |agents| > 0 ==> FindAgent(agents, selectedAgentId).Some?
      ensures FindAgent(agents, old(selectedAgentId)).Some? ==> selectedAgentId == old(selectedAgentId)
      ensures |agents| == 0 ==> selectedAgentId == old(selectedAgentId)
      ensures |agents| > 0 && FindAgent(agents, old(selectedAgentId)).None? ==> selectedAgentId == agents[0].id
    {
      if |agents| > 0 && FindAgent(agents, selectedAgentId).None? {
        selectedAgentId := agents[0].id;
      }
    }

    /**
     * `startCall(lead)`: log an `ongoing` row, then ask the backend to
     * dial. The lead stays active whatever happens; only a 200 connects.
     */
    method StartCall(lead: Lead, agents: seq<AgentConfig>, db: Database, now: string,
                     logOutcome: InsertOutcome, backend: Backend)
      modifies this`activeLead, this`connecting, this`connected, this`logs, this`currentCallId, db
      ensures activeLead == Some(lead) && !connecting
      ensures connected == (Accepted(lead, agents, selectedAgentId, backend) || old(connected))
      ensures db.leads == old(db.leads)
      ensures db.calls == old(db.calls)
                          + (if logOutcome.Inserted? then [ClientRow(lead, now).(id := logOutcome.id)] else [])
                          + ServerRows(lead, agents, selectedAgentId, backend, now)
      ensures |logs| == |old(logs)| + 2
      ensures logs[..|old(logs)| + 1] == old(logs) + [InitiatingLog(lead)]
      ensures logs[|logs| - 1] == OutcomeLog(lead, agents, selectedAgentId, backend)
      ensures currentCallId == match logOutcome
                               case Inserted(id) => if id != "" then Some(id) else None
                               case InsertFailed(_) => old(currentCallId)
    {
      activeLead := Some(lead);
      connecting := true;
      logs := logs + [InitiatingLog(lead)];
      var logged := db.InsertCall(ClientRow(lead, now), logOutcome);
      if logged.Some? {
        currentCallId := if logged.value != "" then logged else None;
      }
      Dispatch(lead, agents, db, now, backend);
    }

    /** The backend half of `startCall`: the request and its outcome. */
    method Dispatch(lead: Lead, agents: seq<AgentConfig>, db: Database, now: string, backend: Backend)
      modifies this`connecting, this`connected, this`logs, db
      ensures !connecting
      ensures connected == (Accepted(lead, agents, selectedAgentId, backend) || old(connected))
      ensures db.leads == old(db.leads)
      ensures db.calls == old(db.calls) + ServerRows(lead, agents, selectedAgentId, backend, now)
      ensures |logs| == |old(logs)| + 1 && logs[..|old(logs)|] == old(logs)
      ensures logs[|logs| - 1] == OutcomeLog(lead, agents, selectedAgentId, backend)
    {
      match backend.transport
      case Unreachable(message) =>
        logs := logs + [BackendFailedLog(message)];
        connecting := false;
      case Reachable =>
        var reply := Post(lead, agents, db, now, backend);
        match reply
        case Ok(initiated) =>
          logs := logs + ["Call Initiated! SID: " + initiated.callSid];
          connecting, connected := false, true;
        case Error(_, message) =>
          logs := logs + [ErrorLog(message)];
          connecting := false;
    }

    /** The `/outbound-call` request `startCall` sends for the lead, and the backend's reply to it. */
    method Post(lead: Lead, agents: seq<AgentConfig>, db: Database, now: string, backend: Backend)
      returns (reply: Reply<Initiated>)
      requires backend.transport.Reachable?
      modifies db
      ensures reply.Ok? <==> Accepted(lead, agents, selectedAgentId, backend)
      ensures reply.Ok? ==> reply.value.callSid == CreatedCallId(lead, agents, selectedAgentId, backend)
      ensures reply.Error? ==> reply.message == RefusalMessage(lead, agents, selectedAgentId, backend)
      ensures db.leads == old(db.leads)
      ensures db.calls == old(db.calls) + ServerRows(lead, agents, selectedAgentId, backend, now)
    {
      var sent;
      sent, reply := OutboundCall(db, RequestBody(lead, agents, selectedAgentId), backend.env, now,
                                  backend.provider, backend.insert);
    }

    /**
     * `finalizeCall`: reset the call state and, when a row was logged,
     * complete it with the log of the render the handler belongs to.
     */
    method FinalizeCall(db: Database, now: string, updateOk: bool, renderedLogs: seq<string>)
      modifies this`connected, this`speaking, this`connecting, this`activeLead, db
      ensures !connected && !speaking && !connecting && activeLead.None?
      ensures db.calls == if currentCallId.Some? && currentCallId.value != "" && updateOk
                          then CompleteById(old(db.calls), currentCallId.value, now, Join(renderedLogs, "\n"))
                          else old(db.calls)
      ensures db.leads == old(db.leads)
    {
      connected, speaking, connecting := false, false, false;
      activeLead := None;
      if currentCallId.Some? && currentCallId.value != "" {
        db.CompleteCallRow(currentCallId.value, now, Join(renderedLogs, "\n"), updateOk);
      }
    }

    /**
     * `endCall`: ask the backend to end the active lead's call when the
     * lead has a number, then finalize whether or not that worked. The
     * summary is the log as it was when the handler started.
     */
    method EndCall(db: Database, client: Twilio.TwilioAccount?, fault: Twilio.Fault, transport: Transport,
                   now: string, updateOk: bool)
      modifies this`connected, this`speaking, this`connecting, this`activeLead, this`logs, db, client
      ensures var sends := old(activeLead).Some? && old(activeLead).value.phone != "";
              && logs == old(logs) + ["Ending call session..."]
                         + (if sends && transport.Reachable? then ["Call termination validation sent."] else [])
              && (client != null ==>
                    client.calls == if sends && transport.Reachable?
                                    then Twilio.AfterTermination(old(client.calls),
                                           Phone.FormatToE164(old(activeLead).value.phone, Phone.DefaultCountryCode).value, fault)
                                    else old(client.calls))
      ensures !connected && !speaking && !connecting && activeLead.None?
      ensures db.calls == if currentCallId.Some? && currentCallId.value != "" && updateOk
                          then CompleteById(old(db.calls), currentCallId.value, now, Join(old(logs), "\n"))
                          else old(db.calls)
      ensures db.leads == old(db.leads)
    {
      var renderedLogs := logs;
      logs := logs + ["Ending call session..."];
      if activeLead.Some? && activeLead.value.phone != "" {
        if transport.Reachable? {
          var _ := Server.EndCall(client, activeLead.value.phone, fault);
          logs := logs + ["Call termination validation sent."];
        }
      }
      FinalizeCall(db, now, updateOk, renderedLogs);
    }

    /**
     * `handleManualCall`: without a name and a number nothing happens;
     * otherwise a `New` manual lead is stored and, once stored, called.
     */
    method HandleManualCall(agents: seq<AgentConfig>, db: Database, now: string, leadOutcome: InsertOutcome,
                            logOutcome: InsertOutcome, backend: Backend)
      modifies this`activeLead, this`connecting, this`connected, this`logs, this`currentCallId
      modifies this`showManualCallModal, this`manualName, this`manualPhone, this`manualBusinessName, db
      ensures old(manualName) == "" || old(manualPhone) == "" ==>
        unchanged(this) && unchanged(db)
      ensures old(manualName) != "" && old(manualPhone) != "" ==>
        var lead := ManualLead(old(manualName), old(manualPhone), old(manualBusinessName));
        match leadOutcome
        case Inserted(id) =>
          && db.leads == old(db.leads)[id := lead.(id := id)]
          && activeLead == Some(lead.(id := id))
          && !showManualCallModal && manualName == "" && manualPhone == "" && manualBusinessName == ""
          && selectedAgentId == old(selectedAgentId)
          && |logs| == |old(logs)| + 3
          && logs[..|old(logs)| + 2] == old(logs) + [ManualLeadLog(old(manualName)), InitiatingLog(lead.(id := id))]
        case InsertFailed(_) =>
          && db.leads == old(db.leads) && db.calls == old(db.calls)
          && logs == old(logs) + [ManualLeadLog(old(manualName))]
          && activeLead == old(activeLead) && selectedAgentId == old(selectedAgentId)
          && connected == old(connected) && connecting == old(connecting) && speaking == old(speaking)
          && currentCallId == old(currentCallId)
          && showManualCallModal == old(showManualCallModal)
          && manualName == old(manualName) && manualPhone == old(manualPhone)
          && manualBusinessName == old(manualBusinessName)
    {
      if manualName == "" || manualPhone == "" {
        return;
      }
      logs := logs + [ManualLeadLog(manualName)];
      var lead := ManualLead(manualName, manualPhone, manualBusinessName);
      var stored := db.InsertLead(lead, leadOutcome);
      if stored.Some? {
        CallStoredLead(stored.value, agents, db, now, logOutcome, backend);
      }
    }

    /** The tail of `handleManualCall` once the lead is stored: close and clear the form, then call the lead. */
    method CallStoredLead(lead: Lead, agents: seq<AgentConfig>, db: Database, now: string,
                          logOutcome: InsertOutcome, backend: Backend)
      modifies this`activeLead, this`connecting, this`connected, this`logs, this`currentCallId
      modifies this`showManualCallModal, this`manualName, this`manualPhone, this`manualBusinessName, db
      ensures activeLead == Some(lead)
      ensures !showManualCallModal && manualName == "" && manualPhone == "" && manualBusinessName == ""
      ensures |logs| == |old(logs)| + 2 && logs[..|old(logs)| + 1] == old(logs) + [InitiatingLog(lead)]
      ensures db.leads == old(db.leads)
    {
      StartCall(lead, agents, db, now, logOutcome, backend);
      showManualCallModal := false;
      manualName, manualPhone, manualBusinessName := "", "", "";
    }
  }
}
