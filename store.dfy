/**
 * The database both the backend and the dashboard write to: the `calls`
 * table as a sequence of rows in insertion order and the `leads` table as
 * a map from id to lead. Whether a write succeeds is decided by the
 * caller's outcome parameter; a failed write changes nothing.
 */
module Store {
  import opened Types

  /** One row of the `calls` table. */
  datatype CallRow = CallRow(
    id: string,
    leadId: string,
    ultravoxCallId: Option<string>,
    startedAt: string,
    endedAt: Option<string>,
    durationSeconds: Option<int>,
    status: CallStatus,
    summary: string)

  /** What the database answers to an insert: the generated id, or an error. */
  datatype InsertOutcome = Inserted(id: string) | InsertFailed(message: string)

  // ---------------------------------------------------------------------
  // Row-set functions
  // ---------------------------------------------------------------------

  predicate HasProviderId(row: CallRow, callId: string) {
    row.ultravoxCallId == Some(callId)
  }

  /** The rows `.eq('ultravox_call_id', callId)` selects, in table order. */
  function ProviderIdRows(calls: seq<CallRow>, callId: string): (r: seq<CallRow>)
    ensures |r| <= |calls|
    ensures forall i :: 0 <= i < |r| ==> r[i] in calls && HasProviderId(r[i], callId)
    ensures forall i :: 0 <= i < |calls| && HasProviderId(calls[i], callId) ==> calls[i] in r
    decreases |calls|
  {
    if calls == [] then []
    else (if HasProviderId(calls[0], callId) then [calls[0]] else []) + ProviderIdRows(calls[1..], callId)
  }

  /** `.select().eq('ultravox_call_id', callId).single()`: a row only when exactly one matches. */
  function SingleRow(calls: seq<CallRow>, callId: string): (r: Option<CallRow>)
    ensures r.Some? <==> |ProviderIdRows(calls, callId)| == 1
    ensures r.Some? ==> r.value in calls && HasProviderId(r.value, callId)
  {
    var rows := ProviderIdRows(calls, callId);
    if |rows| == 1 then Some(rows[0]) else None
  }

  /** A provider id no row carries selects no row. */
  lemma UnknownProviderIdHasNoRow(calls: seq<CallRow>, callId: string)
    requires forall i :: 0 <= i < |calls| ==> !HasProviderId(calls[i], callId)
    ensures ProviderIdRows(calls, callId) == [] && SingleRow(calls, callId).None?
  {
  }

  /** Every row of the call is completed with the given end, duration and summary; the others are unchanged. */
  function CompleteByProviderId(calls: seq<CallRow>, callId: string, endedAt: string, duration: Option<int>, summary: string): (r: seq<CallRow>)
    ensures |r| == |calls|
    ensures forall i :: 0 <= i < |calls| ==>
      if HasProviderId(calls[i], callId) then
        r[i] == calls[i].(endedAt := Some(endedAt), durationSeconds := duration, status := Completed, summary := summary)
      else r[i] == calls[i]
  {
    seq(|calls|, i requires 0 <= i < |calls| =>
      if HasProviderId(calls[i], callId)
      then calls[i].(endedAt := Some(endedAt), durationSeconds := duration, status := Completed, summary := summary)
      else calls[i])
  }

  /** The rows with database id `id` are completed with the given end and summary; the others are unchanged. */
  function CompleteById(calls: seq<CallRow>, id: string, endedAt: string, summary: string): (r: seq<CallRow>)
    ensures |r| == |calls|
    ensures forall i :: 0 <= i < |calls| ==>
      if calls[i].id == id then r[i] == calls[i].(endedAt := Some(endedAt), status := Completed, summary := summary)
      else r[i] == calls[i]
  {
    seq(|calls|, i requires 0 <= i < |calls| =>
      if calls[i].id == id then calls[i].(endedAt := Some(endedAt), status := Completed, summary := summary)
      else calls[i])
  }

  /** Completing rows never adds, drops or reorders rows, and keeps which provider call and lead each row belongs to. */
  lemma CompletionKeepsIdentity(calls: seq<CallRow>, callId: string, endedAt: string, duration: Option<int>, summary: string, i: nat)
    requires i < |calls|
    ensures var after := CompleteByProviderId(calls, callId, endedAt, duration, summary)[i];
            && after.id == calls[i].id && after.leadId == calls[i].leadId
            && after.ultravoxCallId == calls[i].ultravoxCallId && after.startedAt == calls[i].startedAt
  {
  }

  // ---------------------------------------------------------------------
  // The database
  // ---------------------------------------------------------------------

  class Database {
    var calls: seq<CallRow>
    var leads: map<string, Lead>

    constructor (calls: seq<CallRow>, leads: map<string, Lead>)
      ensures this.calls == calls && this.leads == leads
    {
      this.calls := calls;
      this.leads := leads;
    }

    /** `insert(row)`: on success the row is appended under the generated id. */
    method InsertCall(row: CallRow, outcome: InsertOutcome) returns (id: Option<string>)
      modifies this
      ensures outcome.Inserted? ==> calls == old(calls) + [row.(id := outcome.id)] && id == Some(outcome.id)
      ensures outcome.InsertFailed? ==> calls == old(calls) && id == None
      ensures leads == old(leads)
    {
      match outcome
      case Inserted(newId) =>
        calls := calls + [row.(id := newId)];
        id := Some(newId);
      case InsertFailed(_) =>
        id := None;
    }

    /** `update({...}).eq('ultravox_call_id', callId)` on the calls table. */
    method CompleteProviderCall(callId: string, endedAt: string, duration: Option<int>, summary: string, ok: bool)
      modifies this
      ensures calls == if ok then CompleteByProviderId(old(calls), callId, endedAt, duration, summary) else old(calls)
      ensures leads == old(leads)
    {
      if ok {
        calls := CompleteByProviderId(calls, callId, endedAt, duration, summary);
      }
    }

    /** `update({...}).eq('id', id)` on the calls table. */
    method CompleteCallRow(id: string, endedAt: string, summary: string, ok: bool)
      modifies this
      ensures calls == if ok then CompleteById(old(calls), id, endedAt, summary) else old(calls)
      ensures leads == old(leads)
    {
      if ok {
        calls := CompleteById(calls, id, endedAt, summary);
      }
    }

    /** `update({status, notes}).eq('id', id)` on the leads table: no lead has the id, nothing changes. */
    method UpdateLead(id: string, status: LeadStatus, notes: string, ok: bool)
      modifies this
      ensures leads == if ok && id in old(leads)
                       then old(leads)[id := old(leads)[id].(status := status, notes := Some(notes))]
                       else old(leads)
      ensures calls == old(calls)
    {
      if ok && id in leads {
        leads := leads[id := leads[id].(status := status, notes := Some(notes))];
      }
    }

    /** `insert(lead)` on the leads table: on success the lead is stored under the generated id and returned. */
    method InsertLead(lead: Lead, outcome: InsertOutcome) returns (stored: Option<Lead>)
      modifies this
      ensures outcome.Inserted? ==> stored == Some(lead.(id := outcome.id)) && leads == old(leads)[outcome.id := stored.value]
      ensures outcome.InsertFailed? ==> stored == None && leads == old(leads)
      ensures calls == old(calls)
    {
      match outcome
      case Inserted(newId) =>
        stored := Some(lead.(id := newId));
        leads := leads[newId := stored.value];
      case InsertFailed(_) =>
        stored := None;
    }
  }
}
