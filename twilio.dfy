/**
 * Ending a live call by phone number (`endCallByPhoneNumber`): the
 * telephony account's calls are searched by status in a fixed priority
 * order, and the first call to or from the number is set to completed.
 * The account is a class whose call list the termination updates; the
 * provider's failures are a parameter.
 */
module Twilio {
  import opened Types

  /** Telephony leg states; `Other` stands for busy, failed, no-answer and canceled. */
  datatype LegStatus = Queued | Ringing | InProgress | Completed | Other

  datatype ProviderCall = ProviderCall(sid: string, to: string, from: string, status: LegStatus)

  /** The calls of the telephony account, most recent first, as the provider lists them. */
  class TwilioAccount {
    var calls: seq<ProviderCall>

    constructor (calls: seq<ProviderCall>)
      ensures this.calls == calls
    {
      this.calls := calls;
    }
  }

  /** Where the provider fails, if anywhere: listing one status, or the final update. */
  datatype Fault = NoFault | ListFails(at: LegStatus, message: string) | UpdateFails(message: string)

  datatype TerminationResult = Ended(callSid: string) | NotEnded(error: string)

  const ConfigMissing: string := "Twilio configuration missing"
  const NoActiveCall: string := "No active call found"

  /** The statuses searched, in priority order. */
  const StatusesToCheck: seq<LegStatus> := [InProgress, Ringing, Queued]

  /** The page size of each listing. */
  const ListLimit: nat := 20

  /** The calls with status `st`, in account order. */
  function WithStatus(calls: seq<ProviderCall>, st: LegStatus): (r: seq<ProviderCall>)
    ensures |r| <= |calls|
    ensures forall i :: 0 <= i < |r| ==> r[i] in calls && r[i].status == st
    decreases |calls|
  {
    if calls == [] then []
    else (if calls[0].status == st then [calls[0]] else []) + WithStatus(calls[1..], st)
  }

  /** `client.calls.list({status, limit: 20})`. */
  function Listed(calls: seq<ProviderCall>, st: LegStatus): (r: seq<ProviderCall>)
    ensures |r| <= ListLimit
    ensures forall i :: 0 <= i < |r| ==> r[i] in calls && r[i].status == st
  {
    var all := WithStatus(calls, st);
    if |all| <= ListLimit then all else all[..ListLimit]
  }

  predicate Party(c: ProviderCall, phone: string) {
    c.to == phone || c.from == phone
  }

  /** The index of the first listed call to or from `phone`. */
  function FindParty(list: seq<ProviderCall>, phone: string): (r: Option<nat>)
    ensures r.Some? ==> r.value < |list| && Party(list[r.value], phone)
    ensures r.Some? ==> forall j :: 0 <= j < r.value ==> !Party(list[j], phone)
    ensures r.None? ==> forall j :: 0 <= j < |list| ==> !Party(list[j], phone)
    decreases |list|
  {
    if list == [] then None
    else if Party(list[0], phone) then Some(0)
    else match FindParty(list[1..], phone)
      case None => None
      case Some(j) => Some(j + 1)
  }

  /**
   * The search from the `k`-th status on: a listing failure ends it with
   * that failure's message, the first status holding a call of `phone`
   * gives its first such call.
   */
  function Search(calls: seq<ProviderCall>, phone: string, fault: Fault, k: nat): (r: Result<Option<ProviderCall>, string>)
    ensures r.Success? && r.value.Some? ==>
      r.value.value in calls && r.value.value.status in StatusesToCheck && Party(r.value.value, phone)
    decreases |StatusesToCheck| - k
  {
    if k >= |StatusesToCheck| then Success(None)
    else if fault.ListFails? && fault.at == StatusesToCheck[k] then Failure(fault.message)
    else
      var list := Listed(calls, StatusesToCheck[k]);
      match FindParty(list, phone)
      case Some(i) => Success(Some(list[i]))
      case None => Search(calls, phone, fault, k + 1)
  }

  /** The account after the update by sid: that call is completed, every other call unchanged. */
  function CompleteCall(calls: seq<ProviderCall>, sid: string): (r: seq<ProviderCall>)
    ensures |r| == |calls|
    ensures forall i :: 0 <= i < |calls| ==>
      r[i] == if calls[i].sid == sid then calls[i].(status := LegStatus.Completed) else calls[i]
  {
    seq(|calls|, i requires 0 <= i < |calls| =>
      if calls[i].sid == sid then calls[i].(status := LegStatus.Completed) else calls[i])
  }

  /** The account's calls after a termination request for `phone`: changed only when a call is found and the update succeeds. */
  function AfterTermination(calls: seq<ProviderCall>, phone: string, fault: Fault): (r: seq<ProviderCall>)
    ensures |r| == |calls|
    ensures r != calls ==> !fault.UpdateFails? && Search(calls, phone, fault, 0).Success?
  {
    match Search(calls, phone, fault, 0)
    case Success(Some(c)) => if fault.UpdateFails? then calls else CompleteCall(calls, c.sid)
    case _ => calls
  }

  /**
   * `endCallByPhoneNumber(phone)`. A null `client` is an account with no
   * credentials configured. Every failure is returned, none is thrown.
   */
  method EndCallByPhoneNumber(client: TwilioAccount?, phone: string, fault: Fault) returns (r: TerminationResult)
    modifies client
    ensures client == null ==> r == NotEnded(ConfigMissing)
    ensures client != null ==>
      match Search(old(client.calls), phone, fault, 0)
      case Failure(message) => r == NotEnded(message) && client.calls == old(client.calls)
      case Success(None) => r == NotEnded(NoActiveCall) && client.calls == old(client.calls)
      case Success(Some(c)) =>
        if fault.UpdateFails? then r == NotEnded(fault.message) && client.calls == old(client.calls)
        else r == Ended(c.sid) && client.calls == CompleteCall(old(client.calls), c.sid)
    ensures client != null ==> client.calls == AfterTermination(old(client.calls), phone, fault)
  {
    if client == null {
      return NotEnded(ConfigMissing);
    }
    var activeCall: Option<ProviderCall> := None;
    var k := 0;
    while k < |StatusesToCheck|
      invariant 0 <= k <= |StatusesToCheck|
      invariant activeCall.None?
      invariant Search(client.calls, phone, fault, 0) == Search(client.calls, phone, fault, k)
    {
      var status := StatusesToCheck[k];
      if fault.ListFails? && fault.at == status {
        assert Search(client.calls, phone, fault, k) == Failure(fault.message);
        return NotEnded(fault.message);
      }
      var list := Listed(client.calls, status);
      var found := FindParty(list, phone);
      if found.Some? {
        activeCall := Some(list[found.value]);
        assert Search(client.calls, phone, fault, k) == Success(activeCall);
        break;
      }
      assert Search(client.calls, phone, fault, k) == Search(client.calls, phone, fault, k + 1);
      k := k + 1;
    }
    if activeCall.None? {
      assert Search(client.calls, phone, fault, k) == Success(None);
      return NotEnded(NoActiveCall);
    }
    if fault.UpdateFails? {
      return NotEnded(fault.message);
    }
    client.calls := CompleteCall(client.calls, activeCall.value.sid);
    r := Ended(activeCall.value.sid);
  }

  // ---------------------------------------------------------------------
  // Properties of the search
  // ---------------------------------------------------------------------

  /** A listed call of `phone` with status `st`. */
  predicate ListedParty(calls: seq<ProviderCall>, st: LegStatus, phone: string) {
    FindParty(Listed(calls, st), phone).Some?
  }

  /**
   * The priority order: the call chosen is the first of its status's
   * listing, and no call of the number is listed under a status searched
   * before it.
   */
  lemma SearchPriority(calls: seq<ProviderCall>, phone: string, c: ProviderCall)
    requires Search(calls, phone, NoFault, 0) == Success(Some(c))
    ensures var list := Listed(calls, c.status);
            FindParty(list, phone).Some? && list[FindParty(list, phone).value] == c
    ensures c.status == Ringing ==> !ListedParty(calls, InProgress, phone)
    ensures c.status == Queued ==> !ListedParty(calls, InProgress, phone) && !ListedParty(calls, Ringing, phone)
  {
    var s1 := Search(calls, phone, NoFault, 1);
    var s2 := Search(calls, phone, NoFault, 2);
    var s3 := Search(calls, phone, NoFault, 3);
    assert s3 == Success(None);
    if ListedParty(calls, InProgress, phone) {
      assert Search(calls, phone, NoFault, 0) == Success(Some(Listed(calls, InProgress)[FindParty(Listed(calls, InProgress), phone).value]));
    } else if ListedParty(calls, Ringing, phone) {
      assert Search(calls, phone, NoFault, 0) == s1;
    } else {
      assert Search(calls, phone, NoFault, 0) == s1 == s2;
    }
  }

  /** Without provider failures, nothing is found exactly when no listed in-progress, ringing or queued call is to or from the number. */
  lemma SearchFindsNothing(calls: seq<ProviderCall>, phone: string)
    ensures Search(calls, phone, NoFault, 0) == Success(None) <==>
      !ListedParty(calls, InProgress, phone) && !ListedParty(calls, Ringing, phone) && !ListedParty(calls, Queued, phone)
  {
    assert Search(calls, phone, NoFault, 3) == Success(None);
  }

  /** Completing a call changes its status only, and no other call. */
  lemma CompleteCallChangesOnlyTarget(calls: seq<ProviderCall>, sid: string, i: nat)
    requires i < |calls|
    ensures var after := CompleteCall(calls, sid)[i];
            && after.sid == calls[i].sid && after.to == calls[i].to && after.from == calls[i].from
            && (calls[i].sid == sid ==> after.status == LegStatus.Completed)
            && (calls[i].sid != sid ==> after == calls[i])
  {
  }
}
