/**
 * The dashboard's top-level state: the lead, agent and call lists it
 * loaded from the database, one loading flag per list, and the handlers
 * that call the database service and then update a list. A handler whose
 * service call throws leaves its list as it was; the outcome of each
 * service call is a parameter.
 */
module App {
  import opened Types

  // ---------------------------------------------------------------------
  // List transforms
  // ---------------------------------------------------------------------

  /** The leads with the given id get the new status; the others are kept as they are. */
  function SetStatus(leads: seq<Lead>, id: string, status: LeadStatus): (r: seq<Lead>)
    ensures |r| == |leads|
    ensures forall i :: 0 <= i < |leads| ==>
      r[i] == if leads[i].id == id then leads[i].(status := status) else leads[i]
    decreases |leads|
  {
    if leads == [] then []
    else [if leads[0].id == id then leads[0].(status := status) else leads[0]] + SetStatus(leads[1..], id, status)
  }

  /** Every agent with the new agent's id is replaced by it. */
  function ReplaceById(agents: seq<AgentConfig>, agent: AgentConfig): (r: seq<AgentConfig>)
    ensures |r| == |agents|
    ensures forall i :: 0 <= i < |agents| ==> r[i] == if agents[i].id == agent.id then agent else agents[i]
    decreases |agents|
  {
    if agents == [] then []
    else [if agents[0].id == agent.id then agent else agents[0]] + ReplaceById(agents[1..], agent)
  }

  /** The agents whose id differs from `id`, in order. */
  function RemoveById(agents: seq<AgentConfig>, id: string): (r: seq<AgentConfig>)
    ensures |r| <= |agents|
    decreases |agents|
  {
    if agents == [] then []
    else (if agents[0].id == id then [] else [agents[0]]) + RemoveById(agents[1..], id)
  }

  /** The ids of a lead list, in order. */
  function LeadIds(leads: seq<Lead>): (r: seq<string>)
    ensures |r| == |leads|
    ensures forall i :: 0 <= i < |leads| ==> r[i] == leads[i].id
  {
    seq(|leads|, i requires 0 <= i < |leads| => leads[i].id)
  }

  // ---------------------------------------------------------------------
  // Properties of the transforms
  // ---------------------------------------------------------------------

  /**
   * A status update changes the status of the leads with that id and
   * nothing else: the ids and their order, and every other field of every
   * lead, are kept.
   */
  lemma SetStatusChangesOnlyStatus(leads: seq<Lead>, id: string, status: LeadStatus)
    ensures LeadIds(SetStatus(leads, id, status)) == LeadIds(leads)
    ensures forall i :: 0 <= i < |leads| ==>
      SetStatus(leads, id, status)[i].(status := leads[i].status) == leads[i]
    ensures forall i :: 0 <= i < |leads| && leads[i].id == id ==> SetStatus(leads, id, status)[i].status == status
  {
  }

  /** Updating a status twice to the same value is the same as once. */
  lemma {:induction false} SetStatusIdempotent(leads: seq<Lead>, id: string, status: LeadStatus)
    ensures SetStatus(SetStatus(leads, id, status), id, status) == SetStatus(leads, id, status)
    decreases |leads|
  {
    if leads != [] {
      SetStatusIdempotent(leads[1..], id, status);
      assert SetStatus(leads, id, status)[1..] == SetStatus(leads[1..], id, status);
    }
  }

  /** A status update for an id no lead carries leaves the list as it was. */
  lemma {:induction false} SetStatusUnknownId(leads: seq<Lead>, id: string, status: LeadStatus)
    requires forall i :: 0 <= i < |leads| ==> leads[i].id != id
    ensures SetStatus(leads, id, status) == leads
    decreases |leads|
  {
    if leads != [] {
      SetStatusUnknownId(leads[1..], id, status);
      assert leads == [leads[0]] + leads[1..];
    }
  }

  /** After a replacement, an agent with the replaced id is the new agent, and the list holds it whenever it held that id. */
  lemma ReplaceByIdInstalls(agents: seq<AgentConfig>, agent: AgentConfig)
    ensures forall a :: a in ReplaceById(agents, agent) && a.id == agent.id ==> a == agent
    ensures (exists i :: 0 <= i < |agents| && agents[i].id == agent.id) <==> agent in ReplaceById(agents, agent)
  {
    var r := ReplaceById(agents, agent);
    if agent in r {
      var i :| 0 <= i < |r| && r[i] == agent;
      assert agents[i].id == agent.id;
    }
  }

  /** Removal keeps exactly the agents with another id. */
  lemma {:induction false} RemoveByIdKeeps(agents: seq<AgentConfig>, id: string)
    ensures forall a :: a in RemoveById(agents, id) <==> a in agents && a.id != id
    decreases |agents|
  {
    if agents != [] {
      RemoveByIdKeeps(agents[1..], id);
      assert forall a :: a in agents <==> a == agents[0] || a in agents[1..];
    }
  }

  /** Removal keeps the order of the agents it keeps: it distributes over concatenation. */
  lemma {:induction false} RemoveByIdKeepsOrder(xs: seq<AgentConfig>, ys: seq<AgentConfig>, id: string)
    ensures RemoveById(xs + ys, id) == RemoveById(xs, id) + RemoveById(ys, id)
    decreases |xs|
  {
    if xs == [] {
      assert xs + ys == ys;
    } else {
      var head: seq<AgentConfig> := if xs[0].id == id then [] else [xs[0]];
      assert (xs + ys)[0] == xs[0];
      assert (xs + ys)[1..] == xs[1..] + ys;
      calc {
        RemoveById(xs + ys, id);
        head + RemoveById(xs[1..] + ys, id);
        { RemoveByIdKeepsOrder(xs[1..], ys, id); }
        head + (RemoveById(xs[1..], id) + RemoveById(ys, id));
        (head + RemoveById(xs[1..], id)) + RemoveById(ys, id);
      }
    }
  }

  /** Removing an id no agent carries leaves the list as it was. */
  lemma {:induction false} RemoveByIdAbsent(agents: seq<AgentConfig>, id: string)
    requires forall i :: 0 <= i < |agents| ==> agents[i].id != id
    ensures RemoveById(agents, id) == agents
    decreases |agents|
  {
    if agents != [] {
      RemoveByIdAbsent(agents[1..], id);
      assert agents == [agents[0]] + agents[1..];
    }
  }

  // ---------------------------------------------------------------------
  // The dashboard state
  // ---------------------------------------------------------------------

  class AppState {
    var leads: seq<Lead>
    var agents: seq<AgentConfig>
    var calls: seq<CallHistoryItem>
    var loadingLeads: bool
    var loadingAgents: bool
    var loadingCalls: bool

    /** The initial state: empty lists, nothing loading. */
    constructor ()
      ensures leads == [] && agents == [] && calls == []
      ensures !loadingLeads && !loadingAgents && !loadingCalls
    {
      leads, agents, calls := [], [], [];
      loadingLeads, loadingAgents, loadingCalls := false, false, false;
    }

    /** The start of `fetchLeads`: the flag is raised before the query is awaited. */
    method BeginFetchLeads()
      modifies this`loadingLeads
      ensures loadingLeads
    {
      loadingLeads := true;
    }

    /** The end of `fetchLeads`: the list is replaced on success and the flag lowered either way. */
    method FinishFetchLeads(data: Result<seq<Lead>, string>)
      modifies this`leads, this`loadingLeads
      ensures !loadingLeads
      ensures leads == if data.Success? then data.value else old(leads)
    {
      if data.Success? {
        leads := data.value;
      }
      loadingLeads := false;
    }

    /** The start of `fetchAgents`. */
    method BeginFetchAgents()
      modifies this`loadingAgents
      ensures loadingAgents
    {
      loadingAgents := true;
    }

    /** The end of `fetchAgents`. */
    method FinishFetchAgents(data: Result<seq<AgentConfig>, string>)
      modifies this`agents, this`loadingAgents
      ensures !loadingAgents
      ensures agents == if data.Success? then data.value else old(agents)
    {
      if data.Success? {
        agents := data.value;
      }
      loadingAgents := false;
    }

    /** The start of `fetchCalls`. */
    method BeginFetchCalls()
      modifies this`loadingCalls
      ensures loadingCalls
    {
      loadingCalls := true;
    }

    /** The end of `fetchCalls`. */
    method FinishFetchCalls(data: Result<seq<CallHistoryItem>, string>)
      modifies this`calls, this`loadingCalls
      ensures !loadingCalls
      ensures calls == if data.Success? then data.value else old(calls)
    {
      if data.Success? {
        calls := data.value;
      }
      loadingCalls := false;
    }

    /** `handleAddLead`: the lead the service returns goes to the front. */
    method AddLead(saved: Result<Lead, string>)
      modifies this`leads
      ensures leads == if saved.Success? then [saved.value] + old(leads) else old(leads)
    {
      if saved.Success? {
        leads := [saved.value] + leads;
      }
    }

    /** `handleUpdateLeadStatus`: the list changes only once the update has gone through. */
    method UpdateLeadStatus(id: string, status: LeadStatus, serviceOk: bool)
      modifies this`leads
      ensures leads == if serviceOk then SetStatus(old(leads), id, status) else old(leads)
    {
      if serviceOk {
        leads := SetStatus(leads, id, status);
      }
    }

    /** `handleAddAgent`: the saved agent goes to the front and is returned; a failure returns nothing. */
    method AddAgent(saved: Result<AgentConfig, string>) returns (r: Option<AgentConfig>)
      modifies this`agents
      ensures saved.Success? ==> agents == [saved.value] + old(agents) && r == Some(saved.value)
      ensures saved.Failure? ==> agents == old(agents) && r == None
    {
      if saved.Success? {
        agents := [saved.value] + agents;
        return Some(saved.value);
      }
      return None;
    }

    /** `handleUpdateAgent`. */
    method UpdateAgent(agent: AgentConfig, serviceOk: bool)
      modifies this`agents
      ensures agents == if serviceOk then ReplaceById(old(agents), agent) else old(agents)
    {
      if serviceOk {
        agents := ReplaceById(agents, agent);
      }
    }

    /** `handleDeleteAgent`. */
    method DeleteAgent(id: string, serviceOk: bool)
      modifies this`agents
      ensures agents == if serviceOk then RemoveById(old(agents), id) else old(agents)
    {
      if serviceOk {
        agents := RemoveById(agents, id);
      }
    }
  }
}
