// Session bookkeeping of the collaborative council plugin: the session map, the
// agents' current roles and prompts, role assignment and rotation, inference of a
// contribution's kind, the context window, synthesis requests and interventions.
// The language models are not modelled: every response an agent would generate is
// a parameter. Timestamps are opaque integers supplied by the caller.

module CouncilPlugin {
  import opened Wrappers
  import opened Seqs
  import opened Strs
  import opened Dicts
  import opened PromptLibrary
  import Safeguards

  type ContributionType = Safeguards.ContributionType

  // ---------------------------------------------------------------------------------
  // Agents and sessions

  /** What the plugin keeps of an `LLMAgent`: its current role and system prompt. */
  datatype Agent = Agent(currentRole: Option<AgentRole>, systemPrompt: string)

  const Unassigned: Agent := Agent(None, "")

  /** `self.agents` after the constructor's loop: a repeated id keeps its first position. */
  function Roster(ids: seq<string>): Dict<string, Agent>
  {
    if ids == [] then [] else Put(Roster(ids[..|ids| - 1]), ids[|ids| - 1], Unassigned)
  }

  /** The roster holds each configured agent exactly once, none of them with a role yet. */
  lemma {:induction false} RosterHoldsConfiguredAgents(ids: seq<string>)
    ensures UniqueKeys(Roster(ids))
    ensures forall a :: HasKey(Roster(ids), a) <==> a in ids
    ensures forall i :: 0 <= i < |Roster(ids)| ==> Roster(ids)[i].1 == Unassigned
  {
    if ids != [] {
      var prev := ids[..|ids| - 1];
      var last := ids[|ids| - 1];
      assert ids == prev + [last];
      RosterHoldsConfiguredAgents(prev);
      PutUnique(Roster(prev), last, Unassigned);
      forall a
        ensures HasKey(Roster(ids), a) <==> a in ids
      {
        HasKeyPut(Roster(prev), last, Unassigned, a);
      }
    }
  }

  datatype Status = Active | Completed

  /** One stored contribution; `safeguardsResult` is absent on synthesis contributions. */
  datatype Entry = Entry(
    agentId: string,
    role: string,
    message: string,
    response: string,
    contributionType: ContributionType,
    timestamp: int,
    safeguardsResult: Option<Safeguards.Action>,
    isSynthesis: bool)

  datatype Session = Session(
    sessionId: string,
    topic: string,
    roles: Dict<string, AgentRole>,
    startedAt: int,
    status: Status,
    contributions: seq<Entry>,
    endedAt: Option<int>)

  function SessionNotFound(sessionId: string): string
  {
    "Session " + sessionId + " not found"
  }

  function AgentNotFound(agentId: string): string
  {
    "Agent " + agentId + " not found"
  }

  /** The `KeyError` raised by `self.agents[agent_id]` for an agent that is not configured. */
  function KeyErrorMessage(agentId: string): string
  {
    "KeyError: " + agentId
  }

  /** The `IndexError` raised by `list(self.agents.keys())[0]` when no agent is configured. */
  const IndexErrorMessage := "IndexError: list index out of range"

  /** The `role` recorded with a contribution. */
  function RoleLabel(role: Option<AgentRole>): string
  {
    match role
    case None => "unassigned"
    case Some(r) => RoleValue(r)
  }

  // ---------------------------------------------------------------------------------
  // Role assignment

  /** The five roles `_auto_assign_roles` cycles through. */
  const AutoCycle: seq<AgentRole> := [Proposer, Critic, Synthesizer, Implementer, Observer]

  /** The assignment `_auto_assign_roles` builds for distinct agent ids. */
  function AutoRoles(agentIds: seq<string>): (r: Dict<string, AgentRole>)
    ensures |r| == |agentIds|
  {
    seq(|agentIds|, i requires 0 <= i < |agentIds| => (agentIds[i], AutoCycle[i % 5]))
  }

  /** Agent `i` gets the role at position `i mod 5` of the cycle, and every agent is listed once, in order. */
  lemma AutoRolesAssign(agentIds: seq<string>)
    requires Safeguards.Distinct(agentIds)
    ensures UniqueKeys(AutoRoles(agentIds)) && Keys(AutoRoles(agentIds)) == agentIds
    ensures forall i :: 0 <= i < |agentIds| ==> Get(AutoRoles(agentIds), agentIds[i]) == Some(AutoCycle[i % 5])
  {
    var r := AutoRoles(agentIds);
    forall i | 0 <= i < |agentIds|
      ensures Get(r, agentIds[i]) == Some(AutoCycle[i % 5])
    {
      GetUnique(r, i);
    }
  }

  lemma AutoRolesSnoc(agentIds: seq<string>, i: nat)
    requires Safeguards.Distinct(agentIds) && i < |agentIds|
    ensures AutoRoles(agentIds[..i + 1]) == Put(AutoRoles(agentIds[..i]), agentIds[i], AutoCycle[i % 5])
  {
    var prev := AutoRoles(agentIds[..i]);
    assert !HasKey(prev, agentIds[i]) by {
      forall j | 0 <= j < i
        ensures prev[j].0 != agentIds[i]
      {
        assert prev[j].0 == agentIds[j];
      }
    }
    assert AutoRoles(agentIds[..i + 1]) == prev + [(agentIds[i], AutoCycle[i % 5])];
  }

  /** `_auto_assign_roles` */
  method AutoAssignRoles(agentIds: seq<string>) returns (assignments: Dict<string, AgentRole>)
    requires Safeguards.Distinct(agentIds)
    ensures assignments == AutoRoles(agentIds)
  {
    assignments := [];
    var i := 0;
    while i < |agentIds|
      invariant i <= |agentIds|
      invariant assignments == AutoRoles(agentIds[..i])
    {
      AutoRolesSnoc(agentIds, i);
      assignments := Put(assignments, agentIds[i], AutoCycle[i % |AutoCycle|]);
      i := i + 1;
    }
    assert agentIds[..i] == agentIds;
  }

  /** The roles `start_council_session` uses: custom ones, else the configured defaults, else automatic ones; an empty dictionary counts as none. */
  function ChosenRoles(customRoles: Dict<string, AgentRole>, defaultRoles: Dict<string, AgentRole>,
                       agentIds: seq<string>): Dict<string, AgentRole>
  {
    if customRoles != [] then customRoles
    else if defaultRoles != [] then defaultRoles
    else AutoRoles(agentIds)
  }

  /** `[aid for aid in ids if aid != agentId]` */
  function OtherAgents(ids: seq<string>, agentId: string): (r: seq<string>)
    ensures |r| <= |ids|
    ensures forall a :: a in r <==> a in ids && a != agentId
  {
    if ids == [] then []
    else OtherAgents(ids[..|ids| - 1], agentId) + (if ids[|ids| - 1] != agentId then [ids[|ids| - 1]] else [])
  }

  function SessionContext(topic: string): string
  {
    "Council session on: " + topic
  }

  function RotationContext(topic: string): string
  {
    "Council session on: " + topic + " (role rotated)"
  }

  /** The agent after `assign_role(role, prompt)` with the role-assignment prompt for a session in which `everyone` takes part. */
  function Assignment(lib: Library, agentId: string, role: AgentRole, context: string, everyone: seq<string>): Agent
    requires Complete(lib)
  {
    Agent(Some(role), GenerateRoleAssignmentPrompt(lib, agentId, role, context, Some(OtherAgents(everyone, agentId))))
  }

  /** The agents after a loop that assigns each pair's role to its agent, skipping ids that are not configured agents. */
  function AssignAll(agents: Dict<string, Agent>, lib: Library, pairs: Dict<string, AgentRole>, context: string,
                     everyone: seq<string>): Dict<string, Agent>
    requires Complete(lib)
  {
    if pairs == [] then agents
    else
      var prev := AssignAll(agents, lib, pairs[..|pairs| - 1], context, everyone);
      var (agentId, role) := pairs[|pairs| - 1];
      if HasKey(prev, agentId) then Put(prev, agentId, Assignment(lib, agentId, role, context, everyone)) else prev
  }

  lemma AssignAllSnoc(agents: Dict<string, Agent>, lib: Library, pairs: Dict<string, AgentRole>, i: nat, context: string,
                      everyone: seq<string>)
    requires Complete(lib) && i < |pairs|
    ensures var prev := AssignAll(agents, lib, pairs[..i], context, everyone);
      AssignAll(agents, lib, pairs[..i + 1], context, everyone) ==
        if HasKey(prev, pairs[i].0) then Put(prev, pairs[i].0, Assignment(lib, pairs[i].0, pairs[i].1, context, everyone))
        else prev
  {
    assert pairs[..i + 1][..i] == pairs[..i];
  }

  /** Assigning roles never adds or removes an agent. */
  lemma {:induction false} AssignAllKeys(agents: Dict<string, Agent>, lib: Library, pairs: Dict<string, AgentRole>,
                                         context: string, everyone: seq<string>)
    requires Complete(lib)
    ensures Keys(AssignAll(agents, lib, pairs, context, everyone)) == Keys(agents)
  {
    if pairs != [] {
      var prev := AssignAll(agents, lib, pairs[..|pairs| - 1], context, everyone);
      AssignAllKeys(agents, lib, pairs[..|pairs| - 1], context, everyone);
      var (agentId, role) := pairs[|pairs| - 1];
      if HasKey(prev, agentId) {
        PutKeys(prev, agentId, Assignment(lib, agentId, role, context, everyone));
      }
    }
  }

  /**
   * After the loop, every configured agent that holds a role has that role and the
   * role-assignment prompt for it; every other agent is as before.
   */
  lemma {:induction false} AssignAllEffect(agents: Dict<string, Agent>, lib: Library, pairs: Dict<string, AgentRole>,
                                           context: string, everyone: seq<string>)
    requires Complete(lib) && UniqueKeys(agents) && UniqueKeys(pairs)
    ensures var r := AssignAll(agents, lib, pairs, context, everyone);
      UniqueKeys(r) &&
      forall a :: Get(r, a) == if HasKey(agents, a) && HasKey(pairs, a)
                                then Some(Assignment(lib, a, Get(pairs, a).value, context, everyone))
                                else Get(agents, a)
  {
    if pairs != [] {
      var init := pairs[..|pairs| - 1];
      var prev := AssignAll(agents, lib, init, context, everyone);
      var (agentId, role) := pairs[|pairs| - 1];
      assert pairs == init + [(agentId, role)];
      assert !HasKey(init, agentId) by {
        forall j | 0 <= j < |init|
          ensures init[j].0 != agentId
        {
          assert init[j].0 == pairs[j].0;
        }
      }
      AssignAllEffect(agents, lib, init, context, everyone);
      AssignAllKeys(agents, lib, init, context, everyone);
      HasKeyKeys(prev, agentId);
      HasKeyKeys(agents, agentId);
      forall a
        ensures Get(pairs, a) == if a == agentId then Some(role) else Get(init, a)
      {
        GetSnoc(init, agentId, role, a);
      }
      if HasKey(prev, agentId) {
        PutUnique(prev, agentId, Assignment(lib, agentId, role, context, everyone));
      }
    }
  }

  /** `start_council_session`'s assignment loop. */
  method AssignRoles(agents: Dict<string, Agent>, lib: Library, pairs: Dict<string, AgentRole>, context: string,
                     everyone: seq<string>) returns (updated: Dict<string, Agent>)
    requires Complete(lib)
    ensures updated == AssignAll(agents, lib, pairs, context, everyone)
  {
    updated := agents;
    var i := 0;
    while i < |pairs|
      invariant i <= |pairs|
      invariant updated == AssignAll(agents, lib, pairs[..i], context, everyone)
    {
      var (agentId, role) := pairs[i];
      AssignAllSnoc(agents, lib, pairs, i, context, everyone);
      if HasKey(updated, agentId) {
        var others := OtherAgents(everyone, agentId);
        var prompt := GenerateRoleAssignmentPrompt(lib, agentId, role, context, Some(others));
        updated := Put(updated, agentId, Agent(Some(role), prompt));
      }
      i := i + 1;
    }
    assert pairs[..i] == pairs;
  }

  /** `{aid: role.value for aid, role in roles.items()}` */
  function RoleValues(roles: Dict<string, AgentRole>): (r: Dict<string, string>)
    ensures Keys(r) == Keys(roles)
  {
    seq(|roles|, i requires 0 <= i < |roles| => (roles[i].0, RoleValue(roles[i].1)))
  }

  // ---------------------------------------------------------------------------------
  // Rotation

  /** Position of the first id that is not a configured agent, or `|ids|`. */
  function FirstMissing(agents: Dict<string, Agent>, ids: seq<string>): (n: nat)
    ensures n <= |ids|
    ensures forall i :: 0 <= i < n ==> HasKey(agents, ids[i])
    ensures n < |ids| ==> !HasKey(agents, ids[n])
  {
    FirstMissingFrom(agents, ids, 0)
  }

  function FirstMissingFrom(agents: Dict<string, Agent>, ids: seq<string>, from: nat): (n: nat)
    requires from <= |ids|
    ensures from <= n <= |ids|
    ensures forall i :: from <= i < n ==> HasKey(agents, ids[i])
    ensures n < |ids| ==> !HasKey(agents, ids[n])
    decreases |ids| - from
  {
    if from == |ids| || !HasKey(agents, ids[from]) then from
    else FirstMissingFrom(agents, ids, from + 1)
  }

  /**
   * `_rotate_roles`: each agent takes its successor's role (Safeguards.Rotated) and is
   * told so; the first role-holder that is not a configured agent raises a `KeyError`,
   * after the agents before it were updated and before the session's roles change.
   */
  function RotationStep(s: Session, agents: Dict<string, Agent>, lib: Library)
    : (Result<(), string>, Session, Dict<string, Agent>)
    requires Complete(lib)
  {
    var ids := Keys(s.roles);
    var n := FirstMissing(agents, ids);
    var updated := AssignAll(agents, lib, Safeguards.Rotated(s.roles)[..n], RotationContext(s.topic), ids);
    if n == |ids| then (Ok(()), s.(roles := Safeguards.Rotated(s.roles)), updated)
    else (Err(KeyErrorMessage(ids[n])), s, updated)
  }

  /** A role-holder is a configured agent after the assignment loop iff it was before. */
  lemma AssignAllHasKey(agents: Dict<string, Agent>, lib: Library, pairs: Dict<string, AgentRole>, context: string,
                        everyone: seq<string>, a: string)
    requires Complete(lib)
    ensures HasKey(AssignAll(agents, lib, pairs, context, everyone), a) <==> HasKey(agents, a)
  {
    AssignAllKeys(agents, lib, pairs, context, everyone);
    HasKeyKeys(AssignAll(agents, lib, pairs, context, everyone), a);
    HasKeyKeys(agents, a);
  }

  lemma RotatedPairsUnique(roles: Dict<string, AgentRole>, n: nat)
    requires UniqueKeys(roles) && n <= |roles|
    ensures UniqueKeys(Safeguards.Rotated(roles)[..n])
  {
    var rotated := Safeguards.Rotated(roles);
    Safeguards.RotatedUnique(roles);
    var pairs := rotated[..n];
    forall i, j | 0 <= i < j < |pairs|
      ensures pairs[i].0 != pairs[j].0
    {
      assert pairs[i] == rotated[i] && pairs[j] == rotated[j];
    }
  }

  /** Rotation keeps the roster, the contributions and the topic, and leaves every dictionary with distinct keys. */
  lemma RotationKeepsRoster(s: Session, agents: Dict<string, Agent>, lib: Library)
    requires Complete(lib) && UniqueKeys(s.roles) && UniqueKeys(agents)
    ensures var (res, s', agents') := RotationStep(s, agents, lib);
      UniqueKeys(s'.roles) && UniqueKeys(agents') && Keys(agents') == Keys(agents) &&
      s'.contributions == s.contributions && s'.topic == s.topic
  {
    var ids := Keys(s.roles);
    var n := FirstMissing(agents, ids);
    Safeguards.RotatedUnique(s.roles);
    RotatedPairsUnique(s.roles, n);
    AssignAllEffect(agents, lib, Safeguards.Rotated(s.roles)[..n], RotationContext(s.topic), ids);
    AssignAllKeys(agents, lib, Safeguards.Rotated(s.roles)[..n], RotationContext(s.topic), ids);
  }

  /**
   * Rotation succeeds iff every role-holder is a configured agent. It then shifts the
   * roles by one, keeping the role-holders and the multiset of roles; on failure the
   * session is unchanged.
   */
  lemma RotationShiftsRoles(s: Session, agents: Dict<string, Agent>, lib: Library)
    requires Complete(lib)
    ensures var (res, s', agents') := RotationStep(s, agents, lib);
      (res.Ok? <==> forall i :: 0 <= i < |s.roles| ==> HasKey(agents, s.roles[i].0)) &&
      (res.Ok? ==> s'.roles == Safeguards.Rotated(s.roles) && Keys(s'.roles) == Keys(s.roles) &&
                   multiset(Values(s'.roles)) == multiset(Values(s.roles))) &&
      (res.Err? ==> s' == s)
  {
    Safeguards.RotatedPermutes(s.roles);
    var n := FirstMissing(agents, Keys(s.roles));
    if n < |s.roles| {
      assert !HasKey(agents, s.roles[n].0);
    }
  }

  /** After a successful rotation every role-holder holds its successor's role and the prompt announcing it. */
  lemma RotationAssignsAgents(s: Session, agents: Dict<string, Agent>, lib: Library, i: nat)
    requires Complete(lib) && UniqueKeys(s.roles) && UniqueKeys(agents) && i < |s.roles|
    requires RotationStep(s, agents, lib).0.Ok?
    ensures Get(RotationStep(s, agents, lib).2, s.roles[i].0) ==
            Some(Assignment(lib, s.roles[i].0, s.roles[Safeguards.Next(i, |s.roles|)].1, RotationContext(s.topic), Keys(s.roles)))
  {
    var ids := Keys(s.roles);
    var rotated := Safeguards.Rotated(s.roles);
    assert FirstMissing(agents, ids) == |ids|;
    assert rotated[..|ids|] == rotated;
    Safeguards.RotatedUnique(s.roles);
    AssignAllEffect(agents, lib, rotated, RotationContext(s.topic), ids);
    GetUnique(rotated, i);
    assert HasKey(agents, ids[i]);
  }

  lemma RotateAgentsStep(s: Session, agents: Dict<string, Agent>, lib: Library, i: nat, updated: Dict<string, Agent>)
    requires Complete(lib) && i < |s.roles|
    requires updated == AssignAll(agents, lib, Safeguards.Rotated(s.roles)[..i], RotationContext(s.topic), Keys(s.roles))
    requires HasKey(updated, s.roles[i].0)
    ensures Put(updated, s.roles[i].0, Assignment(lib, s.roles[i].0, s.roles[Safeguards.Next(i, |s.roles|)].1,
                                                   RotationContext(s.topic), Keys(s.roles))) ==
            AssignAll(agents, lib, Safeguards.Rotated(s.roles)[..i + 1], RotationContext(s.topic), Keys(s.roles))
  {
    AssignAllSnoc(agents, lib, Safeguards.Rotated(s.roles), i, RotationContext(s.topic), Keys(s.roles));
  }

  lemma RotateAgentsStops(s: Session, agents: Dict<string, Agent>, lib: Library, i: nat, updated: Dict<string, Agent>)
    requires Complete(lib) && i < |s.roles|
    requires forall k :: 0 <= k < i ==> HasKey(agents, Keys(s.roles)[k])
    requires !HasKey(agents, s.roles[i].0)
    requires updated == AssignAll(agents, lib, Safeguards.Rotated(s.roles)[..i], RotationContext(s.topic), Keys(s.roles))
    ensures RotationStep(s, agents, lib) == (Err(KeyErrorMessage(s.roles[i].0)), s, updated)
  {
    assert FirstMissing(agents, Keys(s.roles)) == i;
  }

  lemma RotateAgentsCompletes(s: Session, agents: Dict<string, Agent>, lib: Library, newAssignments: Dict<string, AgentRole>,
                              updated: Dict<string, Agent>)
    requires Complete(lib) && |newAssignments| == |s.roles| && Safeguards.RotatedPrefix(s.roles, newAssignments)
    requires forall k :: 0 <= k < |s.roles| ==> HasKey(agents, Keys(s.roles)[k])
    requires updated == AssignAll(agents, lib, Safeguards.Rotated(s.roles)[..|s.roles|], RotationContext(s.topic), Keys(s.roles))
    ensures RotationStep(s, agents, lib) == (Ok(()), s.(roles := newAssignments), updated)
  {
    assert FirstMissing(agents, Keys(s.roles)) == |s.roles|;
    assert newAssignments == Safeguards.Rotated(s.roles);
  }

  /** `_rotate_roles`' loop over the session's role-holders. */
  method RotateAgents(s: Session, agents: Dict<string, Agent>, lib: Library)
    returns (result: Result<(), string>, s': Session, updated: Dict<string, Agent>)
    requires Complete(lib) && UniqueKeys(s.roles)
    ensures (result, s', updated) == RotationStep(s, agents, lib)
  {
    var ids := Keys(s.roles);
    var context := RotationContext(s.topic);
    var newAssignments: Dict<string, AgentRole> := [];
    updated := agents;
    var i := 0;
    while i < |ids|
      invariant i <= |ids| && |newAssignments| == i
      invariant Safeguards.RotatedPrefix(s.roles, newAssignments)
      invariant forall k :: 0 <= k < i ==> HasKey(agents, ids[k])
      invariant updated == AssignAll(agents, lib, Safeguards.Rotated(s.roles)[..i], context, ids)
    {
      var agentId := ids[i];
      var newRole := s.roles[Safeguards.Next(i, |ids|)].1;
      Safeguards.RotateStep(s.roles, newAssignments);
      newAssignments := Put(newAssignments, agentId, newRole);
      AssignAllHasKey(agents, lib, Safeguards.Rotated(s.roles)[..i], context, ids, agentId);
      if !HasKey(updated, agentId) {
        RotateAgentsStops(s, agents, lib, i, updated);
        return Err(KeyErrorMessage(agentId)), s, updated;
      }
      assert agentId == s.roles[i].0;
      assert HasKey(agents, agentId);
      forall k | 0 <= k < i + 1
        ensures HasKey(agents, ids[k])
      {
      }
      RotateAgentsStep(s, agents, lib, i, updated);
      updated := Put(updated, agentId, Assignment(lib, agentId, newRole, context, ids));
      assert updated == AssignAll(agents, lib, Safeguards.Rotated(s.roles)[..i + 1], context, ids);
      i := i + 1;
    }
    RotateAgentsCompletes(s, agents, lib, newAssignments, updated);
    return Ok(()), s.(roles := newAssignments), updated;
  }

  // ---------------------------------------------------------------------------------
  // Contribution kinds and the context window

  const ProposeWords: seq<string> := ["suggest", "propose", "recommend"]
  const ConcernWords: seq<string> := ["concern", "issue", "problem"]
  const CombineWords: seq<string> := ["combine", "merge", "synthesis"]
  const AgreeWords: seq<string> := ["agree", "support", "excellent"]

  /** `_infer_contribution_type` */
  function InferContributionType(response: string, role: Option<AgentRole>): ContributionType
  {
    var lower := Lower(response);
    if role == Some(Proposer) then Safeguards.Propose
    else if role == Some(Critic) then Safeguards.Critique
    else if role == Some(Synthesizer) then Safeguards.Synthesize
    else if ContainsAny(lower, ProposeWords) then Safeguards.Propose
    else if ContainsAny(lower, ConcernWords) then Safeguards.Critique
    else if ContainsAny(lower, CombineWords) then Safeguards.Synthesize
    else if ContainsAny(lower, AgreeWords) then Safeguards.Support
    else Safeguards.Improve
  }

  /**
   * Proposers, critics and synthesizers are classified by role whatever they say;
   * any other speaker by the first keyword group found in the lower-cased response,
   * and as an improvement when none is found. A question is never inferred.
   */
  lemma InferenceOrder(response: string, role: Option<AgentRole>)
    ensures var t := InferContributionType(response, role);
      var lower := Lower(response);
      var byRole := role == Some(Proposer) || role == Some(Critic) || role == Some(Synthesizer);
      (role == Some(Proposer) ==> t == Safeguards.Propose) &&
      (role == Some(Critic) ==> t == Safeguards.Critique) &&
      (role == Some(Synthesizer) ==> t == Safeguards.Synthesize) &&
      (!byRole ==>
        (t == Safeguards.Propose <==> ContainsAny(lower, ProposeWords)) &&
        (t == Safeguards.Critique <==> !ContainsAny(lower, ProposeWords) && ContainsAny(lower, ConcernWords)) &&
        (t == Safeguards.Synthesize <==> !ContainsAny(lower, ProposeWords) && !ContainsAny(lower, ConcernWords) &&
                                         ContainsAny(lower, CombineWords)) &&
        (t == Safeguards.Support <==> !ContainsAny(lower, ProposeWords) && !ContainsAny(lower, ConcernWords) &&
                                      !ContainsAny(lower, CombineWords) && ContainsAny(lower, AgreeWords))) &&
      (t == Safeguards.Support ==> !byRole) &&
      (t == Safeguards.Improve <==> !byRole && !ContainsAny(lower, ProposeWords) && !ContainsAny(lower, ConcernWords) &&
                                    !ContainsAny(lower, CombineWords) && !ContainsAny(lower, AgreeWords)) &&
      t != Safeguards.Question
  {
  }

  /** `_build_conversation_context`: the last ten contributions, oldest first, as (speaker, response) pairs. */
  method BuildConversationContext(contributions: seq<Entry>) returns (context: seq<(string, string)>)
    ensures |context| == if |contributions| <= 10 then |contributions| else 10
    ensures forall k :: 0 <= k < |context| ==>
      context[k] == (contributions[|contributions| - |context| + k].agentId,
                     contributions[|contributions| - |context| + k].response)
  {
    var recent := Recent(contributions, 10);
    context := [];
    var k := 0;
    while k < |recent|
      invariant k <= |recent| && |context| == k
      invariant forall j :: 0 <= j < k ==> context[j] == (recent[j].agentId, recent[j].response)
    {
      context := context + [(recent[k].agentId, recent[k].response)];
      k := k + 1;
    }
  }

  // ---------------------------------------------------------------------------------
  // Synthesis

  /** Position of the first role-holder whose role is SYNTHESIZER, or `|roles|`. */
  function SynthesizerIndex(roles: Dict<string, AgentRole>): (n: nat)
    ensures n <= |roles|
    ensures forall i :: 0 <= i < n ==> roles[i].1 != Synthesizer
    ensures n < |roles| ==> roles[n].1 == Synthesizer
  {
    SynthesizerIndexFrom(roles, 0)
  }

  function SynthesizerIndexFrom(roles: Dict<string, AgentRole>, from: nat): (n: nat)
    requires from <= |roles|
    ensures from <= n <= |roles|
    ensures forall i :: from <= i < n ==> roles[i].1 != Synthesizer
    ensures n < |roles| ==> roles[n].1 == Synthesizer
    decreases |roles| - from
  {
    if from == |roles| || roles[from].1 == Synthesizer then from
    else SynthesizerIndexFrom(roles, from + 1)
  }

  function SynthesizerOf(roles: Dict<string, AgentRole>): Option<string>
  {
    var n := SynthesizerIndex(roles);
    if n < |roles| then Some(roles[n].0) else None
  }

  /** `_find_synthesizer_agent` */
  method FindSynthesizerAgent(roles: Dict<string, AgentRole>) returns (r: Option<string>)
    ensures r == SynthesizerOf(roles)
    ensures r.None? <==> forall i :: 0 <= i < |roles| ==> roles[i].1 != Synthesizer
    ensures r.Some? ==> Get(roles, r.value) == Some(Synthesizer) || !UniqueKeys(roles)
  {
    var i := 0;
    while i < |roles|
      invariant i <= |roles|
      invariant forall j :: 0 <= j < i ==> roles[j].1 != Synthesizer
    {
      if roles[i].1 == Synthesizer {
        if UniqueKeys(roles) {
          GetUnique(roles, i);
        }
        return Some(roles[i].0);
      }
      i := i + 1;
    }
    return None;
  }

  function Responses(cs: seq<Entry>): (r: seq<string>)
    ensures |r| == |cs| && forall k :: 0 <= k < |cs| ==> r[k] == cs[k].response
  {
    seq(|cs|, k requires 0 <= k < |cs| => cs[k].response)
  }

  /** The message `request_synthesis` sends: the consensus prompt on the given topic, or the session's when none or an empty one is given, over the last five responses. */
  function SynthesisPrompt(s: Session, topic: Option<string>): string
  {
    var t := if topic.Some? && topic.value != "" then topic.value else s.topic;
    GenerateConsensusPrompt(t, Responses(Recent(s.contributions, 5)))
  }

  /** The contribution `request_synthesis` stores. */
  function SynthesisEntry(agentId: string, s: Session, topic: Option<string>, response: string, now: int): Entry
  {
    Entry(agentId, RoleValue(Synthesizer), SynthesisPrompt(s, topic), response, Safeguards.Synthesize, now, None, true)
  }

  datatype SynthesisResult = SynthesisResult(synthesisAgent: string, synthesisResponse: string)

  /** An agent id Python treats as true: present and not empty. */
  predicate Found(id: Option<string>)
  {
    id.Some? && id.value != ""
  }

  /**
   * `request_synthesis` on a known session: the first synthesizer speaks; without one
   * the first configured agent is made synthesizer (`_reassign_agent_role`). The
   * synthesis is appended as one contribution flagged `is_synthesis`.
   */
  function SynthesisStep(s: Session, agents: Dict<string, Agent>, lib: Library, topic: Option<string>,
                         response: string, now: int): Result<(Session, Dict<string, Agent>, SynthesisResult), string>
    requires Complete(lib)
  {
    match ChooseSynthesizer(s, agents, lib)
    case Err(e) => Err(e)
    case Ok((id, s1, agents')) =>
      var entry := SynthesisEntry(id, s, topic, response, now);
      Ok((s1.(contributions := s.contributions + [entry]), agents', SynthesisResult(id, response)))
  }

  /**
   * The agent `request_synthesis` asks: the session's synthesizer, or else the first configured
   * agent once it has been given that role (an `IndexError` when there is no agent); a
   * synthesizer that is not a configured agent is a `KeyError`.
   */
  function ChooseSynthesizer(s: Session, agents: Dict<string, Agent>, lib: Library)
    : Result<(string, Session, Dict<string, Agent>), string>
    requires Complete(lib)
  {
    var found := SynthesizerOf(s.roles);
    if Found(found) then
      if HasKey(agents, found.value) then Ok((found.value, s, agents)) else Err(KeyErrorMessage(found.value))
    else if agents == [] then Err(IndexErrorMessage)
    else
      var id := agents[0].0;
      var roles := Put(s.roles, id, Synthesizer);
      Ok((id, s.(roles := roles), Put(agents, id, Assignment(lib, id, Synthesizer, SessionContext(s.topic), Keys(roles)))))
  }

  lemma SynthesisOutcome(s: Session, agents: Dict<string, Agent>, lib: Library, topic: Option<string>,
                         response: string, now: int)
    requires Complete(lib) && UniqueKeys(s.roles) && UniqueKeys(agents)
    ensures var r := SynthesisStep(s, agents, lib, topic, response, now);
      var found := SynthesizerOf(s.roles);
      (r.Err? <==> (!Found(found) && agents == []) || (Found(found) && !HasKey(agents, found.value))) &&
      (r.Ok? ==>
        var (s', agents', result) := r.value;
        s'.contributions == s.contributions + [SynthesisEntry(result.synthesisAgent, s, topic, response, now)] &&
        Get(s'.roles, result.synthesisAgent) == Some(Synthesizer) &&
        HasKey(agents', result.synthesisAgent) && result.synthesisResponse == response &&
        UniqueKeys(s'.roles) && UniqueKeys(agents') && Keys(agents') == Keys(agents) &&
        s'.topic == s.topic && s'.sessionId == s.sessionId && s'.status == s.status)
  {
    var found := SynthesizerOf(s.roles);
    if Found(found) {
      GetUnique(s.roles, SynthesizerIndex(s.roles));
    } else if agents != [] {
      var id := agents[0].0;
      assert HasKey(agents, id);
      var roles := Put(s.roles, id, Synthesizer);
      PutUnique(s.roles, id, Synthesizer);
      var a := Assignment(lib, id, Synthesizer, SessionContext(s.topic), Keys(roles));
      PutUnique(agents, id, a);
      PutKeys(agents, id, a);
    }
  }

  /** The session after `add_contribution` stores an agent's reply with the safeguards' verdict. */
  function Contributed(s: Session, agentId: string, role: Option<AgentRole>, message: string, response: string,
                       kind: ContributionType, now: int, action: Safeguards.Action): (s': Session)
    ensures s'.roles == s.roles && s'.topic == s.topic && |s'.contributions| == |s.contributions| + 1
  {
    s.(contributions := s.contributions + [Entry(agentId, RoleLabel(role), message, response, kind, now, Some(action), false)])
  }

  // ---------------------------------------------------------------------------------
  // Interventions

  datatype InterventionKind = AutomaticSynthesis | ConsensusBuilding | RoleRotation | NoIntervention

  datatype Handled = Handled(kind: InterventionKind, synthesis: Option<SynthesisResult>)

  /** The branch `_handle_interventions` takes for a safeguards action. */
  function InterventionFor(action: Safeguards.Action): InterventionKind
  {
    match action
    case SynthesisTriggered(_) => AutomaticSynthesis
    case InterventionRequired(warnings, _) =>
      if HasKey(warnings, Safeguards.ExcessiveContradictions) then ConsensusBuilding
      else if HasKey(warnings, Safeguards.IdeaHoarding) then RoleRotation
      else NoIntervention
    case Continue(_) => NoIntervention
  }

  /** `_handle_interventions` on a known session. */
  function InterventionStep(s: Session, agents: Dict<string, Agent>, lib: Library, action: Safeguards.Action,
                            response: string, now: int): (Result<Handled, string>, Session, Dict<string, Agent>)
    requires Complete(lib)
  {
    var kind := InterventionFor(action);
    if kind == AutomaticSynthesis || kind == ConsensusBuilding then
      match SynthesisStep(s, agents, lib, None, response, now)
      case Err(e) => (Err(e), s, agents)
      case Ok((s', agents', result)) => (Ok(Handled(kind, Some(result))), s', agents')
    else if kind == RoleRotation then
      var (res, s', agents') := RotationStep(s, agents, lib);
      (if res.Ok? then Ok(Handled(RoleRotation, None)) else Err(res.error), s', agents')
    else (Ok(Handled(NoIntervention, None)), s, agents)
  }

  /**
   * Handling an intervention keeps every existing contribution in place and appends at
   * most one, a synthesis, and only on the two synthesis branches; it keeps the roster.
   */
  lemma InterventionKeepsContributions(s: Session, agents: Dict<string, Agent>, lib: Library,
                                       action: Safeguards.Action, response: string, now: int)
    requires Complete(lib) && UniqueKeys(s.roles) && UniqueKeys(agents)
    ensures var (res, s', agents') := InterventionStep(s, agents, lib, action, response, now);
      var kind := InterventionFor(action);
      UniqueKeys(s'.roles) && UniqueKeys(agents') && Keys(agents') == Keys(agents) && s'.topic == s.topic &&
      |s.contributions| <= |s'.contributions| <= |s.contributions| + 1 &&
      s'.contributions[..|s.contributions|] == s.contributions &&
      (|s'.contributions| > |s.contributions| ==>
        s'.contributions[|s.contributions|].isSynthesis && (kind == AutomaticSynthesis || kind == ConsensusBuilding)) &&
      (res.Ok? ==> res.value.kind == kind &&
                   ((kind == AutomaticSynthesis || kind == ConsensusBuilding) <==> |s'.contributions| > |s.contributions|))
  {
    var kind := InterventionFor(action);
    if kind == AutomaticSynthesis || kind == ConsensusBuilding {
      SynthesisOutcome(s, agents, lib, None, response, now);
    } else if kind == RoleRotation {
      RotationKeepsRoster(s, agents, lib);
    }
  }

  // ---------------------------------------------------------------------------------
  // The contribution id

  /** The id `add_contribution` reports as written: the last index after the interventions ran. */
  function ContributionIdAsWritten(after: Session): int
  {
    |after.contributions| - 1
  }

  /**
   * When the contribution triggers a synthesis, the id reported as written names the
   * synthesis that followed it, not the contribution.
   */
  lemma ContributionIdAsWrittenNamesSynthesis(s: Session, entry: Entry, agents: Dict<string, Agent>, lib: Library,
                                              action: Safeguards.Action, response: string, now: int)
    requires Complete(lib) && UniqueKeys(s.roles) && UniqueKeys(agents) && !entry.isSynthesis
    requires action.SynthesisTriggered?
    requires InterventionStep(s.(contributions := s.contributions + [entry]), agents, lib, action, response, now).0.Ok?
    ensures var (_, s', _) := InterventionStep(s.(contributions := s.contributions + [entry]), agents, lib, action, response, now);
      ContributionIdAsWritten(s') == |s.contributions| + 1 &&
      s'.contributions[ContributionIdAsWritten(s')].isSynthesis &&
      s'.contributions[ContributionIdAsWritten(s')] != entry
  {
    var s1 := s.(contributions := s.contributions + [entry]);
    InterventionKeepsContributions(s1, agents, lib, action, response, now);
  }

  /** Whatever the intervention, the corrected id names the contribution that was added. */
  lemma ContributionIdNamesContribution(s: Session, entry: Entry, agents: Dict<string, Agent>, lib: Library,
                                        action: Safeguards.Action, response: string, now: int)
    requires Complete(lib) && UniqueKeys(s.roles) && UniqueKeys(agents)
    ensures var (_, s', _) := InterventionStep(s.(contributions := s.contributions + [entry]), agents, lib, action, response, now);
      |s.contributions| < |s'.contributions| && s'.contributions[|s.contributions|] == entry
  {
    var s1 := s.(contributions := s.contributions + [entry]);
    InterventionKeepsContributions(s1, agents, lib, action, response, now);
    var s' := InterventionStep(s1, agents, lib, action, response, now).1;
    assert s'.contributions[..|s1.contributions|][|s.contributions|] == entry;
  }

  /** Three critiques in a row make the safeguards trigger a synthesis, the case in which the two ids differ. */
  lemma ThirdCritiqueTriggersSynthesis(a: string, b: string, c: string, health: Safeguards.Health)
    ensures var cs := [Safeguards.Contribution(a, "", Safeguards.Critique, [], None),
                       Safeguards.Contribution(b, "", Safeguards.Critique, [], None),
                       Safeguards.Contribution(c, "", Safeguards.Critique, [], None)];
      InterventionFor(Safeguards.Decide(cs, health)) == AutomaticSynthesis
  {
    var cs := [Safeguards.Contribution(a, "", Safeguards.Critique, [], None),
               Safeguards.Contribution(b, "", Safeguards.Critique, [], None),
               Safeguards.Contribution(c, "", Safeguards.Critique, [], None)];
    assert Recent(cs, 5) == cs;
    assert cs[..1][..0] == [];
    assert Safeguards.CritiqueCount(cs[..1]) == 1;
    assert cs[..2][..1] == cs[..1];
    assert Safeguards.CritiqueCount(cs[..2]) == 2;
    assert cs[..2] == cs[..|cs| - 1];
  }

  // ---------------------------------------------------------------------------------
  // Summary

  /** `sum(1 for c in contributions if c.get('is_synthesis', False))` */
  function SynthesisEvents(cs: seq<Entry>): (r: nat)
    ensures r <= |cs|
  {
    if cs == [] then 0
    else SynthesisEvents(cs[..|cs| - 1]) + (if cs[|cs| - 1].isSynthesis then 1 else 0)
  }

  datatype Summary = Summary(topic: string, duration: int, totalContributions: nat, participants: nat,
                             synthesisEvents: nat)

  /** `_generate_session_summary`, with the text layout left out; `now` stands for a missing end time. */
  function SessionSummary(s: Session, now: int): (r: Summary)
    ensures r.synthesisEvents <= r.totalContributions == |s.contributions|
    ensures r.participants == |s.roles|
  {
    var ended := if s.endedAt.Some? then s.endedAt.value else now;
    Summary(s.topic, ended - s.startedAt, |s.contributions|, |s.roles|, SynthesisEvents(s.contributions))
  }

  /** A successful synthesis adds one synthesis event to the summary. */
  lemma SynthesisCounted(s: Session, agents: Dict<string, Agent>, lib: Library, topic: Option<string>,
                         response: string, now: int)
    requires Complete(lib) && UniqueKeys(s.roles) && UniqueKeys(agents)
    requires SynthesisStep(s, agents, lib, topic, response, now).Ok?
    ensures var s' := SynthesisStep(s, agents, lib, topic, response, now).value.0;
      SynthesisEvents(s'.contributions) == SynthesisEvents(s.contributions) + 1
  {
    SynthesisOutcome(s, agents, lib, topic, response, now);
    var s' := SynthesisStep(s, agents, lib, topic, response, now).value.0;
    assert s'.contributions[..|s'.contributions| - 1] == s.contributions;
  }

  // ---------------------------------------------------------------------------------
  // The plugin

  datatype Started = Started(sessionId: string, participants: seq<string>, roles: Dict<string, string>)

  datatype Added = Added(contributionId: nat, agentResponse: string, safeguardsStatus: Safeguards.Action,
                         interventionResult: Handled)

  datatype SessionStatus = SessionStatus(
    sessionId: string,
    topic: string,
    status: Status,
    participants: nat,
    contributions: nat,
    collaborationHealth: Option<Safeguards.Health>,
    recentActivity: seq<Entry>)

  datatype Ended = Ended(sessionId: string, finalReport: Result<Safeguards.Report, string>, summary: Summary)

  /** `CollaborativeCouncilPlugin` */
  class CouncilPlugin {
    /** The configured agent ids, without repeats, in configuration order. */
    const agentIds: seq<string>
    const defaultRoles: Dict<string, AgentRole>
    const orchestrator: Safeguards.Orchestrator
    const library: Library
    var agents: Dict<string, Agent>
    var activeSessions: map<string, Session>

    /** The roster never changes its agents, and every dictionary has distinct keys. */
    predicate Valid()
      reads this
    {
      UniqueKeys(agents) && Keys(agents) == agentIds && UniqueKeys(defaultRoles) && Complete(library) &&
      forall id :: id in activeSessions ==> UniqueKeys(activeSessions[id].roles)
    }

    constructor (configuredIds: seq<string>, defaultRoles: Dict<string, AgentRole>, cat: Catalogue)
      requires UniqueKeys(defaultRoles)
      ensures Valid() && fresh(orchestrator) && fresh(orchestrator.metrics)
      ensures agents == Roster(configuredIds) && activeSessions == map[] && this.defaultRoles == defaultRoles
      ensures library == Init(cat)
    {
      var roster: Dict<string, Agent> := [];
      var i := 0;
      while i < |configuredIds|
        invariant i <= |configuredIds|
        invariant roster == Roster(configuredIds[..i])
      {
        assert configuredIds[..i + 1][..i] == configuredIds[..i];
        roster := Put(roster, configuredIds[i], Unassigned);
        i := i + 1;
      }
      assert configuredIds[..i] == configuredIds;
      RosterHoldsConfiguredAgents(configuredIds);
      agentIds := Keys(roster);
      this.defaultRoles := defaultRoles;
      orchestrator := new Safeguards.Orchestrator();
      library := Init(cat);
      agents := roster;
      activeSessions := map[];
    }

    /** `start_council_session` */
    method StartCouncilSession(sessionId: string, topic: string, customRoles: Dict<string, AgentRole>, now: int)
      returns (started: Started)
      requires Valid() && UniqueKeys(customRoles)
      modifies this
      ensures Valid()
      ensures var roles := ChosenRoles(customRoles, defaultRoles, agentIds);
        activeSessions == old(activeSessions)[sessionId := Session(sessionId, topic, roles, now, Active, [], None)] &&
        agents == AssignAll(old(agents), library, roles, SessionContext(topic), Keys(roles)) &&
        started == Started(sessionId, Keys(roles), RoleValues(roles))
    {
      var roles: Dict<string, AgentRole>;
      if customRoles != [] {
        roles := customRoles;
      } else if defaultRoles != [] {
        roles := defaultRoles;
      } else {
        AutoRolesAssign(agentIds);
        roles := AutoAssignRoles(Keys(agents));
      }
      activeSessions := activeSessions[sessionId := Session(sessionId, topic, roles, now, Active, [], None)];
      var ids := Keys(roles);
      AssignAllKeys(agents, library, roles, SessionContext(topic), ids);
      AssignAllEffect(agents, library, roles, SessionContext(topic), ids);
      agents := AssignRoles(agents, library, roles, SessionContext(topic), ids);
      started := Started(sessionId, ids, RoleValues(roles));
    }

    /** `_reassign_agent_role` */
    method ReassignAgentRole(agentId: string, newRole: AgentRole, sessionId: string)
      requires Valid() && sessionId in activeSessions && HasKey(agents, agentId)
      modifies this
      ensures Valid()
      ensures var s := old(activeSessions[sessionId]);
        var roles := Put(s.roles, agentId, newRole);
        activeSessions == old(activeSessions)[sessionId := s.(roles := roles)] &&
        agents == Put(old(agents), agentId, Assignment(library, agentId, newRole, SessionContext(s.topic), Keys(roles)))
    {
      var s := activeSessions[sessionId];
      var roles := Put(s.roles, agentId, newRole);
      PutUnique(s.roles, agentId, newRole);
      activeSessions := activeSessions[sessionId := s.(roles := roles)];
      var others := OtherAgents(Keys(roles), agentId);
      var prompt := GenerateRoleAssignmentPrompt(library, agentId, newRole, SessionContext(s.topic), Some(others));
      var a := Agent(Some(newRole), prompt);
      PutUnique(agents, agentId, a);
      PutKeys(agents, agentId, a);
      agents := Put(agents, agentId, a);
    }

    /** `request_synthesis`; the synthesizing agent's reply is `synthesisResponse`. */
    method RequestSynthesis(sessionId: string, topic: Option<string>, synthesisResponse: string, now: int)
      returns (r: Result<SynthesisResult, string>)
      requires Valid()
      modifies this
      ensures Valid()
      ensures sessionId !in old(activeSessions) ==>
        r == Err(SessionNotFound(sessionId)) && agents == old(agents) && activeSessions == old(activeSessions)
      ensures sessionId in old(activeSessions) ==>
        match SynthesisStep(old(activeSessions[sessionId]), old(agents), library, topic, synthesisResponse, now)
        case Err(e) => r == Err(e) && agents == old(agents) && activeSessions == old(activeSessions)
        case Ok((s', agents', result)) =>
          r == Ok(result) && agents == agents' && activeSessions == old(activeSessions)[sessionId := s']
    {
      if sessionId !in activeSessions {
        return Err(SessionNotFound(sessionId));
      }
      var s := activeSessions[sessionId];
      SynthesisOutcome(s, agents, library, topic, synthesisResponse, now);
      match SynthesisStep(s, agents, library, topic, synthesisResponse, now)
      case Err(e) =>
        r := Err(e);
      case Ok((s', agents', result)) =>
        activeSessions := activeSessions[sessionId := s'];
        agents := agents';
        r := Ok(result);
    }

    /** `_rotate_roles` */
    method RotateRoles(sessionId: string) returns (r: Result<(), string>)
      requires Valid() && sessionId in activeSessions
      modifies this
      ensures Valid()
      ensures var (res, s', agents') := RotationStep(old(activeSessions[sessionId]), old(agents), library);
        r == res && agents == agents' && activeSessions == old(activeSessions)[sessionId := s']
    {
      var s := activeSessions[sessionId];
      RotationKeepsRoster(s, agents, library);
      var result, s', updated := RotateAgents(s, agents, library);
      agents := updated;
      activeSessions := activeSessions[sessionId := s'];
      r := result;
    }

    /** `_handle_interventions` */
    method HandleInterventions(sessionId: string, action: Safeguards.Action, synthesisResponse: string, now: int)
      returns (r: Result<Handled, string>)
      requires Valid() && sessionId in activeSessions
      modifies this
      ensures Valid()
      ensures var (res, s', agents') := InterventionStep(old(activeSessions[sessionId]), old(agents), library, action,
                                                         synthesisResponse, now);
        r == res && agents == agents' && activeSessions == old(activeSessions)[sessionId := s']
    {
      match action {
        case SynthesisTriggered(_) =>
          var res := RequestSynthesis(sessionId, None, synthesisResponse, now);
          r := if res.Ok? then Ok(Handled(AutomaticSynthesis, Some(res.value))) else Err(res.error);
        case InterventionRequired(warnings, _) =>
          if HasKey(warnings, Safeguards.ExcessiveContradictions) {
            var res := RequestSynthesis(sessionId, None, synthesisResponse, now);
            r := if res.Ok? then Ok(Handled(ConsensusBuilding, Some(res.value))) else Err(res.error);
          } else if HasKey(warnings, Safeguards.IdeaHoarding) {
            var res := RotateRoles(sessionId);
            r := if res.Ok? then Ok(Handled(RoleRotation, None)) else Err(res.error);
          } else {
            r := Ok(Handled(NoIntervention, None));
          }
        case Continue(_) =>
          r := Ok(Handled(NoIntervention, None));
      }
    }

    /**
     * `add_contribution`; the agent's reply is `response`, and `synthesisResponse` is what
     * a synthesizer replies should the safeguards call for a synthesis. The id returned is
     * the index of the contribution added (see ContributionIdAsWritten).
     */
    method AddContribution(sessionId: string, agentId: string, message: string, contributionType: Option<ContributionType>,
                           response: string, synthesisResponse: string, now: int)
      returns (r: Result<Added, string>)
      requires Valid()
      modifies this, orchestrator, orchestrator.metrics
      ensures Valid()
      ensures sessionId !in old(activeSessions) ==>
        r == Err(SessionNotFound(sessionId)) && agents == old(agents) && activeSessions == old(activeSessions) &&
        orchestrator.sessions == old(orchestrator.sessions) && orchestrator.metrics.agentScores == old(orchestrator.metrics.agentScores) &&
        orchestrator.metrics.synthesisCount == old(orchestrator.metrics.synthesisCount) &&
        orchestrator.metrics.constructiveCritiques == old(orchestrator.metrics.constructiveCritiques)
      ensures sessionId in old(activeSessions) && !HasKey(old(agents), agentId) ==>
        r == Err(AgentNotFound(agentId)) && agents == old(agents) && activeSessions == old(activeSessions) &&
        orchestrator.sessions == old(orchestrator.sessions) && orchestrator.metrics.agentScores == old(orchestrator.metrics.agentScores) &&
        orchestrator.metrics.synthesisCount == old(orchestrator.metrics.synthesisCount) &&
        orchestrator.metrics.constructiveCritiques == old(orchestrator.metrics.constructiveCritiques)
      ensures sessionId in old(activeSessions) && HasKey(old(agents), agentId) ==>
        var role := Get(old(agents), agentId).value.currentRole;
        var kind := if contributionType.Some? then contributionType.value else InferContributionType(response, role);
        orchestrator.sessions == old(orchestrator.sessions)[sessionId :=
          Safeguards.SessionOf(old(orchestrator.sessions), sessionId) + [Safeguards.Contribution(agentId, response, kind, [], None)]] &&
        orchestrator.metrics.agentScores ==
          Safeguards.Record(old(orchestrator.metrics.agentScores), Safeguards.Contribution(agentId, response, kind, [], None)) &&
        orchestrator.metrics.synthesisCount == old(orchestrator.metrics.synthesisCount) + (if kind == Safeguards.Synthesize then 1 else 0) &&
        orchestrator.metrics.constructiveCritiques == old(orchestrator.metrics.constructiveCritiques)
      ensures sessionId in old(activeSessions) && HasKey(old(agents), agentId) ==>
        var role := Get(old(agents), agentId).value.currentRole;
        var kind := if contributionType.Some? then contributionType.value else InferContributionType(response, role);
        var action := Safeguards.Decide(orchestrator.sessions[sessionId], orchestrator.metrics.Health());
        var s := old(activeSessions[sessionId]);
        var (res, s', agents') := InterventionStep(Contributed(s, agentId, role, message, response, kind, now, action),
                                                   old(agents), library, action, synthesisResponse, now);
        agents == agents' && activeSessions == old(activeSessions)[sessionId := s'] &&
        r == (if res.Ok? then Ok(Added(|s.contributions|, response, action, res.value)) else Err(res.error))
    {
      if sessionId !in activeSessions {
        return Err(SessionNotFound(sessionId));
      }
      var agent := Get(agents, agentId);
      if agent.None? {
        return Err(AgentNotFound(agentId));
      }
      var role := agent.value.currentRole;
      var kind := if contributionType.Some? then contributionType.value else InferContributionType(response, role);
      var action;
      r, action := Contribute(sessionId, agentId, message, kind, response, synthesisResponse, now);
    }

    /**
     * `add_contribution` once the contribution type is known: the safeguards judge the reply,
     * the session stores it, and the intervention the safeguards call for is carried out.
     */
    method Contribute(sessionId: string, agentId: string, message: string, kind: ContributionType,
                      response: string, synthesisResponse: string, now: int)
      returns (r: Result<Added, string>, action: Safeguards.Action)
      requires Valid() && sessionId in activeSessions && HasKey(agents, agentId)
      modifies this, orchestrator, orchestrator.metrics
      ensures Valid()
      ensures var c := Safeguards.Contribution(agentId, response, kind, [], None);
        orchestrator.sessions ==
          old(orchestrator.sessions)[sessionId := Safeguards.SessionOf(old(orchestrator.sessions), sessionId) + [c]] &&
        orchestrator.metrics.agentScores == Safeguards.Record(old(orchestrator.metrics.agentScores), c)
      ensures orchestrator.metrics.synthesisCount == old(orchestrator.metrics.synthesisCount) + (if kind == Safeguards.Synthesize then 1 else 0)
      ensures orchestrator.metrics.constructiveCritiques == old(orchestrator.metrics.constructiveCritiques)
      ensures action == Safeguards.Decide(orchestrator.sessions[sessionId], orchestrator.metrics.Health())
      ensures var s := old(activeSessions[sessionId]);
        var role := Get(old(agents), agentId).value.currentRole;
        var (res, s', agents') := InterventionStep(Contributed(s, agentId, role, message, response, kind, now, action),
                                                   old(agents), library, action, synthesisResponse, now);
        agents == agents' && activeSessions == old(activeSessions)[sessionId := s'] &&
        r == (if res.Ok? then Ok(Added(|s.contributions|, response, action, res.value)) else Err(res.error))
    {
      action := orchestrator.ProcessContribution(agentId, response, kind, sessionId);
      r := StoreAndIntervene(sessionId, agentId, message, kind, response, synthesisResponse, now, action);
    }

    /**
     * The plugin's side of `add_contribution`, once the safeguards have decided `action`: the
     * session stores the contribution and the intervention is carried out.
     */
    method StoreAndIntervene(sessionId: string, agentId: string, message: string, kind: ContributionType,
                             response: string, synthesisResponse: string, now: int, action: Safeguards.Action)
      returns (r: Result<Added, string>)
      requires Valid() && sessionId in activeSessions && HasKey(agents, agentId)
      modifies this
      ensures Valid()
      ensures var s := old(activeSessions[sessionId]);
        var role := Get(old(agents), agentId).value.currentRole;
        var (res, s', agents') := InterventionStep(Contributed(s, agentId, role, message, response, kind, now, action),
                                                   old(agents), library, action, synthesisResponse, now);
        agents == agents' && activeSessions == old(activeSessions)[sessionId := s'] &&
        r == (if res.Ok? then Ok(Added(|s.contributions|, response, action, res.value)) else Err(res.error))
    {
      var s := activeSessions[sessionId];
      var s1 := Contributed(s, agentId, Get(agents, agentId).value.currentRole, message, response, kind, now, action);
      InterventionKeepsContributions(s1, agents, library, action, synthesisResponse, now);
      var (res, s', agents') := InterventionStep(s1, agents, library, action, synthesisResponse, now);
      assert UniqueKeys(s'.roles) && UniqueKeys(agents') && Keys(agents') == agentIds;
      activeSessions := activeSessions[sessionId := s'];
      agents := agents';
      r := if res.Ok? then Ok(Added(|s.contributions|, response, action, res.value)) else Err(res.error);
    }

    /** `get_session_status` */
    method GetSessionStatus(sessionId: string) returns (r: Result<SessionStatus, string>)
      ensures sessionId !in activeSessions ==> r == Err(SessionNotFound(sessionId))
      ensures sessionId in activeSessions ==>
        var s := activeSessions[sessionId];
        r.Ok? && r.value.sessionId == sessionId && r.value.topic == s.topic && r.value.status == s.status &&
        r.value.participants == |s.roles| && r.value.contributions == |s.contributions| &&
        r.value.recentActivity == Recent(s.contributions, 3) &&
        (r.value.collaborationHealth.Some? <==> sessionId in orchestrator.sessions) &&
        (r.value.collaborationHealth.Some? ==> r.value.collaborationHealth.value == orchestrator.metrics.Health())
    {
      if sessionId !in activeSessions {
        return Err(SessionNotFound(sessionId));
      }
      var s := activeSessions[sessionId];
      var report := orchestrator.GetCollaborationReport(sessionId);
      var health := if report.Ok? then Some(report.value.collaborationHealth) else None;
      var recent := if s.contributions != [] then Recent(s.contributions, 3) else [];
      r := Ok(SessionStatus(sessionId, s.topic, s.status, |s.roles|, |s.contributions|, health, recent));
    }

    /** `end_session` */
    method EndSession(sessionId: string, now: int) returns (r: Result<Ended, string>)
      requires Valid()
      modifies this
      ensures Valid() && agents == old(agents)
      ensures sessionId !in old(activeSessions) ==>
        r == Err(SessionNotFound(sessionId)) && activeSessions == old(activeSessions)
      ensures sessionId in old(activeSessions) ==>
        var s := old(activeSessions[sessionId]).(status := Completed, endedAt := Some(now));
        activeSessions == old(activeSessions)[sessionId := s] &&
        r.Ok? && r.value.sessionId == sessionId && r.value.summary == SessionSummary(s, now) &&
        r.value.finalReport ==
          if sessionId in orchestrator.sessions then
            Ok(Safeguards.Report(sessionId, |orchestrator.sessions[sessionId]|, Safeguards.StatsOf(orchestrator.sessions[sessionId]),
                                 orchestrator.metrics.Health(), orchestrator.metrics.synthesisCount))
          else Err("Session not found")
    {
      if sessionId !in activeSessions {
        return Err(SessionNotFound(sessionId));
      }
      var s := activeSessions[sessionId].(status := Completed, endedAt := Some(now));
      activeSessions := activeSessions[sessionId := s];
      var report := orchestrator.GetCollaborationReport(sessionId);
      r := Ok(Ended(sessionId, report, SessionSummary(s, now)));
    }
  }

  /** `CollaborativeCouncilAPI`: the registered councils, in registration order. */
  class CouncilAPI {
    var councils: Dict<string, CouncilPlugin>

    constructor ()
      ensures councils == []
    {
      councils := [];
    }

    /** `register_council`: a new plugin under the council's id, replacing any earlier one. */
    method RegisterCouncil(councilId: string, configuredIds: seq<string>, defaultRoles: Dict<string, AgentRole>,
                           cat: Catalogue) returns (id: string)
      requires UniqueKeys(defaultRoles)
      modifies this
      ensures id == councilId
      ensures HasKey(councils, councilId) && fresh(Get(councils, councilId).value)
      ensures councils == Put(old(councils), councilId, Get(councils, councilId).value)
    {
      var council := new CouncilPlugin(configuredIds, defaultRoles, cat);
      councils := Put(councils, councilId, council);
      id := councilId;
    }

    /** `_find_council_by_session`: the first council, in registration order, holding the session. */
    method FindCouncilBySession(sessionId: string) returns (r: Option<CouncilPlugin>)
      ensures r.None? <==> forall i :: 0 <= i < |councils| ==> sessionId !in councils[i].1.activeSessions
      ensures r.Some? ==> exists i :: 0 <= i < |councils| && councils[i].1 == r.value && sessionId in r.value.activeSessions &&
                                     forall j :: 0 <= j < i ==> sessionId !in councils[j].1.activeSessions
    {
      var i := 0;
      while i < |councils|
        invariant i <= |councils|
        invariant forall j :: 0 <= j < i ==> sessionId !in councils[j].1.activeSessions
      {
        if sessionId in councils[i].1.activeSessions {
          return Some(councils[i].1);
        }
        i := i + 1;
      }
      return None;
    }
  }
}
