/**
 * collaborative_prompt_library.py: one prompt template per agent role, built once when the
 * library is constructed, and the prompts assembled from them for role assignment and for
 * consensus building.
 *
 * The prose of the catalogue (the universal principles, each role's system-prompt body,
 * conversation starters, intervention prompts and self-check questions) is data the model
 * takes as a `Catalogue`; only the way the library assembles and looks it up is modelled.
 */
module PromptLibrary {
  import opened Wrappers
  import opened Strs
  import opened Dicts
  import opened Seqs

  datatype AgentRole = Proposer | Critic | Synthesizer | Implementer | Observer | Facilitator | Validator

  /** `role.value` */
  function RoleValue(r: AgentRole): string
  {
    match r
    case Proposer => "proposer"
    case Critic => "critic"
    case Synthesizer => "synthesizer"
    case Implementer => "implementer"
    case Observer => "observer"
    case Facilitator => "facilitator"
    case Validator => "validator"
  }

  /** The roles in the order `_build_prompt_library` lists them. */
  const Roles: seq<AgentRole> := [Proposer, Critic, Synthesizer, Implementer, Observer, Facilitator, Validator]

  lemma RolesListsEveryRole(r: AgentRole)
    ensures exists i :: 0 <= i < |Roles| && Roles[i] == r
  {
    match r
    case Proposer => assert Roles[0] == r;
    case Critic => assert Roles[1] == r;
    case Synthesizer => assert Roles[2] == r;
    case Implementer => assert Roles[3] == r;
    case Observer => assert Roles[4] == r;
    case Facilitator => assert Roles[5] == r;
    case Validator => assert Roles[6] == r;
  }

  datatype PromptTemplate = PromptTemplate(
    role: AgentRole,
    systemPrompt: string,
    conversationStarters: seq<string>,
    interventionPrompts: Dict<string, string>,
    metaPrompts: seq<string>)

  /** The fixed prose one `_build_*_prompts` method writes for its role. */
  datatype RoleText = RoleText(
    body: string,
    starters: seq<string>,
    interventions: Dict<string, string>,
    metas: seq<string>)

  /** All the prose of the library: what `_get_universal_principles` returns and each role's text. */
  datatype Catalogue = Catalogue(principles: string, texts: AgentRole -> RoleText)

  datatype Library = Library(prompts: Dict<AgentRole, PromptTemplate>, universalPrinciples: string)

  /** The attributes of a library object while `__init__` runs; `None` is an attribute not yet assigned. */
  datatype Partial = Partial(prompts: Option<Dict<AgentRole, PromptTemplate>>, universalPrinciples: Option<string>)

  /** One `_build_*_prompts` method: the system prompt opens with the universal principles. */
  function BuildTemplate(role: AgentRole, principles: string, t: RoleText): (r: PromptTemplate)
  {
    PromptTemplate(role, Concat(["\n", principles, "\n\n", t.body]), t.starters, t.interventions, t.metas)
  }

  lemma TemplateEmbedsPrinciples(role: AgentRole, principles: string, t: RoleText)
    ensures BuildTemplate(role, principles, t).role == role
    ensures Contains(BuildTemplate(role, principles, t).systemPrompt, principles)
  {
    ContainsSelf(principles);
    ConcatContains(["\n", principles, "\n\n", t.body], 1, principles);
  }

  function BuildPairs(principles: string, cat: Catalogue): (r: Dict<AgentRole, PromptTemplate>)
    ensures |r| == |Roles|
    ensures forall i :: 0 <= i < |r| ==> r[i] == (Roles[i], BuildTemplate(Roles[i], principles, cat.texts(Roles[i])))
  {
    seq(|Roles|, i requires 0 <= i < |Roles| => (Roles[i], BuildTemplate(Roles[i], principles, cat.texts(Roles[i]))))
  }

  /** `_build_prompt_library`: reading `self.universal_principles` fails while it is unassigned. */
  function BuildPromptLibrary(self: Partial, cat: Catalogue): Result<Dict<AgentRole, PromptTemplate>, string>
  {
    match self.universalPrinciples
    case None => Err("AttributeError: universal_principles")
    case Some(p) => Ok(BuildPairs(p, cat))
  }

  /** `__init__` as written: the prompts are built before the principles are assigned. */
  function InitAsWritten(cat: Catalogue): Result<Library, string>
  {
    var self := Partial(None, None);
    match BuildPromptLibrary(self, cat)
    case Err(e) => Err(e)
    case Ok(prompts) => Ok(Library(prompts, cat.principles))
  }

  /** Constructing the library as written always fails, whatever the catalogue. */
  lemma InitAsWrittenFails(cat: Catalogue)
    ensures InitAsWritten(cat) == Err("AttributeError: universal_principles")
  {
  }

  /** `__init__` with its two assignments in the order the build needs. */
  function Init(cat: Catalogue): (lib: Library)
    ensures lib.universalPrinciples == cat.principles && Complete(lib)
  {
    InitComplete(cat);
    var self := Partial(None, Some(cat.principles));
    var prompts := BuildPromptLibrary(self, cat).value;
    Library(prompts, cat.principles)
  }

  /** Every role has exactly one template. */
  predicate Complete(lib: Library)
  {
    UniqueKeys(lib.prompts) && forall r: AgentRole :: HasKey(lib.prompts, r)
  }

  lemma InitComplete(cat: Catalogue)
    ensures Complete(Library(BuildPairs(cat.principles, cat), cat.principles))
  {
    var d := BuildPairs(cat.principles, cat);
    assert Keys(d) == Roles;
    forall r: AgentRole
      ensures HasKey(d, r)
    {
      RolesListsEveryRole(r);
      var i :| 0 <= i < |Roles| && Roles[i] == r;
      assert d[i].0 == r;
    }
  }

  /**
   * The constructed library maps every role to one template for that role, whose system prompt
   * embeds the universal principles and whose other parts are the role's catalogue text.
   */
  lemma InitMapsEveryRole(cat: Catalogue, role: AgentRole)
    ensures GetPrompt(Init(cat), role) == BuildTemplate(role, cat.principles, cat.texts(role))
    ensures GetPrompt(Init(cat), role).role == role
    ensures Contains(GetPrompt(Init(cat), role).systemPrompt, cat.principles)
  {
    var d := Init(cat).prompts;
    RolesListsEveryRole(role);
    var i :| 0 <= i < |Roles| && Roles[i] == role;
    assert d[i] == (role, BuildTemplate(role, cat.principles, cat.texts(role)));
    GetUnique(d, i);
    TemplateEmbedsPrinciples(role, cat.principles, cat.texts(role));
  }

  /** `get_prompt` */
  function GetPrompt(lib: Library, role: AgentRole): PromptTemplate
    requires Complete(lib)
  {
    Get(lib.prompts, role).value
  }

  const DefaultIntervention := "Continue collaborating constructively."

  /** `get_intervention_prompt`: the template's prompt for the situation, or the fallback. */
  function GetInterventionPrompt(lib: Library, role: AgentRole, situation: string): (r: string)
    requires Complete(lib)
  {
    GetOr(GetPrompt(lib, role).interventionPrompts, situation, DefaultIntervention)
  }

  lemma InterventionLookup(cat: Catalogue, role: AgentRole, situation: string)
    ensures var r := GetInterventionPrompt(Init(cat), role, situation);
      var d := cat.texts(role).interventions;
      (HasKey(d, situation) ==> r == Get(d, situation).value) &&
      (!HasKey(d, situation) ==> r == DefaultIntervention)
  {
    InitMapsEveryRole(cat, role);
  }

  /** `get_meta_prompts` */
  function GetMetaPrompts(lib: Library, role: AgentRole): seq<string>
    requires Complete(lib)
  {
    GetPrompt(lib, role).metaPrompts
  }

  lemma MetaPromptsOfRole(cat: Catalogue, role: AgentRole)
    ensures GetMetaPrompts(Init(cat), role) == cat.texts(role).metas
  {
    InitMapsEveryRole(cat, role);
  }

  const Bullet := "• "

  const AssignmentOpening := "\nROLE ASSIGNMENT: You are now acting as a "
  const ContextHeading := "\n\nSESSION CONTEXT: "
  const OthersHeading := "\n\nOTHER AGENTS IN SESSION: "
  const ResponsibilitiesHeading := "\n\nYour specific responsibilities as "
  const SelfCheckHeading := "\n\nSELF-CHECK QUESTIONS (review these periodically):\n"
  const AssignmentClosing := "\n\nBegin collaborating in your assigned role. Remember: collective success is individual success.\n"

  /** The pieces of the role-assignment prompt, in order. */
  function RoleAssignmentParts(t: PromptTemplate, role: AgentRole, sessionContext: string, others: seq<string>): seq<string>
  {
    var name := Upper(RoleValue(role));
    [AssignmentOpening, name, "\n\n", t.systemPrompt, ContextHeading, sessionContext, OthersHeading, Join(", ", others),
     ResponsibilitiesHeading, name, ":\n", Bulleted(Bullet, Take(t.conversationStarters, 3)),
     SelfCheckHeading, Bulleted(Bullet, t.metaPrompts), AssignmentClosing]
  }

  /** Where the pieces the role-assignment lemmas look for sit among the parts. */
  lemma RoleAssignmentPartsAt(t: PromptTemplate, role: AgentRole, sessionContext: string, others: seq<string>)
    ensures var parts := RoleAssignmentParts(t, role, sessionContext, others);
      |parts| == 15 && parts[1] == Upper(RoleValue(role)) && parts[3] == t.systemPrompt && parts[5] == sessionContext &&
      parts[11] == Bulleted(Bullet, Take(t.conversationStarters, 3)) && parts[13] == Bulleted(Bullet, t.metaPrompts)
  {
  }

  /** `generate_role_assignment_prompt`; a missing list of other agents is an empty one. */
  function GenerateRoleAssignmentPrompt(lib: Library, agentId: string, role: AgentRole, sessionContext: string,
                                        otherAgents: Option<seq<string>>): string
    requires Complete(lib)
  {
    var others := match otherAgents case None => [] case Some(o) => o;
    Concat(RoleAssignmentParts(GetPrompt(lib, role), role, sessionContext, others))
  }

  /** The role-assignment prompt names the role in upper case and carries the session context and the role's system prompt. */
  lemma RoleAssignmentFrames(lib: Library, agentId: string, role: AgentRole, sessionContext: string,
                             otherAgents: Option<seq<string>>)
    requires Complete(lib)
    ensures var p := GenerateRoleAssignmentPrompt(lib, agentId, role, sessionContext, otherAgents);
      Contains(p, Upper(RoleValue(role))) && Contains(p, sessionContext) && Contains(p, GetPrompt(lib, role).systemPrompt)
  {
    var t := GetPrompt(lib, role);
    var others := match otherAgents case None => [] case Some(o) => o;
    var parts := RoleAssignmentParts(t, role, sessionContext, others);
    RoleAssignmentPartsAt(t, role, sessionContext, others);
    ContainsSelf(Upper(RoleValue(role)));
    ConcatContains(parts, 1, Upper(RoleValue(role)));
    ContainsSelf(sessionContext);
    ConcatContains(parts, 5, sessionContext);
    ContainsSelf(t.systemPrompt);
    ConcatContains(parts, 3, t.systemPrompt);
  }

  /** Each of the first three conversation starters is listed as a responsibility. */
  lemma RoleAssignmentListsStarter(lib: Library, agentId: string, role: AgentRole, sessionContext: string,
                                   otherAgents: Option<seq<string>>, k: nat)
    requires Complete(lib) && k < 3 && k < |GetPrompt(lib, role).conversationStarters|
    ensures Contains(GenerateRoleAssignmentPrompt(lib, agentId, role, sessionContext, otherAgents),
                     Bullet + GetPrompt(lib, role).conversationStarters[k])
  {
    var t := GetPrompt(lib, role);
    var others := match otherAgents case None => [] case Some(o) => o;
    var parts := RoleAssignmentParts(t, role, sessionContext, others);
    RoleAssignmentPartsAt(t, role, sessionContext, others);
    BulletedContains(Bullet, Take(t.conversationStarters, 3), k);
    ConcatContains(parts, 11, Bullet + t.conversationStarters[k]);
  }

  /** Every self-check question is listed. */
  lemma RoleAssignmentListsQuestion(lib: Library, agentId: string, role: AgentRole, sessionContext: string,
                                    otherAgents: Option<seq<string>>, k: nat)
    requires Complete(lib) && k < |GetPrompt(lib, role).metaPrompts|
    ensures Contains(GenerateRoleAssignmentPrompt(lib, agentId, role, sessionContext, otherAgents),
                     Bullet + GetPrompt(lib, role).metaPrompts[k])
  {
    var t := GetPrompt(lib, role);
    var others := match otherAgents case None => [] case Some(o) => o;
    var parts := RoleAssignmentParts(t, role, sessionContext, others);
    RoleAssignmentPartsAt(t, role, sessionContext, others);
    BulletedContains(Bullet, t.metaPrompts, k);
    ConcatContains(parts, 13, Bullet + t.metaPrompts[k]);
  }

  /** A missing list of other agents reads as an empty one. */
  lemma RoleAssignmentMissingOthers(lib: Library, agentId: string, role: AgentRole, sessionContext: string)
    requires Complete(lib)
    ensures GenerateRoleAssignmentPrompt(lib, agentId, role, sessionContext, None) ==
            GenerateRoleAssignmentPrompt(lib, agentId, role, sessionContext, Some([]))
  {
  }

  /** Conversation starters beyond the third never reach the prompt. */
  lemma RoleAssignmentUsesFirstThree(t1: PromptTemplate, t2: PromptTemplate, role: AgentRole, sessionContext: string,
                                     others: seq<string>)
    requires t1.systemPrompt == t2.systemPrompt && t1.metaPrompts == t2.metaPrompts
    requires |t1.conversationStarters| >= 3 && |t2.conversationStarters| >= 3
    requires t1.conversationStarters[..3] == t2.conversationStarters[..3]
    ensures Concat(RoleAssignmentParts(t1, role, sessionContext, others)) ==
            Concat(RoleAssignmentParts(t2, role, sessionContext, others))
  {
    assert Take(t1.conversationStarters, 3) == Take(t2.conversationStarters, 3);
  }

  const ConsensusInstructions :=
    "Your task: Act as a SYNTHESIZER and create a unified proposal that:\n\n" +
    "1. INCORPORATES the best ideas from each contribution above\n" +
    "2. ADDRESSES concerns and criticisms that have been raised  \n" +
    "3. BRIDGES different approaches into a coherent solution\n" +
    "4. IDENTIFIES remaining areas needing resolution\n\n" +
    "Format your response as:\n" +
    "• COMMON GROUND: What everyone seems to agree on\n" +
    "• SYNTHESIS: Your unified proposal incorporating all inputs\n" +
    "• TRADE-OFFS: What we gain/lose with this approach\n" +
    "• NEXT STEPS: What still needs to be decided or validated\n\n" +
    "Remember: You're finding the path forward that works for everyone, not picking winners and losers.\n"

  const ConsensusOpening := "\nCONSENSUS BUILDING REQUEST\n\nTopic: "
  const ContributionsHeading := "\n\nPrevious contributions to synthesize:\n"

  function ConsensusParts(topic: string, previousContributions: seq<string>): seq<string>
  {
    [ConsensusOpening, topic, ContributionsHeading, Bulleted(Bullet, Recent(previousContributions, 5)),
     "\n\n", ConsensusInstructions]
  }

  /** `generate_consensus_prompt` */
  function GenerateConsensusPrompt(topic: string, previousContributions: seq<string>): string
  {
    Concat(ConsensusParts(topic, previousContributions))
  }

  /**
   * The consensus prompt names the topic and lists each of the last five contributions, in
   * their order: every one is followed, on the next line, by the one after it.
   */
  lemma ConsensusListsLastFive(topic: string, previousContributions: seq<string>)
    ensures var p := GenerateConsensusPrompt(topic, previousContributions);
      var recent := Recent(previousContributions, 5);
      Contains(p, topic) && (forall k :: 0 <= k < |recent| ==> Contains(p, Bullet + recent[k])) &&
      forall k :: 0 <= k < |recent| - 1 ==> Contains(p, Bullet + recent[k] + "\n" + Bullet + recent[k + 1])
  {
    var parts := ConsensusParts(topic, previousContributions);
    var recent := Recent(previousContributions, 5);
    ContainsSelf(topic);
    ConcatContains(parts, 1, topic);
    forall k | 0 <= k < |recent|
      ensures Contains(Concat(parts), Bullet + recent[k])
    {
      BulletedContains(Bullet, recent, k);
      ConcatContains(parts, 3, Bullet + recent[k]);
    }
    forall k | 0 <= k < |recent| - 1
      ensures Contains(Concat(parts), Bullet + recent[k] + "\n" + Bullet + recent[k + 1])
    {
      BulletedAdjacent(Bullet, recent, k);
      ConcatContains(parts, 3, Bullet + recent[k] + "\n" + Bullet + recent[k + 1]);
    }
  }

  /** Contributions before the last five never reach the prompt. */
  lemma ConsensusUsesLastFive(topic: string, earlier1: seq<string>, earlier2: seq<string>, last: seq<string>)
    requires |last| == 5
    ensures GenerateConsensusPrompt(topic, earlier1 + last) == GenerateConsensusPrompt(topic, earlier2 + last)
  {
    assert Recent(earlier1 + last, 5) == last;
    assert Recent(earlier2 + last, 5) == last;
  }
}
