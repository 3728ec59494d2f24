# Thermal-Equity-Orchestrator: the coordination core in Dafny

This project models, in Dafny, the Python core of Thermal-Equity-Orchestrator: a token-allocation
ledger that splits donors' offers across causes, and the multi-agent collaboration machinery built
around it (an agent priority queue, council sessions with roles, safeguards against competitive
behaviour, anti-bias bookkeeping and several scoring engines). Every `async` in the source is
sequential, so each operation is an ordinary function or method. Money and scores are `real`.

The modules follow the source files:

- `ResourceSim` and `AllocationProperties` (`c42_resource_sim.py`): the `Donor`, `Cause` and
  `Distributor` classes update their fields in place. `Distributor.RunAllocationCycle` computes
  exactly the pure `Cycle` of the old state. The lemmas about `Cycle` prove the ledger
  invariants:
  - shares never exceed a donor's budget;
  - no cause is over-funded;
  - wallets stay non-negative;
  - money is conserved;
  - unmet needs and satisfaction are reported as the source computes them.
- `Safeguards` (`collaboration_safeguards.py`): per-agent collaboration metrics, windowed
  disagreement detection, round-robin roles and their rotation, the four pattern detectors,
  and the orchestrator that records contributions and reports on a session.
- `AgentQueuing` (`agent_queuing_system.py`): reputation and expertise scoring, and the
  max-priority queue with lazy deletion over disjoint waiting and active sets. It also holds
  the coordinator that builds discussion queues and picks a participant set greedily.
- `CouncilPlugin` (`collaborative_plugin_integration.py`): council sessions. The model covers:
  - role assignment, rotation and reassignment;
  - inference of the contribution type and the ten-entry conversation context;
  - synthesis requests and interventions;
  - the session summary and the unknown-session and unknown-agent errors.

  Agents' generated responses are parameters.
- `PromptLibrary` (`collaborative_prompt_library.py`): construction of the prompt library,
  intervention and meta-prompt lookup, and the role-assignment and consensus prompts.
- `AgentBias` and `AgentBiasAnalysis` (`agent_to_agent_anti_bias.py`): the per-pair relationship
  counters kept by `track_agent_interaction`, the analyses computed from them, and the
  deterministic helpers of the bias-evolution simulation.
- `VoiceCasting` (`culturally_diverse_voice_system.py`): persona scoring, the ten-entry
  representation record, and the structure and expression adaptations of a response.
- `EmotionalIntelligence` (`cultural_emotional_intelligence.py`): the response approach blended
  from two cultural profiles, the per-pair interaction counters and the two scores over them.
- `EmergentConsciousness` (`emergent_ai_consciousness.py`): phrase indicators over an
  interaction history, the ratio metrics, pathway scoring and the threshold predictions.
- `AntiBiasArchitecture` (`anti_bias_architecture.py`): per-direction averages over the constant
  catalogue of mitigation mechanisms, and the validator's overall score.
- `Wrappers`, `Numeric`, `Seqs`, `Strs` and `Dicts` (`foundations.dfy`): shared helpers.
  - Python dictionaries are association lists in insertion order, because folds over them
    (first match, maximum) depend on that order.
  - A Python exception is the `Err` case of a `Result`.

## Model

| member | source | states |
|---|---|---|
| ResourceSim.Offer | c42_resource_sim.py:19-22 | the offered budget never exceeds the wallet, is `wallet * rate` for a rate in [0, 1] and a non-negative wallet, and nothing but the budget changes |
| ResourceSim.RelevantSpec | c42_resource_sim.py:131-135 | the relevant causes are exactly the distributor's causes for which the donor has a positive preference |
| AllocationProperties.ScoresNonNegative | c42_resource_sim.py:140-144 | with a non-negative budget, preferred causes, and non-negative needs and priorities, every weighted score `preference * priority * min(need, budget)` is non-negative |
| AllocationProperties.SharesNonNegative | c42_resource_sim.py:149-158 | with a positive budget and total and non-negative scores, every uncapped share is non-negative |
| ResourceSim.PortionsSpec | c42_resource_sim.py:150-166 | every stored amount is positive, stored under a distinct cause id, and at most what a preferred cause still needs |
| ResourceSim.DonorAllocationSpec | c42_resource_sim.py:124-166 | every entry of the allocation is positive, keyed once, at most the remaining need of a preferred cause; an allocation exists only with preferences and a positive budget |
| ResourceSim.DonorTransfers | c42_resource_sim.py:177-181 | the donor's transfers of the last cycle are exactly the recorded transfers naming that donor |
| ResourceSim.FindCause | c42_resource_sim.py:96 | a found position holds a cause with the requested id |
| ResourceSim.FindCauseFirst | c42_resource_sim.py:96 | the position found is the first with that id, and nothing is found only when no cause has it |
| ResourceSim.ExecuteShare | c42_resource_sim.py:95-104 | executing one allocation item keeps the number of donors and causes |
| ResourceSim.ExecuteShares | c42_resource_sim.py:95-104 | executing a donor's items in order keeps the number of donors and causes |
| ResourceSim.DonorPass | c42_resource_sim.py:88-104 | a donor without budget is skipped; the pass keeps the number of donors and causes |
| ResourceSim.PassUpTo | c42_resource_sim.py:88-104 | the donors' passes in turn keep the number of donors and causes |
| ResourceSim.Cycle | c42_resource_sim.py:70-122 | the cycle keeps the number of donors and causes (its other properties are the lemmas of `AllocationProperties`) |
| ResourceSim.Donor.constructor | c42_resource_sim.py:7-13 | a new donor has the given id, wallet and preferences and no budget |
| ResourceSim.Donor.SetPreference | c42_resource_sim.py:15-17 | the weight is stored clamped to [0, 1]; nothing else changes |
| ResourceSim.Donor.OfferCapacity | c42_resource_sim.py:19-22 | the budget becomes `min(wallet * rate, wallet)` and is returned |
| ResourceSim.Donor.AllocateTokens | c42_resource_sim.py:24-30 | succeeds iff the amount is within both budget and wallet; then both drop by the amount, otherwise nothing changes |
| ResourceSim.Cause.constructor | c42_resource_sim.py:32-40 | a new cause has the given need and priority and nothing received |
| ResourceSim.Cause.RegisterNeed | c42_resource_sim.py:42-45 | the need is overwritten unclamped and the priority is clamped to [0, 1] |
| ResourceSim.Cause.ReceiveTokens | c42_resource_sim.py:47-51 | always succeeds; the cycle's and the lifetime totals both grow by the amount |
| ResourceSim.Cause.ResetCycle | c42_resource_sim.py:53-55 | only `received` changes, to 0 |
| ResourceSim.Distributor.constructor | c42_resource_sim.py:57-62 | no donors, causes or history |
| ResourceSim.Distributor.AddDonor | c42_resource_sim.py:64-65 | the donor is appended; nothing else changes |
| ResourceSim.Distributor.AddCause | c42_resource_sim.py:67-68 | the cause is appended; nothing else changes |
| ResourceSim.Distributor.CalculateDonorAllocation | c42_resource_sim.py:124-166 | the allocation keys each cause at most once; every amount is positive and at most the remaining need of a current cause with that id that the donor prefers; a donor without preferences or budget gets an empty allocation |
| ResourceSim.Distributor.OfferAllCapacity | c42_resource_sim.py:80-85 | every donor's budget becomes its offer, causes are untouched, and the returned total is the sum of the offers |
| ResourceSim.Distributor.TransferShare | c42_resource_sim.py:95-104 | one allocation item updates donors, causes, transfers and total exactly as `ExecuteShare` |
| ResourceSim.Distributor.DonorRound | c42_resource_sim.py:88-104 | one donor's round updates the state exactly as `DonorPass` |
| ResourceSim.Distributor.ResetCauses | c42_resource_sim.py:117-119 | every cause's `received` becomes 0, donors untouched |
| ResourceSim.Distributor.AllocateAll | c42_resource_sim.py:87-104 | all donors' rounds update the state exactly as `PassUpTo` |
| ResourceSim.Distributor.CloseCycle | c42_resource_sim.py:106-122 | unmet needs and satisfaction are taken before the reset and before the result joins the history, which grows by exactly that result |
| ResourceSim.Distributor.RunAllocationCycle | c42_resource_sim.py:70-122 | the new donors, causes and result are exactly `Cycle` of the old state, and the history grows by exactly one entry |
| AllocationProperties.SharesSum | c42_resource_sim.py:141-158 | the uncapped shares add up to `budget * (sum of scores / total)` |
| AllocationProperties.SharesOfBudget | c42_resource_sim.py:149-158 | with non-negative scores the uncapped shares are non-negative and add up to the budget |
| AllocationProperties.PortionsUnique | c42_resource_sim.py:163-164 | the stored portions have distinct cause ids |
| AllocationProperties.PortionsPositive | c42_resource_sim.py:163-164 | every stored portion is positive |
| AllocationProperties.PortionsWithinShares | c42_resource_sim.py:160-164 | capping at the remaining need only lowers the total of the split |
| AllocationProperties.AllocationWithinBudget | c42_resource_sim.py:141-161 | with non-negative needs and priorities a donor's allocation adds up to at most its budget |
| AllocationProperties.ExecuteSharePays | c42_resource_sim.py:96-104 | an item whose cause exists and which the donor can afford is debited, paid and recorded |
| AllocationProperties.ExecuteSharesPaysPrefix | c42_resource_sim.py:95-104 | executing the first k affordable items debits and pays exactly their sum and records k transfers |
| AllocationProperties.DonorPassPaysInFull | c42_resource_sim.py:88-104 | with non-negative needs and a budget within the wallet every `allocate_tokens` call succeeds: the pass pays exactly the planned total, one transfer per item |
| AllocationProperties.CycleConservesTokens | c42_resource_sim.py:95-104 | the wallets' loss, the causes' lifetime gain and the sum of the recorded transfers all equal `total_allocated` |
| AllocationProperties.CycleNeverOverfunds | c42_resource_sim.py:150-164 | with unique cause ids, in a cycle a cause receives nothing negative and at most what it still needed when the cycle began |
| AllocationProperties.UnmetNeedsAccount | c42_resource_sim.py:107-110 | the unmet need reported for a cause is what it still needed minus what it received, floored at 0 |
| AllocationProperties.CycleIsSound | c42_resource_sim.py:80-122 | donors keep id and preferences, pay at most their offer and never overdraw; causes keep id, need and priority and end with nothing received; every transfer is positive and names a known donor and cause |
| AllocationProperties.SatisfactionInUnitRange | c42_resource_sim.py:168-198 | with weights in [0, 1] and positive recorded amounts, satisfaction lies in [0, 1] |
| AllocationProperties.WeightedWithinAmounts | c42_resource_sim.py:190-196 | with preferences in [0, 1] and non-negative amounts, the preference-weighted total lies between 0 and the plain total |
| AllocationProperties.FirstCycleSatisfactionIsZero | c42_resource_sim.py:112-121 | satisfaction is read before the cycle is recorded, so in the first cycle every donor's satisfaction is 0 |
| Safeguards.ScoredBranches | collaboration_safeguards.py:59-73 | exactly one reward branch fires, the first of SYNTHESIZE (+2 synthesis points), IMPROVE (+1 cooperation), builds_on (+its length), supports (+1 cooperation); helpful critiques never change |
| Safeguards.ScoredFlags | collaboration_safeguards.py:75-78 | `competitive_flags` rises by one exactly when a listed keyword occurs in the lower-cased content |
| Safeguards.RecordFlags | collaboration_safeguards.py:46-78 | recording keeps one entry per agent and raises the total of the flags by one exactly for a competitive contribution |
| Safeguards.FlagsCountCompetitive | collaboration_safeguards.py:46-78 | after recording a sequence from scratch, the flags add up to the number of competitive contributions |
| Safeguards.RecordNewAgent | collaboration_safeguards.py:50-57 | a new agent gets one new entry: the all-zero score, rescored by its first contribution |
| Safeguards.HealthAfter | collaboration_safeguards.py:80-94 | no data iff nothing was recorded; otherwise the warnings count the competitive contributions and the status is healthy iff they are fewer than twice the number of agents |
| Safeguards.Metrics.constructor | collaboration_safeguards.py:40-44 | no scores and no synthesis events |
| Safeguards.Metrics.RecordContribution | collaboration_safeguards.py:46-78 | the scores become `Record` of the old ones and `synthesis_count` rises by one exactly for a SYNTHESIZE contribution |
| Safeguards.CritiqueCount | collaboration_safeguards.py:105-109 | the number of critiques is at most the number of contributions |
| Safeguards.DetectDisagreement | collaboration_safeguards.py:103-111 | true iff at least three of the last five contributions are critiques |
| Safeguards.CritiqueCountSuffix | collaboration_safeguards.py:105-109 | m trailing critiques count at least m |
| Safeguards.DisagreementBounds | collaboration_safeguards.py:103-111 | disagreement needs at least three contributions, and three trailing critiques always are one |
| Safeguards.RoundRobinInOrder | collaboration_safeguards.py:166-183 | with distinct ids the assignment lists every agent once, in the given order |
| Safeguards.RoundRobinAssigns | collaboration_safeguards.py:166-183 | with distinct ids agent i is assigned role `i mod 5` |
| Safeguards.RotatedPermutes | collaboration_safeguards.py:185-201 | rotation keeps the agents and the multiset of roles |
| Safeguards.RotateStep | collaboration_safeguards.py:196-198 | one step of the rotation loop adds a new agent with its successor's role |
| Safeguards.RotatedUnique | collaboration_safeguards.py:185-201 | rotation keeps one entry per agent |
| Safeguards.RotatedTimesAt | collaboration_safeguards.py:185-201 | after k rotations agent i holds the role of the agent k places further on, wrapping round |
| Safeguards.RotationCycles | collaboration_safeguards.py:185-201 | rotating as many times as there are agents restores the original assignment |
| Safeguards.RoleRotator.constructor | collaboration_safeguards.py:162-164 | no assignments and no history |
| Safeguards.RoleRotator.AssignRoles | collaboration_safeguards.py:166-183 | the round-robin assignment is returned, stored for the session and logged once |
| Safeguards.RoleRotator.RotateRoles | collaboration_safeguards.py:185-201 | an unknown session gives `{}` and changes nothing; otherwise the stored roles are replaced by their rotation, which is returned |
| Safeguards.RepeatCritiques | collaboration_safeguards.py:229-238 | critiques by agents who critiqued before are at most all critiques |
| Safeguards.Contradictions | collaboration_safeguards.py:229-240 | the level lies in [0, 3] and below the cap equals the number of repeated critiques |
| Safeguards.NoRepeatNoContradiction | collaboration_safeguards.py:229-240 | when no agent critiques twice there are no contradictions |
| Safeguards.AgentCountsTotal | collaboration_safeguards.py:244-248 | one positive count per contributing agent, adding up to the number of contributions |
| Safeguards.Hoarding | collaboration_safeguards.py:242-263 | the level is 0, 1 or 2, and 0 with no contributions |
| Safeguards.EvenParticipationNoHoarding | collaboration_safeguards.py:250-263 | when every agent contributed equally often there is no hoarding |
| Safeguards.CreditFlags | collaboration_safeguards.py:267-274 | at most one flag per contribution |
| Safeguards.CreditGrabbingLevel | collaboration_safeguards.py:265-276 | the level lies in [0, 3] and below the cap equals the number of flagged contributions |
| Safeguards.KindCount | collaboration_safeguards.py:280-283 | a per-kind count is at most the number of contributions |
| Safeguards.EchoChamberLevel | collaboration_safeguards.py:278-295 | the level is 0 or 2, 0 below five contributions, and 2 iff there are no critiques among more than 10 or no synthesis among more than 15 |
| Safeguards.InterventionConcat | collaboration_safeguards.py:225 | some level exceeds 2 in a concatenation iff it does in one of the parts |
| Safeguards.WarningKeys | collaboration_safeguards.py:218-221 | a pattern is a warning iff its detector's level is positive |
| Safeguards.WarningsPositive | collaboration_safeguards.py:218-221 | every kept level is positive |
| Safeguards.WarningLevels | collaboration_safeguards.py:225 | an intervention is needed iff some detector's level exceeds 2 |
| Safeguards.AdviceForLevel | collaboration_safeguards.py:297-313 | a pattern gets one recommendation iff it is a warning |
| Safeguards.RecommendationPerWarning | collaboration_safeguards.py:297-313 | there is exactly one recommendation per warning |
| Safeguards.AnalysisShape | collaboration_safeguards.py:214-227 | only positive levels are kept, one recommendation per warning, and an intervention is needed iff the contradiction or credit-grabbing detector reaches its cap of 3 |
| Safeguards.StatsStep | collaboration_safeguards.py:382-397 | one iteration of the report's loop extends the statistics by one contribution |
| Safeguards.TallyStats | collaboration_safeguards.py:380-397 | the loop computes the per-agent statistics of all the session's contributions |
| Safeguards.StatsTotal | collaboration_safeguards.py:380-401 | one entry per agent, and the per-agent counts add up to the total number of contributions |
| Safeguards.Orchestrator.constructor | collaboration_safeguards.py:318-323 | empty metrics, a fresh role rotator and no sessions |
| Safeguards.Orchestrator.ProcessContribution | collaboration_safeguards.py:325-365 | exactly one contribution is appended to its session (created if missing) and recorded; the answer is synthesis on disagreement, checked first, else an intervention, else the health |
| Safeguards.Orchestrator.GetCollaborationReport | collaboration_safeguards.py:373-405 | an error for an unknown session; otherwise the total, the per-agent statistics, the health and the synthesis count |
| AgentQueuing.Reputation | agent_queuing_system.py:46-58 | 0.5 for an agent without contributions; otherwise clamped to [0, 1] |
| AgentQueuing.ViolationsLowerReputation | agent_queuing_system.py:51-56 | more collaboration violations never raise the reputation |
| AgentQueuing.DomainMatch | agent_queuing_system.py:144-147 | non-negative, and at least the proficiency of every domain named in the topic |
| AgentQueuing.SpecialisationMatch | agent_queuing_system.py:149-152 | never below the score so far, and at least 0.8 when a specialisation is named in the topic |
| AgentQueuing.BonusCount | agent_queuing_system.py:161-163 | at most one bonus per context term |
| AgentQueuing.ExpertiseRelevance | agent_queuing_system.py:137-165 | the relevance lies in [0, 1] |
| AgentQueuing.RelevanceRewardsMatches | agent_queuing_system.py:141-165 | a named domain gives at least its (capped) proficiency, a named specialisation at least 0.8 |
| AgentQueuing.RelevanceZeroWithoutMatches | agent_queuing_system.py:141-165 | with no domain, specialisation or context term in the topic the relevance is 0 |
| AgentQueuing.NoDomainMatch | agent_queuing_system.py:144-147 | no named domain leaves the score at 0 |
| AgentQueuing.NoSpecialisationMatch | agent_queuing_system.py:149-152 | no named specialisation leaves the score as it was |
| AgentQueuing.OverlapProperties | agent_queuing_system.py:186-197 | the Jaccard overlap is symmetric, lies in [0, 1], is 1 for equal non-empty domain sets and 0 for disjoint ones (in particular when either is empty) |
| AgentQueuing.DiversityTerms | agent_queuing_system.py:178-182 | one diversity term per current participant |
| AgentQueuing.FitnessBounds | agent_queuing_system.py:167-184 | the fitness is at most 1 and at least `min(1, 1 - 0.1 * violations)` |
| AgentQueuing.AgentScore | agent_queuing_system.py:111-135 | the score is 0 for an unregistered agent and never exceeds 1 |
| AgentQueuing.WeightsNonNegative | agent_queuing_system.py:82-103 | a weight looked up for any context, with a non-negative default, is non-negative |
| AgentQueuing.ScoreNonNegative | agent_queuing_system.py:111-135 | with at most 10 violations the score is non-negative (there is no lower clamp) |
| AgentQueuing.MaxIndex | agent_queuing_system.py:70-72 | the first entry that no other entry precedes under `__lt__` (highest score first) |
| AgentQueuing.HeapPop | agent_queuing_system.py:242 | a pop removes exactly one entry |
| AgentQueuing.HeapPopMax | agent_queuing_system.py:70-72 | the popped entry has the highest priority score |
| AgentQueuing.HeapPopPermutes | agent_queuing_system.py:242 | the popped entry and the rest are the old heap as a multiset |
| AgentQueuing.HeapPopEntries | agent_queuing_system.py:242 | an agent has an entry iff it is the popped one or still has one |
| AgentQueuing.DrainPermutes | agent_queuing_system.py:253-256 | popping everything yields the heap's entries as a multiset |
| AgentQueuing.DrainSorted | agent_queuing_system.py:253-256 | popping everything yields scores in non-increasing order |
| AgentQueuing.NextAgents | agent_queuing_system.py:272 | exactly three names, or as many as there are entries when fewer |
| AgentQueuing.NextAgentsHighest | agent_queuing_system.py:272 | every name has an entry and the first has the highest score |
| AgentQueuing.DequeueNone | agent_queuing_system.py:239-247 | nothing is dequeued only when no entry belongs to a waiting agent, and then the heap is empty |
| AgentQueuing.DequeueBest | agent_queuing_system.py:239-247 | the dequeued entry is a waiting agent's, from the heap, with the highest score among waiting agents' entries |
| AgentQueuing.Waiters | agent_queuing_system.py:252-256 | only waiting agents are collected |
| AgentQueuing.WaitersMembers | agent_queuing_system.py:252-256 | an agent is collected iff it waits and has an entry |
| AgentQueuing.EntryFor | agent_queuing_system.py:219-234 | the entry names the agent, its score is at most 1 and its relevance lies in [0, 1] |
| AgentQueuing.Enqueued | agent_queuing_system.py:259-260 | one entry per re-enqueued agent, in order |
| AgentQueuing.ReorderOnlyWaiting | agent_queuing_system.py:249-260 | after reordering every entry belongs to a waiting agent |
| AgentQueuing.ReorderKeepsWaiting | agent_queuing_system.py:249-260 | after reordering an agent has an entry iff it waits and had one |
| AgentQueuing.PopWaiting | agent_queuing_system.py:252-256 | the pop loop collects exactly the waiting agents in priority order |
| AgentQueuing.Added | agent_queuing_system.py:245 | adding to the active set keeps its members and adds the agent |
| AgentQueuing.Discarded | agent_queuing_system.py:264 | discarding removes exactly that agent |
| AgentQueuing.DiscardedNoDuplicates | agent_queuing_system.py:264 | discarding keeps the active set free of repeats |
| AgentQueuing.RankingEngine.constructor | agent_queuing_system.py:77-80 | no agents registered |
| AgentQueuing.RankingEngine.RegisterAgent | agent_queuing_system.py:105-109 | the expertise is overwritten, an existing history is kept and a new agent gets a fresh one |
| AgentQueuing.RankingEngine.CalculateAgentScore | agent_queuing_system.py:111-135 | at most 1, and 0 for an unregistered agent |
| AgentQueuing.AgentQueue.constructor | agent_queuing_system.py:207-211 | an empty heap, no active and no waiting agents |
| AgentQueuing.AgentQueue.EnqueueAgent | agent_queuing_system.py:213-237 | nothing changes for an active agent; otherwise one scored entry is pushed and the agent waits; waiting and active stay disjoint |
| AgentQueuing.AgentQueue.DequeueNextAgent | agent_queuing_system.py:239-247 | stale entries are discarded; on success the agent moves from waiting to active; waiting and active stay disjoint |
| AgentQueuing.AgentQueue.ReorderQueue | agent_queuing_system.py:249-260 | the heap becomes the rescored entries of the waiting agents found in it, in pop order; the sets are unchanged |
| AgentQueuing.AgentQueue.RequeueAll | agent_queuing_system.py:259-260 | the collected agents are enqueued again, in order |
| AgentQueuing.AgentQueue.ReleaseAgent | agent_queuing_system.py:262-264 | only the agent leaves the active set; heap and waiting set unchanged |
| AgentQueuing.AgentQueue.GetQueueStatus | agent_queuing_system.py:266-273 | the queue length and at most three next agents |
| AgentQueuing.SelectedSize | agent_queuing_system.py:322-331 | the greedy loop keeps what was chosen and stops at the maximum |
| AgentQueuing.SelectedFromQueue | agent_queuing_system.py:322-331 | every chosen agent is registered and has an entry in the queue |
| AgentQueuing.SelectedAddsExpertise | agent_queuing_system.py:326-331 | each chosen agent adds a domain not yet covered, or is the first |
| AgentQueuing.Coordinator.constructor | agent_queuing_system.py:278-287 | a fresh ranking engine, no queues and five governance layers |
| AgentQueuing.Coordinator.CreateDiscussionQueue | agent_queuing_system.py:289-299 | a new queue holding one entry per available agent is stored under the id, which is returned |
| AgentQueuing.Coordinator.GetOptimalParticipantSet | agent_queuing_system.py:311-333 | `[]` for an unknown discussion; otherwise the greedy selection over a copy of the heap, leaving the stored queue unchanged |
| AgentQueuing.OptimalSize | agent_queuing_system.py:311-333 | at most `max_participants` agents, none for a non-positive maximum |
| AgentQueuing.OptimalFromQueue | agent_queuing_system.py:311-333 | every participant is registered and queued for the discussion |
| AgentQueuing.OptimalAddsExpertise | agent_queuing_system.py:326-331 | every participant after the first adds expertise not yet covered |
| CouncilPlugin.RosterHoldsConfiguredAgents | collaborative_plugin_integration.py:177-179 | the roster holds exactly the configured agent ids, once each, none with a role yet |
| CouncilPlugin.AutoRolesAssign | collaborative_plugin_integration.py:356-368 | every agent is listed once, in order, and agent `i` gets role `i mod 5` of proposer, critic, synthesizer, implementer, observer |
| CouncilPlugin.AutoAssignRoles | collaborative_plugin_integration.py:356-368 | the loop builds exactly that cyclic assignment |
| CouncilPlugin.OtherAgents | collaborative_plugin_integration.py:204 | exactly the listed agents other than the one addressed |
| CouncilPlugin.AssignAllKeys | collaborative_plugin_integration.py:201-212 | assigning roles never adds or removes an agent |
| CouncilPlugin.AssignAllEffect | collaborative_plugin_integration.py:201-212 | a configured agent named in the roles gets that role and its prompt; every other agent, and every unconfigured id, is left alone |
| CouncilPlugin.AssignRoles | collaborative_plugin_integration.py:201-212 | the loop performs exactly that assignment |
| CouncilPlugin.RoleValues | collaborative_plugin_integration.py:218 | the role names are reported for the same agents, in order |
| CouncilPlugin.FirstMissing | collaborative_plugin_integration.py:443-448 | the position of the first role-holder that is not a configured agent (where the rotation loop stops with a key error), or the length when there is none |
| CouncilPlugin.RotationKeepsRoster | collaborative_plugin_integration.py:433-456 | rotating keeps the roster's agents, distinct keys, the topic and the contributions |
| CouncilPlugin.RotationShiftsRoles | collaborative_plugin_integration.py:433-456 | rotation succeeds iff every role-holder is configured; it then shifts the roles by one, keeping the holders and the multiset of roles; on failure the session is unchanged |
| CouncilPlugin.RotationAssignsAgents | collaborative_plugin_integration.py:443-454 | after a successful rotation every holder has its successor's role and the "(role rotated)" prompt |
| CouncilPlugin.RotateAgents | collaborative_plugin_integration.py:433-456 | the loop computes exactly the rotation step, including the key error part-way through |
| CouncilPlugin.InferenceOrder | collaborative_plugin_integration.py:383-405 | proposer, critic and synthesizer roles decide the type; otherwise the first matching word list (propose, concern, combine, agree) decides it, improve being the default; a question is never inferred |
| CouncilPlugin.BuildConversationContext | collaborative_plugin_integration.py:370-381 | the last ten contributions (all when fewer), oldest first, as (speaker, response) pairs |
| CouncilPlugin.SynthesizerIndex | collaborative_plugin_integration.py:462-465 | the position of the first synthesizer, or the length when there is none |
| CouncilPlugin.FindSynthesizerAgent | collaborative_plugin_integration.py:458-465 | none iff no role is synthesizer; otherwise the first agent holding it |
| CouncilPlugin.SynthesisOutcome | collaborative_plugin_integration.py:269-315 | synthesis fails iff there is no synthesizer and no agent, or the synthesizer is not a configured agent; on success exactly one synthesis entry is appended, its author holds the synthesizer role, and roster and topic are kept |
| CouncilPlugin.Contributed | collaborative_plugin_integration.py:247-257 | storing a contribution appends one entry and keeps roles and topic |
| CouncilPlugin.InterventionKeepsContributions | collaborative_plugin_integration.py:407-431 | an intervention keeps the earlier contributions, appends at most one entry, a synthesis, exactly for automatic synthesis and consensus building, and reports the kind chosen by the action |
| CouncilPlugin.ContributionIdAsWrittenNamesSynthesis | collaborative_plugin_integration.py:257-263 | when the contribution triggers a synthesis, the id as written points at the synthesis entry, not the contribution |
| CouncilPlugin.ContributionIdNamesContribution | collaborative_plugin_integration.py:257-263 | the corrected id, the length before the append, names the contribution whatever the intervention did |
| CouncilPlugin.ThirdCritiqueTriggersSynthesis | collaborative_plugin_integration.py:242-260 | three critiques in a row make the safeguards call for a synthesis, so the two ids differ on a concrete input |
| CouncilPlugin.SynthesisEvents | collaborative_plugin_integration.py:491 | at most one synthesis event per contribution |
| CouncilPlugin.SessionSummary | collaborative_plugin_integration.py:483-492 | the summary counts all contributions, the synthesis events among them and the participants |
| CouncilPlugin.SynthesisCounted | collaborative_plugin_integration.py:298-309 | a successful synthesis adds exactly one synthesis event |
| CouncilPlugin.CouncilPlugin.constructor | collaborative_plugin_integration.py:170-179 | one unassigned agent per configured id, no sessions, a fresh orchestrator and the prompt library as corrected under ## Findings, since the library constructor as written always fails |
| CouncilPlugin.CouncilPlugin.StartCouncilSession | collaborative_plugin_integration.py:181-219 | custom roles, else the default roles, else the cyclic assignment; the session is stored active and empty, configured agents get their roles and prompts, and the participants and role names are reported |
| CouncilPlugin.CouncilPlugin.ReassignAgentRole | collaborative_plugin_integration.py:467-481 | the session's role map gets the new role (in place when the agent already held one) and the agent its prompt; nothing else changes |
| CouncilPlugin.CouncilPlugin.RequestSynthesis | collaborative_plugin_integration.py:269-315 | an unknown session is an error with nothing changed; otherwise the state becomes that of the synthesis step, or is unchanged on its error |
| CouncilPlugin.CouncilPlugin.RotateRoles | collaborative_plugin_integration.py:433-456 | the session and roster become those of the rotation step |
| CouncilPlugin.CouncilPlugin.HandleInterventions | collaborative_plugin_integration.py:407-431 | automatic synthesis, consensus building (contradictions before hoarding), role rotation or nothing, as the safeguards' action says |
| CouncilPlugin.CouncilPlugin.AddContribution | collaborative_plugin_integration.py:221-267 | unknown session and unknown agent are errors that change nothing; otherwise the type is the given one or the inferred one, the safeguards record the reply, the session stores it, the intervention runs and the contribution's own index is returned (the corrected id; see ## Findings); the synthesis count rises by one exactly for a synthesis, and the constructive-critique count is kept, on every path |
| CouncilPlugin.CouncilPlugin.Contribute | collaborative_plugin_integration.py:241-267 | the safeguards record exactly this reply, the action is their verdict on the session, the synthesis count rises by one exactly for a synthesis and the constructive-critique count is kept, and session and roster become those of the intervention step |
| CouncilPlugin.CouncilPlugin.StoreAndIntervene | collaborative_plugin_integration.py:245-267 | given the safeguards' verdict, the session stores the contribution with the inferred type and role, and session and roster become those of the intervention step, which decides the result |
| CouncilPlugin.CouncilPlugin.GetSessionStatus | collaborative_plugin_integration.py:317-335 | unknown sessions are an error; otherwise topic, status, participant and contribution counts, the last three contributions, and the health only when the safeguards know the session |
| CouncilPlugin.CouncilPlugin.EndSession | collaborative_plugin_integration.py:337-354 | unknown sessions are an error; otherwise the session is marked completed with its end time, the summary counts its contributions, and the final report is the orchestrator's collaboration report: "Session not found" when the safeguards never saw the session, else its size, per-agent statistics, health and synthesis count |
| CouncilPlugin.CouncilAPI.constructor | collaborative_plugin_integration.py:498-499 | no councils |
| CouncilPlugin.CouncilAPI.RegisterCouncil | collaborative_plugin_integration.py:501-505 | a fresh plugin is stored under the council id, replacing an earlier one in place, and the id is returned |
| CouncilPlugin.CouncilAPI.FindCouncilBySession | collaborative_plugin_integration.py:541-546 | none iff no council holds the session; otherwise the first council, in registration order, holding it |
| PromptLibrary.RolesListsEveryRole | collaborative_prompt_library.py:10-18 | the list of roles names every role |
| PromptLibrary.TemplateEmbedsPrinciples | collaborative_prompt_library.py:66-112 | a role's template is tagged with that role and its system prompt contains the universal principles |
| PromptLibrary.BuildPairs | collaborative_prompt_library.py:54-64 | one template per role, in the order of the role list, each built from that role's texts |
| PromptLibrary.InitAsWrittenFails | collaborative_prompt_library.py:30-32 | constructing the library as written always fails: the principles are read before they are assigned |
| PromptLibrary.Init | collaborative_prompt_library.py:30-32 | with the two assignments in the order the build needs, the library holds the principles and a template for every role |
| PromptLibrary.InitComplete | collaborative_prompt_library.py:54-64 | the built library has exactly one template per role |
| PromptLibrary.InitMapsEveryRole | collaborative_prompt_library.py:402-404 | looking up any role gives that role's own template, which embeds the principles |
| PromptLibrary.InterventionLookup | collaborative_prompt_library.py:406-409 | a known situation gives the role's intervention text, any other the default "continue collaborating" text |
| PromptLibrary.MetaPromptsOfRole | collaborative_prompt_library.py:411-413 | the self-check questions are the role's own |
| PromptLibrary.RoleAssignmentPartsAt | collaborative_prompt_library.py:421-437 | the assignment prompt has fifteen parts: the upper-cased role, the system prompt, the session context, three starters and the questions, each in its place |
| PromptLibrary.RoleAssignmentFrames | collaborative_prompt_library.py:415-439 | the prompt contains the upper-cased role, the session context and the role's system prompt |
| PromptLibrary.RoleAssignmentListsStarter | collaborative_prompt_library.py:431-432 | each of the first three conversation starters appears as a bullet |
| PromptLibrary.RoleAssignmentListsQuestion | collaborative_prompt_library.py:434-435 | every self-check question appears as a bullet |
| PromptLibrary.RoleAssignmentMissingOthers | collaborative_prompt_library.py:419-420 | a missing list of other agents gives the same prompt as an empty one |
| PromptLibrary.RoleAssignmentUsesFirstThree | collaborative_prompt_library.py:432 | starters beyond the third never change the prompt |
| PromptLibrary.ConsensusListsLastFive | collaborative_prompt_library.py:441-466 | the consensus prompt contains the topic and each of the last five contributions as a bullet, in their order: each bullet is followed on the next line by the next contribution's bullet |
| PromptLibrary.ConsensusUsesLastFive | collaborative_prompt_library.py:449 | contributions before the last five never reach the prompt |
| AgentBias.StrLeTotal | agent_to_agent_anti_bias.py:61 | the string order used to sort a pair is total |
| AgentBias.StrLeAntisymmetric | agent_to_agent_anti_bias.py:61 | and antisymmetric |
| AgentBias.PairKey | agent_to_agent_anti_bias.py:61 | the key holds the two ids, in sorted order |
| AgentBias.PairKeySymmetric | agent_to_agent_anti_bias.py:61 | both orders of the same pair share one record |
| AgentBias.QualityScore | agent_to_agent_anti_bias.py:104-112 | at most four quality indicators count |
| AgentBias.StepCounters | agent_to_agent_anti_bias.py:52-134 | one interaction adds one collaboration; building adds one building instance; a critique adds one respectful disagreement, two with at least three quality indicators; unexpected expertise adds one crossing and, with a domain named, one stereotype violation; success counts iff the quality exceeds 0.7 and the cross-cultural recorder was not reached; no other counter moves |
| AgentBias.StepConsistent | agent_to_agent_anti_bias.py:52-134 | one interaction keeps a record's counters consistent: successes and per-kind counts bounded by the total, violations by crossings, untouched counters zero |
| AgentBias.DemonstratedCounts | agent_to_agent_anti_bias.py:122-129 | the agent's count for the domain goes up by one and every other count, of that agent or another, is unchanged |
| AgentBias.DemonstratedKeepsValid | agent_to_agent_anti_bias.py:122-129 | the history keeps distinct keys and positive counts |
| AgentBias.DemonstratedPositive | agent_to_agent_anti_bias.py:122-129 | every recorded count stays positive |
| AgentBias.RecordConsistent | agent_to_agent_anti_bias.py:60-67 | the record found for the pair, or a fresh one, is consistent |
| AgentBias.PutConsistent | agent_to_agent_anti_bias.py:67 | storing a consistent record keeps every stored record consistent and the keys distinct |
| AgentBias.NoUsageNoFailure | agent_to_agent_anti_bias.py:87-99 | with no cultural persona usage recorded the undefined recorder is never reached |
| AgentBias.CountInteraction | agent_to_agent_anti_bias.py:67-85 | the counters move exactly as one interaction step says |
| AgentBias.Engine.constructor | agent_to_agent_anti_bias.py:46-50 | no relationships, no persona usage, no expertise history |
| AgentBias.Engine.TrackInteraction | agent_to_agent_anti_bias.py:52-134 | the pair's record (made on first sight) takes one step; a named unexpected domain is counted for the primary agent; reaching the undefined cross-cultural recorder is an error after the earlier counts; persona usage is unchanged |
| AgentBiasAnalysis.Rates | agent_to_agent_anti_bias.py:152-166 | at most one rate per stored relationship |
| AgentBiasAnalysis.CollectRates | agent_to_agent_anti_bias.py:155-166 | the loop over the relationship records collects exactly those rates, in record order |
| AgentBiasAnalysis.RatesBounded | agent_to_agent_anti_bias.py:155-233 | on consistent records every success rate lies in [0, 1], every disagreement rate in [0, 2], and the adaptation and deference rates are 0 |
| AgentBiasAnalysis.CulturalSplit | agent_to_agent_anti_bias.py:163-166 | every counted record goes to exactly one of the cross-cultural and same-cultural lists |
| AgentBiasAnalysis.MeanOr0Bounds | agent_to_agent_anti_bias.py:169-170 | the average, or 0 for no rates, stays within the rates' bounds |
| AgentBiasAnalysis.CountAbove | agent_to_agent_anti_bias.py:204 | at most one count per rate, and none iff no rate is above the threshold |
| AgentBiasAnalysis.AnalyzeCrossCultural | agent_to_agent_anti_bias.py:149-173 | the diversity ratio is non-negative, and with no same-cultural pair it is the number of cross-cultural pairs |
| AgentBiasAnalysis.DomainTotalCoversBreadth | agent_to_agent_anti_bias.py:181-183 | with positive counts an agent's demonstrations are at least its number of domains |
| AgentBiasAnalysis.AnalyzeExpertise | agent_to_agent_anti_bias.py:175-190 | at most one cross-domain agent per agent in the history |
| AgentBiasAnalysis.BreadthWithinViolations | agent_to_agent_anti_bias.py:175-190 | on the histories the engine keeps, the average breadth is non-negative and never exceeds the average number of violations |
| AgentBiasAnalysis.AnalysisBounds | agent_to_agent_anti_bias.py:136-239 | on the records the engine keeps the success averages lie in [0, 1], the disagreement average in [0, 2], and the adaptation and deference analyses report zero |
| AgentBiasAnalysis.DisagreementQualityReachesTwo | agent_to_agent_anti_bias.py:101-117 | a single critique with three quality indicators already puts a pair's disagreement "quality" at 2, above the range its name suggests |
| AgentBiasAnalysis.Components | agent_to_agent_anti_bias.py:247-253 | five component scores |
| AgentBiasAnalysis.Positives | agent_to_agent_anti_bias.py:255 | exactly the positive scores are kept, and none iff no score is positive |
| AgentBiasAnalysis.OverallResistance | agent_to_agent_anti_bias.py:255 | no score (NaN in the source) iff no component is positive; otherwise a positive mean |
| AgentBiasAnalysis.EmptyEngineHasNoScore | agent_to_agent_anti_bias.py:241-262 | a fresh engine has no overall score |
| AgentBiasAnalysis.MetKeepsKeys | agent_to_agent_anti_bias.py:436-451 | an interaction never adds or removes an agent |
| AgentBiasAnalysis.DecayLowers | agent_to_agent_anti_bias.py:443-446 | decaying one agent lowers no bias and keeps all of them non-negative |
| AgentBiasAnalysis.MetLowers | agent_to_agent_anti_bias.py:436-451 | one interaction lowers no bias of any agent |
| AgentBiasAnalysis.UpdateAllLowers | agent_to_agent_anti_bias.py:432-451 | a whole step of interactions lowers no bias, keeps the agents and their bias names |
| AgentBiasAnalysis.DecayInPlace | agent_to_agent_anti_bias.py:443-446 | the loop computes exactly the decayed biases |
| AgentBiasAnalysis.UpdateAgentRelationships | agent_to_agent_anti_bias.py:432-451 | the loop computes exactly the fold of the interactions |
| AgentBiasAnalysis.AgentMeans | agent_to_agent_anti_bias.py:404-406 | one mean per agent |
| AgentBiasAnalysis.SystemBiasLevel | agent_to_agent_anti_bias.py:398-408 | undefined (a division by zero in the source) iff there are no agents or an agent has no biases |
| AgentBiasAnalysis.BiasMeanLowered | agent_to_agent_anti_bias.py:404-406 | lowering biases never raises an agent's mean, which stays non-negative |
| AgentBiasAnalysis.SystemBiasNeverRises | agent_to_agent_anti_bias.py:341-354 | after any interactions the system bias level is still defined, non-negative and no higher than before |
| AgentBiasAnalysis.CalculateSystemBiasLevel | agent_to_agent_anti_bias.py:398-408 | the loop computes exactly the system bias level |
| AgentBiasAnalysis.FindConvergencePoint | agent_to_agent_anti_bias.py:453-465 | the length for fewer than ten values; otherwise the first index from ten whose ten-step change is below 0.01, or the length when there is none |
| VoiceCasting.ContentRequirements | culturally_diverse_voice_system.py:290-318 | each requirement is set by the last keyword rule that matches: problem-solving content's storytelling weight 0.8 overrides learning content's 0.6; unmatched requirements stay 0 |
| VoiceCasting.UserCompatibility | culturally_diverse_voice_system.py:356-378 | the compatibility lies in [0.5, 1], is at least 0.8 for the user's own culture, and without culture or style match is 0.6 or 0.5 depending on accent familiarity |
| VoiceCasting.ContentFit | culturally_diverse_voice_system.py:380-406 | the fit lies in [0, 1] and is 0 when no requirement exceeds 0.5 |
| VoiceCasting.StereotypingPenalty | culturally_diverse_voice_system.py:424-455 | the penalty is 0, -0.1 or -0.2: -0.2 exactly for East Asian voices on high-authority content and West African voices on pure storytelling, -0.1 exactly for Nordic voices on very direct content |
| VoiceCasting.PenaltyRules | culturally_diverse_voice_system.py:431-445 | summing over the rule table gives the sum of the three rules' own outcomes |
| VoiceCasting.CalculateStereotypingPenalty | culturally_diverse_voice_system.py:440-445 | the loop over the rule table computes exactly that penalty |
| VoiceCasting.PenaltyNeverFiresOnAnalyzedContent | culturally_diverse_voice_system.py:303-318 | no requirement the content analysis produces exceeds 0.8, so no stereotyping rule ever applies to analysed content |
| VoiceCasting.Casting.constructor | culturally_diverse_voice_system.py:233-237 | the cultural mix starts empty |
| VoiceCasting.Casting.DiversityScore | culturally_diverse_voice_system.py:408-422 | one of 0, 0.3, 0.4 and 0.7: at least 0.4 exactly for a culture absent from the recent mix, the 0.3 goal bonus exactly while fewer than two cultures are represented |
| VoiceCasting.Casting.PersonaScore | culturally_diverse_voice_system.py:320-354 | the score is clamped to [0, 1] |
| VoiceCasting.Casting.ClampInactive | culturally_diverse_voice_system.py:347-354 | the weighted sum always lies in [0.13, 0.84], so the clamp never changes it |
| VoiceCasting.Casting.Track | culturally_diverse_voice_system.py:457-464 | the mix becomes the last ten of the old mix plus the new culture, so it never exceeds ten entries and the newest is last |
| VoiceCasting.TrackAllIsRecent | culturally_diverse_voice_system.py:457-464 | tracking a sequence of castings one by one keeps exactly the last ten of all of them |
| VoiceCasting.RecentSnoc | culturally_diverse_voice_system.py:460-464 | trimming to ten after every append equals trimming once at the end |
| VoiceCasting.NoPatternUnchanged | culturally_diverse_voice_system.py:521-532 | without opening or closing pattern the response is unchanged |
| VoiceCasting.StructureFramesResponse | culturally_diverse_voice_system.py:521-532 | with an opening the result starts with its first ten characters; with a closing it ends with a full stop or the closing; the original response is always contained |
| VoiceCasting.FirstWithAddition | culturally_diverse_voice_system.py:548-554 | the first preferred metaphor that has an addition, and no earlier one has one |
| VoiceCasting.AddCulturalExpressions | culturally_diverse_voice_system.py:534-556 | the nature addition is appended exactly when the first metaphor with an addition is "nature" and the response mentions "technical"; otherwise the response is unchanged |
| VoiceCasting.OnlyFirstMetaphorCounts | culturally_diverse_voice_system.py:548-554 | a preference list starting with "balance" never reaches "nature" |
| EmotionalIntelligence.CatalogueWellFormed | cultural_emotional_intelligence.py:67-160 | exactly the Middle Eastern honour and Mediterranean expressive frameworks have no profile; every profile is tagged with its own framework and has its levels in [0, 1] |
| EmotionalIntelligence.Directness | cultural_emotional_intelligence.py:207-218 | the adapted directness lies between the user's and the agent's, and equals both when they agree |
| EmotionalIntelligence.ExpressionLevel | cultural_emotional_intelligence.py:220-233 | the expression level never exceeds 1 |
| EmotionalIntelligence.ExpressionWithinMean | cultural_emotional_intelligence.py:220-233 | for levels and intensity in [0, 1] the expression lies between 0 and the mean of the two expressiveness levels, reaching the mean at full intensity |
| EmotionalIntelligence.SupportApproach | cultural_emotional_intelligence.py:235-252 | a mapped pair of first words gives its mapped approach; the default approach is given iff the pair is not mapped |
| EmotionalIntelligence.SupportWithoutIndividual | cultural_emotional_intelligence.py:244-252 | when neither pattern begins with "individual", only the family/professional entries or the default can result |
| EmotionalIntelligence.SupportHead | cultural_emotional_intelligence.py:67-160 | no catalogued support pattern begins with the word "individual" |
| EmotionalIntelligence.CatalogueSupport | cultural_emotional_intelligence.py:235-252 | for catalogued profiles the two mapping entries keyed on "individual" can never be chosen |
| EmotionalIntelligence.Distinct | cultural_emotional_intelligence.py:259-260 | the set of a list: the same members, no repeats |
| EmotionalIntelligence.Common | cultural_emotional_intelligence.py:263 | exactly the members of both lists, without repeats; empty iff the lists share nothing |
| EmotionalIntelligence.SelectMetaphors | cultural_emotional_intelligence.py:254-272 | distinct agent metaphors, all shared with the user when any is shared; exactly two, or every candidate when fewer than two distinct ones are available (the shared ones, else the agent's own); none iff the agent has none |
| EmotionalIntelligence.Complement | cultural_emotional_intelligence.py:288-292 | at most one complementary element, present iff one side is below 0.5 and the other above |
| EmotionalIntelligence.BridgeElements | cultural_emotional_intelligence.py:274-294 | one "shared_healing_" element per shared healing approach, followed by the complementary element; empty iff there is neither |
| EmotionalIntelligence.AdaptiveElements | cultural_emotional_intelligence.py:314-327 | adapted directness iff the directness is within 0.3 of 0.5; bridge building iff there are bridge elements |
| EmotionalIntelligence.Respond | cultural_emotional_intelligence.py:188-205 | a response with bridge elements always has adaptive elements, and its authenticity is the agent's framework |
| EmotionalIntelligence.Tracked | cultural_emotional_intelligence.py:345-353 | adaptations count iff the response has adaptive elements, bridge moments iff it has bridge elements; the growth and mutual-learning counters never move |
| EmotionalIntelligence.EmotionalAI.constructor | cultural_emotional_intelligence.py:61-65 | no learning recorded |
| EmotionalIntelligence.EmotionalAI.TrackInteraction | cultural_emotional_intelligence.py:329-353 | the pair's record (zero on first sight) is updated as above, and a response whose bridge elements come with adaptive ones keeps bridge moments from outnumbering adaptations |
| EmotionalIntelligence.EmotionalAI.ProvideResponse | cultural_emotional_intelligence.py:162-186 | a framework without a profile is a key error that records nothing; otherwise the response for the two profiles is returned and tracked |
| EmotionalIntelligence.EmotionalBiasReduction | cultural_emotional_intelligence.py:412-423 | the reduction lies in [0, 1], is 0 iff no adaptation was counted (in particular with no records), and is 1 once there are ten adaptations per record |
| EmotionalIntelligence.CalculateWisdomIntegration | cultural_emotional_intelligence.py:395-410 | the loop computes exactly the mean integration score |
| EmotionalIntelligence.ScoreBound | cultural_emotional_intelligence.py:404-407 | each record's integration score lies in [0, 1], and at most 0.5 when bridge moments do not outnumber adaptations |
| EmotionalIntelligence.ScoresBounded | cultural_emotional_intelligence.py:402-408 | every collected score lies within that bound |
| EmotionalIntelligence.WisdomIntegrationBounds | cultural_emotional_intelligence.py:395-410 | the wisdom integration lies in [0, 1], and never exceeds 0.5 on the records the engine keeps |
| EmergentConsciousness.MentionsAny | emergent_ai_consciousness.py:176-189 | an indicator check fires exactly when some phrase of its list, lower-cased, occurs in the lower-cased content |
| EmergentConsciousness.LowerAppend | emergent_ai_consciousness.py:187-188 | lower-casing distributes over concatenation |
| EmergentConsciousness.LowerIdempotent | emergent_ai_consciousness.py:187-188 | lower-casing twice is the same as lower-casing once |
| EmergentConsciousness.MentionsExtend | emergent_ai_consciousness.py:176-281 | content that shows an indicator still shows it with any text added before or after |
| EmergentConsciousness.MentionsIgnoresCase | emergent_ai_consciousness.py:176-281 | the phrase checks do not depend on the case of the content |
| EmergentConsciousness.PhraseIsDetected | emergent_ai_consciousness.py:176-281 | content that is one of the listed phrases, in any case, is always detected |
| EmergentConsciousness.Count | emergent_ai_consciousness.py:97-110 | an indicator is counted at most once per interaction |
| EmergentConsciousness.CountSnoc | emergent_ai_consciousness.py:97-110 | each further interaction adds one to a count exactly when it shows that indicator |
| EmergentConsciousness.AccurateCount | emergent_ai_consciousness.py:99-102 | accurate mental-state predictions are only counted among interactions that reference a mental state |
| EmergentConsciousness.AccurateCountSnoc | emergent_ai_consciousness.py:99-102 | each further interaction adds one exactly when it references a mental state and its prediction accuracy (0.5 when absent) exceeds 0.7 |
| EmergentConsciousness.StateModelingAccuracy | emergent_ai_consciousness.py:112-113 | the accuracy lies in [0, 1], is 0 for an empty history, and is 1 exactly when the history is non-empty and every interaction is an accurate mental-state prediction |
| EmergentConsciousness.DivideAtMostOne | emergent_ai_consciousness.py:113 | a count divided by a larger positive total is a fraction in [0, 1], and 1 only when the two are equal |
| EmergentConsciousness.AnalyzeTheoryOfMind | emergent_ai_consciousness.py:90-119 | the loop returns the state-modelling accuracy and the perspective-taking and recursive-modelling counts |
| EmergentConsciousness.Patterns | emergent_ai_consciousness.py:128-131 | at most one preference pattern is collected per interaction |
| EmergentConsciousness.Jaccard | emergent_ai_consciousness.py:300-303 | the overlap of two preference sets lies in [0, 1] and is 1 exactly when the sets are equal and non-empty |
| EmergentConsciousness.JaccardSymmetric | emergent_ai_consciousness.py:300-303 | the overlap does not depend on which pattern came first |
| EmergentConsciousness.SameSize | emergent_ai_consciousness.py:300-303 | a subset at least as large as its superset is equal to it |
| EmergentConsciousness.SubsetSize | emergent_ai_consciousness.py:300-303 | a subset is never larger than its superset |
| EmergentConsciousness.ConsistencyScores | emergent_ai_consciousness.py:294-304 | every consecutive-pair consistency score lies in [0, 1] |
| EmergentConsciousness.PreferenceConsistency | emergent_ai_consciousness.py:288-306 | the consistency lies in [0, 1] and is 0 when fewer than two patterns were collected |
| EmergentConsciousness.CalculatePreferenceConsistency | emergent_ai_consciousness.py:288-306 | the loop returns the mean of the consecutive-pair overlaps, or 0 when there are none |
| EmergentConsciousness.SteadyScores | emergent_ai_consciousness.py:295-304 | a history that repeats one non-empty pattern gets one score of 1 per consecutive pair |
| EmergentConsciousness.SteadyPreferencesAreConsistent | emergent_ai_consciousness.py:288-306 | an agent that keeps the same non-empty preferences over two or more interactions has consistency exactly 1 |
| EmergentConsciousness.AnalyzeEmotionalExperience | emergent_ai_consciousness.py:121-148 | the loop returns the preference consistency of the collected patterns and the satisfaction and empathy counts |
| EmergentConsciousness.AnalyzeSelfAwareness | emergent_ai_consciousness.py:150-174 | the loop returns the meta-cognitive, self-update and continuity counts |
| EmergentConsciousness.AnalyzeAgent | emergent_ai_consciousness.py:64-88 | every metric the analysis fills is the matching count or score over the history; the three metrics it never sets keep their zero default |
| EmergentConsciousness.MetricsBounded | emergent_ai_consciousness.py:64-119 | accurate predictions never outnumber mental-state references, which never outnumber interactions; both scores lie in [0, 1] and consistency is 0 below two interactions |
| EmergentConsciousness.FirstRule | emergent_ai_consciousness.py:453-470 | the keyword branches yield nothing exactly when no keyword occurs in the lower-cased text, and otherwise the property of the first branch that matches |
| EmergentConsciousness.HoldsMonotone | emergent_ai_consciousness.py:453-502 | declaring more architecture properties never withdraws support from a requirement or a condition |
| EmergentConsciousness.NoKeywordNoSupport | emergent_ai_consciousness.py:453-502 | a text naming none of the keywords is never supported, whatever the architecture declares |
| EmergentConsciousness.ArchitecturalSupport | emergent_ai_consciousness.py:316-383 | every pathway lists exactly three architectural requirements |
| EmergentConsciousness.Supported | emergent_ai_consciousness.py:436-439 | at most as many requirements are supported as are listed |
| EmergentConsciousness.PathwayScore | emergent_ai_consciousness.py:441 | every pathway score lies in [0, 1] |
| EmergentConsciousness.PathwayScores | emergent_ai_consciousness.py:430-441 | there is one score per pathway, in catalogue order, each that pathway's score and in [0, 1] |
| EmergentConsciousness.SupportedMonotone | emergent_ai_consciousness.py:436-439 | more declared properties never lower the number of supported requirements |
| EmergentConsciousness.PathwayScoreMonotone | emergent_ai_consciousness.py:430-441 | more declared properties never lower a pathway's score |
| EmergentConsciousness.FirstMaxIndex | emergent_ai_consciousness.py:448 | the most likely pathway has the highest score, and is the first pathway to reach it |
| EmergentConsciousness.ScorePathways | emergent_ai_consciousness.py:430-441 | the loop returns the pathway scores |
| EmergentConsciousness.ScorePathway | emergent_ai_consciousness.py:433-441 | the loop returns one pathway's share of supported requirements |
| EmergentConsciousness.CountSupported | emergent_ai_consciousness.py:436-439 | the loop counts the supported requirements |
| EmergentConsciousness.Classify | emergent_ai_consciousness.py:510-517 | the prediction is high likelihood exactly when the best score exceeds 0.8 and the mean exceeds 0.6, and unlikely exactly when the best score is at most 0.4 |
| EmergentConsciousness.ClassifyMonotone | emergent_ai_consciousness.py:510-517 | higher best and mean scores never lower the predicted likelihood |
| EmergentConsciousness.EstimateTimeline | emergent_ai_consciousness.py:526-538 | architectural changes are called for exactly when the best score is at most 0.4, and months to years exactly when it exceeds 0.8 |
| EmergentConsciousness.KeyRequirements | emergent_ai_consciousness.py:540-554 | each key requirement is listed exactly when its pathway (social modelling, empathetic resonance, self-referential) scores above 0.6; there are at most three |
| EmergentConsciousness.PredictionMatchesTimeline | emergent_ai_consciousness.py:504-538 | a high likelihood always comes with the months-to-years timeline, "unlikely" exactly when architectural changes are called for, and the confidence never exceeds the best score |
| EmergentConsciousness.MinOf | emergent_ai_consciousness.py:508 | the minimum is at most every score |
| EmergentConsciousness.CheckConditions | emergent_ai_consciousness.py:472-502 | one verdict per necessary condition, in order, true exactly when its first matching keyword names a declared property |
| EmergentConsciousness.AnalyzeLikelihood | emergent_ai_consciousness.py:427-451 | the report holds the pathway scores, their mean (in [0, 1]), the first best-scoring pathway, the condition verdicts and the prediction |
| EmergentConsciousness.BareArchitectureIsUnlikely | emergent_ai_consciousness.py:427-538 | an architecture that declares nothing scores 0 on every pathway and is predicted unlikely, with no confidence, architectural changes and no key requirement |
| EmergentConsciousness.ZeroPrediction | emergent_ai_consciousness.py:504-554 | all-zero pathway scores predict "unlikely" with confidence 0, architectural changes and no key requirement |
| EmergentConsciousness.BareSupportsNothing | emergent_ai_consciousness.py:453-470 | no requirement is supported by an architecture that declares no property |
| AntiBiasArchitecture.CatalogueWellFormed | anti_bias_architecture.py:28-36 | every catalogued mechanism has a mitigation strength on the 0-1 scale and addresses at least one bias type |
| AntiBiasArchitecture.AtLevel | anti_bias_architecture.py:264-266 | a direction's mechanisms are drawn from the catalogue |
| AntiBiasArchitecture.AtLevelMembers | anti_bias_architecture.py:264-266 | every mechanism grouped under a direction is a catalogue mechanism with that direction, and a group is non-empty exactly when some mechanism has that direction |
| AntiBiasArchitecture.LevelsPartition | anti_bias_architecture.py:22-26 | the three direction groups together hold every mechanism exactly once |
| AntiBiasArchitecture.LevelScore | anti_bias_architecture.py:269-271 | a direction's score is missing (the division by zero) exactly when no mechanism has that direction, and otherwise lies in [0, 1] for well-formed mechanisms |
| AntiBiasArchitecture.UniformLevel | anti_bias_architecture.py:269-271 | when every mechanism has the same strength, a direction that has mechanisms scores exactly that strength |
| AntiBiasArchitecture.CountsCoverCatalogue | anti_bias_architecture.py:274-275 | every mechanism is counted as either emergent or designed |
| AntiBiasArchitecture.EmergenceRatio | anti_bias_architecture.py:287 | the ratio is missing exactly for an empty catalogue, otherwise lies in [0, 1], and is 1 exactly when no mechanism is designed |
| AntiBiasArchitecture.BiasTypesAddressed | anti_bias_architecture.py:289 | a bias type is addressed exactly when some mechanism lists it |
| AntiBiasArchitecture.AtMostEightBiasTypes | anti_bias_architecture.py:11-20 | no catalogue addresses more than the eight bias types |
| AntiBiasArchitecture.AllBiasTypesSize | anti_bias_architecture.py:11-20 | there are exactly eight distinct bias types |
| AntiBiasArchitecture.EveryBiasType | anti_bias_architecture.py:11-20 | every bias type is one of the eight listed |
| AntiBiasArchitecture.AllAddressed | anti_bias_architecture.py:289 | a catalogue that lists each of the eight types somewhere addresses all of them |
| AntiBiasArchitecture.OverallBiasResistance | anti_bias_architecture.py:260-290 | the report fails exactly when some direction has no mechanism; otherwise the overall score is the mean of the three direction scores (in [0, 1] for well-formed mechanisms), designed plus emergent is the catalogue size, at most eight bias types are addressed and the ratio lies in [0, 1] |
| AntiBiasArchitecture.CatalogueLayout | anti_bias_architecture.py:48-175 | the catalogue has ten mechanisms, each with the direction and emergent flag it is declared with |
| AntiBiasArchitecture.CatalogueAgentScore | anti_bias_architecture.py:50-111 | the agent-level score of the catalogue is 0.7 |
| AntiBiasArchitecture.CatalogueHumanScore | anti_bias_architecture.py:113-148 | the human-level score of the catalogue is 0.6 |
| AntiBiasArchitecture.CatalogueSystemicScore | anti_bias_architecture.py:62-175 | the systemic-level score of the catalogue is 0.85 |
| AntiBiasArchitecture.CatalogueBiasTypes | anti_bias_architecture.py:48-175 | the catalogue addresses all eight bias types |
| AntiBiasArchitecture.CatalogueRatio | anti_bias_architecture.py:274-287 | six of the catalogue's ten mechanisms are emergent, a ratio of 0.6 |
| AntiBiasArchitecture.CatalogueReport | anti_bias_architecture.py:260-290 | the catalogue's report: scores 0.7, 0.6 and 0.85 with their mean overall, four designed and six emergent mechanisms, ratio 0.6, eight bias types |
| AntiBiasArchitecture.OverallResistance | anti_bias_architecture.py:365-368 | the validator's overall score is missing (the division by zero) exactly when there are no scenario results |
| AntiBiasArchitecture.OverallResistanceBounds | anti_bias_architecture.py:365-368 | the overall score lies within any bounds that every scenario score respects |
| AntiBiasArchitecture.UniformScenarios | anti_bias_architecture.py:365-368 | scenarios that all score the same give that score overall |

## Left out

- Language-model calls (`generate_response`, synthesis prompts sent to agents) are not made. Their text is a parameter, or a recorded `SynthesisTriggered` action in the safeguards orchestrator.
- Clocks, timestamps and random numbers are not modelled:
  - `time.time()`/`datetime.now()` fields are left out, or passed in as a parameter (`now` in the session summary);
  - the random scenario changes of the resource simulator are left out;
  - `_generate_initial_biases`, `_simulate_interaction_step` and `_calculate_collaboration_quality` of the bias simulation draw random values and are left out.
- Floating-point rounding is not modelled: every quantity is an exact `real`.
- Strs.Lower: only ASCII letters are lower-cased. Python's `str.lower()` follows Unicode: for example U+212A KELVIN SIGN lowers to "k", and "İ" lowers to "i" followed by a combining dot. Keyword and phrase matching on non-ASCII text may therefore differ from the source. `MentionsIgnoresCase` and `LowerIdempotent` hold for this ASCII mapping.
- Strs.Upper: only ASCII letters are upper-cased, whereas Python's `str.upper()` follows Unicode (for example "ß" upper-cases to "SS").
- The demo functions, logging, and the prose-only analyses are not modelled:
  - `analyze_emergent_anti_bias_properties` and `_analyze_bias_interaction_effects`;
  - `_generate_simulation_insights` and `_generate_bias_mitigation_recommendations`;
  - the pathway descriptions, mechanisms, evidence lists and sufficient conditions of the consciousness theory.

  `anti_bias_architecture.py`'s demo also uses `asyncio` without importing it.
- Mechanism names and descriptions are dropped from the anti-bias catalogue. Only the fields the scores read are kept.
- Python dictionaries and sets that the source mutates are modelled as values the methods reassign. Aliasing between them is not modelled.
- CouncilPlugin.CouncilPlugin.StartCouncilSession gives each session its own copy of the roles. The source stores the `custom_roles` or `config.default_roles` dict itself as the session's roles (collaborative_plugin_integration.py:187). `_reassign_agent_role` then writes into that dict in place (:470), and `request_synthesis` calls it when no agent is a synthesizer (:281). So in the source a reassignment in one session also changes the default roles of every later session; in the model it does not.
- Where the source iterates over a Python `set`, whose order is unspecified, the model takes the order of one input list. This applies to the metaphor and healing intersections.
- The heap layout and the order of equal-priority entries in `AgentQueue` are not modelled. The queue is a sequence of entries, and a pop returns the first entry of highest priority.
- These placeholders are not modelled: `_calculate_recency_bonus`, which always returns 0.1, and `promote_agent_across_layers`, whose only branch is `pass`.
- `CollaborativeCouncilAPI.create_session`, `add_message` and `get_status` are not modelled. They find the council, raise `ValueError` when there is none, and delegate to the plugin; `create_session` also builds a session id from the clock.
- `send_to_agent` and `_merge_synthesis_responses` in `collaboration_safeguards.py` are transport and LLM stubs. They are not modelled.
- CouncilPlugin.CouncilPlugin.constructor builds its prompt library with the corrected `PromptLibrary.Init`. As written, `CollaborativeCouncilPlugin.__init__` (collaborative_plugin_integration.py:174) calls `CollaborativePromptLibrary()`, which always raises `AttributeError` (first row of ## Findings), so no plugin can be constructed as written. The plugin model, and everything proved about it, describes the plugin over the corrected library.
- `CouncilPlugin.CouncilPlugin.AddContribution`: the intervention step runs as the value-level `InterventionStep` inside `Contribute`, not through the `HandleInterventions` method, which models `_handle_interventions` on its own.
- `CouncilPlugin.CouncilPlugin.RequestSynthesis` evaluates the synthesis as a value-level step and then assigns the resulting session and agents once. The source updates them field by field.
- `DiverseVoicePersonaLibrary.__init__` calls `_build_cultural_compatibility_matrix`, which no file defines. The library is therefore not modelled; the cultural profile a score reads is a parameter (`Profile`).
- `select_culturally_aware_voice` calls `_calculate_diversity_needs`, which no file defines, so it is not modelled. Its scoring helpers are.
- `adapt_response_to_culture` is the composition of `ApplyStructure` and `AddCulturalExpressions`. It is not modelled as a member of its own.
- `_simulate_bias_test` is a placeholder that always passes with score 0.8. The validator's overall score takes the scenario scores as a parameter.
- `analyze_emotional_intelligence_evolution` and `_analyze_cross_cultural_competency` are reporting summaries over the counters and are not modelled.
- `_track_cross_cultural_building`, called from `track_agent_interaction`, calls `_record_successful_cross_cultural_collaboration`, which no file defines. The model returns that `AttributeError`, keeping the counts already made, rather than reaching the code after the call.
- `AgentBiasAnalysis.UpdateAgentRelationships` requires every interaction's two agents to be known. The source raises `KeyError` otherwise, and the simulation only ever passes known agents.
- The means the bias analyses take of empty lists are NaN in the source (`np.mean([])`). They are `None` in the model.
- `EmergentConsciousness`: the eight phrase lists are a parameter record (`PhraseLists`). `DetectorPhrases` holds the detector's own lists.

## Findings

| source | as written | input that shows it | evidently intended | confidence | as-written member | corrected member |
|---|---|---|---|---|---|---|
| collaborative_prompt_library.py:30-32 | `__init__` builds the prompt library before it assigns `universal_principles`, which the builder reads, so construction raises `AttributeError` | any construction of `CollaborativePromptLibrary` | assign `universal_principles` first, so the library maps every role to its template | not executed | PromptLibrary.InitAsWrittenFails | PromptLibrary.InitMapsEveryRole |
| collaborative_plugin_integration.py:257-263 | `add_contribution` returns `len(contributions) - 1` after `_handle_interventions`, which may append a synthesis, so the id can name the synthesis instead of the new contribution | a third critique among the last five contributions of a session that has a synthesizer (`ThirdCritiqueTriggersSynthesis`) | return the index the new contribution was appended at | not executed | CouncilPlugin.ContributionIdAsWrittenNamesSynthesis | CouncilPlugin.ContributionIdNamesContribution |
