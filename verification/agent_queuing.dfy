// agent_queuing_system.py: reputation and expertise scoring, the lazily-pruned priority
// queue of agents waiting to speak, and the coordinator that picks a diverse panel.

module AgentQueuing {
  import opened Wrappers
  import opened Numeric
  import opened Strs
  import opened Dicts

  // ---------------------------------------------------------------------------------
  // Data

  datatype ContextType =
    | TechnicalArchitecture | SecurityPolicy | UserExperience
    | GovernanceProcess | ImplementationPlanning | ConflictResolution

  datatype AgentExpertise = AgentExpertise(
    domains: Dict<string, real>,
    specialisations: seq<string>,
    collaborationStyle: string,
    processingSpeed: real)

  /** `AgentExpertise({}, [])`, the stand-in used for an unregistered agent. */
  const NoExpertise: AgentExpertise := AgentExpertise([], [], "", 1.0)

  datatype PerformanceHistory = PerformanceHistory(
    totalContributions: int,
    successfulProposals: int,
    constructiveCritiques: int,
    synthesisQualityScore: real,
    collaborationViolations: int,
    expertiseAccuracy: Dict<string, real>,
    responseTimeAvg: real)

  const NewHistory: PerformanceHistory := PerformanceHistory(0, 0, 0, 0.0, 0, [], 0.0)

  /** The wall-clock time of `datetime.now()`, kept opaque. */
  type Timestamp = int

  datatype QueueEntry = QueueEntry(
    agentId: string,
    priorityScore: real,
    contextRelevance: real,
    estimatedContributionTime: real,
    queueEntryTime: Timestamp,
    roleAssignment: Option<string>)

  /** `QueueEntry.__lt__`: the heap's "smaller" entry is the one with the higher score. */
  predicate Before(a: QueueEntry, b: QueueEntry)
  {
    a.priorityScore > b.priorityScore
  }

  // ---------------------------------------------------------------------------------
  // Reputation

  /** calculate_reputation_score */
  function Reputation(p: PerformanceHistory): (r: real)
    ensures 0.0 <= r <= 1.0
    ensures p.totalContributions == 0 ==> r == 0.5
  {
    if p.totalContributions == 0 then 0.5
    else
      var successRate := ((p.successfulProposals + p.constructiveCritiques) as real) / (p.totalContributions as real);
      var penalty := Max(0.0, (p.collaborationViolations as real) * 0.1);
      var n := |p.expertiseAccuracy|;
      var bonus := Sum(Values(p.expertiseAccuracy)) / (if n > 1 then n as real else 1.0);
      Clamp01(successRate + bonus * 0.3 - penalty)
  }

  /** For an agent with a record, more collaboration violations never raise the reputation. */
  lemma ViolationsLowerReputation(p: PerformanceHistory, extra: nat)
    requires p.totalContributions != 0
    ensures Reputation(p.(collaborationViolations := p.collaborationViolations + extra)) <= Reputation(p)
  {
    var q := p.(collaborationViolations := p.collaborationViolations + extra);
    var pen := Max(0.0, (p.collaborationViolations as real) * 0.1);
    var pen' := Max(0.0, (q.collaborationViolations as real) * 0.1);
    assert pen <= pen';
  }

  // ---------------------------------------------------------------------------------
  // Ranking

  /** The factor names used as keys of the context weight tables. */
  datatype Factor =
    | ExpertiseRelevanceFactor | ReputationScore | RoleFitness | RecencyBonusFactor
    | CollaborationHistory | DiplomaticSkill | SynthesisExperience | ProcessExperience

  /** `_initialise_context_weights`, keyed by context; contexts without an entry weigh by the defaults. */
  function ContextWeights(ctx: ContextType): Dict<Factor, real>
  {
    match ctx
    case TechnicalArchitecture =>
      [(ExpertiseRelevanceFactor, 0.4), (ReputationScore, 0.3), (RoleFitness, 0.2), (RecencyBonusFactor, 0.1)]
    case ConflictResolution =>
      [(CollaborationHistory, 0.4), (ReputationScore, 0.3), (DiplomaticSkill, 0.2), (SynthesisExperience, 0.1)]
    case GovernanceProcess =>
      [(ReputationScore, 0.4), (ExpertiseRelevanceFactor, 0.2), (CollaborationHistory, 0.2), (ProcessExperience, 0.2)]
    case _ => []
  }

  /** `context_bonuses.get(context, [])` */
  function ContextBonusTerms(ctx: ContextType): seq<string>
  {
    match ctx
    case TechnicalArchitecture => ["architecture", "technical", "implementation", "design"]
    case SecurityPolicy => ["security", "privacy", "authentication", "authorization"]
    case UserExperience => ["user", "interface", "usability", "accessibility"]
    case _ => []
  }

  /** The domain loop of `_calculate_expertise_relevance`: the best proficiency among domains named in the topic. */
  function DomainMatch(domains: Dict<string, real>, topic: string): (r: real)
    ensures r >= 0.0
    ensures forall k :: 0 <= k < |domains| && Contains(topic, Lower(domains[k].0)) ==> r >= domains[k].1
  {
    if domains == [] then 0.0
    else
      var m := DomainMatch(domains[..|domains| - 1], topic);
      var d := domains[|domains| - 1];
      if Contains(topic, Lower(d.0)) then Max(m, d.1) else m
  }

  /** The specialisation loop: at least 0.8 once any specialisation is named in the topic. */
  function SpecialisationMatch(specs: seq<string>, topic: string, start: real): (r: real)
    ensures r >= start
    ensures (exists k :: 0 <= k < |specs| && Contains(topic, Lower(specs[k]))) ==> r >= 0.8
  {
    if specs == [] then start
    else
      var m := SpecialisationMatch(specs[..|specs| - 1], topic, start);
      if Contains(topic, Lower(specs[|specs| - 1])) then Max(m, 0.8) else m
  }

  /** Number of the context's bonus terms that occur in the topic; each adds 0.1. */
  function BonusCount(terms: seq<string>, topic: string): (r: nat)
    ensures r <= |terms|
  {
    if terms == [] then 0
    else BonusCount(terms[..|terms| - 1], topic) + (if Contains(topic, terms[|terms| - 1]) then 1 else 0)
  }

  /** _calculate_expertise_relevance */
  function ExpertiseRelevance(e: AgentExpertise, topic: string, ctx: ContextType): (r: real)
    ensures 0.0 <= r <= 1.0
  {
    var t := Lower(topic);
    var base := SpecialisationMatch(e.specialisations, t, DomainMatch(e.domains, t));
    Min(1.0, base + (BonusCount(ContextBonusTerms(ctx), t) as real) * 0.1)
  }

  /**
   * A domain named in the topic makes the relevance at least its proficiency (capped at 1),
   * and a named specialisation makes it at least 0.8.
   */
  lemma RelevanceRewardsMatches(e: AgentExpertise, topic: string, ctx: ContextType)
    ensures forall k :: 0 <= k < |e.domains| && Contains(Lower(topic), Lower(e.domains[k].0)) ==>
      ExpertiseRelevance(e, topic, ctx) >= Min(1.0, e.domains[k].1)
    ensures (exists k :: 0 <= k < |e.specialisations| && Contains(Lower(topic), Lower(e.specialisations[k]))) ==>
      ExpertiseRelevance(e, topic, ctx) >= 0.8
  {
  }

  /** With nothing named in the topic and no context bonus, the relevance is 0. */
  lemma {:induction false} RelevanceZeroWithoutMatches(e: AgentExpertise, topic: string, ctx: ContextType)
    requires forall k :: 0 <= k < |e.domains| ==> !Contains(Lower(topic), Lower(e.domains[k].0))
    requires forall k :: 0 <= k < |e.specialisations| ==> !Contains(Lower(topic), Lower(e.specialisations[k]))
    requires BonusCount(ContextBonusTerms(ctx), Lower(topic)) == 0
    ensures ExpertiseRelevance(e, topic, ctx) == 0.0
  {
    NoDomainMatch(e.domains, Lower(topic));
    NoSpecialisationMatch(e.specialisations, Lower(topic), 0.0);
  }

  lemma {:induction false} NoDomainMatch(domains: Dict<string, real>, topic: string)
    requires forall k :: 0 <= k < |domains| ==> !Contains(topic, Lower(domains[k].0))
    ensures DomainMatch(domains, topic) == 0.0
  {
    if domains != [] {
      NoDomainMatch(domains[..|domains| - 1], topic);
    }
  }

  lemma {:induction false} NoSpecialisationMatch(specs: seq<string>, topic: string, start: real)
    requires forall k :: 0 <= k < |specs| ==> !Contains(topic, Lower(specs[k]))
    ensures SpecialisationMatch(specs, topic, start) == start
  {
    if specs != [] {
      NoSpecialisationMatch(specs[..|specs| - 1], topic, start);
    }
  }

  function DomainSet(e: AgentExpertise): set<string>
  {
    set k | k in Keys(e.domains)
  }

  /** _calculate_expertise_overlap: the Jaccard index of the two domain sets, 0 when either is empty. */
  function Overlap(e1: AgentExpertise, e2: AgentExpertise): real
  {
    var d1 := DomainSet(e1);
    var d2 := DomainSet(e2);
    if d1 == {} || d2 == {} then 0.0 else (|d1 * d2| as real) / (|d1 + d2| as real)
  }

  lemma SubsetCard(a: set<string>, b: set<string>)
    requires a <= b
    ensures |a| <= |b|
  {
    if a != {} {
      var x :| x in a;
      SubsetCard(a - {x}, b - {x});
    }
  }

  /** The overlap is symmetric, lies in [0, 1], and is 1 exactly for equal non-empty domain sets. */
  lemma OverlapProperties(e1: AgentExpertise, e2: AgentExpertise)
    ensures Overlap(e1, e2) == Overlap(e2, e1)
    ensures 0.0 <= Overlap(e1, e2) <= 1.0
    ensures DomainSet(e1) == DomainSet(e2) && DomainSet(e1) != {} ==> Overlap(e1, e2) == 1.0
    ensures DomainSet(e1) * DomainSet(e2) == {} ==> Overlap(e1, e2) == 0.0
  {
    var d1, d2 := DomainSet(e1), DomainSet(e2);
    assert d1 * d2 == d2 * d1 && d1 + d2 == d2 + d1;
    if d1 != {} && d2 != {} {
      SubsetCard(d1 * d2, d1 + d2);
      var x :| x in d1;
      assert x in d1 + d2;
      OverlapRatio(|d1 * d2|, |d1 + d2|);
      if d1 == d2 {
        assert d1 * d2 == d1 && d1 + d2 == d1;
        DivSelf(|d1|);
      }
      if d1 * d2 == {} {
        assert |d1 * d2| == 0;
      }
    }
  }

  lemma DivSelf(n: nat)
    requires n > 0
    ensures (n as real) / (n as real) == 1.0
  {
  }

  lemma OverlapRatio(i: nat, u: nat)
    requires 0 < u && i <= u
    ensures 0.0 <= (i as real) / (u as real) <= 1.0
  {
  }

  /** The diversity term of one participant: `(1 - overlap) * 0.1` for a registered one, nothing otherwise. */
  function DiversityTerms(expertise: map<string, AgentExpertise>, own: AgentExpertise, participants: seq<string>): (r: seq<real>)
    ensures |r| == |participants|
  {
    seq(|participants|, k requires 0 <= k < |participants| =>
      if participants[k] in expertise then (1.0 - Overlap(own, expertise[participants[k]])) * 0.1 else 0.0)
  }

  /** _calculate_collaboration_fitness */
  function CollaborationFitness(expertise: map<string, AgentExpertise>, history: map<string, PerformanceHistory>,
                                agentId: string, participants: seq<string>): real
    requires agentId in expertise && agentId in history
  {
    var base := 1.0 - (history[agentId].collaborationViolations as real) * 0.1;
    Min(1.0, base + Sum(DiversityTerms(expertise, expertise[agentId], participants)))
  }

  /** The fitness never exceeds 1 and the diversity bonus never lowers it below the capped base score. */
  lemma FitnessBounds(expertise: map<string, AgentExpertise>, history: map<string, PerformanceHistory>,
                      agentId: string, participants: seq<string>)
    requires agentId in expertise && agentId in history
    ensures var f := CollaborationFitness(expertise, history, agentId, participants);
      f <= 1.0 && f >= Min(1.0, 1.0 - (history[agentId].collaborationViolations as real) * 0.1)
  {
    var terms := DiversityTerms(expertise, expertise[agentId], participants);
    forall k | 0 <= k < |terms|
      ensures terms[k] >= 0.0
    {
      if participants[k] in expertise {
        OverlapProperties(expertise[agentId], expertise[participants[k]]);
      }
    }
    SumNonNegative(terms);
  }

  const RecencyBonus: real := 0.1

  /** The weights of expertise relevance, reputation, collaboration history and recency, with their defaults. */
  function FactorWeights(ctx: ContextType): (real, real, real, real)
  {
    var w := ContextWeights(ctx);
    (GetOr(w, ExpertiseRelevanceFactor, 0.3), GetOr(w, ReputationScore, 0.3),
     GetOr(w, CollaborationHistory, 0.2), GetOr(w, RecencyBonusFactor, 0.2))
  }

  /** The weighted combination of the four component scores. */
  function Combined(w: (real, real, real, real), expertise: real, reputation: real, collaboration: real, recency: real): real
  {
    expertise * w.0 + reputation * w.1 + collaboration * w.2 + recency * w.3
  }

  /** calculate_agent_score */
  function AgentScore(expertise: map<string, AgentExpertise>, history: map<string, PerformanceHistory>,
                      agentId: string, ctx: ContextType, topic: string, participants: seq<string>): (r: real)
    requires agentId in expertise ==> agentId in history
    ensures r <= 1.0
    ensures agentId !in expertise ==> r == 0.0
  {
    if agentId !in expertise then 0.0
    else
      Min(1.0, Combined(FactorWeights(ctx), ExpertiseRelevance(expertise[agentId], topic, ctx), Reputation(history[agentId]),
                        CollaborationFitness(expertise, history, agentId, participants), RecencyBonus))
  }

  lemma WeightsNonNegative(ctx: ContextType, key: Factor, dflt: real)
    requires dflt >= 0.0
    ensures GetOr(ContextWeights(ctx), key, dflt) >= 0.0
  {
    var w := ContextWeights(ctx);
    match Get(w, key)
    case None =>
    case Some(v) =>
      var i := IndexOf(w, key).value;
      assert v == w[i].1;
  }

  lemma FactorWeightsNonNegative(ctx: ContextType)
    ensures var w := FactorWeights(ctx); w.0 >= 0.0 && w.1 >= 0.0 && w.2 >= 0.0 && w.3 >= 0.0
  {
    WeightsNonNegative(ctx, ExpertiseRelevanceFactor, 0.3);
    WeightsNonNegative(ctx, ReputationScore, 0.3);
    WeightsNonNegative(ctx, CollaborationHistory, 0.2);
    WeightsNonNegative(ctx, RecencyBonusFactor, 0.2);
  }

  /** Every weight is non-negative, so non-negative components combine to a non-negative score. */
  lemma CombinedNonNegative(w: (real, real, real, real), a: real, b: real, c: real, d: real)
    requires w.0 >= 0.0 && w.1 >= 0.0 && w.2 >= 0.0 && w.3 >= 0.0
    requires a >= 0.0 && b >= 0.0 && c >= 0.0 && d >= 0.0
    ensures Combined(w, a, b, c, d) >= 0.0
  {
    ProductNonNegative(a, w.0);
    ProductNonNegative(b, w.1);
    ProductNonNegative(c, w.2);
    ProductNonNegative(d, w.3);
  }

  /**
   * The score has no lower clamp, but it is never negative while the agent has at most ten
   * collaboration violations (the base collaboration score is then non-negative).
   */
  lemma ScoreNonNegative(expertise: map<string, AgentExpertise>, history: map<string, PerformanceHistory>,
                         agentId: string, ctx: ContextType, topic: string, participants: seq<string>)
    requires agentId in expertise ==> agentId in history
    requires agentId in history ==> history[agentId].collaborationViolations <= 10
    ensures AgentScore(expertise, history, agentId, ctx, topic, participants) >= 0.0
  {
    if agentId in expertise {
      FitnessBounds(expertise, history, agentId, participants);
      FactorWeightsNonNegative(ctx);
      CombinedNonNegative(FactorWeights(ctx), ExpertiseRelevance(expertise[agentId], topic, ctx), Reputation(history[agentId]),
                          CollaborationFitness(expertise, history, agentId, participants), RecencyBonus);
    }
  }

  lemma ProductNonNegative(x: real, y: real)
    requires x >= 0.0 && y >= 0.0
    ensures x * y >= 0.0
  {
  }

  // ---------------------------------------------------------------------------------
  // The heap

  /** The first position holding a highest score: the entry no other entry comes `Before`. */
  function MaxIndex(q: seq<QueueEntry>): (i: nat)
    requires q != []
    ensures i < |q|
    ensures forall j :: 0 <= j < |q| ==> !Before(q[j], q[i])
    ensures forall j :: 0 <= j < i ==> Before(q[i], q[j])
  {
    if |q| == 1 then 0
    else
      var i := MaxIndex(q[..|q| - 1]);
      if Before(q[|q| - 1], q[i]) then |q| - 1 else i
  }

  /** `heapq.heappop` under the ordering `Before`: an entry with the highest score, and the rest. */
  function HeapPop(q: seq<QueueEntry>): (r: (QueueEntry, seq<QueueEntry>))
    requires q != []
    ensures |r.1| == |q| - 1
  {
    var i := MaxIndex(q);
    (q[i], q[..i] + q[i + 1..])
  }

  /** No entry scores higher than the one popped. */
  lemma HeapPopMax(q: seq<QueueEntry>)
    requires q != []
    ensures forall j :: 0 <= j < |q| ==> q[j].priorityScore <= HeapPop(q).0.priorityScore
  {
  }

  /** A pop removes exactly the entry it returns. */
  lemma HeapPopPermutes(q: seq<QueueEntry>)
    requires q != []
    ensures multiset(q) == multiset(HeapPop(q).1) + multiset{HeapPop(q).0}
  {
    var i := MaxIndex(q);
    assert q == q[..i] + [q[i]] + q[i + 1..];
  }

  /** An agent has an entry before a pop exactly when the popped entry or one left behind is its. */
  lemma HeapPopEntries(q: seq<QueueEntry>, a: string)
    requires q != []
    ensures HasEntry(q, a) <==> HeapPop(q).0.agentId == a || HasEntry(HeapPop(q).1, a)
  {
    var i := MaxIndex(q);
    var rest := HeapPop(q).1;
    if HasEntry(q, a) {
      var k :| 0 <= k < |q| && q[k].agentId == a;
      if k < i {
        assert rest[k] == q[k];
      } else if k > i {
        assert rest[k - 1] == q[k];
      }
    }
    if HasEntry(rest, a) {
      var k :| 0 <= k < |rest| && rest[k].agentId == a;
      if k < i {
        assert q[k] == rest[k];
      } else {
        assert q[k + 1] == rest[k];
      }
    }
  }

  /** The entries in the order successive pops return them. */
  function Drain(q: seq<QueueEntry>): (r: seq<QueueEntry>)
    ensures |r| == |q|
    decreases |q|
  {
    if q == [] then [] else var p := HeapPop(q); [p.0] + Drain(p.1)
  }

  /** Draining returns every entry once. */
  lemma {:induction false} DrainPermutes(q: seq<QueueEntry>)
    ensures multiset(Drain(q)) == multiset(q)
    decreases |q|
  {
    if q != [] {
      var p := HeapPop(q);
      DrainPermutes(p.1);
      HeapPopPermutes(q);
    }
  }

  /** Draining returns the entries highest score first. */
  lemma {:induction false} DrainSorted(q: seq<QueueEntry>)
    ensures forall j, k :: 0 <= j < k < |Drain(q)| ==> Drain(q)[j].priorityScore >= Drain(q)[k].priorityScore
    decreases |q|
  {
    if q != [] {
      var p := HeapPop(q);
      var d := Drain(q);
      DrainSorted(p.1);
      DrainPermutes(p.1);
      HeapPopPermutes(q);
      HeapPopMax(q);
      forall k | 0 < k < |d|
        ensures d[0].priorityScore >= d[k].priorityScore
      {
        assert d[k] == Drain(p.1)[k - 1];
        assert d[k] in multiset(p.1);
        assert d[k] in multiset(q);
      }
    }
  }

  /** `[e.agent_id for e in sorted(queue)[:3]]`: the three entries that would be popped next. */
  function NextAgents(q: seq<QueueEntry>): (r: seq<string>)
    ensures |r| == if |q| < 3 then |q| else 3
  {
    var d := Drain(q);
    var n := if |q| < 3 then |q| else 3;
    seq(n, k requires 0 <= k < n => d[k].agentId)
  }

  /** The next agents all have entries, and the first of them has an entry with the highest score. */
  lemma NextAgentsHighest(q: seq<QueueEntry>)
    ensures forall k :: 0 <= k < |NextAgents(q)| ==> HasEntry(q, NextAgents(q)[k])
    ensures q != [] ==> exists j :: 0 <= j < |q| && q[j].agentId == NextAgents(q)[0] &&
                                   forall i :: 0 <= i < |q| ==> q[i].priorityScore <= q[j].priorityScore
  {
    var d := Drain(q);
    var r := NextAgents(q);
    DrainPermutes(q);
    forall k | 0 <= k < |r|
      ensures HasEntry(q, r[k])
    {
      HasEntryPermuted(q, d, r[k]);
      assert d[k].agentId == r[k];
    }
    if q != [] {
      HeapPopMax(q);
      HeapPopPermutes(q);
      var e := HeapPop(q).0;
      assert d[0] == e;
      assert e in multiset(q);
      var j :| 0 <= j < |q| && q[j] == e;
    }
  }

  /** The pop-until-waiting loop of dequeue_next_agent: the entry returned and the heap left behind. */
  function Dequeued(q: seq<QueueEntry>, waiting: set<string>): (Option<QueueEntry>, seq<QueueEntry>)
    decreases |q|
  {
    if q == [] then (None, [])
    else
      var p := HeapPop(q);
      if p.0.agentId in waiting then (Some(p.0), p.1) else Dequeued(p.1, waiting)
  }

  /** When nothing is returned, the heap held no entry of a waiting agent and is now empty. */
  lemma {:induction false} DequeueNone(q: seq<QueueEntry>, waiting: set<string>)
    requires Dequeued(q, waiting).0.None?
    ensures Dequeued(q, waiting).1 == []
    ensures forall k :: 0 <= k < |q| ==> q[k].agentId !in waiting
    decreases |q|
  {
    if q != [] {
      var p := HeapPop(q);
      DequeueNone(p.1, waiting);
      forall k | 0 <= k < |q|
        ensures q[k].agentId !in waiting
      {
        HeapPopEntries(q, q[k].agentId);
      }
    }
  }

  /**
   * The returned entry belongs to a waiting agent and has the highest score among the
   * entries of waiting agents; entries of agents no longer waiting are discarded on the way.
   */
  lemma {:induction false} DequeueBest(q: seq<QueueEntry>, waiting: set<string>)
    requires Dequeued(q, waiting).0.Some?
    ensures var e := Dequeued(q, waiting).0.value;
      e.agentId in waiting && e in multiset(q) &&
      forall k :: 0 <= k < |q| && q[k].agentId in waiting ==> q[k].priorityScore <= e.priorityScore
    decreases |q|
  {
    var p := HeapPop(q);
    HeapPopPermutes(q);
    HeapPopMax(q);
    if p.0.agentId !in waiting {
      DequeueBest(p.1, waiting);
      var e := Dequeued(q, waiting).0.value;
      forall k | 0 <= k < |q| && q[k].agentId in waiting
        ensures q[k].priorityScore <= e.priorityScore
      {
        assert q[k] in multiset(q);
        assert q[k] in multiset(p.1);
        var j :| 0 <= j < |p.1| && p.1[j] == q[k];
      }
    }
  }

  /** The agents of the given entries that are waiting, in order: the list `reorder_queue` collects. */
  function Waiters(entries: seq<QueueEntry>, waiting: set<string>): (r: seq<string>)
    ensures forall k :: 0 <= k < |r| ==> r[k] in waiting
  {
    if entries == [] then []
    else (if entries[0].agentId in waiting then [entries[0].agentId] else []) + Waiters(entries[1..], waiting)
  }

  lemma {:induction false} WaitersMembers(entries: seq<QueueEntry>, waiting: set<string>, a: string)
    ensures a in Waiters(entries, waiting) <==> a in waiting && exists k :: 0 <= k < |entries| && entries[k].agentId == a
  {
    if entries != [] {
      WaitersMembers(entries[1..], waiting, a);
      if exists k :: 0 <= k < |entries| && entries[k].agentId == a {
        var k :| 0 <= k < |entries| && entries[k].agentId == a;
        if k > 0 {
          assert entries[1..][k - 1].agentId == a;
        }
      }
      if exists k :: 0 <= k < |entries[1..]| && entries[1..][k].agentId == a {
        var k :| 0 <= k < |entries[1..]| && entries[1..][k].agentId == a;
        assert entries[k + 1].agentId == a;
      }
    }
  }

  /** The entry enqueue_agent pushes. */
  function EntryFor(expertise: map<string, AgentExpertise>, history: map<string, PerformanceHistory>,
                    agentId: string, ctx: ContextType, topic: string, active: seq<string>,
                    duration: real, now: Timestamp): (e: QueueEntry)
    requires agentId in expertise ==> agentId in history
    ensures e.agentId == agentId && e.priorityScore <= 1.0 && 0.0 <= e.contextRelevance <= 1.0
  {
    QueueEntry(agentId, AgentScore(expertise, history, agentId, ctx, topic, active),
               ExpertiseRelevance(if agentId in expertise then expertise[agentId] else NoExpertise, topic, ctx),
               duration, now, None)
  }

  /** The entries pushed by enqueueing each of `ids` in turn while none of them is active. */
  function Enqueued(expertise: map<string, AgentExpertise>, history: map<string, PerformanceHistory>,
                    ids: seq<string>, ctx: ContextType, topic: string, active: seq<string>, now: Timestamp): (r: seq<QueueEntry>)
    requires expertise.Keys <= history.Keys
    ensures |r| == |ids| && forall k :: 0 <= k < |ids| ==> r[k].agentId == ids[k]
  {
    if ids == [] then []
    else
      Enqueued(expertise, history, ids[..|ids| - 1], ctx, topic, active, now) +
      [EntryFor(expertise, history, ids[|ids| - 1], ctx, topic, active, DefaultDuration, now)]
  }

  /** Whether some entry belongs to the agent. */
  predicate HasEntry(q: seq<QueueEntry>, a: string)
  {
    exists k :: 0 <= k < |q| && q[k].agentId == a
  }

  lemma HasEntryPermuted(q: seq<QueueEntry>, d: seq<QueueEntry>, a: string)
    requires multiset(q) == multiset(d)
    ensures HasEntry(q, a) <==> HasEntry(d, a)
  {
    if HasEntry(q, a) {
      var k :| 0 <= k < |q| && q[k].agentId == a;
      assert q[k] in multiset(d);
      var j :| 0 <= j < |d| && d[j] == q[k];
    }
    if HasEntry(d, a) {
      var j :| 0 <= j < |d| && d[j].agentId == a;
      assert d[j] in multiset(q);
      var k :| 0 <= k < |q| && q[k] == d[j];
    }
  }

  /** After reordering, every heap entry belongs to a waiting agent. */
  lemma ReorderOnlyWaiting(expertise: map<string, AgentExpertise>, history: map<string, PerformanceHistory>,
                           q: seq<QueueEntry>, waiting: set<string>, ctx: ContextType, topic: string,
                           active: seq<string>, now: Timestamp)
    requires expertise.Keys <= history.Keys
    ensures var r := Enqueued(expertise, history, Waiters(Drain(q), waiting), ctx, topic, active, now);
      forall k :: 0 <= k < |r| ==> r[k].agentId in waiting
  {
  }

  /** After reordering, an agent has an entry exactly when it is waiting and had an entry before. */
  lemma ReorderKeepsWaiting(expertise: map<string, AgentExpertise>, history: map<string, PerformanceHistory>,
                            q: seq<QueueEntry>, waiting: set<string>, ctx: ContextType, topic: string,
                            active: seq<string>, now: Timestamp, a: string)
    requires expertise.Keys <= history.Keys
    ensures HasEntry(Enqueued(expertise, history, Waiters(Drain(q), waiting), ctx, topic, active, now), a) <==>
            a in waiting && HasEntry(q, a)
  {
    var d := Drain(q);
    var ids := Waiters(d, waiting);
    var r := Enqueued(expertise, history, ids, ctx, topic, active, now);
    WaitersMembers(d, waiting, a);
    DrainPermutes(q);
    HasEntryPermuted(q, d, a);
    if HasEntry(r, a) {
      var k :| 0 <= k < |r| && r[k].agentId == a;
      assert ids[k] == a;
    }
    if a in ids {
      var k :| 0 <= k < |ids| && ids[k] == a;
      assert r[k].agentId == a;
    }
  }

  /** One pop of the collecting loop of reorder_queue. */
  lemma WaitersStep(q: seq<QueueEntry>, waiting: set<string>)
    requires q != []
    ensures var p := HeapPop(q);
      Waiters(Drain(q), waiting) ==
      (if p.0.agentId in waiting then [p.0.agentId] else []) + Waiters(Drain(p.1), waiting)
  {
    var p := HeapPop(q);
    var d := Drain(q);
    assert d[0] == p.0 && d[1..] == Drain(p.1);
  }

  lemma CollectStep(current: seq<string>, heap: seq<QueueEntry>, total: seq<string>, waiting: set<string>)
    requires heap != [] && current + Waiters(Drain(heap), waiting) == total
    ensures var p := HeapPop(heap);
      (if p.0.agentId in waiting then current + [p.0.agentId] else current) + Waiters(Drain(p.1), waiting) == total
  {
    var p := HeapPop(heap);
    WaitersStep(heap, waiting);
    var taken := if p.0.agentId in waiting then [p.0.agentId] else [];
    Regroup(current, taken, Waiters(Drain(p.1), waiting));
  }

  lemma Regroup<T>(a: seq<T>, b: seq<T>, c: seq<T>)
    ensures a + (b + c) == (a + b) + c
  {
  }

  lemma EnqueuedSnoc(expertise: map<string, AgentExpertise>, history: map<string, PerformanceHistory>,
                     ids: seq<string>, x: string, ctx: ContextType, topic: string, active: seq<string>, now: Timestamp)
    requires expertise.Keys <= history.Keys
    ensures Enqueued(expertise, history, ids + [x], ctx, topic, active, now) ==
            Enqueued(expertise, history, ids, ctx, topic, active, now) +
            [EntryFor(expertise, history, x, ctx, topic, active, DefaultDuration, now)]
  {
    var s := ids + [x];
    assert s != [] && s[..|s| - 1] == ids && s[|s| - 1] == x;
  }

  /** One push of a loop that enqueues each of `ids` in turn. */
  lemma EnqueuedStep(expertise: map<string, AgentExpertise>, history: map<string, PerformanceHistory>,
                     ids: seq<string>, i: nat, ctx: ContextType, topic: string, active: seq<string>, now: Timestamp,
                     before: seq<QueueEntry>, after: seq<QueueEntry>)
    requires expertise.Keys <= history.Keys && i < |ids|
    requires before == Enqueued(expertise, history, ids[..i], ctx, topic, active, now)
    requires after == before + [EntryFor(expertise, history, ids[i], ctx, topic, active, DefaultDuration, now)]
    ensures after == Enqueued(expertise, history, ids[..i + 1], ctx, topic, active, now)
  {
    assert ids[..i + 1] == ids[..i] + [ids[i]];
    EnqueuedSnoc(expertise, history, ids[..i], ids[i], ctx, topic, active, now);
  }

  /** The agents waiting after one more enqueue of a loop over `ids`. */
  lemma WaitingStep(ids: seq<string>, i: nat, before: set<string>, after: set<string>)
    requires i < |ids| && after == before + {ids[i]}
    requires forall a :: a in before <==> a in ids[..i]
    ensures forall a :: a in after <==> a in ids[..i + 1]
  {
    assert ids[..i + 1] == ids[..i] + [ids[i]];
  }

  /** The first loop of reorder_queue: pop every entry, keeping the agents still waiting. */
  method PopWaiting(q: seq<QueueEntry>, waiting: set<string>) returns (current: seq<string>)
    ensures current == Waiters(Drain(q), waiting)
  {
    current := [];
    var heap := q;
    while heap != []
      invariant current + Waiters(Drain(heap), waiting) == Waiters(Drain(q), waiting)
      decreases |heap|
    {
      var p := HeapPop(heap);
      CollectStep(current, heap, Waiters(Drain(q), waiting), waiting);
      heap := p.1;
      if p.0.agentId in waiting {
        current := current + [p.0.agentId];
      }
    }
    assert Drain(heap) == [];
  }

  lemma AddPresent<T>(s: set<T>, x: T)
    requires x in s
    ensures s + {x} == s
  {
  }

  const DefaultDuration: real := 5.0

  /** `set.add` on the insertion-ordered set of active participants. */
  function Added(s: seq<string>, a: string): (r: seq<string>)
    ensures forall x :: x in r <==> x in s || x == a
  {
    if a in s then s else s + [a]
  }

  /** `set.discard` on the insertion-ordered set of active participants. */
  function Discarded(s: seq<string>, a: string): (r: seq<string>)
    ensures forall x :: x in r <==> x in s && x != a
    ensures |r| <= |s|
  {
    if s == [] then []
    else (if s[0] == a then [] else [s[0]]) + Discarded(s[1..], a)
  }

  predicate NoDuplicates(s: seq<string>)
  {
    forall i, j :: 0 <= i < j < |s| ==> s[i] != s[j]
  }

  lemma {:induction false} DiscardedNoDuplicates(s: seq<string>, a: string)
    requires NoDuplicates(s)
    ensures NoDuplicates(Discarded(s, a))
  {
    if s != [] {
      DiscardedNoDuplicates(s[1..], a);
      var t := Discarded(s[1..], a);
      assert forall x :: x in t ==> x in s[1..];
      assert s[0] !in s[1..];
    }
  }

  // ---------------------------------------------------------------------------------
  // AgentRankingEngine

  class RankingEngine {
    var agentExpertise: map<string, AgentExpertise>
    var performanceHistory: map<string, PerformanceHistory>

    /** Every registered agent has a performance history. */
    ghost predicate Valid()
      reads this
    {
      agentExpertise.Keys <= performanceHistory.Keys
    }

    constructor ()
      ensures Valid() && agentExpertise == map[] && performanceHistory == map[]
    {
      agentExpertise := map[];
      performanceHistory := map[];
    }

    /** register_agent: the profile is replaced, an existing history is kept. */
    method RegisterAgent(agentId: string, expertise: AgentExpertise)
      requires Valid()
      modifies this
      ensures Valid()
      ensures agentExpertise == old(agentExpertise)[agentId := expertise]
      ensures performanceHistory ==
        if agentId in old(performanceHistory) then old(performanceHistory) else old(performanceHistory)[agentId := NewHistory]
    {
      agentExpertise := agentExpertise[agentId := expertise];
      if agentId !in performanceHistory {
        performanceHistory := performanceHistory[agentId := NewHistory];
      }
    }

    function CalculateAgentScore(agentId: string, ctx: ContextType, topic: string, participants: seq<string>): (r: real)
      reads this
      requires Valid()
      ensures r <= 1.0 && (agentId !in agentExpertise ==> r == 0.0)
    {
      AgentScore(agentExpertise, performanceHistory, agentId, ctx, topic, participants)
    }
  }

  // ---------------------------------------------------------------------------------
  // AgentQueue

  datatype QueueStatus = QueueStatus(
    queueLength: int, activeParticipants: seq<string>, waitingAgents: set<string>, nextAgents: seq<string>)

  class AgentQueue {
    const engine: RankingEngine
    var queue: seq<QueueEntry>
    var activeParticipants: seq<string>
    var waitingAgents: set<string>

    /** No agent is both waiting and active, and the active set has no repeats. */
    ghost predicate Valid()
      reads this, engine
    {
      engine.Valid() && NoDuplicates(activeParticipants) &&
      forall a :: a in activeParticipants ==> a !in waitingAgents
    }

    constructor (engine: RankingEngine)
      requires engine.Valid()
      ensures Valid() && this.engine == engine
      ensures queue == [] && activeParticipants == [] && waitingAgents == {}
    {
      this.engine := engine;
      queue := [];
      activeParticipants := [];
      waitingAgents := {};
    }

    /** enqueue_agent: nothing for an active agent; otherwise one entry is pushed and the agent waits. */
    method EnqueueAgent(agentId: string, ctx: ContextType, topic: string, duration: real, now: Timestamp)
      requires Valid()
      modifies this
      ensures Valid()
      ensures activeParticipants == old(activeParticipants)
      ensures agentId in old(activeParticipants) ==> queue == old(queue) && waitingAgents == old(waitingAgents)
      ensures agentId !in old(activeParticipants) ==>
        queue == old(queue) + [EntryFor(engine.agentExpertise, engine.performanceHistory, agentId, ctx, topic,
                                        old(activeParticipants), duration, now)] &&
        waitingAgents == old(waitingAgents) + {agentId}
    {
      if agentId in activeParticipants {
        return;
      }
      var priority := engine.CalculateAgentScore(agentId, ctx, topic, activeParticipants);
      var own := if agentId in engine.agentExpertise then engine.agentExpertise[agentId] else NoExpertise;
      var relevance := ExpertiseRelevance(own, topic, ctx);
      var entry := QueueEntry(agentId, priority, relevance, duration, now, None);
      queue := queue + [entry];
      waitingAgents := waitingAgents + {agentId};
    }

    /** dequeue_next_agent */
    method DequeueNextAgent() returns (r: Option<QueueEntry>)
      requires Valid()
      modifies this
      ensures Valid()
      ensures (r, queue) == Dequeued(old(queue), old(waitingAgents))
      ensures r.None? ==> waitingAgents == old(waitingAgents) && activeParticipants == old(activeParticipants)
      ensures r.Some? ==>
        waitingAgents == old(waitingAgents) - {r.value.agentId} &&
        activeParticipants == old(activeParticipants) + [r.value.agentId]
    {
      while queue != []
        invariant Dequeued(queue, waitingAgents) == Dequeued(old(queue), old(waitingAgents))
        invariant waitingAgents == old(waitingAgents) && activeParticipants == old(activeParticipants)
        decreases |queue|
      {
        var p := HeapPop(queue);
        queue := p.1;
        var entry := p.0;
        if entry.agentId in waitingAgents {
          waitingAgents := waitingAgents - {entry.agentId};
          activeParticipants := Added(activeParticipants, entry.agentId);
          assert NoDuplicates(activeParticipants);
          return Some(entry);
        }
      }
      return None;
    }

    /** reorder_queue: every waiting agent's entry is popped and pushed back, rescored for the new context. */
    method ReorderQueue(ctx: ContextType, topic: string, now: Timestamp)
      requires Valid()
      modifies this
      ensures Valid()
      ensures waitingAgents == old(waitingAgents) && activeParticipants == old(activeParticipants)
      ensures queue == Enqueued(engine.agentExpertise, engine.performanceHistory,
                                Waiters(Drain(old(queue)), old(waitingAgents)), ctx, topic, old(activeParticipants), now)
    {
      var current := PopWaiting(queue, waitingAgents);
      queue := [];
      RequeueAll(current, ctx, topic, now);
    }

    /** The second loop of reorder_queue: enqueue each collected agent again, in order. */
    method RequeueAll(ids: seq<string>, ctx: ContextType, topic: string, now: Timestamp)
      requires Valid() && queue == [] && forall k :: 0 <= k < |ids| ==> ids[k] in waitingAgents
      modifies this
      ensures Valid()
      ensures waitingAgents == old(waitingAgents) && activeParticipants == old(activeParticipants)
      ensures queue == Enqueued(engine.agentExpertise, engine.performanceHistory, ids, ctx, topic, old(activeParticipants), now)
    {
      var i := 0;
      while i < |ids|
        invariant i <= |ids| && Valid()
        invariant waitingAgents == old(waitingAgents) && activeParticipants == old(activeParticipants)
        invariant queue == Enqueued(engine.agentExpertise, engine.performanceHistory, ids[..i], ctx, topic, activeParticipants, now)
      {
        AddPresent(waitingAgents, ids[i]);
        assert ids[i] !in activeParticipants;
        ghost var before := queue;
        EnqueueAgent(ids[i], ctx, topic, DefaultDuration, now);
        EnqueuedStep(engine.agentExpertise, engine.performanceHistory, ids, i, ctx, topic, activeParticipants, now,
                     before, queue);
        i := i + 1;
      }
      assert ids[..i] == ids;
    }

    /** release_agent */
    method ReleaseAgent(agentId: string)
      requires Valid()
      modifies this
      ensures Valid()
      ensures activeParticipants == Discarded(old(activeParticipants), agentId)
      ensures queue == old(queue) && waitingAgents == old(waitingAgents)
    {
      DiscardedNoDuplicates(activeParticipants, agentId);
      activeParticipants := Discarded(activeParticipants, agentId);
    }

    /** get_queue_status */
    function GetQueueStatus(): (r: QueueStatus)
      reads this
      ensures r.queueLength == |queue| && |r.nextAgents| <= 3
    {
      QueueStatus(|queue|, activeParticipants, waitingAgents, NextAgents(queue))
    }
  }

  // ---------------------------------------------------------------------------------
  // GovernanceStackCoordinator

  /** The union of the domains of the given registered agents. */
  function Coverage(expertise: map<string, AgentExpertise>, ids: seq<string>): set<string>
    requires forall k :: 0 <= k < |ids| ==> ids[k] in expertise
  {
    if ids == [] then {}
    else Coverage(expertise, ids[..|ids| - 1]) + DomainSet(expertise[ids[|ids| - 1]])
  }

  /** Whether the greedy selection takes a registered agent: the coverage is empty or the agent adds a domain. */
  predicate AddsExpertise(e: AgentExpertise, coverage: set<string>)
  {
    coverage == {} || !(DomainSet(e) <= coverage)
  }

  /** The selection loop of get_optimal_participant_set, from `chosen` and `coverage` onwards. */
  function Selected(heap: seq<QueueEntry>, expertise: map<string, AgentExpertise>, maxParticipants: int,
                    chosen: seq<string>, coverage: set<string>): seq<string>
    decreases |heap|
  {
    if |chosen| >= maxParticipants || heap == [] then chosen
    else
      var p := HeapPop(heap);
      var id := p.0.agentId;
      if id in expertise && AddsExpertise(expertise[id], coverage) then
        Selected(p.1, expertise, maxParticipants, chosen + [id], coverage + DomainSet(expertise[id]))
      else
        Selected(p.1, expertise, maxParticipants, chosen, coverage)
  }

  /** At most `maxParticipants` agents are chosen, and none when it is not positive. */
  lemma {:induction false} SelectedSize(heap: seq<QueueEntry>, expertise: map<string, AgentExpertise>, maxParticipants: int,
                                        chosen: seq<string>, coverage: set<string>)
    requires |chosen| <= maxParticipants || chosen == []
    ensures var r := Selected(heap, expertise, maxParticipants, chosen, coverage);
      (|r| <= maxParticipants || r == chosen) && |chosen| <= |r| && r[..|chosen|] == chosen
    decreases |heap|
  {
    if |chosen| < maxParticipants && heap != [] {
      var p := HeapPop(heap);
      var id := p.0.agentId;
      if id in expertise && AddsExpertise(expertise[id], coverage) {
        SelectedSize(p.1, expertise, maxParticipants, chosen + [id], coverage + DomainSet(expertise[id]));
        var r := Selected(p.1, expertise, maxParticipants, chosen + [id], coverage + DomainSet(expertise[id]));
        assert r[..|chosen|] == r[..|chosen| + 1][..|chosen|];
      } else {
        SelectedSize(p.1, expertise, maxParticipants, chosen, coverage);
      }
    }
  }

  /** Every agent chosen is registered and had an entry in the queue. */
  lemma {:induction false} SelectedFromQueue(heap: seq<QueueEntry>, expertise: map<string, AgentExpertise>, maxParticipants: int,
                                             chosen: seq<string>, coverage: set<string>, a: string)
    requires a in Selected(heap, expertise, maxParticipants, chosen, coverage)
    ensures a in chosen || (a in expertise && HasEntry(heap, a))
    decreases |heap|
  {
    if |chosen| < maxParticipants && heap != [] {
      var p := HeapPop(heap);
      var id := p.0.agentId;
      if id in expertise && AddsExpertise(expertise[id], coverage) {
        SelectedFromQueue(p.1, expertise, maxParticipants, chosen + [id], coverage + DomainSet(expertise[id]), a);
      } else {
        SelectedFromQueue(p.1, expertise, maxParticipants, chosen, coverage, a);
      }
      HeapPopEntries(heap, a);
    }
  }

  /**
   * The greedy choice: each agent chosen after the first covers a domain the earlier ones do not,
   * unless the earlier ones cover no domain at all.
   */
  lemma {:induction false} SelectedAddsExpertise(heap: seq<QueueEntry>, expertise: map<string, AgentExpertise>,
                                                 maxParticipants: int, chosen: seq<string>, coverage: set<string>, i: nat)
    requires forall k :: 0 <= k < |chosen| ==> chosen[k] in expertise
    requires coverage == Coverage(expertise, chosen)
    requires |chosen| <= i < |Selected(heap, expertise, maxParticipants, chosen, coverage)|
    ensures var r := Selected(heap, expertise, maxParticipants, chosen, coverage);
      r[i] in expertise && forall k :: 0 <= k < i ==> r[k] in expertise
    ensures var r := Selected(heap, expertise, maxParticipants, chosen, coverage);
      AddsExpertise(expertise[r[i]], Coverage(expertise, r[..i]))
    decreases |heap|
  {
    var p := HeapPop(heap);
    var id := p.0.agentId;
    if id in expertise && AddsExpertise(expertise[id], coverage) {
      var next := chosen + [id];
      assert next[..|chosen|] == chosen;
      if i == |chosen| {
        SelectedSize(p.1, expertise, maxParticipants, next, coverage + DomainSet(expertise[id]));
        var r := Selected(p.1, expertise, maxParticipants, next, coverage + DomainSet(expertise[id]));
        assert r[..|next|] == next;
        assert r[i] == next[i] && r[..i] == chosen;
      } else {
        SelectedAddsExpertise(p.1, expertise, maxParticipants, next, coverage + DomainSet(expertise[id]), i);
      }
    } else {
      SelectedAddsExpertise(p.1, expertise, maxParticipants, chosen, coverage, i);
    }
  }

  class Coordinator {
    const engine: RankingEngine
    var queues: map<string, AgentQueue>
    const governanceLayers: seq<string>

    /** All discussion queues rank agents with the coordinator's own engine. */
    ghost predicate Valid()
      reads this, engine
    {
      engine.Valid() && forall d :: d in queues ==> queues[d].engine == engine
    }

    constructor ()
      ensures Valid() && fresh(engine) && queues == map[]
      ensures engine.agentExpertise == map[] && engine.performanceHistory == map[]
      ensures |governanceLayers| == 5
    {
      engine := new RankingEngine();
      queues := map[];
      governanceLayers := ["policy_discussion", "technical_review", "implementation_planning",
                           "conflict_resolution", "final_approval"];
    }

    /**
     * create_discussion_queue: a new queue in which every available agent, in order, has an entry
     * and is waiting, and nobody is active; the queue replaces any earlier one of that discussion.
     */
    method CreateDiscussionQueue(discussionId: string, ctx: ContextType, topic: string,
                                 availableAgents: seq<string>, now: Timestamp) returns (r: string)
      requires Valid()
      modifies this
      ensures Valid() && r == discussionId
      ensures discussionId in queues && fresh(queues[discussionId])
      ensures queues == old(queues)[discussionId := queues[discussionId]]
      ensures var q := queues[discussionId];
        q.queue == Enqueued(engine.agentExpertise, engine.performanceHistory, availableAgents, ctx, topic, [], now) &&
        q.activeParticipants == [] &&
        forall a :: a in q.waitingAgents <==> a in availableAgents
    {
      var q := new AgentQueue(engine);
      var i := 0;
      while i < |availableAgents|
        invariant i <= |availableAgents| && fresh(q) && q.engine == engine && q.Valid()
        invariant queues == old(queues)
        invariant q.activeParticipants == []
        invariant q.queue == Enqueued(engine.agentExpertise, engine.performanceHistory, availableAgents[..i], ctx, topic, [], now)
        invariant forall a :: a in q.waitingAgents <==> a in availableAgents[..i]
      {
        ghost var before := q.queue;
        ghost var waiting := q.waitingAgents;
        q.EnqueueAgent(availableAgents[i], ctx, topic, DefaultDuration, now);
        EnqueuedStep(engine.agentExpertise, engine.performanceHistory, availableAgents, i, ctx, topic, [], now,
                     before, q.queue);
        WaitingStep(availableAgents, i, waiting, q.waitingAgents);
        i := i + 1;
      }
      assert availableAgents[..i] == availableAgents;
      queues := queues[discussionId := q];
      return discussionId;
    }

    /**
     * get_optimal_participant_set: pops a copy of the discussion's heap, highest score first, and
     * keeps each registered agent that adds a domain, up to `maxParticipants`; the queue itself is untouched.
     */
    method GetOptimalParticipantSet(discussionId: string, maxParticipants: int) returns (participants: seq<string>)
      ensures discussionId !in queues ==> participants == []
      ensures discussionId in queues ==>
        participants == Selected(queues[discussionId].queue, engine.agentExpertise, maxParticipants, [], {})
    {
      if discussionId !in queues {
        return [];
      }
      var queue := queues[discussionId];
      participants := [];
      var coverage: set<string> := {};
      var temp := queue.queue;
      while |participants| < maxParticipants && temp != []
        invariant Selected(temp, engine.agentExpertise, maxParticipants, participants, coverage) ==
                  Selected(queue.queue, engine.agentExpertise, maxParticipants, [], {})
        decreases |temp|
      {
        var p := HeapPop(temp);
        temp := p.1;
        var entry := p.0;
        if entry.agentId in engine.agentExpertise {
          var agentDomains := DomainSet(engine.agentExpertise[entry.agentId]);
          if coverage == {} || !(agentDomains <= coverage) {
            participants := participants + [entry.agentId];
            coverage := coverage + agentDomains;
          }
        }
      }
    }
  }

  /** The selection stays within the requested size, and is empty when that size is not positive. */
  lemma OptimalSize(heap: seq<QueueEntry>, expertise: map<string, AgentExpertise>, maxParticipants: int)
    ensures var r := Selected(heap, expertise, maxParticipants, [], {});
      (maxParticipants <= 0 ==> r == []) && |r| <= if maxParticipants < 0 then 0 else maxParticipants
  {
    SelectedSize(heap, expertise, maxParticipants, [], {});
  }

  /** Every participant selected is a registered agent with an entry in the discussion's queue. */
  lemma OptimalFromQueue(heap: seq<QueueEntry>, expertise: map<string, AgentExpertise>, maxParticipants: int, a: string)
    requires a in Selected(heap, expertise, maxParticipants, [], {})
    ensures a in expertise && HasEntry(heap, a)
  {
    SelectedFromQueue(heap, expertise, maxParticipants, [], {}, a);
  }

  /** Every participant after the first widens the expertise the earlier ones cover, unless they cover none. */
  lemma OptimalAddsExpertise(heap: seq<QueueEntry>, expertise: map<string, AgentExpertise>, maxParticipants: int, i: nat)
    requires i < |Selected(heap, expertise, maxParticipants, [], {})|
    ensures var r := Selected(heap, expertise, maxParticipants, [], {});
      r[i] in expertise && (forall k :: 0 <= k < i ==> r[k] in expertise) &&
      AddsExpertise(expertise[r[i]], Coverage(expertise, r[..i]))
  {
    SelectedAddsExpertise(heap, expertise, maxParticipants, [], {}, i);
  }
}
