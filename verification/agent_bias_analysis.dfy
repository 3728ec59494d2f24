/**
 * The analyses `InterAgentBiasResistanceEngine` runs over its relationship records and
 * demonstration history, the report that combines them, and the deterministic helpers of
 * `AgentRelationshipEvolutionSimulator`: bias decay, the system bias level and the
 * convergence search.
 */
module AgentBiasAnalysis {
  import opened Wrappers
  import opened Numeric
  import opened Dicts
  import opened AgentBias

  // ---------------------------------------------------------------------------------
  // Per-relationship rates

  /** The counter an analysis divides by `total_collaborations`. */
  datatype Counter = Successes | StyleAdaptations | ContextDeference | RespectfulDisagreements

  function CounterValue(m: Relationship, c: Counter): nat
  {
    match c
    case Successes => m.successful
    case StyleAdaptations => m.styleAdaptations
    case ContextDeference => m.contextSensitiveDeference
    case RespectfulDisagreements => m.respectfulDisagreements
  }

  /** How far a counter can run ahead of `total_collaborations` on a consistent record. */
  function Ceiling(c: Counter): nat
  {
    match c
    case Successes => 1
    case StyleAdaptations => 0
    case ContextDeference => 0
    case RespectfulDisagreements => 2
  }

  /** The relationships an analysis keeps: all of them, or one side of the cultural split. */
  datatype Group = AllPairs | CrossCultural | SameCultural

  /** The two agents of the record have no culture in common (either may have none). */
  predicate SharesNoCulture(usage: Dict<string, seq<string>>, m: Relationship)
  {
    Disjoint(GetOr(usage, m.agentA, []), GetOr(usage, m.agentB, []))
  }

  predicate InGroup(usage: Dict<string, seq<string>>, m: Relationship, g: Group)
  {
    match g
    case AllPairs => true
    case CrossCultural => SharesNoCulture(usage, m)
    case SameCultural => !SharesNoCulture(usage, m)
  }

  predicate Counted(usage: Dict<string, seq<string>>, m: Relationship, g: Group)
  {
    m.total > 0 && InGroup(usage, m, g)
  }

  function Rate(m: Relationship, c: Counter): real
    requires m.total > 0
  {
    (CounterValue(m, c) as real) / (m.total as real)
  }

  /**
   * The rates an `_analyze_*` loop collects: one per record of the group with at least one
   * collaboration, in the matrix's insertion order.
   */
  function Rates(rels: Dict<(string, string), Relationship>, usage: Dict<string, seq<string>>, c: Counter, g: Group)
    : (r: seq<real>)
    ensures |r| <= |rels|
  {
    if rels == [] then []
    else
      var m := rels[|rels| - 1].1;
      Rates(rels[..|rels| - 1], usage, c, g) + (if Counted(usage, m, g) then [Rate(m, c)] else [])
  }

  /** The loop of the `_analyze_*` helpers: walk the records and append each counted rate. */
  method CollectRates(rels: Dict<(string, string), Relationship>, usage: Dict<string, seq<string>>, c: Counter, g: Group)
    returns (r: seq<real>)
    ensures r == Rates(rels, usage, c, g)
  {
    r := [];
    var k := 0;
    while k < |rels|
      invariant k <= |rels|
      invariant r == Rates(rels[..k], usage, c, g)
    {
      var m := rels[k].1;
      if m.total > 0 && InGroup(usage, m, g) {
        r := r + [Rate(m, c)];
      }
      assert rels[..k + 1][..k] == rels[..k];
      k := k + 1;
    }
    assert rels[..k] == rels;
  }

  lemma RateBound(v: nat, t: nat, cap: nat)
    requires t > 0 && v <= cap * t
    ensures 0.0 <= (v as real) / (t as real) <= cap as real
  {
    assert (v as real) <= (cap as real) * (t as real);
  }

  /** On consistent records every collected rate lies in [0, Ceiling(c)]. */
  lemma {:induction false} RatesBounded(rels: Dict<(string, string), Relationship>, usage: Dict<string, seq<string>>, c: Counter, g: Group)
    requires forall k :: 0 <= k < |rels| ==> Consistent(rels[k].1)
    ensures forall k :: 0 <= k < |Rates(rels, usage, c, g)| ==> 0.0 <= Rates(rels, usage, c, g)[k] <= Ceiling(c) as real
  {
    if rels != [] {
      var m := rels[|rels| - 1].1;
      RatesBounded(rels[..|rels| - 1], usage, c, g);
      if Counted(usage, m, g) {
        assert Consistent(m);
        RateBound(CounterValue(m, c), m.total, Ceiling(c));
      }
    }
  }

  /** Every record with a collaboration falls on exactly one side of the cultural split. */
  lemma {:induction false} CulturalSplit(rels: Dict<(string, string), Relationship>, usage: Dict<string, seq<string>>, c: Counter)
    ensures |Rates(rels, usage, c, CrossCultural)| + |Rates(rels, usage, c, SameCultural)| == |Rates(rels, usage, c, AllPairs)|
  {
    if rels != [] {
      CulturalSplit(rels[..|rels| - 1], usage, c);
    }
  }

  // ---------------------------------------------------------------------------------
  // Averages and threshold counts

  /** `np.mean(xs) if xs else 0` */
  function MeanOr0(s: seq<real>): real
  {
    if s == [] then 0.0 else Mean(s)
  }

  lemma MeanOr0Bounds(s: seq<real>, hi: real)
    requires hi >= 0.0
    requires forall k :: 0 <= k < |s| ==> 0.0 <= s[k] <= hi
    ensures 0.0 <= MeanOr0(s) <= hi
  {
    if s != [] {
      MeanBounds(s, 0.0, hi);
    }
  }

  /** `len([x for x in xs if x > t])` */
  function CountAbove(s: seq<real>, t: real): (n: nat)
    ensures n <= |s|
    ensures n == 0 <==> forall k :: 0 <= k < |s| ==> s[k] <= t
  {
    if s == [] then 0
    else CountAbove(s[..|s| - 1], t) + (if s[|s| - 1] > t then 1 else 0)
  }

  /** The average rate and the number of records above a threshold, as each analysis reports. */
  datatype RateSummary = RateSummary(average: real, above: nat)

  function Summarize(rates: seq<real>, threshold: real): RateSummary
  {
    RateSummary(MeanOr0(rates), CountAbove(rates, threshold))
  }

  // ---------------------------------------------------------------------------------
  // The five analyses

  datatype CrossCulturalReport = CrossCulturalReport(crossAverage: real, sameAverage: real, ratio: real)

  /** `_analyze_cross_cultural_collaboration` */
  function AnalyzeCrossCultural(rels: Dict<(string, string), Relationship>, usage: Dict<string, seq<string>>)
    : (a: CrossCulturalReport)
    ensures a.ratio >= 0.0
    ensures Rates(rels, usage, Successes, SameCultural) == [] ==>
      a.ratio == |Rates(rels, usage, Successes, CrossCultural)| as real
  {
    var cross := Rates(rels, usage, Successes, CrossCultural);
    var same := Rates(rels, usage, Successes, SameCultural);
    CrossCulturalReport(MeanOr0(cross), MeanOr0(same), (|cross| as real) / (if |same| > 1 then |same| else 1) as real)
  }

  /** The sum of an agent's per-domain demonstration counts. */
  function DomainTotal(d: Dict<string, nat>): nat
  {
    if d == [] then 0 else DomainTotal(d[..|d| - 1]) + d[|d| - 1].1
  }

  /** With every count at least one, an agent has demonstrated at least as often as it has domains. */
  lemma {:induction false} DomainTotalCoversBreadth(d: Dict<string, nat>)
    requires forall j :: 0 <= j < |d| ==> d[j].1 >= 1
    ensures DomainTotal(d) >= |d|
  {
    if d != [] {
      DomainTotalCoversBreadth(d[..|d| - 1]);
    }
  }

  function ViolationsPerAgent(history: Dict<string, Dict<string, nat>>): (r: seq<real>)
    ensures |r| == |history|
  {
    seq(|history|, k requires 0 <= k < |history| => DomainTotal(history[k].1) as real)
  }

  function BreadthPerAgent(history: Dict<string, Dict<string, nat>>): (r: seq<real>)
    ensures |r| == |history|
  {
    seq(|history|, k requires 0 <= k < |history| => |history[k].1| as real)
  }

  datatype ExpertiseReport = ExpertiseReport(averageViolations: real, averageBreadth: real, crossDomainAgents: nat)

  /** `_analyze_expertise_stereotyping`: one entry per agent of the (distinct-keyed) history. */
  function AnalyzeExpertise(history: Dict<string, Dict<string, nat>>): (a: ExpertiseReport)
    ensures a.crossDomainAgents <= |history|
  {
    ExpertiseReport(MeanOr0(ViolationsPerAgent(history)), MeanOr0(BreadthPerAgent(history)),
      CountAbove(BreadthPerAgent(history), 2.0))
  }

  /**
   * Every stored count is positive, so no agent's breadth exceeds its violation count and the
   * average breadth never exceeds the average number of violations.
   */
  lemma BreadthWithinViolations(history: Dict<string, Dict<string, nat>>)
    requires PositiveCounts(history)
    ensures 0.0 <= AnalyzeExpertise(history).averageBreadth <= AnalyzeExpertise(history).averageViolations
  {
    var v, b := ViolationsPerAgent(history), BreadthPerAgent(history);
    forall k | 0 <= k < |history|
      ensures 0.0 <= b[k] <= v[k]
    {
      assert PositiveTally(history[k].1);
      DomainTotalCoversBreadth(history[k].1);
    }
    if history != [] {
      SumMonotone(b, v);
      SumNonNegative(b);
      var n := |history| as real;
      assert Sum(b) / n <= Sum(v) / n;
    }
  }

  datatype Analysis = Analysis(
    crossCultural: CrossCulturalReport, expertise: ExpertiseReport,
    adaptive: RateSummary, deference: RateSummary, disagreement: RateSummary)

  /** `analyze_emergent_anti_bias_properties`, with the thresholds 0.5, 0.6 and 0.3. */
  function Analyze(rels: Dict<(string, string), Relationship>, usage: Dict<string, seq<string>>,
                   history: Dict<string, Dict<string, nat>>): Analysis
  {
    Analysis(
      AnalyzeCrossCultural(rels, usage),
      AnalyzeExpertise(history),
      Summarize(Rates(rels, usage, StyleAdaptations, AllPairs), 0.5),
      Summarize(Rates(rels, usage, ContextDeference, AllPairs), 0.6),
      Summarize(Rates(rels, usage, RespectfulDisagreements, AllPairs), 0.3))
  }

  /** The analysis of an engine's current state. */
  function EngineAnalysis(e: Engine): Analysis
    reads e
  {
    Analyze(e.relationships, e.culturalPersonaUsage, e.expertiseHistory)
  }

  /**
   * On the records an engine keeps: success averages lie in [0, 1], the disagreement average
   * in [0, 2], and the adaptation and deference analyses always report zero, because no
   * operation of the engine counts adaptations or deference.
   */
  lemma AnalysisBounds(rels: Dict<(string, string), Relationship>, usage: Dict<string, seq<string>>,
                       history: Dict<string, Dict<string, nat>>)
    requires forall k :: 0 <= k < |rels| ==> Consistent(rels[k].1)
    ensures var a := Analyze(rels, usage, history);
      0.0 <= a.crossCultural.crossAverage <= 1.0 && 0.0 <= a.crossCultural.sameAverage <= 1.0 &&
      a.adaptive == RateSummary(0.0, 0) && a.deference == RateSummary(0.0, 0) &&
      0.0 <= a.disagreement.average <= 2.0
  {
    RatesBounded(rels, usage, Successes, CrossCultural);
    MeanOr0Bounds(Rates(rels, usage, Successes, CrossCultural), 1.0);
    RatesBounded(rels, usage, Successes, SameCultural);
    MeanOr0Bounds(Rates(rels, usage, Successes, SameCultural), 1.0);
    RatesBounded(rels, usage, StyleAdaptations, AllPairs);
    MeanOr0Bounds(Rates(rels, usage, StyleAdaptations, AllPairs), 0.0);
    RatesBounded(rels, usage, ContextDeference, AllPairs);
    MeanOr0Bounds(Rates(rels, usage, ContextDeference, AllPairs), 0.0);
    RatesBounded(rels, usage, RespectfulDisagreements, AllPairs);
    MeanOr0Bounds(Rates(rels, usage, RespectfulDisagreements, AllPairs), 2.0);
  }

  /** A single well-argued critique already puts a pair's disagreement "quality" at 2. */
  lemma DisagreementQualityReachesTwo()
    ensures var i := Interaction("a", "b", RespectfulCritique, None, 0.0, true, true, true, false, None);
      var rels := [(PairKey("a", "b"), Step(NewRelationship("a", "b"), i, false))];
      Analyze(rels, [], []).disagreement.average == 2.0
  {
    var i := Interaction("a", "b", RespectfulCritique, None, 0.0, true, true, true, false, None);
    var m := Step(NewRelationship("a", "b"), i, false);
    StepCounters(NewRelationship("a", "b"), i, false);
    assert QualityScore(i) == 3;
    assert m.total == 1 && m.respectfulDisagreements == 2;
    var rels := [(PairKey("a", "b"), m)];
    assert rels[..0] == [];
    assert Rates(rels, [], RespectfulDisagreements, AllPairs) == [2.0];
    assert Sum([2.0]) == 2.0 by {
      assert [2.0][..0] == [];
    }
  }

  // ---------------------------------------------------------------------------------
  // The report

  /** The five component scores of `generate_bias_resistance_report`; breadth is divided by 5. */
  function Components(a: Analysis): (r: seq<real>)
    ensures |r| == 5
  {
    [a.crossCultural.crossAverage, a.expertise.averageBreadth / 5.0, a.adaptive.average,
     a.deference.average, a.disagreement.average]
  }

  /** The positive entries, in order. */
  function Positives(s: seq<real>): (r: seq<real>)
    ensures |r| <= |s|
    ensures forall k :: 0 <= k < |r| ==> r[k] > 0.0
    ensures r == [] <==> forall k :: 0 <= k < |s| ==> s[k] <= 0.0
  {
    if s == [] then []
    else Positives(s[..|s| - 1]) + (if s[|s| - 1] > 0.0 then [s[|s| - 1]] else [])
  }

  lemma {:induction false} SumPositive(s: seq<real>)
    requires s != []
    requires forall k :: 0 <= k < |s| ==> s[k] > 0.0
    ensures Sum(s) > 0.0
  {
    if |s| > 1 {
      SumPositive(s[..|s| - 1]);
    }
  }

  /**
   * The mean of the positive components. When none is positive, `np.mean` of the empty list is
   * NaN; the model answers `None`.
   */
  function OverallResistance(components: seq<real>): (r: Option<real>)
    ensures r.None? <==> forall k :: 0 <= k < |components| ==> components[k] <= 0.0
    ensures r.Some? ==> r.value > 0.0
  {
    var p := Positives(components);
    if p == [] then None
    else
      SumPositive(p);
      Some(Mean(p))
  }

  datatype Report = Report(overall: Option<real>, analysis: Analysis)

  /** `generate_bias_resistance_report`, without the constant prose lists. */
  function BiasResistanceReport(e: Engine): Report
    reads e
  {
    var a := EngineAnalysis(e);
    Report(OverallResistance(Components(a)), a)
  }

  /**
   * A fresh engine has nothing to report: every component is zero, so the overall score is the
   * NaN of an empty mean.
   */
  lemma EmptyEngineHasNoScore()
    ensures OverallResistance(Components(Analyze([], [], []))) == None
  {
    var a := Analyze([], [], []);
    assert Components(a) == [0.0, 0.0, 0.0, 0.0, 0.0];
  }

  // ---------------------------------------------------------------------------------
  // The simulator's deterministic helpers

  /** An agent's biases by name, and the simulated agents by id. */
  type Biases = Dict<string, real>
  type Agents = Dict<string, Biases>

  /** The two agents of one simulated interaction. */
  datatype Meeting = Meeting(agentA: string, agentB: string)

  const BiasReduction: real := 0.02

  /** Every bias of one agent lowered by 0.02, floored at 0, in place. */
  function Decayed(b: Biases): (r: Biases)
    ensures |r| == |b|
    ensures forall j :: 0 <= j < |b| ==> r[j] == (b[j].0, Max(0.0, b[j].1 - BiasReduction))
  {
    seq(|b|, j requires 0 <= j < |b| => (b[j].0, Max(0.0, b[j].1 - BiasReduction)))
  }

  /** One interaction: agent A's biases decay, then agent B's (twice if A and B coincide). */
  function Met(agents: Agents, i: Meeting): Agents
    requires HasKey(agents, i.agentA) && HasKey(agents, i.agentB)
  {
    var a := Put(agents, i.agentA, Decayed(Get(agents, i.agentA).value));
    HasKeyPut(agents, i.agentA, Decayed(Get(agents, i.agentA).value), i.agentB);
    Put(a, i.agentB, Decayed(Get(a, i.agentB).value))
  }

  predicate AllKnown(agents: Agents, meetings: seq<Meeting>)
  {
    forall k :: 0 <= k < |meetings| ==> HasKey(agents, meetings[k].agentA) && HasKey(agents, meetings[k].agentB)
  }

  /** The agents after every interaction of the step, in order. */
  function UpdateAll(agents: Agents, meetings: seq<Meeting>): Agents
    requires AllKnown(agents, meetings)
    decreases |meetings|
  {
    if meetings == [] then agents
    else
      MetKeepsKeys(agents, meetings[0]);
      UpdateAll(Met(agents, meetings[0]), meetings[1..])
  }

  /** The same agents and bias names in the same places, each value within [0, its old value]. */
  predicate Lowered(after: Agents, before: Agents)
  {
    |after| == |before| &&
    forall k :: 0 <= k < |before| ==> after[k].0 == before[k].0 && BiasesLowered(after[k].1, before[k].1)
  }

  predicate BiasesLowered(after: Biases, before: Biases)
  {
    |after| == |before| &&
    forall j :: 0 <= j < |before| ==> after[j].0 == before[j].0 && 0.0 <= after[j].1 <= before[j].1
  }

  predicate NonNegative(agents: Agents)
  {
    forall k, j :: 0 <= k < |agents| && 0 <= j < |agents[k].1| ==> agents[k].1[j].1 >= 0.0
  }

  /** A dictionary of agents: distinct ids, no negative bias. */
  predicate WellFormed(agents: Agents)
  {
    UniqueKeys(agents) && NonNegative(agents)
  }

  lemma MetKeepsKeys(agents: Agents, i: Meeting)
    requires HasKey(agents, i.agentA) && HasKey(agents, i.agentB)
    ensures forall a :: HasKey(Met(agents, i), a) <==> HasKey(agents, a)
  {
    var b := Decayed(Get(agents, i.agentA).value);
    var a := Put(agents, i.agentA, b);
    HasKeyPut(agents, i.agentA, b, i.agentB);
    forall x
      ensures HasKey(Met(agents, i), x) <==> HasKey(agents, x)
    {
      HasKeyPut(agents, i.agentA, b, x);
      HasKeyPut(a, i.agentB, Decayed(Get(a, i.agentB).value), x);
    }
  }

  lemma LoweredWellFormed(after: Agents, before: Agents)
    requires WellFormed(before) && Lowered(after, before)
    ensures WellFormed(after)
  {
  }

  lemma LoweredTransitive(a: Agents, b: Agents, c: Agents)
    requires Lowered(a, b) && Lowered(b, c)
    ensures Lowered(a, c)
  {
  }

  /** Decaying the biases of a present agent lowers the whole dictionary. */
  lemma DecayLowers(agents: Agents, id: string)
    requires WellFormed(agents) && HasKey(agents, id)
    ensures Lowered(Put(agents, id, Decayed(Get(agents, id).value)), agents)
  {
    var b := Decayed(Get(agents, id).value);
    var r := Put(agents, id, b);
    forall k | 0 <= k < |agents|
      ensures r[k].0 == agents[k].0 && BiasesLowered(r[k].1, agents[k].1)
    {
      if agents[k].0 == id {
        GetUnique(agents, k);
        assert r[k] == (id, b);
      } else {
        assert r[k] == agents[k];
      }
    }
  }

  lemma MetLowers(agents: Agents, i: Meeting)
    requires WellFormed(agents) && HasKey(agents, i.agentA) && HasKey(agents, i.agentB)
    ensures Lowered(Met(agents, i), agents)
  {
    var a := Put(agents, i.agentA, Decayed(Get(agents, i.agentA).value));
    DecayLowers(agents, i.agentA);
    LoweredWellFormed(a, agents);
    HasKeyPut(agents, i.agentA, Decayed(Get(agents, i.agentA).value), i.agentB);
    DecayLowers(a, i.agentB);
    LoweredTransitive(Met(agents, i), a, agents);
  }

  /**
   * `_update_agent_relationships` keeps the agents and their bias names, leaves every bias
   * non-negative and never raises one.
   */
  lemma {:induction false} UpdateAllLowers(agents: Agents, meetings: seq<Meeting>)
    requires WellFormed(agents) && AllKnown(agents, meetings)
    ensures Lowered(UpdateAll(agents, meetings), agents)
    decreases |meetings|
  {
    if meetings == [] {
    } else {
      var next := Met(agents, meetings[0]);
      MetLowers(agents, meetings[0]);
      MetKeepsKeys(agents, meetings[0]);
      LoweredWellFormed(next, agents);
      UpdateAllLowers(next, meetings[1..]);
      LoweredTransitive(UpdateAll(next, meetings[1..]), next, agents);
    }
  }

  /** The inner loop: every bias of one agent lowered by 0.02 and floored at 0, entry by entry. */
  method DecayInPlace(b: Biases) returns (r: Biases)
    ensures r == Decayed(b)
  {
    r := b;
    var j := 0;
    while j < |r|
      invariant j <= |r| == |b|
      invariant forall x :: 0 <= x < j ==> r[x] == (b[x].0, Max(0.0, b[x].1 - BiasReduction))
      invariant forall x :: j <= x < |r| ==> r[x] == b[x]
    {
      r := r[j := (r[j].0, Max(0.0, r[j].1 - BiasReduction))];
      j := j + 1;
    }
  }

  /** `_update_agent_relationships`: the ids come from the agents dictionary, as the simulator draws them. */
  method UpdateAgentRelationships(agents: Agents, meetings: seq<Meeting>) returns (r: Agents)
    requires AllKnown(agents, meetings)
    ensures r == UpdateAll(agents, meetings)
  {
    r := agents;
    var i := 0;
    while i < |meetings|
      invariant i <= |meetings|
      invariant AllKnown(r, meetings[i..])
      invariant UpdateAll(r, meetings[i..]) == UpdateAll(agents, meetings)
    {
      var m := meetings[i];
      assert meetings[i..][0] == m && meetings[i..][1..] == meetings[i + 1..];
      MetKeepsKeys(r, m);
      var a := DecayInPlace(Get(r, m.agentA).value);
      var r' := Put(r, m.agentA, a);
      HasKeyPut(r, m.agentA, a, m.agentB);
      var b := DecayInPlace(Get(r', m.agentB).value);
      r := Put(r', m.agentB, b);
      i := i + 1;
    }
  }

  /** The mean of one agent's biases. */
  function BiasMean(b: Biases): real
    requires b != []
  {
    Sum(Values(b)) / (|b| as real)
  }

  predicate NoEmptyAgent(agents: Agents)
  {
    forall k :: 0 <= k < |agents| ==> agents[k].1 != []
  }

  function AgentMeans(agents: Agents): (r: seq<real>)
    requires NoEmptyAgent(agents)
    ensures |r| == |agents|
  {
    seq(|agents|, k requires 0 <= k < |agents| => BiasMean(agents[k].1))
  }

  /**
   * `_calculate_system_bias_level`: the mean over agents of each agent's mean bias. Python
   * divides by zero for an empty dictionary and for an agent without biases; the model answers
   * `None` there.
   */
  function SystemBiasLevel(agents: Agents): (r: Option<real>)
    ensures r.None? <==> agents == [] || exists k :: 0 <= k < |agents| && agents[k].1 == []
  {
    if agents == [] || !NoEmptyAgent(agents) then None else Some(Mean(AgentMeans(agents)))
  }

  lemma BiasMeanLowered(after: Biases, before: Biases)
    requires before != [] && BiasesLowered(after, before)
    ensures 0.0 <= BiasMean(after) <= BiasMean(before)
  {
    SumMonotone(Values(after), Values(before));
    SumNonNegative(Values(after));
    var n := |before| as real;
    assert Sum(Values(after)) / n <= Sum(Values(before)) / n;
  }

  /** Interactions never raise the system bias level, which stays non-negative. */
  lemma SystemBiasNeverRises(after: Agents, before: Agents)
    requires Lowered(after, before) && SystemBiasLevel(before).Some?
    ensures SystemBiasLevel(after).Some?
    ensures 0.0 <= SystemBiasLevel(after).value <= SystemBiasLevel(before).value
  {
    assert NoEmptyAgent(after);
    var ma, mb := AgentMeans(after), AgentMeans(before);
    forall k | 0 <= k < |before|
      ensures 0.0 <= ma[k] <= mb[k]
    {
      BiasMeanLowered(after[k].1, before[k].1);
    }
    SumMonotone(ma, mb);
    SumNonNegative(ma);
    var n := |before| as real;
    assert Sum(ma) / n <= Sum(mb) / n;
  }

  /** The loop of `_calculate_system_bias_level`, accumulating the per-agent means in order. */
  method CalculateSystemBiasLevel(agents: Agents) returns (r: Option<real>)
    ensures r == SystemBiasLevel(agents)
  {
    var total := 0.0;
    var k := 0;
    while k < |agents|
      invariant k <= |agents|
      invariant NoEmptyAgent(agents[..k])
      invariant total == Sum(AgentMeans(agents[..k]))
    {
      if agents[k].1 == [] {
        return None;
      }
      var means := AgentMeans(agents[..k + 1]);
      assert means[..k] == AgentMeans(agents[..k]);
      total := total + BiasMean(agents[k].1);
      k := k + 1;
    }
    assert agents[..k] == agents;
    r := if agents == [] then None else Some(total / (|agents| as real));
  }

  function Abs(x: real): real
  {
    if x < 0.0 then -x else x
  }

  /** The bias level moved by less than 0.01 over the ten steps ending at `i`. */
  predicate Settled(b: seq<real>, i: nat)
    requires 10 <= i < |b|
  {
    Abs(b[i] - b[i - 10]) < 0.01
  }

  /**
   * `_find_convergence_point`: the first step from 10 on whose level is within 0.01 of the level
   * ten steps earlier, or the length of the trajectory when there is none (or it is shorter than 10).
   */
  method FindConvergencePoint(b: seq<real>) returns (r: nat)
    ensures r <= |b|
    ensures |b| < 10 ==> r == |b|
    ensures r < |b| ==> 10 <= r && Settled(b, r)
    ensures forall j :: 10 <= j < r ==> !Settled(b, j)
  {
    if |b| < 10 {
      return |b|;
    }
    var i := 10;
    while i < |b|
      invariant 10 <= i <= |b|
      invariant forall j :: 10 <= j < i ==> !Settled(b, j)
    {
      if Abs(b[i] - b[i - 10]) < 0.01 {
        return i;
      }
      i := i + 1;
    }
    r := |b|;
  }
}
