/**
 * Anti-bias architecture analysis: `AntiBiasArchitectureAnalyzer` averages the mitigation
 * strengths of its catalogued mechanisms per direction, counts designed and emergent
 * mechanisms and the bias types they cover; `BiasResistanceValidator` averages per-scenario
 * resistance scores.
 */
module AntiBiasArchitecture {
  import opened Wrappers
  import opened Numeric

  /** `BiasType` */
  datatype BiasType =
    | FirstSpeaker | CulturalAuthority | ExpertiseStereotyping | CommunicationStyle
    | Recency | Confirmation | Availability | Anchoring

  /** `BiasDirection` */
  datatype Direction = AgentLevel | HumanLevel | SystemicLevel

  /** `BiasMitigationMechanism` without its name and description, which nothing computes with. */
  datatype Mechanism = Mechanism(biases: seq<BiasType>, direction: Direction, strength: real, emergent: bool)

  /** `_catalog_bias_mitigation_mechanisms`, in catalogue order. */
  const Catalogue: seq<Mechanism> := [
    Mechanism([FirstSpeaker, ExpertiseStereotyping, Availability], AgentLevel, 0.8, false),
    Mechanism([CulturalAuthority, ExpertiseStereotyping], SystemicLevel, 0.9, true),
    Mechanism([Recency, Availability, Confirmation], AgentLevel, 0.7, false),
    Mechanism([CulturalAuthority, ExpertiseStereotyping], SystemicLevel, 0.8, false),
    Mechanism([Recency, Anchoring, Confirmation], AgentLevel, 0.6, false),
    Mechanism([CulturalAuthority, ExpertiseStereotyping], HumanLevel, 0.7, true),
    Mechanism([CommunicationStyle, CulturalAuthority], HumanLevel, 0.6, true),
    Mechanism([Anchoring, Confirmation], HumanLevel, 0.5, true),
    Mechanism([CulturalAuthority, ExpertiseStereotyping], SystemicLevel, 0.9, true),
    Mechanism([Availability, Recency, Confirmation], SystemicLevel, 0.8, true)]

  /** The documented invariant of a mechanism: a strength on the 0-1 scale, and some bias addressed. */
  predicate WellFormed(m: Mechanism)
  {
    0.0 <= m.strength <= 1.0 && m.biases != []
  }

  lemma CatalogueWellFormed()
    ensures forall k :: 0 <= k < |Catalogue| ==> WellFormed(Catalogue[k])
  {
  }

  // ---------------------------------------------------------------------------------
  // Per-direction scores

  /** The mechanisms with the given direction, in catalogue order. */
  function AtLevel(c: seq<Mechanism>, d: Direction): (r: seq<Mechanism>)
    ensures |r| <= |c|
  {
    if c == [] then []
    else
      var rest := AtLevel(c[..|c| - 1], d);
      if c[|c| - 1].direction == d then rest + [c[|c| - 1]] else rest
  }

  /** The level holds exactly the catalogue's mechanisms with that direction. */
  lemma {:induction false} AtLevelMembers(c: seq<Mechanism>, d: Direction)
    ensures forall k :: 0 <= k < |AtLevel(c, d)| ==> AtLevel(c, d)[k].direction == d && AtLevel(c, d)[k] in c
    ensures (exists k :: 0 <= k < |c| && c[k].direction == d) <==> AtLevel(c, d) != []
  {
    if c != [] {
      AtLevelMembers(c[..|c| - 1], d);
      assert forall m :: m in c[..|c| - 1] ==> m in c;
      assert forall k :: 0 <= k < |c| - 1 ==> c[..|c| - 1][k] == c[k];
    }
  }

  /** The three directions split the catalogue: every mechanism is counted at exactly one level. */
  lemma {:induction false} LevelsPartition(c: seq<Mechanism>)
    ensures |AtLevel(c, AgentLevel)| + |AtLevel(c, HumanLevel)| + |AtLevel(c, SystemicLevel)| == |c|
  {
    if c != [] {
      LevelsPartition(c[..|c| - 1]);
    }
  }

  function Strengths(ms: seq<Mechanism>): (r: seq<real>)
    ensures |r| == |ms| && forall k :: 0 <= k < |ms| ==> r[k] == ms[k].strength
  {
    seq(|ms|, k requires 0 <= k < |ms| => ms[k].strength)
  }

  /**
   * A level's resistance score: the mean strength of its mechanisms. Python divides by the
   * number of mechanisms at the level, so a level with none raises `ZeroDivisionError` (`None`).
   */
  function LevelScore(c: seq<Mechanism>, d: Direction): (r: Option<real>)
    ensures r.None? <==> forall k :: 0 <= k < |c| ==> c[k].direction != d
    ensures r.Some? && (forall k :: 0 <= k < |c| ==> WellFormed(c[k])) ==> 0.0 <= r.value <= 1.0
  {
    var ms := AtLevel(c, d);
    AtLevelMembers(c, d);
    if ms == [] then None
    else
      assert (forall k :: 0 <= k < |c| ==> WellFormed(c[k])) ==> 0.0 <= Mean(Strengths(ms)) <= 1.0 by {
        if forall k :: 0 <= k < |c| ==> WellFormed(c[k]) {
          forall k | 0 <= k < |ms|
            ensures 0.0 <= Strengths(ms)[k] <= 1.0
          {
            var j :| 0 <= j < |c| && c[j] == ms[k];
          }
          MeanBounds(Strengths(ms), 0.0, 1.0);
        }
      }
      Some(Mean(Strengths(ms)))
  }

  /** A level whose mechanisms all have the same strength scores exactly that strength. */
  lemma UniformLevel(c: seq<Mechanism>, d: Direction, v: real)
    requires exists k :: 0 <= k < |c| && c[k].direction == d
    requires forall k :: 0 <= k < |c| ==> c[k].strength == v
    ensures LevelScore(c, d) == Some(v)
  {
    var ms := AtLevel(c, d);
    AtLevelMembers(c, d);
    forall k | 0 <= k < |ms|
      ensures Strengths(ms)[k] == v
    {
      var j :| 0 <= j < |c| && c[j] == ms[k];
    }
    MeanBounds(Strengths(ms), v, v);
  }

  // ---------------------------------------------------------------------------------
  // Designed and emergent mechanisms, bias types

  function EmergentCount(c: seq<Mechanism>): nat
  {
    if c == [] then 0 else EmergentCount(c[..|c| - 1]) + (if c[|c| - 1].emergent then 1 else 0)
  }

  function DesignedCount(c: seq<Mechanism>): nat
  {
    if c == [] then 0 else DesignedCount(c[..|c| - 1]) + (if c[|c| - 1].emergent then 0 else 1)
  }

  /** Every mechanism is either designed or emergent. */
  lemma {:induction false} CountsCoverCatalogue(c: seq<Mechanism>)
    ensures EmergentCount(c) + DesignedCount(c) == |c|
  {
    if c != [] {
      CountsCoverCatalogue(c[..|c| - 1]);
    }
  }

  /** `emergent / (emergent + designed)`, which fails on an empty catalogue. */
  function EmergenceRatio(c: seq<Mechanism>): (r: Option<real>)
    ensures r.None? <==> c == []
    ensures r.Some? ==> 0.0 <= r.value <= 1.0
    ensures r == Some(1.0) <==> c != [] && DesignedCount(c) == 0
  {
    CountsCoverCatalogue(c);
    var total := EmergentCount(c) + DesignedCount(c);
    if total == 0 then None
    else
      var e := EmergentCount(c) as real;
      var n := total as real;
      assert e / n * n == e;
      assert e / n == 1.0 <==> e == n;
      Some(e / n)
  }

  /** The distinct bias types any mechanism addresses. */
  function BiasTypesAddressed(c: seq<Mechanism>): (r: set<BiasType>)
    ensures forall b :: b in r <==> exists k :: 0 <= k < |c| && b in c[k].biases
  {
    if c == [] then {}
    else
      var rest := BiasTypesAddressed(c[..|c| - 1]);
      assert forall k :: 0 <= k < |c| - 1 ==> c[..|c| - 1][k] == c[k];
      var last := c[|c| - 1].biases;
      rest + set k | 0 <= k < |last| :: last[k]
  }

  const AllBiasTypes: set<BiasType> :=
    {FirstSpeaker, CulturalAuthority, ExpertiseStereotyping, CommunicationStyle, Recency, Confirmation, Availability, Anchoring}

  /** No catalogue addresses more than the eight bias types there are. */
  lemma AtMostEightBiasTypes(c: seq<Mechanism>)
    ensures |BiasTypesAddressed(c)| <= 8
  {
    var r := BiasTypesAddressed(c);
    assert r <= AllBiasTypes by {
      forall b | b in r
        ensures b in AllBiasTypes
      {
        EveryBiasType(b);
      }
    }
    AllBiasTypesSize();
    assert AllBiasTypes == r + (AllBiasTypes - r);
  }

  lemma AllBiasTypesSize()
    ensures |AllBiasTypes| == 8
  {
    var first := {FirstSpeaker, CulturalAuthority, ExpertiseStereotyping, CommunicationStyle};
    var last := {Recency, Confirmation, Availability, Anchoring};
    FirstFourBiasTypes();
    LastFourBiasTypes();
    assert first * last == {};
    assert AllBiasTypes == first + last;
  }

  lemma FirstFourBiasTypes()
    ensures |{FirstSpeaker, CulturalAuthority, ExpertiseStereotyping, CommunicationStyle}| == 4
  {
    var s := {FirstSpeaker, CulturalAuthority};
    assert |s| == 2;
    assert |s + {ExpertiseStereotyping}| == 3;
  }

  lemma LastFourBiasTypes()
    ensures |{Recency, Confirmation, Availability, Anchoring}| == 4
  {
    var s := {Recency, Confirmation};
    assert |s| == 2;
    assert |s + {Availability}| == 3;
  }

  // ---------------------------------------------------------------------------------
  // The report

  datatype ResistanceReport = ResistanceReport(
    agentLevel: real, humanLevel: real, systemicLevel: real, overall: real,
    designed: nat, emergent: nat, emergenceRatio: real, biasTypes: nat)

  /** `calculate_overall_bias_resistance`: fails when some direction has no mechanism. */
  function OverallBiasResistance(c: seq<Mechanism>): (r: Option<ResistanceReport>)
    ensures r.None? <==> LevelScore(c, AgentLevel).None? || LevelScore(c, HumanLevel).None? || LevelScore(c, SystemicLevel).None?
    ensures r.Some? ==>
      r.value.overall == (r.value.agentLevel + r.value.humanLevel + r.value.systemicLevel) / 3.0 &&
      r.value.designed + r.value.emergent == |c| && r.value.biasTypes <= 8 &&
      0.0 <= r.value.emergenceRatio <= 1.0
    ensures r.Some? && (forall k :: 0 <= k < |c| ==> WellFormed(c[k])) ==>
      0.0 <= r.value.overall <= 1.0
  {
    var a, h, s := LevelScore(c, AgentLevel), LevelScore(c, HumanLevel), LevelScore(c, SystemicLevel);
    if a.None? || h.None? || s.None? then None
    else
      CountsCoverCatalogue(c);
      AtMostEightBiasTypes(c);
      var ratio := EmergenceRatio(c);
      Some(ResistanceReport(a.value, h.value, s.value, (a.value + h.value + s.value) / 3.0,
        DesignedCount(c), EmergentCount(c), ratio.value, |BiasTypesAddressed(c)|))
  }

  /** One more mechanism with the level's direction extends the level ... */
  lemma LevelIn(c: seq<Mechanism>, i: nat, d: Direction)
    requires i < |c| && c[i].direction == d
    ensures AtLevel(c[..i + 1], d) == AtLevel(c[..i], d) + [c[i]]
  {
    assert c[..i + 1][..i] == c[..i];
  }

  /** ... and one with another direction leaves it as it was. */
  lemma LevelOut(c: seq<Mechanism>, i: nat, d: Direction)
    requires i < |c| && c[i].direction != d
    ensures AtLevel(c[..i + 1], d) == AtLevel(c[..i], d)
  {
    assert c[..i + 1][..i] == c[..i];
  }

  /** One more mechanism adds to exactly one of the two counts. */
  lemma CountStep(c: seq<Mechanism>, i: nat)
    requires i < |c|
    ensures EmergentCount(c[..i + 1]) == EmergentCount(c[..i]) + (if c[i].emergent then 1 else 0)
    ensures DesignedCount(c[..i + 1]) == DesignedCount(c[..i]) + (if c[i].emergent then 0 else 1)
  {
    assert c[..i + 1][..i] == c[..i];
  }

  /** The catalogue's directions and emergent flags, position by position. */
  predicate HasCatalogueLayout(c: seq<Mechanism>)
  {
    |c| == 10 &&
    c[0].direction == AgentLevel && !c[0].emergent &&
    c[1].direction == SystemicLevel && c[1].emergent &&
    c[2].direction == AgentLevel && !c[2].emergent &&
    c[3].direction == SystemicLevel && !c[3].emergent &&
    c[4].direction == AgentLevel && !c[4].emergent &&
    c[5].direction == HumanLevel && c[5].emergent &&
    c[6].direction == HumanLevel && c[6].emergent &&
    c[7].direction == HumanLevel && c[7].emergent &&
    c[8].direction == SystemicLevel && c[8].emergent &&
    c[9].direction == SystemicLevel && c[9].emergent
  }

  lemma CatalogueLayout()
    ensures HasCatalogueLayout(Catalogue)
  {
  }

  lemma AgentLevelOfLayout(c: seq<Mechanism>)
    requires HasCatalogueLayout(c)
    ensures AtLevel(c, AgentLevel) == [c[0], c[2], c[4]]
  {
    var d := AgentLevel;
    assert c[..0] == [];
    LevelIn(c, 0, d);
    assert AtLevel(c[..1], d) == [c[0]];
    LevelOut(c, 1, d);
    assert AtLevel(c[..2], d) == [c[0]];
    LevelIn(c, 2, d);
    assert AtLevel(c[..3], d) == [c[0], c[2]];
    LevelOut(c, 3, d);
    assert AtLevel(c[..4], d) == [c[0], c[2]];
    LevelIn(c, 4, d);
    assert AtLevel(c[..5], d) == [c[0], c[2], c[4]];
    LevelOut(c, 5, d);
    assert AtLevel(c[..6], d) == [c[0], c[2], c[4]];
    LevelOut(c, 6, d);
    assert AtLevel(c[..7], d) == [c[0], c[2], c[4]];
    LevelOut(c, 7, d);
    assert AtLevel(c[..8], d) == [c[0], c[2], c[4]];
    LevelOut(c, 8, d);
    assert AtLevel(c[..9], d) == [c[0], c[2], c[4]];
    LevelOut(c, 9, d);
    assert AtLevel(c[..10], d) == [c[0], c[2], c[4]];
    assert c[..10] == c;
  }

  lemma HumanLevelOfLayout(c: seq<Mechanism>)
    requires HasCatalogueLayout(c)
    ensures AtLevel(c, HumanLevel) == [c[5], c[6], c[7]]
  {
    var d := HumanLevel;
    assert c[..0] == [];
    LevelOut(c, 0, d);
    assert AtLevel(c[..1], d) == [];
    LevelOut(c, 1, d);
    assert AtLevel(c[..2], d) == [];
    LevelOut(c, 2, d);
    assert AtLevel(c[..3], d) == [];
    LevelOut(c, 3, d);
    assert AtLevel(c[..4], d) == [];
    LevelOut(c, 4, d);
    assert AtLevel(c[..5], d) == [];
    LevelIn(c, 5, d);
    assert AtLevel(c[..6], d) == [c[5]];
    LevelIn(c, 6, d);
    assert AtLevel(c[..7], d) == [c[5], c[6]];
    LevelIn(c, 7, d);
    assert AtLevel(c[..8], d) == [c[5], c[6], c[7]];
    LevelOut(c, 8, d);
    assert AtLevel(c[..9], d) == [c[5], c[6], c[7]];
    LevelOut(c, 9, d);
    assert AtLevel(c[..10], d) == [c[5], c[6], c[7]];
    assert c[..10] == c;
  }

  lemma SystemicLevelOfLayout(c: seq<Mechanism>)
    requires HasCatalogueLayout(c)
    ensures AtLevel(c, SystemicLevel) == [c[1], c[3], c[8], c[9]]
  {
    var d := SystemicLevel;
    assert c[..0] == [];
    LevelOut(c, 0, d);
    assert AtLevel(c[..1], d) == [];
    LevelIn(c, 1, d);
    assert AtLevel(c[..2], d) == [c[1]];
    LevelOut(c, 2, d);
    assert AtLevel(c[..3], d) == [c[1]];
    LevelIn(c, 3, d);
    assert AtLevel(c[..4], d) == [c[1], c[3]];
    LevelOut(c, 4, d);
    assert AtLevel(c[..5], d) == [c[1], c[3]];
    LevelOut(c, 5, d);
    assert AtLevel(c[..6], d) == [c[1], c[3]];
    LevelOut(c, 6, d);
    assert AtLevel(c[..7], d) == [c[1], c[3]];
    LevelOut(c, 7, d);
    assert AtLevel(c[..8], d) == [c[1], c[3]];
    LevelIn(c, 8, d);
    assert AtLevel(c[..9], d) == [c[1], c[3], c[8]];
    LevelIn(c, 9, d);
    assert AtLevel(c[..10], d) == [c[1], c[3], c[8], c[9]];
    assert c[..10] == c;
  }

  lemma CountsOfLayout(c: seq<Mechanism>)
    requires HasCatalogueLayout(c)
    ensures EmergentCount(c) == 6 && DesignedCount(c) == 4
  {
    assert c[..0] == [];
    CountStep(c, 0); CountStep(c, 1); CountStep(c, 2); CountStep(c, 3); CountStep(c, 4);
    CountStep(c, 5); CountStep(c, 6); CountStep(c, 7); CountStep(c, 8); CountStep(c, 9);
    assert c[..10] == c;
  }

  lemma MeanOfThree(a: real, b: real, c: real)
    ensures Mean([a, b, c]) == (a + b + c) / 3.0
  {
    assert [a, b, c][..2] == [a, b] && [a, b][..1] == [a] && [a][..0] == [];
    assert Sum([a]) == a;
    assert Sum([a, b]) == a + b;
    assert Sum([a, b, c]) == a + b + c;
  }

  lemma MeanOfFour(a: real, b: real, c: real, d: real)
    ensures Mean([a, b, c, d]) == (a + b + c + d) / 4.0
  {
    MeanOfThree(a, b, c);
    assert [a, b, c, d][..3] == [a, b, c];
    assert Sum([a, b, c, d]) == a + b + c + d;
  }

  lemma CatalogueAgentScore()
    ensures LevelScore(Catalogue, AgentLevel) == Some(0.7)
  {
    CatalogueLayout();
    AgentLevelOfLayout(Catalogue);
    assert Strengths(AtLevel(Catalogue, AgentLevel)) == [0.8, 0.7, 0.6];
    MeanOfThree(0.8, 0.7, 0.6);
  }

  lemma CatalogueHumanScore()
    ensures LevelScore(Catalogue, HumanLevel) == Some(0.6)
  {
    CatalogueLayout();
    HumanLevelOfLayout(Catalogue);
    assert Strengths(AtLevel(Catalogue, HumanLevel)) == [0.7, 0.6, 0.5];
    MeanOfThree(0.7, 0.6, 0.5);
  }

  lemma CatalogueSystemicScore()
    ensures LevelScore(Catalogue, SystemicLevel) == Some(0.85)
  {
    CatalogueLayout();
    SystemicLevelOfLayout(Catalogue);
    assert Strengths(AtLevel(Catalogue, SystemicLevel)) == [0.9, 0.8, 0.9, 0.8];
    MeanOfFour(0.9, 0.8, 0.9, 0.8);
  }

  /** Any bias type that some mechanism lists is addressed. */
  lemma Addressed(c: seq<Mechanism>, k: nat, j: nat)
    requires k < |c| && j < |c[k].biases|
    ensures c[k].biases[j] in BiasTypesAddressed(c)
  {
  }

  /** Every bias type there is belongs to `AllBiasTypes`. */
  lemma EveryBiasType(b: BiasType)
    ensures b in AllBiasTypes
  {
    match b
    case FirstSpeaker =>
    case CulturalAuthority =>
    case ExpertiseStereotyping =>
    case CommunicationStyle =>
    case Recency =>
    case Confirmation =>
    case Availability =>
    case Anchoring =>
  }

  /** Mechanisms that between them list every bias type address all of them. */
  lemma AllAddressed(c: seq<Mechanism>)
    requires exists k, j :: 0 <= k < |c| && 0 <= j < |c[k].biases| && c[k].biases[j] == FirstSpeaker
    requires exists k, j :: 0 <= k < |c| && 0 <= j < |c[k].biases| && c[k].biases[j] == CulturalAuthority
    requires exists k, j :: 0 <= k < |c| && 0 <= j < |c[k].biases| && c[k].biases[j] == ExpertiseStereotyping
    requires exists k, j :: 0 <= k < |c| && 0 <= j < |c[k].biases| && c[k].biases[j] == CommunicationStyle
    requires exists k, j :: 0 <= k < |c| && 0 <= j < |c[k].biases| && c[k].biases[j] == Recency
    requires exists k, j :: 0 <= k < |c| && 0 <= j < |c[k].biases| && c[k].biases[j] == Confirmation
    requires exists k, j :: 0 <= k < |c| && 0 <= j < |c[k].biases| && c[k].biases[j] == Availability
    requires exists k, j :: 0 <= k < |c| && 0 <= j < |c[k].biases| && c[k].biases[j] == Anchoring
    ensures BiasTypesAddressed(c) == AllBiasTypes
  {
    forall b | b in BiasTypesAddressed(c)
      ensures b in AllBiasTypes
    {
      EveryBiasType(b);
    }
    forall b | b in AllBiasTypes
      ensures b in BiasTypesAddressed(c)
    {
      var k, j :| 0 <= k < |c| && 0 <= j < |c[k].biases| && c[k].biases[j] == b;
      Addressed(c, k, j);
    }
  }

  /** The catalogue addresses all eight bias types. */
  lemma CatalogueBiasTypes()
    ensures BiasTypesAddressed(Catalogue) == AllBiasTypes
  {
    var c := Catalogue;
    assert c[0].biases[0] == FirstSpeaker && c[1].biases[0] == CulturalAuthority;
    assert c[0].biases[1] == ExpertiseStereotyping && c[6].biases[0] == CommunicationStyle;
    assert c[2].biases[0] == Recency && c[2].biases[2] == Confirmation;
    assert c[0].biases[2] == Availability && c[4].biases[1] == Anchoring;
    AllAddressed(c);
  }

  /** Six of the ten catalogued mechanisms are emergent. */
  lemma CatalogueRatio()
    ensures EmergenceRatio(Catalogue) == Some(0.6)
  {
    var c := Catalogue;
    CatalogueLayout();
    CountsOfLayout(c);
    var e, n := EmergentCount(c) as real, (EmergentCount(c) + DesignedCount(c)) as real;
    assert e == 6.0 && n == 10.0;
    assert e / n == 0.6;
  }

  /**
   * The catalogue's report: agent level 0.7, human level 0.6, systemic level 0.85; four
   * designed and six emergent mechanisms, and all eight bias types addressed.
   */
  lemma CatalogueReport()
    ensures OverallBiasResistance(Catalogue).Some?
    ensures var r := OverallBiasResistance(Catalogue).value;
      r.agentLevel == 0.7 && r.humanLevel == 0.6 && r.systemicLevel == 0.85 &&
      r.overall == (0.7 + 0.6 + 0.85) / 3.0 &&
      r.designed == 4 && r.emergent == 6 && r.emergenceRatio == 0.6 && r.biasTypes == 8
  {
    CatalogueAgentScore();
    CatalogueHumanScore();
    CatalogueSystemicScore();
    CatalogueLayout();
    CountsOfLayout(Catalogue);
    CatalogueRatio();
    CatalogueBiasTypes();
    AllBiasTypesSize();
  }

  // ---------------------------------------------------------------------------------
  // The validator

  /**
   * `_calculate_overall_resistance`: the mean of the scenarios' resistance scores, which
   * raises `ZeroDivisionError` when there are no results.
   */
  function OverallResistance(scores: seq<real>): (r: Option<real>)
    ensures r.None? <==> scores == []
  {
    if scores == [] then None else Some(Mean(scores))
  }

  /** The overall resistance lies within any bounds every scenario score respects. */
  lemma OverallResistanceBounds(scores: seq<real>, lo: real, hi: real)
    requires scores != [] && forall k :: 0 <= k < |scores| ==> lo <= scores[k] <= hi
    ensures lo <= OverallResistance(scores).value <= hi
  {
    MeanBounds(scores, lo, hi);
  }

  /** Scenarios that all score the same give that score overall. */
  lemma UniformScenarios(scores: seq<real>, v: real)
    requires scores != [] && forall k :: 0 <= k < |scores| ==> scores[k] == v
    ensures OverallResistance(scores) == Some(v)
  {
    OverallResistanceBounds(scores, v, v);
  }
}
