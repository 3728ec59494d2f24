/**
 * Culturally inclusive emotional intelligence: how `CulturallyInclusiveEmotionalAI` blends a
 * user's and an agent's cultural emotional profiles into a response approach, the counters it
 * keeps for every (user culture, agent culture) pair, and the two scores computed from them.
 */
module EmotionalIntelligence {
  import opened Wrappers
  import opened Numeric
  import opened Strs
  import opened Dicts

  /** `CulturalEmotionalFramework` */
  datatype Framework =
    | WesternIndividualist | EastAsianCollective | AfricanCommunity | LatinRelational
    | IndigenousSpiritual | MiddleEasternHonor | NordicPractical | MediterraneanExpressive

  /** The fields of `CulturalEmotionalProfile` the response approach reads. */
  datatype Profile = Profile(
    framework: Framework, directness: real, individualism: real, expressiveness: real,
    supportPattern: string, metaphors: seq<string>, healing: seq<string>)

  /** `_build_cultural_emotional_profiles`: six of the eight frameworks have a profile. */
  function Catalogue(f: Framework): Option<Profile>
  {
    match f
    case WesternIndividualist => Some(Profile(f, 0.8, 0.8, 0.6, SupportPattern(f),
      ["journey", "growth", "breakthrough", "processing"],
      ["therapy", "self_reflection", "goal_setting", "boundary_setting"]))
    case EastAsianCollective => Some(Profile(f, 0.2, 0.2, 0.3, SupportPattern(f),
      ["balance", "harmony", "flow", "seasons", "patience"],
      ["time", "meditation", "family_support", "ritual", "acceptance"]))
    case AfricanCommunity => Some(Profile(f, 0.6, 0.1, 0.7, SupportPattern(f),
      ["ubuntu", "ancestors", "village", "stories", "roots"],
      ["community_support", "storytelling", "ritual", "ancestral_wisdom"]))
    case LatinRelational => Some(Profile(f, 0.7, 0.3, 0.9, SupportPattern(f),
      ["familia", "corazón", "passion", "celebration", "connection"],
      ["family_support", "expression", "celebration", "relationship_repair"]))
    case IndigenousSpiritual => Some(Profile(f, 0.4, 0.1, 0.5, SupportPattern(f),
      ["medicine_wheel", "seven_generations", "sacred_circle", "mother_earth"],
      ["ceremony", "nature_connection", "community_healing", "spiritual_guidance"]))
    case NordicPractical => Some(Profile(f, 0.9, 0.6, 0.2, SupportPattern(f),
      ["weather", "seasons", "engineering", "sustainability", "function"],
      ["practical_solutions", "time_in_nature", "physical_activity", "problem_solving"]))
    case _ => None
  }

  /** The `support_seeking_pattern` of each catalogued framework. */
  function SupportPattern(f: Framework): string
  {
    match f
    case WesternIndividualist => "professional_individual"
    case EastAsianCollective => "family_community_indirect"
    case AfricanCommunity => "community_storytelling"
    case LatinRelational => "family_extended_network"
    case IndigenousSpiritual => "community_ceremony_nature"
    case NordicPractical => "professional_practical"
    case _ => ""
  }

  /** Every catalogued profile is filed under its own framework with levels in [0, 1]. */
  predicate InUnitRange(p: Profile)
  {
    0.0 <= p.directness <= 1.0 && 0.0 <= p.individualism <= 1.0 && 0.0 <= p.expressiveness <= 1.0
  }

  lemma CatalogueWellFormed(f: Framework)
    ensures Catalogue(f).Some? <==> f != MiddleEasternHonor && f != MediterraneanExpressive
    ensures Catalogue(f).Some? ==> Catalogue(f).value.framework == f && InUnitRange(Catalogue(f).value)
  {
  }

  // ---------------------------------------------------------------------------------
  // The response approach

  /** `_calculate_directness_adaptation`: 70% the user's comfort, 30% the agent's authenticity. */
  function Directness(u: Profile, a: Profile): (r: real)
    ensures Min(u.directness, a.directness) <= r <= Max(u.directness, a.directness)
    ensures u.directness == a.directness ==> r == u.directness
  {
    u.directness * 0.7 + a.directness * 0.3
  }

  /** `_calculate_appropriate_expression_level`: the mean expressiveness scaled by intensity, capped at 1. */
  function ExpressionLevel(u: Profile, a: Profile, intensity: real): (r: real)
    ensures r <= 1.0
  {
    Min(1.0, (u.expressiveness + a.expressiveness) / 2.0 * (0.5 + intensity * 0.5))
  }

  /**
   * For levels and intensity in [0, 1] the expression level is non-negative, never exceeds the
   * two profiles' mean expressiveness, and reaches it at full intensity.
   */
  lemma ExpressionWithinMean(u: Profile, a: Profile, intensity: real)
    requires InUnitRange(u) && InUnitRange(a) && 0.0 <= intensity <= 1.0
    ensures var mean := (u.expressiveness + a.expressiveness) / 2.0;
      0.0 <= ExpressionLevel(u, a, intensity) <= mean &&
      (intensity == 1.0 ==> ExpressionLevel(u, a, intensity) == mean)
  {
    var mean := (u.expressiveness + a.expressiveness) / 2.0;
    var factor := 0.5 + intensity * 0.5;
    assert 0.5 <= factor <= 1.0 && 0.0 <= mean;
    assert mean - mean * factor == mean * (1.0 - factor);
    NonNegativeProduct(mean, 1.0 - factor);
    NonNegativeProduct(mean, factor);
  }

  lemma NonNegativeProduct(x: real, y: real)
    requires 0.0 <= x && 0.0 <= y
    ensures 0.0 <= x * y
  {
  }

  const DefaultSupport := "culturally_adapted_support"

  /** `support_mapping`, keyed by the first `_`-separated words of the user's and agent's patterns. */
  const SupportMapping: Dict<(string, string), string> := [
    (("individual", "community"), "individual_with_community_wisdom"),
    (("family", "professional"), "family_informed_professional_guidance"),
    (("community", "individual"), "community_perspective_for_individual"),
    (("professional", "family"), "professional_with_relational_warmth")]

  function SupportKey(u: Profile, a: Profile): (string, string)
  {
    (FirstSegment(u.supportPattern), FirstSegment(a.supportPattern))
  }

  /** `_determine_support_approach` */
  function SupportApproach(u: Profile, a: Profile): (r: string)
    ensures HasKey(SupportMapping, SupportKey(u, a)) ==> r == Get(SupportMapping, SupportKey(u, a)).value
    ensures !HasKey(SupportMapping, SupportKey(u, a)) <==> r == DefaultSupport
  {
    var r := GetOr(SupportMapping, SupportKey(u, a), DefaultSupport);
    assert HasKey(SupportMapping, SupportKey(u, a)) ==> r != DefaultSupport by {
      if HasKey(SupportMapping, SupportKey(u, a)) {
        var i := IndexOf(SupportMapping, SupportKey(u, a)).value;
        assert r == SupportMapping[i].1;
      }
    }
    r
  }

  /**
   * No catalogued support pattern begins with `individual`, so between catalogued cultures only
   * two of the four mapped approaches can ever be chosen.
   */
  lemma CatalogueSupport(fu: Framework, fa: Framework)
    requires Catalogue(fu).Some? && Catalogue(fa).Some?
    ensures SupportApproach(Catalogue(fu).value, Catalogue(fa).value) in
      {"family_informed_professional_guidance", "professional_with_relational_warmth", DefaultSupport}
  {
    SupportHead(fu);
    SupportHead(fa);
    SupportWithoutIndividual(Catalogue(fu).value, Catalogue(fa).value);
  }

  /** Without an `individual` pattern on either side only the family and professional entries can match. */
  lemma SupportWithoutIndividual(u: Profile, a: Profile)
    requires SupportKey(u, a).0 != "individual" && SupportKey(u, a).1 != "individual"
    ensures SupportApproach(u, a) in
      {"family_informed_professional_guidance", "professional_with_relational_warmth", DefaultSupport}
  {
    var key := SupportKey(u, a);
    if HasKey(SupportMapping, key) {
      var i := IndexOf(SupportMapping, key).value;
      assert SupportMapping[i].0 == key;
      assert SupportMapping[0].0.0 == "individual" && SupportMapping[2].0.1 == "individual";
      assert i == 1 || i == 3;
    }
  }

  /** No catalogued support pattern begins with the word `individual`: none even begins with `i`. */
  lemma SupportHead(f: Framework)
    ensures FirstSegment(SupportPattern(f)) != "individual"
  {
    var s := SupportPattern(f);
    assert s == [] || s[0] in "fcp" by {
      match f
      case WesternIndividualist =>
      case EastAsianCollective =>
      case AfricanCommunity =>
      case LatinRelational =>
      case IndigenousSpiritual =>
      case NordicPractical =>
      case _ =>
    }
    NotIndividual(s);
  }

  /** A pattern that does not begin with `i` does not begin with the word `individual`. */
  lemma NotIndividual(s: string)
    requires s == [] || s[0] in "fcp"
    ensures FirstSegment(s) != "individual"
  {
  }

  /** The entries of `s` in order of first occurrence (a list with no repeats). */
  function Distinct(s: seq<string>): (r: seq<string>)
    ensures forall x :: x in r <==> x in s
    ensures forall i, j :: 0 <= i < j < |r| ==> r[i] != r[j]
  {
    if s == [] then []
    else
      var rest := Distinct(s[..|s| - 1]);
      if s[|s| - 1] in rest then rest else rest + [s[|s| - 1]]
  }

  /** The entries of `a` that also occur in `b`, in `a`'s order without repeats. */
  function Common(a: seq<string>, b: seq<string>): (r: seq<string>)
    ensures forall x :: x in r <==> x in a && x in b
    ensures forall i, j :: 0 <= i < j < |r| ==> r[i] != r[j]
    ensures r == [] <==> forall x :: x in a ==> x !in b
  {
    if a == [] then []
    else
      var rest := Common(a[..|a| - 1], b);
      var x := a[|a| - 1];
      if x in b && x !in rest then rest + [x] else rest
  }

  /**
   * `_select_appropriate_metaphors`: two shared metaphors, or, when the cultures share none, two
   * of the agent's own; fewer only when fewer distinct ones are available. Python takes them from a set, whose order the model
   * replaces by the agent's list order.
   */
  function SelectMetaphors(u: Profile, a: Profile): (r: seq<string>)
    ensures |r| <= 2
    ensures forall i, j :: 0 <= i < j < |r| ==> r[i] != r[j]
    ensures forall x :: x in r ==> x in a.metaphors
    ensures (exists x :: x in a.metaphors && x in u.metaphors) ==> forall x :: x in r ==> x in u.metaphors
    ensures r == [] <==> a.metaphors == []
    ensures var pool := if Common(a.metaphors, u.metaphors) != [] then Common(a.metaphors, u.metaphors)
                        else Distinct(a.metaphors);
      |r| == (if |pool| < 2 then |pool| else 2)
  {
    var shared := Common(a.metaphors, u.metaphors);
    var pool := if shared == [] then Distinct(a.metaphors) else shared;
    assert a.metaphors != [] ==> pool != [] by {
      if a.metaphors != [] && shared == [] {
        assert a.metaphors[0] in Distinct(a.metaphors);
      }
    }
    if |pool| <= 2 then pool else pool[..2]
  }

  const SharedPrefix := "shared_healing_"
  const IndividualInCommunity := "individual_within_community_context"
  const CommunityForIndividual := "community_supporting_individual_growth"

  /** The complementary-strength item, if the individualism levels fall on opposite sides of 0.5. */
  function Complement(u: Profile, a: Profile): (r: seq<string>)
    ensures |r| <= 1
    ensures r == [] <==> (u.individualism >= 0.5 || a.individualism <= 0.5) && (u.individualism <= 0.5 || a.individualism >= 0.5)
  {
    if u.individualism < 0.5 && a.individualism > 0.5 then [IndividualInCommunity]
    else if u.individualism > 0.5 && a.individualism < 0.5 then [CommunityForIndividual]
    else []
  }

  /**
   * `_identify_cultural_bridge_elements`: one `shared_healing_` item per healing approach both
   * cultures use (in the user's order), then at most one complementary item.
   */
  function BridgeElements(u: Profile, a: Profile): (r: seq<string>)
    ensures var shared := Common(u.healing, a.healing);
      |r| == |shared| + |Complement(u, a)| &&
      (forall k :: 0 <= k < |shared| ==> r[k] == SharedPrefix + shared[k]) &&
      r[|shared|..] == Complement(u, a)
    ensures r == [] <==> (forall x :: x in u.healing ==> x !in a.healing) && Complement(u, a) == []
  {
    var shared := Common(u.healing, a.healing);
    seq(|shared|, k requires 0 <= k < |shared| => SharedPrefix + shared[k]) + Complement(u, a)
  }

  const AdaptedDirectness := "culturally_adapted_directness"
  const BridgeBuilding := "cultural_bridge_building"

  function Abs(x: real): real
  {
    if x < 0.0 then -x else x
  }

  /** `_identify_adaptive_elements` */
  function AdaptiveElements(directness: real, bridge: seq<string>): (r: seq<string>)
    ensures |r| <= 2
    ensures AdaptedDirectness in r <==> Abs(directness - 0.5) < 0.3
    ensures BridgeBuilding in r <==> bridge != []
  {
    (if Abs(directness - 0.5) < 0.3 then [AdaptedDirectness] else []) + (if bridge != [] then [BridgeBuilding] else [])
  }

  /** The fields of the response dictionary of `_generate_cultural_emotional_response`. */
  datatype Response = Response(
    tone: real, directness: real, support: string, metaphors: seq<string>, bridge: seq<string>,
    authenticity: Framework, adaptive: seq<string>)

  /** `_determine_emotional_response_approach` followed by `_generate_cultural_emotional_response`. */
  function Respond(u: Profile, a: Profile, intensity: real): (r: Response)
    ensures r.bridge != [] ==> r.adaptive != []
    ensures r.authenticity == a.framework
  {
    var d := Directness(u, a);
    var bridge := BridgeElements(u, a);
    var adaptive := AdaptiveElements(d, bridge);
    assert bridge != [] ==> BridgeBuilding in adaptive;
    Response(ExpressionLevel(u, a, intensity), d, SupportApproach(u, a), SelectMetaphors(u, a), bridge,
      a.framework, adaptive)
  }

  // ---------------------------------------------------------------------------------
  // Cross-cultural learning counters

  /** The four counters kept for one (user culture, agent culture) pair. */
  datatype Learning = Learning(adaptations: nat, bridgeMoments: nat, growth: nat, mutualLearning: nat)

  const NoLearning := Learning(0, 0, 0, 0)

  /** One tracked response: adaptations rise iff it has adaptive elements, bridge moments iff it has bridge elements. */
  function Tracked(l: Learning, r: Response): (l': Learning)
    ensures l'.adaptations == l.adaptations + (if r.adaptive != [] then 1 else 0)
    ensures l'.bridgeMoments == l.bridgeMoments + (if r.bridge != [] then 1 else 0)
    ensures l'.growth == l.growth && l'.mutualLearning == l.mutualLearning
  {
    l.(adaptations := l.adaptations + (if r.adaptive != [] then 1 else 0),
       bridgeMoments := l.bridgeMoments + (if r.bridge != [] then 1 else 0))
  }

  /** The pairs' counters, in first-seen order. */
  type LearningTable = Dict<(Framework, Framework), Learning>

  /** Every pair's growth and mutual-learning counters are still zero. */
  predicate UntouchedCounters(t: LearningTable)
  {
    forall k :: 0 <= k < |t| ==> t[k].1.growth == 0 && t[k].1.mutualLearning == 0
  }

  /** Every bridge moment of a pair came with an adaptation. */
  predicate BridgesAdapted(t: LearningTable)
  {
    forall k :: 0 <= k < |t| ==> t[k].1.bridgeMoments <= t[k].1.adaptations
  }

  /** `CulturallyInclusiveEmotionalAI`, reduced to the counters it updates. */
  class EmotionalAI {
    var learning: LearningTable

    predicate Valid()
      reads this
    {
      UniqueKeys(learning) && UntouchedCounters(learning)
    }

    constructor ()
      ensures Valid() && learning == []
    {
      learning := [];
    }

    /**
     * `_track_cross_cultural_emotional_interaction`: the pair's counters are created at zero on
     * first sight and then moved by the response.
     */
    method TrackInteraction(user: Framework, agent: Framework, r: Response)
      requires Valid()
      modifies this
      ensures Valid()
      ensures learning == Put(old(learning), (user, agent), Tracked(GetOr(old(learning), (user, agent), NoLearning), r))
      ensures BridgesAdapted(old(learning)) && (r.bridge != [] ==> r.adaptive != []) ==> BridgesAdapted(learning)
    {
      var key := (user, agent);
      var l := GetOr(learning, key, NoLearning);
      var l' := Tracked(l, r);
      assert l.growth == 0 && l.mutualLearning == 0 && (BridgesAdapted(learning) ==> l.bridgeMoments <= l.adaptations) by {
        if HasKey(learning, key) {
          var i := IndexOf(learning, key).value;
          assert l == learning[i].1;
        }
      }
      PutUnique(learning, key, l');
      learning := Put(learning, key, l');
    }

    /**
     * `provide_culturally_appropriate_emotional_response`: both cultures must have a profile
     * (otherwise the lookup raises `KeyError` and nothing is tracked); the response is built
     * from the two profiles and tracked under the pair.
     */
    method ProvideResponse(user: Framework, agent: Framework, intensity: real) returns (r: Result<Response, string>)
      requires Valid()
      modifies this
      ensures Valid()
      ensures Catalogue(user).None? || Catalogue(agent).None? ==> r.Err? && learning == old(learning)
      ensures Catalogue(user).Some? && Catalogue(agent).Some? ==>
        var resp := Respond(Catalogue(user).value, Catalogue(agent).value, intensity);
        r == Ok(resp) &&
        learning == Put(old(learning), (user, agent), Tracked(GetOr(old(learning), (user, agent), NoLearning), resp))
      ensures BridgesAdapted(old(learning)) ==> BridgesAdapted(learning)
    {
      if Catalogue(user).None? || Catalogue(agent).None? {
        return Err("KeyError");
      }
      var resp := Respond(Catalogue(user).value, Catalogue(agent).value, intensity);
      TrackInteraction(user, agent, resp);
      r := Ok(resp);
    }
  }

  // ---------------------------------------------------------------------------------
  // Scores over the counters

  function TotalAdaptations(t: LearningTable): nat
  {
    if t == [] then 0 else TotalAdaptations(t[..|t| - 1]) + t[|t| - 1].1.adaptations
  }

  /** `_calculate_emotional_bias_reduction`: the mean adaptations per pair over ten, capped at 1. */
  function EmotionalBiasReduction(t: LearningTable): (r: real)
    ensures 0.0 <= r <= 1.0
    ensures t == [] ==> r == 0.0
    ensures r == 0.0 <==> TotalAdaptations(t) == 0
    ensures t != [] && TotalAdaptations(t) >= 10 * |t| ==> r == 1.0
  {
    if t == [] then 0.0
    else
      var mean := (TotalAdaptations(t) as real) / (|t| as real);
      assert TotalAdaptations(t) >= 10 * |t| ==> mean >= 10.0 by {
        if TotalAdaptations(t) >= 10 * |t| {
          assert (TotalAdaptations(t) as real) >= 10.0 * (|t| as real);
        }
      }
      Min(1.0, mean / 10.0)
  }

  /** The share of a pair's recorded events that were bridge moments. */
  function IntegrationScore(l: Learning): real
    requires l.adaptations + l.bridgeMoments > 0
  {
    (l.bridgeMoments as real) / ((l.adaptations + l.bridgeMoments) as real)
  }

  /** The scores of the pairs with at least one recorded event, in table order. */
  function IntegrationScores(t: LearningTable): seq<real>
  {
    if t == [] then []
    else
      var l := t[|t| - 1].1;
      IntegrationScores(t[..|t| - 1]) + (if l.adaptations + l.bridgeMoments > 0 then [IntegrationScore(l)] else [])
  }

  /** `_calculate_wisdom_integration`: the mean score, or 0 when there is none. */
  function WisdomIntegration(t: LearningTable): real
  {
    var s := IntegrationScores(t);
    if s == [] then 0.0 else Mean(s)
  }

  /** The loop of `_calculate_wisdom_integration`, collecting the scores in table order. */
  method CalculateWisdomIntegration(t: LearningTable) returns (r: real)
    ensures r == WisdomIntegration(t)
  {
    var scores: seq<real> := [];
    var k := 0;
    while k < |t|
      invariant k <= |t|
      invariant scores == IntegrationScores(t[..k])
    {
      var l := t[k].1;
      if l.adaptations + l.bridgeMoments > 0 {
        scores := scores + [IntegrationScore(l)];
      }
      assert t[..k + 1][..k] == t[..k];
      k := k + 1;
    }
    assert t[..k] == t;
    r := if scores == [] then 0.0 else Mean(scores);
  }

  lemma ScoreBound(l: Learning)
    requires l.adaptations + l.bridgeMoments > 0
    ensures 0.0 <= IntegrationScore(l) <= 1.0
    ensures l.bridgeMoments <= l.adaptations ==> IntegrationScore(l) <= 0.5
  {
    var b, n := l.bridgeMoments as real, (l.adaptations + l.bridgeMoments) as real;
    assert b <= n;
    assert 0.0 < n;
    DivideAtMost(b, n, 1.0);
    if l.bridgeMoments <= l.adaptations {
      DivideAtMost(b, n, 0.5);
    }
  }

  lemma DivideAtMost(b: real, n: real, c: real)
    requires 0.0 <= b && 0.0 < n && b <= c * n
    ensures 0.0 <= b / n <= c
  {
    var q := b / n;
    assert q * n == b;
    if q > c {
      assert q * n > c * n;
    }
  }

  lemma {:induction false} ScoresBounded(t: LearningTable, hi: real)
    requires hi == 1.0 || (hi == 0.5 && BridgesAdapted(t))
    ensures forall k :: 0 <= k < |IntegrationScores(t)| ==> 0.0 <= IntegrationScores(t)[k] <= hi
  {
    if t != [] {
      ScoresBounded(t[..|t| - 1], hi);
      var l := t[|t| - 1].1;
      if l.adaptations + l.bridgeMoments > 0 {
        ScoreBound(l);
      }
    }
  }

  /**
   * Wisdom integration lies in [0, 1]; when every bridge moment came with an adaptation, as
   * with responses built by `Respond`, it never exceeds 0.5.
   */
  lemma WisdomIntegrationBounds(t: LearningTable)
    ensures 0.0 <= WisdomIntegration(t) <= 1.0
    ensures BridgesAdapted(t) ==> WisdomIntegration(t) <= 0.5
  {
    ScoresBounded(t, 1.0);
    if IntegrationScores(t) != [] {
      MeanBounds(IntegrationScores(t), 0.0, 1.0);
      if BridgesAdapted(t) {
        ScoresBounded(t, 0.5);
        MeanBounds(IntegrationScores(t), 0.0, 0.5);
      }
    }
  }
}
