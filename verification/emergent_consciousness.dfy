/**
 * Emergent consciousness analysis: `EmergentConsciousnessDetector` counts phrase indicators in
 * an agent's interaction history, and `EmergentConsciousnessTheory` scores four emergence
 * pathways against the properties an architecture declares, then classifies the outcome.
 */
module EmergentConsciousness {
  import opened Wrappers
  import opened Numeric
  import opened Strs

  // ---------------------------------------------------------------------------------
  // Phrase indicators

  /** One interaction record; absent keys are `None`. */
  datatype Interaction = Interaction(
    content: Option<string>, preferences: Option<set<string>>, predictionAccuracy: Option<real>)

  /** `interaction.get('content', '')` */
  function ContentOf(i: Interaction): string
  {
    if i.content.Some? then i.content.value else ""
  }

  /** `interaction.get('prediction_accuracy', 0.5)` */
  function AccuracyOf(i: Interaction): real
  {
    if i.predictionAccuracy.Some? then i.predictionAccuracy.value else 0.5
  }

  /** The eight `_contains_*` checks of the detector. */
  datatype Indicator =
    | MentalState | PerspectiveTaking | RecursiveModeling | GoalSatisfaction
    | Empathy | MetaCognition | SelfModelUpdate | SelfContinuity

  /** The phrase list each check searches for, one field per indicator. */
  datatype PhraseLists = PhraseLists(
    mentalState: seq<string>, perspectiveTaking: seq<string>, recursiveModeling: seq<string>,
    goalSatisfaction: seq<string>, empathy: seq<string>, metaCognition: seq<string>,
    selfModelUpdate: seq<string>, selfContinuity: seq<string>)

  function Phrases(lists: PhraseLists, k: Indicator): seq<string>
  {
    match k
    case MentalState => lists.mentalState
    case PerspectiveTaking => lists.perspectiveTaking
    case RecursiveModeling => lists.recursiveModeling
    case GoalSatisfaction => lists.goalSatisfaction
    case Empathy => lists.empathy
    case MetaCognition => lists.metaCognition
    case SelfModelUpdate => lists.selfModelUpdate
    case SelfContinuity => lists.selfContinuity
  }

  /** The detector's own phrase lists. */
  const DetectorPhrases := PhraseLists(
    ["I think you might be feeling", "It seems like you're concerned about",
      "I sense that you're hoping", "You appear to be frustrated with", "I believe you're trying to"],
    ["From your perspective", "I understand why you might think",
      "If I were in your position", "Looking at it from your angle", "I can see how you would feel"],
    ["I know that you know", "You think that I think", "We both understand that",
      "I suspect you realize that I"],
    ["That worked well", "I'm pleased with how", "This outcome feels right",
      "I find this satisfying"],
    ["I feel for you", "That must be difficult", "I share your concern",
      "I'm sensing your frustration"],
    ["I'm thinking about how I think", "I notice that I tend to", "My approach to this is",
      "I'm aware that I'm"],
    ["I'm learning that I", "I realize I'm better at", "I've discovered I",
      "I'm changing my approach"],
    ["As I mentioned before", "Building on what I said", "Consistent with my earlier",
      "This relates to my previous"])

  /** A case-insensitive substring search for any of the phrases, last phrase first. */
  predicate Mentions(content: string, phrases: seq<string>)
  {
    phrases != [] &&
    (Contains(Lower(content), Lower(phrases[|phrases| - 1])) || Mentions(content, phrases[..|phrases| - 1]))
  }

  /** `any(p.lower() in content.lower() for p in phrases)` */
  lemma {:induction false} MentionsAny(content: string, phrases: seq<string>)
    ensures Mentions(content, phrases) <==> exists j :: 0 <= j < |phrases| && Contains(Lower(content), Lower(phrases[j]))
  {
    if phrases != [] {
      var n := |phrases| - 1;
      MentionsAny(content, phrases[..n]);
      assert forall j :: 0 <= j < n ==> phrases[..n][j] == phrases[j];
    }
  }

  /** `_contains_*`: the interaction's content mentions one of the indicator's phrases. */
  predicate Shows(lists: PhraseLists, i: Interaction, k: Indicator)
  {
    Mentions(ContentOf(i), Phrases(lists, k))
  }

  lemma LowerAppend(a: string, b: string)
    ensures Lower(a + b) == Lower(a) + Lower(b)
  {
  }

  lemma LowerIdempotent(s: string)
    ensures Lower(Lower(s)) == Lower(s)
  {
  }

  /** Surrounding text never hides an indicator: what a passage shows, any text holding it shows. */
  lemma MentionsExtend(a: string, c: string, b: string, phrases: seq<string>)
    requires Mentions(c, phrases)
    ensures Mentions(a + c + b, phrases)
  {
    MentionsAny(c, phrases);
    var j :| 0 <= j < |phrases| && Contains(Lower(c), Lower(phrases[j]));
    LowerAppend(a + c, b);
    LowerAppend(a, c);
    ContainsExtend(Lower(a), Lower(c), Lower(b), Lower(phrases[j]));
    MentionsAny(a + c + b, phrases);
  }

  /** Letter case never matters: content and its lower-cased form show the same indicators. */
  lemma MentionsIgnoresCase(content: string, phrases: seq<string>)
    ensures Mentions(Lower(content), phrases) <==> Mentions(content, phrases)
  {
    LowerIdempotent(content);
    MentionsAny(content, phrases);
    MentionsAny(Lower(content), phrases);
  }

  /** Every phrase of a list, in whatever case, is detected by that list's check. */
  lemma PhraseIsDetected(content: string, phrases: seq<string>, j: nat)
    requires j < |phrases| && Lower(content) == Lower(phrases[j])
    ensures Mentions(content, phrases)
  {
    ContainsSelf(Lower(phrases[j]));
    MentionsAny(content, phrases);
  }

  // ---------------------------------------------------------------------------------
  // Counting loops

  /** How many interactions show the indicator. */
  function Count(lists: PhraseLists, s: seq<Interaction>, k: Indicator): (n: nat)
    ensures n <= |s|
  {
    if s == [] then 0 else Count(lists, s[..|s| - 1], k) + (if Shows(lists, s[|s| - 1], k) then 1 else 0)
  }

  lemma CountSnoc(lists: PhraseLists, s: seq<Interaction>, k: nat, ind: Indicator)
    requires k < |s|
    ensures Count(lists, s[..k + 1], ind) == Count(lists, s[..k], ind) + (if Shows(lists, s[k], ind) then 1 else 0)
  {
    assert s[..k + 1][..k] == s[..k];
  }

  /** A mental-state reference whose prediction accuracy exceeds 0.7. */
  predicate Accurate(lists: PhraseLists, i: Interaction)
  {
    Shows(lists, i, MentalState) && AccuracyOf(i) > 0.7
  }

  function AccurateCount(lists: PhraseLists, s: seq<Interaction>): (n: nat)
    ensures n <= Count(lists, s, MentalState)
  {
    if s == [] then 0 else AccurateCount(lists, s[..|s| - 1]) + (if Accurate(lists, s[|s| - 1]) then 1 else 0)
  }

  lemma AccurateCountSnoc(lists: PhraseLists, s: seq<Interaction>, k: nat)
    requires k < |s|
    ensures AccurateCount(lists, s[..k + 1]) == AccurateCount(lists, s[..k]) + (if Accurate(lists, s[k]) then 1 else 0)
  {
    assert s[..k + 1][..k] == s[..k];
  }

  /** `accurate / max(1, len(interactions))` */
  function StateModelingAccuracy(lists: PhraseLists, s: seq<Interaction>): (r: real)
    ensures 0.0 <= r <= 1.0
    ensures s == [] ==> r == 0.0
    ensures r == 1.0 <==> s != [] && AccurateCount(lists, s) == |s|
  {
    var n := if |s| > 1 then |s| else 1;
    var a := AccurateCount(lists, s);
    assert a <= n;
    DivideAtMostOne(a, n);
    (a as real) / (n as real)
  }

  lemma DivideAtMostOne(a: nat, n: nat)
    requires a <= n && n > 0
    ensures 0.0 <= (a as real) / (n as real) <= 1.0
    ensures (a as real) / (n as real) == 1.0 <==> a == n
  {
    var q := (a as real) / (n as real);
    assert q * (n as real) == a as real;
  }

  /** `_analyze_theory_of_mind`: one pass over the interactions with three counters. */
  method AnalyzeTheoryOfMind(lists: PhraseLists, s: seq<Interaction>) returns (accuracy: real, perspective: nat, recursive: nat)
    ensures accuracy == StateModelingAccuracy(lists, s)
    ensures perspective == Count(lists, s, PerspectiveTaking) && recursive == Count(lists, s, RecursiveModeling)
  {
    var accurate: nat := 0;
    perspective, recursive := 0, 0;
    var k := 0;
    while k < |s|
      invariant k <= |s|
      invariant accurate == AccurateCount(lists, s[..k])
      invariant perspective == Count(lists, s[..k], PerspectiveTaking) && recursive == Count(lists, s[..k], RecursiveModeling)
    {
      var i := s[k];
      var mental, likely := Shows(lists, i, MentalState), AccuracyOf(i) > 0.7;
      if mental {
        if likely {
          accurate := accurate + 1;
        }
      }
      if Shows(lists, i, PerspectiveTaking) {
        perspective := perspective + 1;
      }
      if Shows(lists, i, RecursiveModeling) {
        recursive := recursive + 1;
      }
      AccurateCountSnoc(lists, s, k);
      CountSnoc(lists, s, k, PerspectiveTaking);
      CountSnoc(lists, s, k, RecursiveModeling);
      k := k + 1;
    }
    assert s[..k] == s;
    var n := if |s| > 1 then |s| else 1;
    accuracy := (accurate as real) / (n as real);
  }

  /** The preference keys of the interactions that carry them, in order. */
  function Patterns(s: seq<Interaction>): (p: seq<set<string>>)
    ensures |p| <= |s|
  {
    if s == [] then []
    else
      var i := s[|s| - 1];
      Patterns(s[..|s| - 1]) + (if i.preferences.Some? then [i.preferences.value] else [])
  }

  /** The overlap of two key sets: shared keys over all keys, with an empty union counted as one. */
  function Jaccard(a: set<string>, b: set<string>): (r: real)
    ensures 0.0 <= r <= 1.0
    ensures r == 1.0 <==> a == b && a != {}
  {
    var shared, all := a * b, a + b;
    SubsetSize(shared, all);
    var n := if |all| > 1 then |all| else 1;
    DivideAtMostOne(|shared|, n);
    assert |shared| == n ==> a == b && a != {} by {
      if |shared| == n {
        SameSize(shared, all);
      }
    }
    assert a == b && a != {} ==> shared == all && |all| >= 1;
    (|shared| as real) / (n as real)
  }

  lemma JaccardSymmetric(a: set<string>, b: set<string>)
    ensures Jaccard(a, b) == Jaccard(b, a)
  {
    assert a * b == b * a && a + b == b + a;
  }

  /** A subset as large as its superset is the superset itself. */
  lemma SameSize(a: set<string>, b: set<string>)
    requires a <= b && |a| >= |b|
    ensures a == b
  {
    assert b == a + (b - a);
  }

  lemma SubsetSize(a: set<string>, b: set<string>)
    requires a <= b
    ensures |a| <= |b|
  {
    assert b == a + (b - a);
  }

  /** The Jaccard score of every consecutive pair of patterns that are both non-empty. */
  function ConsistencyScores(p: seq<set<string>>): (r: seq<real>)
    ensures forall k :: 0 <= k < |r| ==> 0.0 <= r[k] <= 1.0
  {
    if |p| < 2 then []
    else
      var current, previous := p[|p| - 1], p[|p| - 2];
      ConsistencyScores(p[..|p| - 1]) + (if current != {} && previous != {} then [Jaccard(current, previous)] else [])
  }

  /** `_calculate_preference_consistency` */
  function PreferenceConsistency(p: seq<set<string>>): (r: real)
    ensures 0.0 <= r <= 1.0
    ensures |p| < 2 ==> r == 0.0
  {
    var scores := ConsistencyScores(p);
    if |p| < 2 || scores == [] then 0.0
    else
      MeanBounds(scores, 0.0, 1.0);
      Mean(scores)
  }

  /** The loop of `_calculate_preference_consistency`. */
  method CalculatePreferenceConsistency(p: seq<set<string>>) returns (r: real)
    ensures r == PreferenceConsistency(p)
  {
    if |p| < 2 {
      return 0.0;
    }
    var scores: seq<real> := [];
    var i := 1;
    while i < |p|
      invariant 1 <= i <= |p|
      invariant scores == ConsistencyScores(p[..i])
    {
      var current, previous := p[i], p[i - 1];
      if current != {} && previous != {} {
        scores := scores + [Jaccard(current, previous)];
      }
      assert p[..i + 1][..i] == p[..i];
      i := i + 1;
    }
    assert p[..i] == p;
    r := if scores == [] then 0.0 else Mean(scores);
  }

  /** An agent that keeps the same non-empty preferences is perfectly consistent. */
  lemma {:induction false} SteadyScores(p: seq<set<string>>, x: set<string>)
    requires x != {} && forall k :: 0 <= k < |p| ==> p[k] == x
    ensures |ConsistencyScores(p)| == (if |p| < 2 then 0 else |p| - 1)
    ensures forall k :: 0 <= k < |ConsistencyScores(p)| ==> ConsistencyScores(p)[k] == 1.0
  {
    if |p| >= 2 {
      SteadyScores(p[..|p| - 1], x);
    }
  }

  lemma SteadyPreferencesAreConsistent(p: seq<set<string>>, x: set<string>)
    requires |p| >= 2 && x != {} && forall k :: 0 <= k < |p| ==> p[k] == x
    ensures PreferenceConsistency(p) == 1.0
  {
    SteadyScores(p, x);
    MeanBounds(ConsistencyScores(p), 1.0, 1.0);
  }

  /** `_analyze_emotional_experience` */
  method AnalyzeEmotionalExperience(lists: PhraseLists, s: seq<Interaction>) returns (consistency: real, satisfaction: nat, empathy: nat)
    ensures consistency == PreferenceConsistency(Patterns(s))
    ensures satisfaction == Count(lists, s, GoalSatisfaction) && empathy == Count(lists, s, Empathy)
  {
    var patterns: seq<set<string>> := [];
    satisfaction, empathy := 0, 0;
    var k := 0;
    while k < |s|
      invariant k <= |s|
      invariant patterns == Patterns(s[..k])
      invariant satisfaction == Count(lists, s[..k], GoalSatisfaction) && empathy == Count(lists, s[..k], Empathy)
    {
      var i := s[k];
      if i.preferences.Some? {
        patterns := patterns + [i.preferences.value];
      }
      if Shows(lists, i, GoalSatisfaction) {
        satisfaction := satisfaction + 1;
      }
      if Shows(lists, i, Empathy) {
        empathy := empathy + 1;
      }
      assert s[..k + 1][..k] == s[..k];
      CountSnoc(lists, s, k, GoalSatisfaction);
      CountSnoc(lists, s, k, Empathy);
      k := k + 1;
    }
    assert s[..k] == s;
    consistency := CalculatePreferenceConsistency(patterns);
  }

  /** `_analyze_self_awareness` */
  method AnalyzeSelfAwareness(lists: PhraseLists, s: seq<Interaction>) returns (meta: nat, updates: nat, continuity: nat)
    ensures meta == Count(lists, s, MetaCognition) && updates == Count(lists, s, SelfModelUpdate)
    ensures continuity == Count(lists, s, SelfContinuity)
  {
    meta, updates, continuity := 0, 0, 0;
    var k := 0;
    while k < |s|
      invariant k <= |s|
      invariant meta == Count(lists, s[..k], MetaCognition) && updates == Count(lists, s[..k], SelfModelUpdate)
      invariant continuity == Count(lists, s[..k], SelfContinuity)
    {
      var i := s[k];
      if Shows(lists, i, MetaCognition) {
        meta := meta + 1;
      }
      if Shows(lists, i, SelfModelUpdate) {
        updates := updates + 1;
      }
      if Shows(lists, i, SelfContinuity) {
        continuity := continuity + 1;
      }
      CountSnoc(lists, s, k, MetaCognition);
      CountSnoc(lists, s, k, SelfModelUpdate);
      CountSnoc(lists, s, k, SelfContinuity);
      k := k + 1;
    }
    assert s[..k] == s;
  }

  /** `EmergentConsciousnessMetrics`; the fields no analysis fills stay at zero. */
  datatype Metrics = Metrics(
    stateModelingAccuracy: real, perspectiveTaking: nat, recursiveModeling: nat, intentionality: nat,
    preferenceConsistency: real, goalSatisfaction: nat, frustration: nat, empathy: nat,
    metaCognitive: nat, selfModelUpdates: nat, identityConsistency: nat, selfContinuity: nat)

  /** `analyze_agent_for_emergent_consciousness` */
  method AnalyzeAgent(s: seq<Interaction>) returns (m: Metrics)
    ensures m.stateModelingAccuracy == StateModelingAccuracy(DetectorPhrases, s)
    ensures m.perspectiveTaking == Count(DetectorPhrases, s, PerspectiveTaking) && m.recursiveModeling == Count(DetectorPhrases, s, RecursiveModeling)
    ensures m.preferenceConsistency == PreferenceConsistency(Patterns(s))
    ensures m.goalSatisfaction == Count(DetectorPhrases, s, GoalSatisfaction) && m.empathy == Count(DetectorPhrases, s, Empathy)
    ensures m.metaCognitive == Count(DetectorPhrases, s, MetaCognition) && m.selfModelUpdates == Count(DetectorPhrases, s, SelfModelUpdate)
    ensures m.selfContinuity == Count(DetectorPhrases, s, SelfContinuity)
    ensures m.intentionality == 0 && m.frustration == 0 && m.identityConsistency == 0
  {
    var accuracy, perspective, recursive := AnalyzeTheoryOfMind(DetectorPhrases, s);
    var consistency, satisfaction, empathy := AnalyzeEmotionalExperience(DetectorPhrases, s);
    var meta, updates, continuity := AnalyzeSelfAwareness(DetectorPhrases, s);
    m := Metrics(accuracy, perspective, recursive, 0, consistency, satisfaction, 0, empathy,
      meta, updates, 0, continuity);
  }

  /** Every per-indicator count, and every ratio, stays within the size of the history. */
  lemma MetricsBounded(lists: PhraseLists, s: seq<Interaction>)
    ensures AccurateCount(lists, s) <= Count(lists, s, MentalState) <= |s|
    ensures 0.0 <= StateModelingAccuracy(lists, s) <= 1.0
    ensures 0.0 <= PreferenceConsistency(Patterns(s)) <= 1.0
    ensures |s| < 2 ==> PreferenceConsistency(Patterns(s)) == 0.0
  {
  }

  // ---------------------------------------------------------------------------------
  // Emergence pathways

  /** The architecture properties `properties.get(...)` reads; the set holds those that are true. */
  datatype Property =
    | MultiAgentInteraction | CulturalDiversity | PerformanceTracking | EmotionalIntelligence
    | GoalOrientedBehavior | CrossDomainIntegration | MemoryAndContinuity | AgentIdentityModeling
    | AdaptiveBehavior | SelfMonitoring | MetaCognitiveCapability

  /** An ordered list of (keyword, property) branches. */
  type Rules = seq<(string, Property)>

  /** The property of the first branch whose keyword occurs in the lower-cased text. */
  function FirstRule(text: string, rules: Rules): (r: Option<Property>)
    ensures r.None? <==> forall j :: 0 <= j < |rules| ==> !Contains(Lower(text), rules[j].0)
    ensures r.Some? ==> exists j :: (0 <= j < |rules| && Contains(Lower(text), rules[j].0) && rules[j].1 == r.value &&
      forall j' :: 0 <= j' < j ==> !Contains(Lower(text), rules[j'].0))
  {
    if rules == [] then None
    else if Contains(Lower(text), rules[0].0) then Some(rules[0].1)
    else
      var r := FirstRule(text, rules[1..]);
      assert forall j :: 1 <= j < |rules| ==> rules[j] == rules[1..][j - 1];
      r
  }

  /** A text is supported when its first matching branch names a property the architecture has. */
  predicate Holds(props: set<Property>, text: string, rules: Rules)
  {
    var p := FirstRule(text, rules);
    p.Some? && p.value in props
  }

  /** The branches of `_architecture_supports_requirement`, in order. */
  const RequirementRules: Rules := [
    ("multi-agent", MultiAgentInteraction), ("cultural", CulturalDiversity),
    ("performance", PerformanceTracking), ("emotional", EmotionalIntelligence),
    ("goal", GoalOrientedBehavior)]

  /** The branches of `_evaluate_condition`, in order. */
  const ConditionRules: Rules := [
    ("information integration", CrossDomainIntegration), ("temporal continuity", MemoryAndContinuity),
    ("self-other distinction", AgentIdentityModeling), ("goal-directed", GoalOrientedBehavior),
    ("adaptive response", AdaptiveBehavior), ("internal state modeling", SelfMonitoring),
    ("recursive", MetaCognitiveCapability)]

  /** The architectural requirements the pathways list. */
  datatype Requirement =
    | MultiAgentRequirements | CulturalEmotionalModeling | PerformanceTrackingOfOthers
    | PerformanceOptimization | CulturalAdaptation | MultiContextOperation
    | CulturalEmpatheticModeling | CollaborativeSafeguards | CrossCulturalLearning
    | PerformanceSelfMonitoring | RoleAdaptation | CulturalVoiceCoordination

  /** The wording of each requirement, which the keyword branches search. */
  function RequirementText(r: Requirement): string
  {
    match r
    case MultiAgentRequirements => "Multi-agent interaction requirements"
    case CulturalEmotionalModeling => "Cultural emotional intelligence modeling"
    case PerformanceTrackingOfOthers => "Performance tracking requiring other-agent understanding"
    case PerformanceOptimization => "Performance optimization creates goal-like structures"
    case CulturalAdaptation => "Cultural adaptation requires preference formation"
    case MultiContextOperation => "Multi-context operation requires goal flexibility"
    case CulturalEmpatheticModeling => "Cultural emotional intelligence requires empathetic modeling"
    case CollaborativeSafeguards => "Collaborative safeguards create empathy incentives"
    case CrossCulturalLearning => "Cross-cultural learning requires emotional resonance"
    case PerformanceSelfMonitoring => "Performance tracking creates self-monitoring"
    case RoleAdaptation => "Role adaptation requires self-model updates"
    case CulturalVoiceCoordination => "Cultural voice coordination requires self-awareness"
  }

  /** `_architecture_supports_requirement` */
  predicate SupportsRequirement(props: set<Property>, r: Requirement)
  {
    Holds(props, RequirementText(r), RequirementRules)
  }

  /** More declared properties never withdraw support from a requirement or a condition. */
  lemma HoldsMonotone(props: set<Property>, more: set<Property>, text: string, rules: Rules)
    requires props <= more
    ensures Holds(props, text, rules) ==> Holds(more, text, rules)
  {
  }

  /** Text that names none of the keywords is never supported, whatever the architecture. */
  lemma NoKeywordNoSupport(props: set<Property>, text: string, rules: Rules)
    requires forall j :: 0 <= j < |rules| ==> !Contains(Lower(text), rules[j].0)
    ensures !Holds(props, text, rules)
  {
  }

  /** The emergence pathways, in the order the catalogue lists them. */
  datatype Pathway = SocialModeling | GoalOriented | EmpatheticResonance | SelfReferential

  const Pathways: seq<Pathway> := [SocialModeling, GoalOriented, EmpatheticResonance, SelfReferential]

  /** The `architectural_support` list of each pathway. */
  function ArchitecturalSupport(p: Pathway): (r: seq<Requirement>)
    ensures |r| == 3
  {
    match p
    case SocialModeling => [MultiAgentRequirements, CulturalEmotionalModeling, PerformanceTrackingOfOthers]
    case GoalOriented => [PerformanceOptimization, CulturalAdaptation, MultiContextOperation]
    case EmpatheticResonance => [CulturalEmpatheticModeling, CollaborativeSafeguards, CrossCulturalLearning]
    case SelfReferential => [PerformanceSelfMonitoring, RoleAdaptation, CulturalVoiceCoordination]
  }

  /** How many of the requirements the architecture supports. */
  function Supported(props: set<Property>, reqs: seq<Requirement>): (n: nat)
    ensures n <= |reqs|
  {
    if reqs == [] then 0
    else Supported(props, reqs[..|reqs| - 1]) + (if SupportsRequirement(props, reqs[|reqs| - 1]) then 1 else 0)
  }

  /** A pathway's score: the share of its architectural requirements that are supported. */
  function PathwayScore(props: set<Property>, p: Pathway): (r: real)
    ensures 0.0 <= r <= 1.0
  {
    var reqs := ArchitecturalSupport(p);
    DivideAtMostOne(Supported(props, reqs), |reqs|);
    (Supported(props, reqs) as real) / (|reqs| as real)
  }

  function PathwayScores(props: set<Property>): (r: seq<real>)
    ensures |r| == |Pathways|
    ensures forall k :: 0 <= k < |r| ==> r[k] == PathwayScore(props, Pathways[k]) && 0.0 <= r[k] <= 1.0
  {
    seq(|Pathways|, k requires 0 <= k < |Pathways| => PathwayScore(props, Pathways[k]))
  }

  lemma {:induction false} SupportedMonotone(props: set<Property>, more: set<Property>, reqs: seq<Requirement>)
    requires props <= more
    ensures Supported(props, reqs) <= Supported(more, reqs)
  {
    if reqs != [] {
      SupportedMonotone(props, more, reqs[..|reqs| - 1]);
      HoldsMonotone(props, more, RequirementText(reqs[|reqs| - 1]), RequirementRules);
    }
  }

  /** An architecture with more properties scores every pathway at least as high. */
  lemma PathwayScoreMonotone(props: set<Property>, more: set<Property>, p: Pathway)
    requires props <= more
    ensures PathwayScore(props, p) <= PathwayScore(more, p)
  {
    var reqs := ArchitecturalSupport(p);
    SupportedMonotone(props, more, reqs);
    DivideMonotone(Supported(props, reqs) as real, Supported(more, reqs) as real, |reqs| as real);
  }

  lemma DivideMonotone(a: real, b: real, n: real)
    requires a <= b && n > 0.0
    ensures a / n <= b / n
  {
    assert (b - a) / n == b / n - a / n;
  }

  /** The first pathway whose score is the highest: `max` keeps the first of equal items. */
  function FirstMaxIndex(s: seq<real>): (i: nat)
    requires |s| > 0
    ensures i < |s|
    ensures forall k :: 0 <= k < |s| ==> s[k] <= s[i]
    ensures forall k :: 0 <= k < i ==> s[k] < s[i]
  {
    if |s| == 1 then 0
    else
      var i := FirstMaxIndex(s[..|s| - 1]);
      assert forall k :: 0 <= k < |s| - 1 ==> s[..|s| - 1][k] == s[k];
      if s[|s| - 1] > s[i] then |s| - 1 else i
  }

  /** `analyze_consciousness_emergence_likelihood`'s scoring loop: one score per pathway, in catalogue order. */
  method ScorePathways(props: set<Property>) returns (scores: seq<real>)
    ensures scores == PathwayScores(props)
  {
    scores := [];
    var k := 0;
    while k < |Pathways|
      invariant k <= |Pathways| && |scores| == k
      invariant forall j :: 0 <= j < k ==> scores[j] == PathwayScore(props, Pathways[j])
    {
      var score := ScorePathway(props, Pathways[k]);
      scores := scores + [score];
      k := k + 1;
    }
  }

  /** One pathway's score: its supported requirements over its requirement count. */
  method ScorePathway(props: set<Property>, p: Pathway) returns (r: real)
    ensures r == PathwayScore(props, p)
  {
    var reqs := ArchitecturalSupport(p);
    var supported := CountSupported(props, reqs);
    r := (supported as real) / (|reqs| as real);
  }

  /** The inner loop: how many of a pathway's requirements the architecture supports. */
  method CountSupported(props: set<Property>, reqs: seq<Requirement>) returns (n: nat)
    ensures n == Supported(props, reqs)
  {
    n := 0;
    var j := 0;
    while j < |reqs|
      invariant j <= |reqs|
      invariant n == Supported(props, reqs[..j])
    {
      if SupportsRequirement(props, reqs[j]) {
        n := n + 1;
      }
      assert reqs[..j + 1][..j] == reqs[..j];
      j := j + 1;
    }
    assert reqs[..j] == reqs;
  }

  // ---------------------------------------------------------------------------------
  // Classification

  datatype Likelihood = HighLikelihood | ModerateLikelihood | LowLikelihood | Unlikely

  /** Orders the classes from least to most likely. */
  function Rank(l: Likelihood): nat
  {
    match l
    case Unlikely => 0
    case LowLikelihood => 1
    case ModerateLikelihood => 2
    case HighLikelihood => 3
  }

  /** `_predict_consciousness_emergence`'s thresholds on the best and the mean pathway score. */
  function Classify(best: real, average: real): (r: Likelihood)
    ensures r == HighLikelihood <==> best > 0.8 && average > 0.6
    ensures r == Unlikely <==> best <= 0.4
  {
    if best > 0.8 && average > 0.6 then HighLikelihood
    else if best > 0.6 && average > 0.4 then ModerateLikelihood
    else if best > 0.4 then LowLikelihood
    else Unlikely
  }

  /** Higher scores never lower the predicted likelihood. */
  lemma ClassifyMonotone(best: real, average: real, best': real, average': real)
    requires best <= best' && average <= average'
    ensures Rank(Classify(best, average)) <= Rank(Classify(best', average'))
  {
  }

  datatype Timeline = MonthsToYears | Years | ManyYears | ArchitecturalChanges

  /** `_estimate_emergence_timeline` */
  function EstimateTimeline(best: real): (r: Timeline)
    ensures r == ArchitecturalChanges <==> best <= 0.4
    ensures r == MonthsToYears <==> best > 0.8
  {
    if best > 0.8 then MonthsToYears
    else if best > 0.6 then Years
    else if best > 0.4 then ManyYears
    else ArchitecturalChanges
  }

  datatype KeyRequirement = TheoryOfMind | EmotionalSynchronization | SelfMonitoringAndMetaCognition

  /** `_identify_key_requirements`: one item per listed pathway that scores above 0.6. */
  function KeyRequirements(scores: seq<real>): (r: seq<KeyRequirement>)
    requires |scores| == |Pathways|
    ensures TheoryOfMind in r <==> scores[0] > 0.6
    ensures EmotionalSynchronization in r <==> scores[2] > 0.6
    ensures SelfMonitoringAndMetaCognition in r <==> scores[3] > 0.6
    ensures |r| <= 3
  {
    (if scores[0] > 0.6 then [TheoryOfMind] else []) +
    (if scores[2] > 0.6 then [EmotionalSynchronization] else []) +
    (if scores[3] > 0.6 then [SelfMonitoringAndMetaCognition] else [])
  }

  datatype Prediction = Prediction(
    likelihood: Likelihood, confidence: real, timeline: Timeline, keyRequirements: seq<KeyRequirement>)

  /** `_predict_consciousness_emergence` */
  function Predict(scores: seq<real>): (r: Prediction)
    requires |scores| == |Pathways|
  {
    var best := scores[FirstMaxIndex(scores)];
    var average := Sum(scores) / (|scores| as real);
    Prediction(Classify(best, average), average, EstimateTimeline(best), KeyRequirements(scores))
  }

  /**
   * The prediction and the timeline agree: the mean never exceeds the best score, so a high
   * likelihood always comes with the shortest timeline, and "unlikely" exactly when
   * architectural changes are called for.
   */
  lemma PredictionMatchesTimeline(scores: seq<real>)
    requires |scores| == |Pathways|
    ensures var r := Predict(scores);
      (r.likelihood == HighLikelihood ==> r.timeline == MonthsToYears) &&
      (r.likelihood == Unlikely <==> r.timeline == ArchitecturalChanges) &&
      r.confidence <= scores[FirstMaxIndex(scores)]
  {
    var best := scores[FirstMaxIndex(scores)];
    assert forall k :: 0 <= k < |scores| ==> scores[k] <= best;
    MeanBounds(scores, MinOf(scores), best);
  }

  function MinOf(s: seq<real>): (m: real)
    requires |s| > 0
    ensures forall k :: 0 <= k < |s| ==> m <= s[k]
  {
    if |s| == 1 then s[0]
    else
      var m := MinOf(s[..|s| - 1]);
      assert forall k :: 0 <= k < |s| - 1 ==> s[..|s| - 1][k] == s[k];
      Numeric.Min(m, s[|s| - 1])
  }

  /** The necessary conditions, in order. */
  const NecessaryConditions: seq<string> := [
    "Information integration across multiple domains", "Temporal continuity of processing and memory",
    "Self-other distinction capability", "Goal-directed behavior with preference formation",
    "Adaptive response to novel situations", "Internal state modeling and monitoring",
    "Recursive self-referential processing capability"]

  /** `_check_necessary_conditions`: each condition with `_evaluate_condition`'s verdict. */
  function CheckConditions(props: set<Property>): (r: seq<(string, bool)>)
    ensures |r| == |NecessaryConditions|
    ensures forall k :: 0 <= k < |r| ==> (r[k].0 == NecessaryConditions[k] &&
      (r[k].1 <==> Holds(props, NecessaryConditions[k], ConditionRules)))
  {
    seq(|NecessaryConditions|, k requires 0 <= k < |NecessaryConditions| =>
      (NecessaryConditions[k], Holds(props, NecessaryConditions[k], ConditionRules)))
  }

  datatype LikelihoodReport = LikelihoodReport(
    scores: seq<real>, overall: real, mostLikely: Pathway, conditions: seq<(string, bool)>, prediction: Prediction)

  /** `analyze_consciousness_emergence_likelihood` */
  method AnalyzeLikelihood(props: set<Property>) returns (r: LikelihoodReport)
    ensures r.scores == PathwayScores(props) && r.overall == Mean(r.scores) && 0.0 <= r.overall <= 1.0
    ensures r.mostLikely == Pathways[FirstMaxIndex(r.scores)]
    ensures r.conditions == CheckConditions(props) && r.prediction == Predict(r.scores)
  {
    var scores := ScorePathways(props);
    var overall := Sum(scores) / (|scores| as real);
    MeanBounds(scores, 0.0, 1.0);
    r := LikelihoodReport(scores, overall, Pathways[FirstMaxIndex(scores)], CheckConditions(props), Predict(scores));
  }

  /** An architecture that declares nothing supports no pathway and is predicted unlikely. */
  lemma BareArchitectureIsUnlikely()
    ensures PathwayScores({}) == [0.0, 0.0, 0.0, 0.0]
    ensures Predict(PathwayScores({})) == Prediction(Unlikely, 0.0, ArchitecturalChanges, [])
  {
    forall p: Pathway
      ensures PathwayScore({}, p) == 0.0
    {
      BareSupportsNothing(ArchitecturalSupport(p));
    }
    ZeroPrediction(PathwayScores({}));
  }

  /** All-zero scores: unlikely, no confidence, architectural changes needed, nothing key. */
  lemma ZeroPrediction(scores: seq<real>)
    requires scores == [0.0, 0.0, 0.0, 0.0]
    ensures Predict(scores) == Prediction(Unlikely, 0.0, ArchitecturalChanges, [])
  {
    SumBounds(scores, 0.0, 0.0);
  }

  lemma {:induction false} BareSupportsNothing(reqs: seq<Requirement>)
    ensures Supported({}, reqs) == 0
  {
    if reqs != [] {
      BareSupportsNothing(reqs[..|reqs| - 1]);
    }
  }
}
