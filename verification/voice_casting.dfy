/**
 * Culturally aware voice casting: the scores `CulturallyAwareVoiceCasting` gives a cultural
 * persona for a user and a piece of content, the ten-entry record of the cultures recently
 * cast, and the two string adaptations of `CulturalAdaptationEngine`.
 */
module VoiceCasting {
  import opened Wrappers
  import opened Numeric
  import opened Seqs
  import opened Strs

  /** `CulturalContext` */
  datatype Culture =
    | WestAfrican | EastAsian | NordicEuropean | LatinAmerican | SouthAsian
    | MiddleEastern | IndigenousAmerican | Mediterranean | Caribbean | PacificIslander

  /** `CommunicationStyle` */
  datatype Style = HighContext | LowContext | Hierarchical | Egalitarian | Collective | Individualist | Formal | Informal

  /** The fields of `CulturalVoiceProfile` that the scoring and adaptation read. */
  datatype Profile = Profile(
    culture: Culture, accentRegion: string, styles: seq<Style>, explanationApproach: string,
    authorityExpression: string, relationshipBuilding: string, metaphorPreferences: seq<string>)

  /**
   * `_analyze_user_cultural_context`: the user's stated background (if any), communication
   * preference (default `"adaptive"`) and the accents they are used to (default none).
   */
  datatype UserNeeds = UserNeeds(background: Option<Culture>, preference: string, accents: seq<string>)

  // ---------------------------------------------------------------------------------
  // Content requirements

  /** The five weights of `_analyze_content_cultural_requirements`, all starting at 0. */
  datatype Requirements = Requirements(
    authority: real, storytelling: real, directCommunication: real, relationshipBuilding: real,
    hierarchicalRespect: real)

  const TechnicalWords: seq<string> := ["technical", "implementation", "architecture"]
  const LearningWords: seq<string> := ["explain", "learn", "understand", "teach"]
  const ProblemWords: seq<string> := ["problem", "solve", "issue", "conflict"]

  /**
   * The three keyword rules run in order on the lower-cased content; a later rule overwrites
   * what an earlier one set, so problem-solving content's storytelling weight of 0.8 replaces
   * the 0.6 of learning content.
   */
  function ContentRequirements(content: string): (q: Requirements)
    ensures var lower := Lower(content);
      q.authority == (if ContainsAny(lower, TechnicalWords) then 0.7 else 0.0) &&
      q.directCommunication == (if ContainsAny(lower, TechnicalWords) then 0.8 else 0.0) &&
      q.storytelling == (if ContainsAny(lower, ProblemWords) then 0.8
                         else if ContainsAny(lower, LearningWords) then 0.6 else 0.0) &&
      q.relationshipBuilding == (if ContainsAny(lower, LearningWords) then 0.7 else 0.0) &&
      q.hierarchicalRespect == (if ContainsAny(lower, ProblemWords) then 0.3 else 0.0)
  {
    var lower := Lower(content);
    var q0 := Requirements(0.0, 0.0, 0.0, 0.0, 0.0);
    var q1 := if ContainsAny(lower, TechnicalWords) then q0.(authority := 0.7, directCommunication := 0.8) else q0;
    var q2 := if ContainsAny(lower, LearningWords) then q1.(storytelling := 0.6, relationshipBuilding := 0.7) else q1;
    if ContainsAny(lower, ProblemWords) then q2.(storytelling := 0.8, hierarchicalRespect := 0.3) else q2
  }

  // ---------------------------------------------------------------------------------
  // The four score components

  /** `_calculate_user_cultural_compatibility`: 0.5, plus background, style and accent bonuses, capped at 1. */
  function UserCompatibility(p: Profile, u: UserNeeds): (r: real)
    ensures 0.5 <= r <= 1.0
    ensures u.background == Some(p.culture) ==> r >= 0.8
    ensures u.background != Some(p.culture) && u.preference != "direct" && u.preference != "indirect" ==>
      r == if p.accentRegion in u.accents then 0.6 else 0.5
  {
    var background := if u.background == Some(p.culture) then 0.3 else 0.0;
    var style :=
      if u.preference == "direct" && LowContext in p.styles then 0.2
      else if u.preference == "indirect" && HighContext in p.styles then 0.2
      else 0.0;
    var accent := if p.accentRegion in u.accents then 0.1 else 0.0;
    Min(1.0, 0.5 + background + style + accent)
  }

  /**
   * `_calculate_content_cultural_fit`: 0.3 each for authority, storytelling and directness and
   * 0.2 for relationship building, where the content asks for more than 0.5 and the profile
   * fits; capped at 1 (all four together would make 1.1).
   */
  function ContentFit(p: Profile, q: Requirements): (r: real)
    ensures 0.0 <= r <= 1.0
    ensures (q.authority <= 0.5 && q.storytelling <= 0.5 && q.directCommunication <= 0.5 &&
             q.relationshipBuilding <= 0.5) ==> r == 0.0
  {
    var authority :=
      if q.authority > 0.5 && p.authorityExpression in ["earned_through_wisdom_sharing", "through_detailed_knowledge_sharing"]
      then 0.3 else 0.0;
    var story :=
      if q.storytelling > 0.5 && p.explanationApproach in ["story_and_proverb_based", "circular_story_based"]
      then 0.3 else 0.0;
    var direct := if q.directCommunication > 0.5 && LowContext in p.styles then 0.3 else 0.0;
    var relation :=
      if q.relationshipBuilding > 0.5 && p.relationshipBuilding in ["through_personal_warmth", "through_shared_stories"]
      then 0.2 else 0.0;
    Min(1.0, authority + story + direct + relation)
  }

  /** The three anti-stereotyping rules: a culture, the requirement it must not be typecast for, the penalty. */
  datatype Pattern = HighTechnicalAuthority | PureStorytellingRequest | VeryDirectRequest

  const StereotypeRules: seq<(Culture, Pattern, real)> :=
    [(EastAsian, HighTechnicalAuthority, -0.2), (WestAfrican, PureStorytellingRequest, -0.2),
     (NordicEuropean, VeryDirectRequest, -0.1)]

  /** `_matches_content_pattern`: the requirement behind the pattern exceeds 0.8. */
  predicate Matches(q: Requirements, pattern: Pattern)
  {
    match pattern
    case HighTechnicalAuthority => q.authority > 0.8
    case PureStorytellingRequest => q.storytelling > 0.8
    case VeryDirectRequest => q.directCommunication > 0.8
  }

  /** The summed penalties of the rules, taken in order, whose culture and pattern both match. */
  function PenaltySum(rules: seq<(Culture, Pattern, real)>, c: Culture, q: Requirements): real
  {
    if rules == [] then 0.0
    else
      var (culture, pattern, amount) := rules[|rules| - 1];
      PenaltySum(rules[..|rules| - 1], c, q) + (if c == culture && Matches(q, pattern) then amount else 0.0)
  }

  /**
   * `_calculate_stereotyping_penalty`. The three rules name three different cultures, so at
   * most one of them applies to a persona.
   */
  function StereotypingPenalty(c: Culture, q: Requirements): (r: real)
    ensures r == 0.0 || r == -0.1 || r == -0.2
    ensures r == -0.2 <==> (c == EastAsian && q.authority > 0.8) || (c == WestAfrican && q.storytelling > 0.8)
    ensures r == -0.1 <==> c == NordicEuropean && q.directCommunication > 0.8
  {
    PenaltyRules(c, q);
    PenaltySum(StereotypeRules, c, q)
  }

  /** The fold over the three rules, one rule at a time. */
  lemma PenaltyRules(c: Culture, q: Requirements)
    ensures PenaltySum(StereotypeRules, c, q) ==
      (if c == EastAsian && q.authority > 0.8 then -0.2 else 0.0) +
      (if c == WestAfrican && q.storytelling > 0.8 then -0.2 else 0.0) +
      (if c == NordicEuropean && q.directCommunication > 0.8 then -0.1 else 0.0)
  {
    var rules := StereotypeRules;
    var t1 := if c == EastAsian && q.authority > 0.8 then -0.2 else 0.0;
    var t2 := if c == WestAfrican && q.storytelling > 0.8 then -0.2 else 0.0;
    var t3 := if c == NordicEuropean && q.directCommunication > 0.8 then -0.1 else 0.0;
    assert rules[..2] == [rules[0], rules[1]];
    assert rules[..2][..1] == [rules[0]];
    assert [rules[0]][..0] == [];
    assert PenaltySum([rules[0]], c, q) == t1;
    assert PenaltySum(rules[..2], c, q) == t1 + t2;
    assert PenaltySum(rules, c, q) == t1 + t2 + t3;
  }

  /** The loop of `_calculate_stereotyping_penalty` over the rules, in order. */
  method CalculateStereotypingPenalty(c: Culture, q: Requirements) returns (r: real)
    ensures r == StereotypingPenalty(c, q)
  {
    var rules := StereotypeRules;
    r := 0.0;
    var k := 0;
    while k < |rules|
      invariant k <= |rules|
      invariant r == PenaltySum(rules[..k], c, q)
    {
      var (culture, pattern, amount) := rules[k];
      if c == culture && Matches(q, pattern) {
        r := r + amount;
      }
      assert rules[..k + 1][..k] == rules[..k];
      k := k + 1;
    }
    assert rules[..k] == rules;
  }

  /**
   * No requirement that `_analyze_content_cultural_requirements` produces exceeds 0.8, so on
   * analysed content the anti-stereotyping rules never fire.
   */
  lemma PenaltyNeverFiresOnAnalyzedContent(c: Culture, content: string)
    ensures StereotypingPenalty(c, ContentRequirements(content)) == 0.0
  {
  }

  // ---------------------------------------------------------------------------------
  // The casting director and its record of recent cultures

  const Window: nat := 10
  const MinCulturalDiversity: nat := 2

  /** `CulturallyAwareVoiceCasting`, reduced to the state its scoring and tracking use. */
  class Casting {
    /** `conversation_cultural_mix`: the cultures cast most recently, oldest first. */
    var mix: seq<Culture>

    predicate Valid()
      reads this
    {
      |mix| <= Window
    }

    constructor ()
      ensures Valid() && mix == []
    {
      mix := [];
    }

    /** The distinct cultures of the record (`set(self.conversation_cultural_mix)`). */
    function Represented(): set<Culture>
      reads this
    {
      set c | c in mix
    }

    /**
     * `_calculate_diversity_representation_score`: 0.4 for a culture absent from the record,
     * 0.3 while fewer than two cultures are represented.
     */
    function DiversityScore(p: Profile): (r: real)
      reads this
      ensures r == 0.0 || r == 0.3 || r == 0.4 || r == 0.7
      ensures r >= 0.4 <==> p.culture !in mix
      ensures (r == 0.3 || r == 0.7) <==> |Represented()| < MinCulturalDiversity
    {
      (if p.culture !in mix then 0.4 else 0.0) + (if |Represented()| < MinCulturalDiversity then 0.3 else 0.0)
    }

    /** The weighted sum 0.3 u + 0.4 c + 0.2 d + 0.1 p before clamping. */
    function WeightedScore(p: Profile, u: UserNeeds, q: Requirements): real
      reads this
    {
      UserCompatibility(p, u) * 0.3 + ContentFit(p, q) * 0.4 + DiversityScore(p) * 0.2 +
      StereotypingPenalty(p.culture, q) * 0.1
    }

    /** `_calculate_cultural_persona_score`: the weighted sum clamped to [0, 1]. */
    function PersonaScore(p: Profile, u: UserNeeds, q: Requirements): (r: real)
      reads this
      ensures 0.0 <= r <= 1.0
    {
      Clamp01(WeightedScore(p, u, q))
    }

    /**
     * The components' own ranges keep the weighted sum inside [0.13, 0.84], so the clamp
     * never changes a persona's score.
     */
    lemma ClampInactive(p: Profile, u: UserNeeds, q: Requirements)
      ensures 0.13 <= WeightedScore(p, u, q) <= 0.84
      ensures PersonaScore(p, u, q) == WeightedScore(p, u, q)
    {
    }

    /**
     * `_update_cultural_representation_tracking`: append the cast culture and drop the oldest
     * entry once the record holds more than ten.
     */
    method Track(c: Culture)
      requires Valid()
      modifies this
      ensures Valid()
      ensures mix == Recent(old(mix) + [c], Window)
      ensures mix[|mix| - 1] == c
    {
      mix := mix + [c];
      if |mix| > Window {
        mix := mix[1..];
      }
    }
  }

  /** The record after a series of casts, newest last: always the last ten. */
  function TrackAll(mix: seq<Culture>, cast: seq<Culture>): seq<Culture>
  {
    if cast == [] then mix else Recent(TrackAll(mix, cast[..|cast| - 1]) + [cast[|cast| - 1]], Window)
  }

  /** However many cultures are cast, the record keeps exactly the last ten of the history. */
  lemma {:induction false} TrackAllIsRecent(mix: seq<Culture>, cast: seq<Culture>)
    requires |mix| <= Window
    ensures TrackAll(mix, cast) == Recent(mix + cast, Window)
  {
    if cast != [] {
      var prev := cast[..|cast| - 1];
      var c := cast[|cast| - 1];
      TrackAllIsRecent(mix, prev);
      assert mix + cast == (mix + prev) + [c];
      RecentSnoc(mix + prev, c);
    }
  }

  /** Keeping the last ten and then appending is keeping the last ten of the longer history. */
  lemma RecentSnoc(s: seq<Culture>, c: Culture)
    ensures Recent(Recent(s, Window) + [c], Window) == Recent(s + [c], Window)
  {
    var a := Recent(Recent(s, Window) + [c], Window);
    var b := Recent(s + [c], Window);
    assert |a| == |b|;
    forall k | 0 <= k < |a|
      ensures a[k] == b[k]
    {
      if |s| > Window {
        assert Recent(s, Window) + [c] == s[|s| - Window..] + [c];
      }
    }
  }

  // ---------------------------------------------------------------------------------
  // Response adaptation

  /** The opening and closing of one culture's response pattern; empty when it has none. */
  datatype ResponsePattern = ResponsePattern(opening: string, closing: string)

  /** `_build_cultural_response_patterns`: four cultures have a pattern. */
  function PatternFor(c: Culture): ResponsePattern
  {
    match c
    case WestAfrican => ResponsePattern("Let me share a story that illustrates this...", "As our elders say...")
    case EastAsian => ResponsePattern("With great respect for your question...", "Perhaps this perspective might be helpful...")
    case NordicEuropean => ResponsePattern("Here's the practical situation...", "This should work efficiently for everyone.")
    case LatinAmerican => ResponsePattern("My friend, I understand what you're feeling...", "We'll figure this out together, don't worry.")
    case _ => ResponsePattern("", "")
  }

  /**
   * `_apply_cultural_structure`: prefix the opening unless the response already starts with
   * its first ten characters, then append the closing unless the response ends with a period.
   */
  function ApplyStructure(response: string, pat: ResponsePattern): (r: string)
    ensures var prefixed := pat.opening != "" && !StartsWith(response, Take(pat.opening, 10));
      var middle := if prefixed then pat.opening + " " + response else response;
      var closed := pat.closing != "" && !EndsWith(middle, ".");
      r == if closed then middle + " " + pat.closing else middle
  {
    var r1 := if pat.opening != "" && !StartsWith(response, Take(pat.opening, 10)) then pat.opening + " " + response else response;
    if pat.closing != "" && !EndsWith(r1, ".") then r1 + " " + pat.closing else r1
  }

  /** A culture without a pattern leaves the response as it is. */
  lemma NoPatternUnchanged(response: string)
    ensures ApplyStructure(response, ResponsePattern("", "")) == response
  {
  }

  /**
   * The adapted response opens with the opening's first ten characters when there is an
   * opening, and ends with a period or the closing when there is a closing.
   */
  lemma StructureFramesResponse(response: string, pat: ResponsePattern)
    ensures pat.opening != "" ==> StartsWith(ApplyStructure(response, pat), Take(pat.opening, 10))
    ensures pat.closing != "" ==> EndsWith(ApplyStructure(response, pat), ".") || EndsWith(ApplyStructure(response, pat), pat.closing)
    ensures Contains(ApplyStructure(response, pat), response)
  {
    var r := ApplyStructure(response, pat);
    var prefixed := pat.opening != "" && !StartsWith(response, Take(pat.opening, 10));
    var middle := if prefixed then pat.opening + " " + response else response;
    var t := Take(pat.opening, 10);
    if pat.opening != "" {
      if prefixed {
        assert middle[..|t|] == t;
      }
      assert StartsWith(middle, t);
      assert r[..|middle|] == middle;
      assert r[..|t|] == middle[..|t|];
    }
    if pat.closing != "" && r != middle {
      assert r == middle + " " + pat.closing;
      assert r[|r| - |pat.closing|..] == pat.closing;
    }
    var k := if prefixed then |pat.opening| + 1 else 0;
    assert middle[k..k + |response|] == response;
    assert r[..|middle|] == middle;
    assert OccursAt(r, response, k);
  }

  /** `metaphor_additions`: the metaphors with an addition, and each one's text. */
  function MetaphorAddition(m: string): Option<string>
  {
    if m == "nature" then Some(" - like roots growing deep to support the tree")
    else if m == "community" then Some(" - as we do things together in our community")
    else if m == "balance" then Some(" - finding harmony between different needs")
    else if m == "family" then Some(" - the way we care for family members")
    else None
  }

  /** The first preferred metaphor that has an addition. */
  function FirstWithAddition(prefs: seq<string>): (r: Option<nat>)
    ensures r.Some? ==> r.value < |prefs| && MetaphorAddition(prefs[r.value]).Some?
    ensures forall k :: 0 <= k < |prefs| && (r.None? || k < r.value) ==> MetaphorAddition(prefs[k]).None?
  {
    if prefs == [] then None
    else if MetaphorAddition(prefs[0]).Some? then Some(0)
    else match FirstWithAddition(prefs[1..])
      case None => None
      case Some(k) => Some(k + 1)
  }

  const NatureAddition := " - like roots growing deep to support the tree"

  /**
   * `_add_cultural_expressions`: only the first preferred metaphor with an addition is
   * considered, and text is added only when that metaphor is `"nature"` and the response
   * mentions `"technical"`.
   */
  method AddCulturalExpressions(response: string, p: Profile) returns (r: string)
    ensures var first := FirstWithAddition(p.metaphorPreferences);
      r == if first.Some? && p.metaphorPreferences[first.value] == "nature" && Contains(Lower(response), "technical")
           then response + NatureAddition else response
  {
    r := response;
    var prefs := p.metaphorPreferences;
    var k := 0;
    while k < |prefs|
      invariant k <= |prefs|
      invariant forall j :: 0 <= j < k ==> MetaphorAddition(prefs[j]).None?
      invariant r == response
    {
      if MetaphorAddition(prefs[k]).Some? {
        FirstIs(prefs, k);
        if Contains(Lower(response), "technical") && prefs[k] == "nature" {
          r := r + MetaphorAddition(prefs[k]).value;
        }
        return;
      }
      k := k + 1;
    }
    FirstNone(prefs);
  }

  lemma FirstIs(prefs: seq<string>, k: nat)
    requires k < |prefs| && MetaphorAddition(prefs[k]).Some?
    requires forall j :: 0 <= j < k ==> MetaphorAddition(prefs[j]).None?
    ensures FirstWithAddition(prefs) == Some(k)
  {
    var f := FirstWithAddition(prefs);
    assert !(f.value < k) && !(k < f.value);
  }

  lemma FirstNone(prefs: seq<string>)
    requires forall j :: 0 <= j < |prefs| ==> MetaphorAddition(prefs[j]).None?
    ensures FirstWithAddition(prefs) == None
  {
  }

  /**
   * Only the first metaphor with an addition counts: a profile preferring balance before nature
   * never gains the nature metaphor.
   */
  lemma OnlyFirstMetaphorCounts()
    ensures FirstWithAddition(["balance", "nature"]) == Some(0)
    ensures FirstWithAddition(["engineering", "nature", "sustainability"]) == Some(1)
  {
    FirstIs(["balance", "nature"], 0);
    FirstIs(["engineering", "nature", "sustainability"], 1);
  }
}
