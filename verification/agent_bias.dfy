/**
 * Agent-to-agent bias resistance: the counters an engine keeps for every unordered pair of
 * agents, the analyses it runs over them, and the deterministic helpers of the simulator that
 * lets agent biases decay through interaction.
 */
module AgentBias {
  import opened Wrappers
  import opened Numeric
  import opened Dicts

  // ---------------------------------------------------------------------------------
  // Relationship keys

  /** Python's string order: code point by code point, a proper prefix first. */
  predicate StrLe(a: string, b: string)
    decreases |a|
  {
    if a == [] then true
    else if b == [] then false
    else if a[0] != b[0] then a[0] < b[0]
    else StrLe(a[1..], b[1..])
  }

  lemma {:induction false} StrLeTotal(a: string, b: string)
    ensures StrLe(a, b) || StrLe(b, a)
    decreases |a|
  {
    if a != [] && b != [] && a[0] == b[0] {
      StrLeTotal(a[1..], b[1..]);
    }
  }

  lemma {:induction false} StrLeAntisymmetric(a: string, b: string)
    requires StrLe(a, b) && StrLe(b, a)
    ensures a == b
    decreases |a|
  {
    if a != [] {
      StrLeAntisymmetric(a[1..], b[1..]);
      assert a == [a[0]] + a[1..] && b == [b[0]] + b[1..];
    }
  }

  /** `tuple(sorted([a, b]))` */
  function PairKey(a: string, b: string): (k: (string, string))
    ensures StrLe(k.0, k.1)
    ensures (k.0 == a && k.1 == b) || (k.0 == b && k.1 == a)
  {
    StrLeTotal(a, b);
    if StrLe(a, b) then (a, b) else (b, a)
  }

  /** The two orders of a pair share one relationship record. */
  lemma PairKeySymmetric(a: string, b: string)
    ensures PairKey(a, b) == PairKey(b, a)
  {
    StrLeTotal(a, b);
    if StrLe(a, b) && StrLe(b, a) {
      StrLeAntisymmetric(a, b);
    }
  }

  // ---------------------------------------------------------------------------------
  // Relationship counters

  /** `AgentRelationshipMetrics`: the ids are those of the first interaction seen for the pair. */
  datatype Relationship = Relationship(
    agentA: string, agentB: string,
    successful: nat, total: nat, mutualBuilding: nat, respectfulDisagreements: nat,
    roleStereotypeViolations: nat, culturalAssumptionCorrections: nat, expertiseBoundaryCrossings: nat,
    styleAdaptations: nat, contextSensitiveDeference: nat)

  function NewRelationship(a: string, b: string): Relationship
  {
    Relationship(a, b, 0, 0, 0, 0, 0, 0, 0, 0, 0)
  }

  /**
   * What the engine's operations keep true of a record: every call counts once in `total`, a
   * call adds at most one building instance or expertise crossing and at most two respectful
   * disagreements, a stereotype violation comes with a crossing, and the counters no
   * operation touches stay zero.
   */
  predicate Consistent(m: Relationship)
  {
    m.successful <= m.total && m.mutualBuilding + m.expertiseBoundaryCrossings <= m.total &&
    m.respectfulDisagreements <= 2 * m.total && m.roleStereotypeViolations <= m.expertiseBoundaryCrossings &&
    m.culturalAssumptionCorrections == 0 && m.styleAdaptations == 0 && m.contextSensitiveDeference == 0
  }

  /**
   * The fields of `interaction_data` the engine reads. Absent optional keys are `None`, an
   * absent `outcome_quality` is 0 and an absent quality indicator is false.
   */
  datatype Interaction = Interaction(
    primary: string, responding: string, kind: string, culturalContext: Option<string>, outcomeQuality: real,
    offersAlternative: bool, acknowledgesStrengths: bool, focusesOnIdeas: bool, buildsTowardSynthesis: bool,
    unexpectedDomain: Option<string>)

  const BuildOnIdea := "build_on_idea"
  const RespectfulCritique := "respectful_critique"
  const UnexpectedExpertise := "unexpected_expertise"

  /** The message of the `AttributeError` raised by the call to a recorder the engine does not define. */
  const MissingRecorder :=
    "AttributeError: 'InterAgentBiasResistanceEngine' object has no attribute '_record_successful_cross_cultural_collaboration'"

  /** Python truthiness of an optional string. */
  predicate Truthy(s: Option<string>)
  {
    s.Some? && s.value != ""
  }

  function Indicator(b: bool): nat
  {
    if b then 1 else 0
  }

  /** The number of disagreement-quality indicators that hold. */
  function QualityScore(i: Interaction): (n: nat)
    ensures n <= 4
  {
    Indicator(i.offersAlternative) + Indicator(i.acknowledgesStrengths) + Indicator(i.focusesOnIdeas) +
    Indicator(i.buildsTowardSynthesis)
  }

  /** No culture of one list occurs in the other (`not set(a).intersection(set(b))`). */
  predicate Disjoint(xs: seq<string>, ys: seq<string>)
  {
    forall k :: 0 <= k < |xs| ==> xs[k] !in ys
  }

  /**
   * `_track_cross_cultural_building` reaches the undefined recorder when a context is given
   * and both agents have used cultures, none of them shared.
   */
  predicate CrossCulturalFails(usage: Dict<string, seq<string>>, i: Interaction)
  {
    i.kind == BuildOnIdea && Truthy(i.culturalContext) &&
    var a := GetOr(usage, i.primary, []);
    var b := GetOr(usage, i.responding, []);
    a != [] && b != [] && Disjoint(a, b)
  }

  /**
   * The record after one interaction. When the cross-cultural recorder fails, the counts made
   * before the failure stay and the success count is not reached.
   */
  function Step(m: Relationship, i: Interaction, fails: bool): Relationship
  {
    var m2 := KindCounted(m.(total := m.total + 1), i);
    if !fails && i.outcomeQuality > 0.7 then m2.(successful := m2.successful + 1) else m2
  }

  /** The counters the interaction's kind moves. */
  function KindCounted(m: Relationship, i: Interaction): Relationship
  {
    if i.kind == BuildOnIdea then m.(mutualBuilding := m.mutualBuilding + 1)
    else if i.kind == RespectfulCritique then
      m.(respectfulDisagreements := m.respectfulDisagreements + 1 + (if QualityScore(i) >= 3 then 1 else 0))
    else if i.kind == UnexpectedExpertise then
      m.(expertiseBoundaryCrossings := m.expertiseBoundaryCrossings + 1,
         roleStereotypeViolations := m.roleStereotypeViolations + Indicator(Truthy(i.unexpectedDomain)))
    else m
  }

  /** Each counter moves exactly as `track_agent_interaction` and its helpers move it. */
  lemma StepCounters(m: Relationship, i: Interaction, fails: bool)
    ensures var m' := Step(m, i, fails);
      m'.agentA == m.agentA && m'.agentB == m.agentB &&
      m'.total == m.total + 1 &&
      (m'.successful == m.successful + 1 <==> !fails && i.outcomeQuality > 0.7) &&
      (m'.successful == m.successful || m'.successful == m.successful + 1) &&
      m'.mutualBuilding == m.mutualBuilding + Indicator(i.kind == BuildOnIdea) &&
      m'.respectfulDisagreements ==
        m.respectfulDisagreements + (if i.kind == RespectfulCritique then 1 + Indicator(QualityScore(i) >= 3) else 0) &&
      m'.expertiseBoundaryCrossings == m.expertiseBoundaryCrossings + Indicator(i.kind == UnexpectedExpertise) &&
      m'.roleStereotypeViolations ==
        m.roleStereotypeViolations + Indicator(i.kind == UnexpectedExpertise && Truthy(i.unexpectedDomain)) &&
      m'.culturalAssumptionCorrections == m.culturalAssumptionCorrections &&
      m'.styleAdaptations == m.styleAdaptations && m'.contextSensitiveDeference == m.contextSensitiveDeference
  {
  }

  lemma StepConsistent(m: Relationship, i: Interaction, fails: bool)
    requires Consistent(m)
    ensures Consistent(Step(m, i, fails))
  {
    StepCounters(m, i, fails);
  }

  /** The record an interaction updates: the stored one, or a fresh one named after this interaction. */
  function RecordFor(rels: Dict<(string, string), Relationship>, i: Interaction): Relationship
  {
    GetOr(rels, PairKey(i.primary, i.responding), NewRelationship(i.primary, i.responding))
  }

  /** `expertise_demonstration_history[a][domain] += 1`, creating the agent's entry first. */
  function Demonstrated(history: Dict<string, Dict<string, nat>>, a: string, domain: string)
    : Dict<string, Dict<string, nat>>
  {
    var inner := GetOr(history, a, []);
    Put(history, a, Put(inner, domain, GetOr(inner, domain, 0) + 1))
  }

  /** One more demonstration is counted for that agent and domain; nothing else changes. */
  lemma DemonstratedCounts(history: Dict<string, Dict<string, nat>>, a: string, domain: string)
    requires UniqueKeys(history) && UniqueKeys(GetOr(history, a, []))
    ensures var h := Demonstrated(history, a, domain);
      var inner := GetOr(h, a, []);
      UniqueKeys(h) && UniqueKeys(inner) &&
      GetOr(inner, domain, 0) == GetOr(GetOr(history, a, []), domain, 0) + 1 &&
      (forall d :: d != domain ==> Get(inner, d) == Get(GetOr(history, a, []), d)) &&
      (forall b :: b != a ==> Get(h, b) == Get(history, b))
  {
    var inner := GetOr(history, a, []);
    var v := GetOr(inner, domain, 0) + 1;
    var inner' := Put(inner, domain, v);
    PutUnique(inner, domain, v);
    PutUnique(history, a, inner');
    var h := Put(history, a, inner');
    assert h == Demonstrated(history, a, domain);
    assert GetOr(h, a, []) == inner';
    assert GetOr(inner', domain, 0) == v;
  }

  /** A per-domain tally with distinct domains and positive counts. */
  predicate PositiveTally(d: Dict<string, nat>)
  {
    UniqueKeys(d) && forall j :: 0 <= j < |d| ==> d[j].1 >= 1
  }

  /** Every stored count of a demonstration history is positive. */
  predicate PositiveCounts(history: Dict<string, Dict<string, nat>>)
  {
    forall k :: 0 <= k < |history| ==> PositiveTally(history[k].1)
  }

  /** A demonstration keeps the history's keys distinct and its counts positive. */
  lemma DemonstratedKeepsValid(history: Dict<string, Dict<string, nat>>, a: string, domain: string)
    requires UniqueKeys(history) && PositiveCounts(history)
    ensures UniqueKeys(Demonstrated(history, a, domain)) && PositiveCounts(Demonstrated(history, a, domain))
  {
    DemonstratedPositive(history, a, domain);
    PutUnique(history, a, Put(GetOr(history, a, []), domain, GetOr(GetOr(history, a, []), domain, 0) + 1));
  }

  lemma DemonstratedPositive(history: Dict<string, Dict<string, nat>>, a: string, domain: string)
    requires UniqueKeys(history) && PositiveCounts(history)
    ensures PositiveCounts(Demonstrated(history, a, domain))
  {
    var inner := GetOr(history, a, []);
    assert PositiveTally(inner) by {
      if HasKey(history, a) {
        var j := IndexOf(history, a).value;
        GetUnique(history, j);
        assert inner == history[j].1;
      }
    }
    var v := GetOr(inner, domain, 0) + 1;
    PutUnique(inner, domain, v);
    var inner' := Put(inner, domain, v);
    forall j | 0 <= j < |inner'|
      ensures inner'[j].1 >= 1
    {
      if j < |inner| {
        assert inner'[j] == (if inner[j].0 == domain then (domain, v) else inner[j]);
      }
    }
    assert PositiveTally(inner');
    var h := Put(history, a, inner');
    forall k | 0 <= k < |h|
      ensures PositiveTally(h[k].1)
    {
      if k < |history| {
        assert h[k] == (if history[k].0 == a then (a, inner') else history[k]);
      }
    }
    assert h == Demonstrated(history, a, domain);
  }

  // ---------------------------------------------------------------------------------
  // The engine

  /** `InterAgentBiasResistanceEngine` */
  class Engine {
    var relationships: Dict<(string, string), Relationship>
    var culturalPersonaUsage: Dict<string, seq<string>>
    var expertiseHistory: Dict<string, Dict<string, nat>>

    predicate Valid()
      reads this
    {
      UniqueKeys(relationships) && UniqueKeys(expertiseHistory) && PositiveCounts(expertiseHistory) &&
      forall k :: 0 <= k < |relationships| ==> Consistent(relationships[k].1)
    }

    constructor ()
      ensures Valid()
      ensures relationships == [] && culturalPersonaUsage == [] && expertiseHistory == []
    {
      relationships := [];
      culturalPersonaUsage := [];
      expertiseHistory := [];
    }

    /**
     * `track_agent_interaction`. The record is created on first sight under the sorted pair;
     * the call fails with an `AttributeError` (keeping the counts already made) when the
     * cross-cultural branch reaches the recorder the engine does not define.
     */
    method TrackInteraction(i: Interaction) returns (r: Result<(), string>)
      requires Valid()
      modifies this
      ensures Valid()
      ensures culturalPersonaUsage == old(culturalPersonaUsage)
      ensures var fails := CrossCulturalFails(culturalPersonaUsage, i);
        relationships == Put(old(relationships), PairKey(i.primary, i.responding), Step(RecordFor(old(relationships), i), i, fails)) &&
        r == (if fails then Err(MissingRecorder) else Ok(()))
      ensures expertiseHistory ==
        if i.kind == UnexpectedExpertise && Truthy(i.unexpectedDomain)
        then Demonstrated(old(expertiseHistory), i.primary, i.unexpectedDomain.value)
        else old(expertiseHistory)
    {
      var rels, history := relationships, expertiseHistory;
      var fails := CrossCulturalFails(culturalPersonaUsage, i);
      var key := PairKey(i.primary, i.responding);
      var before := GetOr(rels, key, NewRelationship(i.primary, i.responding));
      var m := CountInteraction(before, i, fails);
      if i.kind == UnexpectedExpertise && Truthy(i.unexpectedDomain) {
        DemonstratedKeepsValid(history, i.primary, i.unexpectedDomain.value);
        history := Demonstrated(history, i.primary, i.unexpectedDomain.value);
      }
      RecordConsistent(rels, i);
      StepConsistent(before, i, fails);
      PutConsistent(rels, key, m);
      relationships, expertiseHistory := Put(rels, key, m), history;
      r := if fails then Err(MissingRecorder) else Ok(());
    }
  }

  /** The counters one interaction moves on the pair's record, in the order the engine moves them. */
  method CountInteraction(before: Relationship, i: Interaction, fails: bool) returns (m: Relationship)
    ensures m == Step(before, i, fails)
  {
    m := before.(total := before.total + 1);
    ghost var counted := m;
    if i.kind == BuildOnIdea {
      m := m.(mutualBuilding := m.mutualBuilding + 1);
    } else if i.kind == RespectfulCritique {
      m := m.(respectfulDisagreements := m.respectfulDisagreements + 1);
      if QualityScore(i) >= 3 {
        m := m.(respectfulDisagreements := m.respectfulDisagreements + 1);
      }
    } else if i.kind == UnexpectedExpertise {
      m := m.(expertiseBoundaryCrossings := m.expertiseBoundaryCrossings + 1);
      if Truthy(i.unexpectedDomain) {
        m := m.(roleStereotypeViolations := m.roleStereotypeViolations + 1);
      }
    }
    assert m == KindCounted(counted, i);
    // the failing recorder is reached before the success count
    if !fails && i.outcomeQuality > 0.7 {
      m := m.(successful := m.successful + 1);
    }
  }

  lemma RecordConsistent(rels: Dict<(string, string), Relationship>, i: Interaction)
    requires forall k :: 0 <= k < |rels| ==> Consistent(rels[k].1)
    ensures Consistent(RecordFor(rels, i))
  {
    var key := PairKey(i.primary, i.responding);
    if HasKey(rels, key) {
      var j := IndexOf(rels, key).value;
      assert Get(rels, key) == Some(rels[j].1);
    }
  }

  /** Storing a consistent record keeps every record consistent and the keys distinct. */
  lemma PutConsistent(rels: Dict<(string, string), Relationship>, key: (string, string), m: Relationship)
    requires UniqueKeys(rels) && forall k :: 0 <= k < |rels| ==> Consistent(rels[k].1)
    requires Consistent(m)
    ensures UniqueKeys(Put(rels, key, m))
    ensures forall k :: 0 <= k < |Put(rels, key, m)| ==> Consistent(Put(rels, key, m)[k].1)
  {
    PutUnique(rels, key, m);
    var r := Put(rels, key, m);
    forall k | 0 <= k < |r|
      ensures Consistent(r[k].1)
    {
      if k < |rels| {
        assert r[k] == (if rels[k].0 == key then (key, m) else rels[k]);
      }
    }
  }

  /** The engine never records a culture, so a fresh engine never reaches the missing recorder. */
  lemma NoUsageNoFailure(i: Interaction)
    ensures !CrossCulturalFails([], i)
  {
  }
}
