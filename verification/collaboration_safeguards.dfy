/**
 * collaboration_safeguards.py: per-agent collaboration scores, disagreement detection,
 * round-robin roles and their rotation, four detectors of competitive patterns, and the
 * orchestrator that records each contribution and decides what to do next.
 */
module Safeguards {
  import opened Wrappers
  import opened Numeric
  import opened Strs
  import opened Dicts
  import opened Seqs

  datatype ContributionType = Propose | Critique | Improve | Synthesize | Support | Question

  /** The five roles of this file, in declaration order. */
  datatype Role = Proposer | Critic | Synthesizer | Implementer | Observer

  const Roles: seq<Role> := [Proposer, Critic, Synthesizer, Implementer, Observer]

  /**
   * An `AgentContribution`; a missing `builds_on` list is the empty list (both are falsy),
   * and the timestamp is not modelled.
   */
  datatype Contribution = Contribution(
    agentId: string,
    content: string,
    kind: ContributionType,
    buildsOn: seq<string>,
    supportsAgent: Option<string>)

  /** `elif contribution.supports_agent:` -- present and not the empty string. */
  predicate Supports(c: Contribution)
  {
    c.supportsAgent.Some? && c.supportsAgent.value != ""
  }

  // ---------------------------------------------------------------------------------
  // CollaborativeMetrics

  datatype AgentScore = AgentScore(
    cooperation: int,
    synthesisPoints: int,
    helpfulCritiques: int,
    buildsOnOthers: int,
    competitiveFlags: int)

  const NewScore: AgentScore := AgentScore(0, 0, 0, 0, 0)

  const CompetitiveKeywords: seq<string> := ["wrong", "better than", "instead of", "reject", "disagree completely"]

  predicate IsCompetitive(content: string)
  {
    ContainsAny(Lower(content), CompetitiveKeywords)
  }

  /** The reward branches of record_contribution, then the competitive-language flag. */
  function Scored(s: AgentScore, c: Contribution): AgentScore
  {
    var rewarded :=
      if c.kind == Synthesize then s.(synthesisPoints := s.synthesisPoints + 2)
      else if c.kind == Improve then s.(cooperation := s.cooperation + 1)
      else if c.buildsOn != [] then s.(buildsOnOthers := s.buildsOnOthers + |c.buildsOn|)
      else if Supports(c) then s.(cooperation := s.cooperation + 1)
      else s;
    if IsCompetitive(c.content) then rewarded.(competitiveFlags := rewarded.competitiveFlags + 1) else rewarded
  }

  /**
   * Exactly one reward branch fires, in the order SYNTHESIZE, IMPROVE, builds_on, supports:
   * the gains of the three rewarded counters are those of the first branch whose condition
   * holds, and helpful critiques never change.
   */
  lemma ScoredBranches(s: AgentScore, c: Contribution)
    ensures var r := Scored(s, c);
      var gains := (r.cooperation - s.cooperation, r.synthesisPoints - s.synthesisPoints, r.buildsOnOthers - s.buildsOnOthers);
      gains == (if c.kind == Synthesize then (0, 2, 0)
                else if c.kind == Improve then (1, 0, 0)
                else if c.buildsOn != [] then (0, 0, |c.buildsOn|)
                else if Supports(c) then (1, 0, 0)
                else (0, 0, 0)) &&
      r.helpfulCritiques == s.helpfulCritiques
  {
  }

  /** `competitive_flags` rises by one exactly when a competitive keyword occurs, and never by more. */
  lemma ScoredFlags(s: AgentScore, c: Contribution)
    ensures Scored(s, c).competitiveFlags == s.competitiveFlags + (if IsCompetitive(c.content) then 1 else 0)
  {
  }

  /** `agent_scores` after record_contribution: the agent's entry, created at zero if new, is rescored. */
  function Record(scores: Dict<string, AgentScore>, c: Contribution): Dict<string, AgentScore>
  {
    Put(scores, c.agentId, Scored(GetOr(scores, c.agentId, NewScore), c))
  }

  /** Recording the contributions `cs` in turn. */
  function RecordAll(scores: Dict<string, AgentScore>, cs: seq<Contribution>): Dict<string, AgentScore>
  {
    if cs == [] then scores else Record(RecordAll(scores, cs[..|cs| - 1]), cs[|cs| - 1])
  }

  function CompetitiveCount(cs: seq<Contribution>): nat
  {
    if cs == [] then 0
    else CompetitiveCount(cs[..|cs| - 1]) + (if IsCompetitive(cs[|cs| - 1].content) then 1 else 0)
  }

  function FlagsOf(s: AgentScore): int
  {
    s.competitiveFlags
  }

  function CooperationOf(s: AgentScore): int
  {
    s.cooperation
  }

  /** Recording a contribution adds one to the total of the flags exactly when it is competitive. */
  lemma RecordFlags(scores: Dict<string, AgentScore>, c: Contribution)
    requires UniqueKeys(scores)
    ensures UniqueKeys(Record(scores, c))
    ensures SumOf(Record(scores, c), FlagsOf) == SumOf(scores, FlagsOf) + (if IsCompetitive(c.content) then 1 else 0)
  {
    var prior := GetOr(scores, c.agentId, NewScore);
    PutUnique(scores, c.agentId, Scored(prior, c));
    SumOfPutOr(scores, c.agentId, NewScore, Scored(prior, c), FlagsOf);
    ScoredFlags(prior, c);
  }

  /**
   * Starting from no agents, the competitive warnings of the health report count exactly
   * the recorded contributions that used competitive language.
   */
  lemma {:induction false} FlagsCountCompetitive(cs: seq<Contribution>)
    ensures UniqueKeys(RecordAll([], cs))
    ensures SumOf(RecordAll([], cs), FlagsOf) == CompetitiveCount(cs)
  {
    if cs != [] {
      FlagsCountCompetitive(cs[..|cs| - 1]);
      RecordFlags(RecordAll([], cs[..|cs| - 1]), cs[|cs| - 1]);
    }
  }

  /** A new agent's entry is the zero score, rescored by its first contribution. */
  lemma RecordNewAgent(scores: Dict<string, AgentScore>, c: Contribution)
    requires UniqueKeys(scores) && !HasKey(scores, c.agentId)
    ensures Get(Record(scores, c), c.agentId) == Some(Scored(NewScore, c))
    ensures |Record(scores, c)| == |scores| + 1
  {
    PutUnique(scores, c.agentId, Scored(NewScore, c));
  }

  datatype Health =
    | NoData
    | Health(collaborationScore: real, synthesisEvents: int, competitiveWarnings: int, healthy: bool)

  /** get_collaboration_health */
  function CollaborationHealth(scores: Dict<string, AgentScore>, synthesisCount: int): Health
  {
    if |scores| == 0 then NoData
    else
      var flags := SumOf(scores, FlagsOf);
      Health((SumOf(scores, CooperationOf) as real) / (|scores| as real), synthesisCount, flags, flags < |scores| * 2)
  }

  /**
   * After recording `cs` from scratch: no data iff nothing was recorded; otherwise the
   * report is healthy iff fewer than two competitive contributions per agent were recorded.
   */
  lemma HealthAfter(cs: seq<Contribution>, synthesisCount: int)
    ensures var scores := RecordAll([], cs);
      var h := CollaborationHealth(scores, synthesisCount);
      (h.NoData? <==> cs == []) &&
      (h.Health? ==> h.competitiveWarnings == CompetitiveCount(cs) &&
                     (h.healthy <==> CompetitiveCount(cs) < 2 * |scores|))
  {
    FlagsCountCompetitive(cs);
    if cs != [] {
      assert HasKey(Record(RecordAll([], cs[..|cs| - 1]), cs[|cs| - 1]), cs[|cs| - 1].agentId);
    }
  }

  class Metrics {
    var agentScores: Dict<string, AgentScore>
    var synthesisCount: int
    var constructiveCritiques: int

    constructor ()
      ensures agentScores == [] && synthesisCount == 0 && constructiveCritiques == 0
    {
      agentScores := [];
      synthesisCount := 0;
      constructiveCritiques := 0;
    }

    /** record_contribution */
    method RecordContribution(c: Contribution)
      modifies this
      ensures agentScores == Record(old(agentScores), c)
      ensures synthesisCount == old(synthesisCount) + (if c.kind == Synthesize then 1 else 0)
      ensures constructiveCritiques == old(constructiveCritiques)
    {
      var prior := GetOr(agentScores, c.agentId, NewScore);
      var score := prior;
      if c.kind == Synthesize {
        score := score.(synthesisPoints := score.synthesisPoints + 2);
        synthesisCount := synthesisCount + 1;
      } else if c.kind == Improve {
        score := score.(cooperation := score.cooperation + 1);
      } else if c.buildsOn != [] {
        score := score.(buildsOnOthers := score.buildsOnOthers + |c.buildsOn|);
      } else if Supports(c) {
        score := score.(cooperation := score.cooperation + 1);
      }
      if IsCompetitive(c.content) {
        score := score.(competitiveFlags := score.competitiveFlags + 1);
      }
      assert score == Scored(prior, c);
      agentScores := Put(agentScores, c.agentId, score);
    }

    function Health(): Health
      reads this
    {
      CollaborationHealth(agentScores, synthesisCount)
    }
  }

  // ---------------------------------------------------------------------------------
  // ConsensusBuilder

  const DisagreementThreshold: nat := 3

  function CritiqueCount(cs: seq<Contribution>): (r: nat)
    ensures r <= |cs|
  {
    if cs == [] then 0
    else CritiqueCount(cs[..|cs| - 1]) + (if cs[|cs| - 1].kind == Critique then 1 else 0)
  }

  /** At least three of the last five contributions are critiques. */
  predicate Disagreement(cs: seq<Contribution>)
  {
    CritiqueCount(Recent(cs, 5)) >= DisagreementThreshold
  }

  /** detect_disagreement: counts the critiques among the last five contributions. */
  method DetectDisagreement(cs: seq<Contribution>) returns (b: bool)
    ensures b <==> Disagreement(cs)
  {
    var recent := Recent(cs, 5);
    var count := 0;
    var k := 0;
    while k < |recent|
      invariant k <= |recent|
      invariant count == CritiqueCount(recent[..k])
    {
      assert recent[..k + 1][..k] == recent[..k];
      if recent[k].kind == Critique {
        count := count + 1;
      }
      k := k + 1;
    }
    assert recent[..k] == recent;
    b := count >= DisagreementThreshold;
  }

  lemma {:induction false} CritiqueCountSuffix(cs: seq<Contribution>, m: nat)
    requires m <= |cs| && forall k :: |cs| - m <= k < |cs| ==> cs[k].kind == Critique
    ensures CritiqueCount(cs) >= m
  {
    if m > 0 {
      CritiqueCountSuffix(cs[..|cs| - 1], m - 1);
    }
  }

  /**
   * A disagreement needs at least three contributions, and three critiques in a row at
   * the end of the conversation always make one.
   */
  lemma DisagreementBounds(cs: seq<Contribution>)
    ensures Disagreement(cs) ==> |cs| >= 3
    ensures |cs| >= 3 && (forall k :: |cs| - 3 <= k < |cs| ==> cs[k].kind == Critique) ==> Disagreement(cs)
  {
    var recent := Recent(cs, 5);
    if |cs| >= 3 && forall k :: |cs| - 3 <= k < |cs| ==> cs[k].kind == Critique {
      forall k | |recent| - 3 <= k < |recent|
        ensures recent[k].kind == Critique
      {
        assert recent[k] == cs[|cs| - |recent| + k];
      }
      CritiqueCountSuffix(recent, 3);
    }
  }

  // ---------------------------------------------------------------------------------
  // RoleRotator

  /** `{agent_ids[i]: roles[i % 5]}` built in order; a repeated id keeps its first position and its last role. */
  function RoundRobinPairs(agentIds: seq<string>): (r: seq<(string, Role)>)
    ensures |r| == |agentIds|
    ensures forall i :: 0 <= i < |r| ==> r[i] == (agentIds[i], Roles[i % 5])
  {
    seq(|agentIds|, i requires 0 <= i < |agentIds| => (agentIds[i], Roles[i % 5]))
  }

  function RoundRobin(agentIds: seq<string>): Dict<string, Role>
  {
    FromPairs(RoundRobinPairs(agentIds))
  }

  predicate Distinct(ids: seq<string>)
  {
    forall i, j :: 0 <= i < j < |ids| ==> ids[i] != ids[j]
  }

  /** With distinct agent ids no entry is overwritten: the assignment lists every agent once, in the given order. */
  lemma {:induction false} RoundRobinInOrder(agentIds: seq<string>)
    requires Distinct(agentIds)
    ensures RoundRobin(agentIds) == RoundRobinPairs(agentIds)
  {
    var pairs := RoundRobinPairs(agentIds);
    if agentIds != [] {
      var n := |agentIds| - 1;
      RoundRobinInOrder(agentIds[..n]);
      assert pairs[..n] == RoundRobinPairs(agentIds[..n]);
      assert !HasKey(pairs[..n], agentIds[n]);
    }
  }

  /** With distinct agent ids, agent `i` (in the given order) is assigned role `i mod 5`. */
  lemma RoundRobinAssigns(agentIds: seq<string>)
    requires Distinct(agentIds)
    ensures forall i :: 0 <= i < |agentIds| ==> Get(RoundRobin(agentIds), agentIds[i]) == Some(Roles[i % 5])
  {
    RoundRobinInOrder(agentIds);
    FromPairsUnique(RoundRobinPairs(agentIds));
    forall i | 0 <= i < |agentIds|
      ensures Get(RoundRobin(agentIds), agentIds[i]) == Some(Roles[i % 5])
    {
      var r := RoundRobin(agentIds);
      var x := IndexOf(r, agentIds[i]).value;
      assert x == i;
    }
  }

  /** `(i + 1) % n` for a position `i < n`. */
  function Next(i: nat, n: nat): nat
  {
    if i + 1 < n then i + 1 else 0
  }

  lemma NextIsMod(i: nat, n: nat)
    requires i < n
    ensures (i + 1) % n == Next(i, n)
  {
  }

  /** Each agent takes the role its successor held; the last agent takes the first agent's role. */
  function Rotated<V(==)>(d: Dict<string, V>): (r: Dict<string, V>)
    ensures |r| == |d|
    ensures forall i :: 0 <= i < |d| ==> r[i] == (d[i].0, d[Next(i, |d|)].1)
  {
    seq(|d|, i requires 0 <= i < |d| => (d[i].0, d[Next(i, |d|)].1))
  }

  /** Rotation keeps the agents, their order, and the multiset of roles. */
  lemma RotatedPermutes<V>(d: Dict<string, V>)
    ensures Keys(Rotated(d)) == Keys(d)
    ensures multiset(Values(Rotated(d))) == multiset(Values(d))
  {
    if d != [] {
      var vs := Values(d);
      assert Values(Rotated(d)) == vs[1..] + [vs[0]];
      assert vs == [vs[0]] + vs[1..];
    }
  }

  /** `r` holds the first `|r|` entries of the rotation of `d`. */
  predicate RotatedPrefix<V(==)>(d: Dict<string, V>, r: Dict<string, V>)
  {
    |r| <= |d| && forall x :: 0 <= x < |r| ==> r[x] == (d[x].0, d[Next(x, |d|)].1)
  }

  /** One step of `rotate_roles`' loop: the next agent is new to the partial result and takes its successor's role. */
  lemma RotateStep<V>(d: Dict<string, V>, r: Dict<string, V>)
    requires UniqueKeys(d) && RotatedPrefix(d, r) && |r| < |d|
    ensures RotatedPrefix(d, Put(r, d[|r|].0, d[Next(|r|, |d|)].1))
    ensures |Put(r, d[|r|].0, d[Next(|r|, |d|)].1)| == |r| + 1
  {
    var i := |r|;
    assert !HasKey(r, d[i].0) by {
      forall x | 0 <= x < i
        ensures r[x].0 != d[i].0
      {
        assert r[x].0 == d[x].0;
      }
    }
  }

  lemma RotatedUnique<V>(d: Dict<string, V>)
    requires UniqueKeys(d)
    ensures UniqueKeys(Rotated(d))
  {
    var r := Rotated(d);
    forall x, y | 0 <= x < y < |r|
      ensures r[x].0 != r[y].0
    {
      assert r[x].0 == d[x].0 && r[y].0 == d[y].0;
    }
  }

  function RotatedTimes<V(==)>(d: Dict<string, V>, k: nat): Dict<string, V>
  {
    if k == 0 then d else Rotated(RotatedTimes(d, k - 1))
  }

  /** The position whose role agent `i` holds after `k` rotations. */
  function Shift(i: nat, k: nat, n: nat): (r: nat)
    requires i < n
    ensures r < n
    decreases k
  {
    if k == 0 then i else Shift(Next(i, n), k - 1, n)
  }

  lemma {:induction false} ShiftWraps(i: nat, k: nat, n: nat)
    requires i < n && k <= n
    ensures Shift(i, k, n) == if i + k < n then i + k else i + k - n
    decreases k
  {
    if k > 0 {
      ShiftWraps(Next(i, n), k - 1, n);
    }
  }

  lemma {:induction false} RotatedTimesAt<V>(d: Dict<string, V>, k: nat)
    ensures |RotatedTimes(d, k)| == |d|
    ensures forall i :: 0 <= i < |d| ==> RotatedTimes(d, k)[i] == (d[i].0, d[Shift(i, k, |d|)].1)
  {
    if k > 0 {
      var prev := RotatedTimes(d, k - 1);
      var r := RotatedTimes(d, k);
      RotatedTimesAt(d, k - 1);
      forall i | 0 <= i < |d|
        ensures r[i] == (d[i].0, d[Shift(i, k, |d|)].1)
      {
        assert r[i] == (prev[i].0, prev[Next(i, |d|)].1);
      }
    }
  }

  lemma RotationCyclesAt<V>(d: Dict<string, V>, i: nat)
    requires i < |d|
    ensures |RotatedTimes(d, |d|)| == |d| && RotatedTimes(d, |d|)[i] == d[i]
  {
    RotatedTimesAt(d, |d|);
    ShiftWraps(i, |d|, |d|);
  }

  /** Rotating as many times as there are agents restores the original assignment. */
  lemma RotationCycles<V>(d: Dict<string, V>)
    ensures RotatedTimes(d, |d|) == d
  {
    var r := RotatedTimes(d, |d|);
    RotatedTimesAt(d, |d|);
    forall i | 0 <= i < |d|
      ensures r[i] == d[i]
    {
      RotationCyclesAt(d, i);
    }
  }

  class RoleRotator {
    var currentAssignments: map<string, Dict<string, Role>>
    var rotationHistory: seq<(string, Dict<string, Role>)>

    /** Every stored assignment is a dictionary, so its agents are distinct. */
    ghost predicate Valid()
      reads this
    {
      forall s :: s in currentAssignments ==> UniqueKeys(currentAssignments[s])
    }

    constructor ()
      ensures Valid() && currentAssignments == map[] && rotationHistory == []
    {
      currentAssignments := map[];
      rotationHistory := [];
    }

    /** assign_roles: role `i mod 5` to the `i`-th agent; stored for the session and logged. */
    method AssignRoles(agentIds: seq<string>, sessionId: string) returns (assignments: Dict<string, Role>)
      requires Valid()
      modifies this
      ensures Valid()
      ensures assignments == RoundRobin(agentIds)
      ensures currentAssignments == old(currentAssignments)[sessionId := assignments]
      ensures rotationHistory == old(rotationHistory) + [(sessionId, assignments)]
    {
      assignments := [];
      var i := 0;
      while i < |agentIds|
        invariant i <= |agentIds|
        invariant assignments == FromPairs(RoundRobinPairs(agentIds)[..i])
      {
        assert RoundRobinPairs(agentIds)[..i + 1][..i] == RoundRobinPairs(agentIds)[..i];
        assignments := Put(assignments, agentIds[i], Roles[i % |Roles|]);
        i := i + 1;
      }
      assert RoundRobinPairs(agentIds)[..i] == RoundRobinPairs(agentIds);
      FromPairsUnique(RoundRobinPairs(agentIds));
      currentAssignments := currentAssignments[sessionId := assignments];
      rotationHistory := rotationHistory + [(sessionId, assignments)];
    }

    /** rotate_roles: `{}` and no change for an unknown session, otherwise the stored roles move one agent up. */
    method RotateRoles(sessionId: string) returns (r: Dict<string, Role>)
      requires Valid()
      modifies this
      ensures Valid() && rotationHistory == old(rotationHistory)
      ensures sessionId !in old(currentAssignments) ==> r == [] && currentAssignments == old(currentAssignments)
      ensures sessionId in old(currentAssignments) ==>
        r == Rotated(old(currentAssignments)[sessionId]) &&
        currentAssignments == old(currentAssignments)[sessionId := r]
    {
      if sessionId !in currentAssignments {
        return [];
      }
      var current := currentAssignments[sessionId];
      var agentIds := Keys(current);
      var roles := Values(current);
      assert UniqueKeys(current);
      r := [];
      var i := 0;
      while i < |agentIds|
        invariant i <= |agentIds|
        invariant |r| == i && RotatedPrefix(current, r)
        invariant currentAssignments == old(currentAssignments) && rotationHistory == old(rotationHistory)
      {
        NextIsMod(i, |roles|);
        RotateStep(current, r);
        r := Put(r, agentIds[i], roles[(i + 1) % |roles|]);
        i := i + 1;
      }
      assert r == Rotated(current);
      RotatedUnique(current);
      ghost var before := currentAssignments;
      currentAssignments := currentAssignments[sessionId := r];
      forall s | s in currentAssignments
        ensures UniqueKeys(currentAssignments[s])
      {
        if s != sessionId {
          assert currentAssignments[s] == before[s];
        }
      }
    }
  }

  // ---------------------------------------------------------------------------------
  // CollaborationMonitor detectors

  /** The keys of `warning_patterns`, in their order. */
  datatype Pattern = ExcessiveContradictions | IdeaHoarding | CreditGrabbing | EchoChamber

  /** Some earlier contribution of `agentId` was a critique. */
  predicate CritiquedBefore(cs: seq<Contribution>, agentId: string)
  {
    exists k :: 0 <= k < |cs| && cs[k].kind == Critique && cs[k].agentId == agentId
  }

  /** Critiques by agents who had already critiqued. */
  function RepeatCritiques(cs: seq<Contribution>): (r: nat)
    ensures r <= CritiqueCount(cs)
  {
    if cs == [] then 0
    else
      var init := cs[..|cs| - 1];
      var c := cs[|cs| - 1];
      RepeatCritiques(init) + (if c.kind == Critique && CritiquedBefore(init, c.agentId) then 1 else 0)
  }

  /** _detect_contradictions */
  function Contradictions(cs: seq<Contribution>): (r: int)
    ensures 0 <= r <= 3
    ensures r < 3 ==> r == RepeatCritiques(cs)
  {
    if RepeatCritiques(cs) < 3 then RepeatCritiques(cs) else 3
  }

  /** A conversation in which no agent critiques twice shows no contradictions. */
  lemma {:induction false} NoRepeatNoContradiction(cs: seq<Contribution>)
    requires forall i, j :: 0 <= i < j < |cs| && cs[i].kind == Critique && cs[j].kind == Critique ==> cs[i].agentId != cs[j].agentId
    ensures Contradictions(cs) == 0
  {
    if cs != [] {
      NoRepeatNoContradiction(cs[..|cs| - 1]);
    }
  }

  /** `agent_contribution_counts`: contributions per agent, agents in order of first appearance. */
  function AgentCounts(cs: seq<Contribution>): Dict<string, int>
  {
    if cs == [] then []
    else
      var d := AgentCounts(cs[..|cs| - 1]);
      var a := cs[|cs| - 1].agentId;
      Put(d, a, GetOr(d, a, 0) + 1)
  }

  function CountOf(n: int): int
  {
    n
  }

  /** Every agent that contributed has a positive count, and the counts add up to the number of contributions. */
  lemma {:induction false} AgentCountsTotal(cs: seq<Contribution>)
    ensures UniqueKeys(AgentCounts(cs))
    ensures SumOf(AgentCounts(cs), CountOf) == |cs|
    ensures forall i :: 0 <= i < |AgentCounts(cs)| ==> AgentCounts(cs)[i].1 > 0
    ensures |AgentCounts(cs)| > 0 <==> cs != []
  {
    if cs != [] {
      var init := cs[..|cs| - 1];
      var d := AgentCounts(init);
      var a := cs[|cs| - 1].agentId;
      AgentCountsTotal(init);
      assert AgentCounts(cs) == Put(d, a, GetOr(d, a, 0) + 1);
      PutUnique(d, a, GetOr(d, a, 0) + 1);
      SumOfPut(d, a, GetOr(d, a, 0) + 1, CountOf);
      var r := Put(d, a, GetOr(d, a, 0) + 1);
      forall i | 0 <= i < |r|
        ensures r[i].1 > 0
      {
        if i < |d| {
          assert r[i] == (if d[i].0 == a then (a, GetOr(d, a, 0) + 1) else d[i]);
        }
      }
    }
  }

  function MaxCount(counts: seq<int>): int
    requires |counts| > 0
  {
    if |counts| == 1 then counts[0]
    else var m := MaxCount(counts[..|counts| - 1]); if counts[|counts| - 1] > m then counts[|counts| - 1] else m
  }

  function MinCount(counts: seq<int>): int
    requires |counts| > 0
  {
    if |counts| == 1 then counts[0]
    else var m := MinCount(counts[..|counts| - 1]); if counts[|counts| - 1] < m then counts[|counts| - 1] else m
  }

  /** _detect_hoarding: 2 when one agent has more than three times the contributions of another, 1 above twice. */
  function Hoarding(cs: seq<Contribution>): (r: int)
    ensures 0 <= r <= 2
    ensures cs == [] ==> r == 0
  {
    var counts := Values(AgentCounts(cs));
    if |counts| == 0 then 0
    else
      var hi := MaxCount(counts);
      var lo := MinCount(counts);
      if hi > lo * 3 then 2 else if hi > lo * 2 then 1 else 0
  }

  lemma {:induction false} ConstantMaxMin(counts: seq<int>, v: int)
    requires |counts| > 0 && forall k :: 0 <= k < |counts| ==> counts[k] == v
    ensures MaxCount(counts) == v && MinCount(counts) == v
  {
    if |counts| > 1 {
      ConstantMaxMin(counts[..|counts| - 1], v);
    }
  }

  /** When every agent contributed equally often there is no hoarding; in particular a lone agent never hoards. */
  lemma EvenParticipationNoHoarding(cs: seq<Contribution>)
    requires cs != []
    requires forall i :: 0 <= i < |AgentCounts(cs)| ==> AgentCounts(cs)[i].1 == AgentCounts(cs)[0].1
    ensures Hoarding(cs) == 0
  {
    var counts := Values(AgentCounts(cs));
    AgentCountsTotal(cs);
    ConstantMaxMin(counts, counts[0]);
  }

  const CreditKeywords: seq<string> := ["my idea", "i proposed", "as i said", "my solution"]

  function CreditFlags(cs: seq<Contribution>): (r: nat)
    ensures r <= |cs|
  {
    if cs == [] then 0
    else CreditFlags(cs[..|cs| - 1]) + (if ContainsAny(Lower(cs[|cs| - 1].content), CreditKeywords) then 1 else 0)
  }

  /** _detect_credit_grabbing */
  function CreditGrabbingLevel(cs: seq<Contribution>): (r: int)
    ensures 0 <= r <= 3
    ensures r < 3 ==> r == CreditFlags(cs)
  {
    if CreditFlags(cs) < 3 then CreditFlags(cs) else 3
  }

  function KindCount(cs: seq<Contribution>, kind: ContributionType): (r: nat)
    ensures r <= |cs|
  {
    if cs == [] then 0
    else KindCount(cs[..|cs| - 1], kind) + (if cs[|cs| - 1].kind == kind then 1 else 0)
  }

  /** _detect_echo_chamber */
  function EchoChamberLevel(cs: seq<Contribution>): (r: int)
    ensures r == 0 || r == 2
    ensures |cs| < 5 ==> r == 0
    ensures r == 2 <==> (KindCount(cs, Critique) == 0 && |cs| > 10) || (KindCount(cs, Synthesize) == 0 && |cs| > 15)
  {
    if |cs| < 5 then 0
    else if KindCount(cs, Critique) == 0 && |cs| > 10 then 2
    else if KindCount(cs, Synthesize) == 0 && |cs| > 15 then 2
    else 0
  }

  /** A detector's level, kept only when positive. */
  function Level(p: Pattern, level: int): Dict<Pattern, int>
  {
    if level > 0 then [(p, level)] else []
  }

  /** `warning_patterns` from the four detector levels, in their order, keeping only positive levels. */
  function WarningsOf(contradictions: int, hoarding: int, credit: int, echo: int): Dict<Pattern, int>
  {
    Level(ExcessiveContradictions, contradictions) + Level(IdeaHoarding, hoarding) +
    Level(CreditGrabbing, credit) + Level(EchoChamber, echo)
  }

  function Warnings(cs: seq<Contribution>): Dict<Pattern, int>
  {
    WarningsOf(Contradictions(cs), Hoarding(cs), CreditGrabbingLevel(cs), EchoChamberLevel(cs))
  }

  /** Some level exceeds 2. */
  predicate InterventionNeeded(warnings: Dict<Pattern, int>)
  {
    exists k :: 0 <= k < |warnings| && warnings[k].1 > 2
  }

  lemma InterventionConcat(a: Dict<Pattern, int>, b: Dict<Pattern, int>)
    ensures InterventionNeeded(a + b) <==> InterventionNeeded(a) || InterventionNeeded(b)
  {
    if InterventionNeeded(a + b) {
      var i :| 0 <= i < |a + b| && (a + b)[i].1 > 2;
      if i >= |a| {
        assert b[i - |a|].1 > 2;
      }
    }
    if InterventionNeeded(a) {
      var j :| 0 <= j < |a| && a[j].1 > 2;
      assert (a + b)[j].1 > 2;
    }
    if InterventionNeeded(b) {
      var j :| 0 <= j < |b| && b[j].1 > 2;
      assert (a + b)[|a| + j].1 > 2;
    }
  }

  /** The recommendation `_generate_recommendations` gives for each pattern. */
  function Advice(p: Pattern): string
  {
    match p
    case ExcessiveContradictions => "Trigger consensus-building round"
    case IdeaHoarding => "Rotate speaking order or assign observer roles"
    case CreditGrabbing => "Focus on group outcomes, de-emphasize individual contributions"
    case EchoChamber => "Introduce devil's advocate role or external perspective"
  }

  function AdviceIf(warnings: Dict<Pattern, int>, p: Pattern): seq<string>
  {
    if HasKey(warnings, p) then [Advice(p)] else []
  }

  /** _generate_recommendations: one line per warning present, in a fixed order. */
  function Recommendations(warnings: Dict<Pattern, int>): seq<string>
  {
    AdviceIf(warnings, ExcessiveContradictions) + AdviceIf(warnings, IdeaHoarding) +
    AdviceIf(warnings, CreditGrabbing) + AdviceIf(warnings, EchoChamber)
  }

  datatype Analysis = Analysis(warnings: Dict<Pattern, int>, interventionNeeded: bool, recommendations: seq<string>)

  /** analyze_conversation */
  function Analyze(cs: seq<Contribution>): Analysis
  {
    var w := Warnings(cs);
    Analysis(w, InterventionNeeded(w), Recommendations(w))
  }

  /** The level the detectors gave pattern `p`. */
  function LevelOf(p: Pattern, contradictions: int, hoarding: int, credit: int, echo: int): int
  {
    match p
    case ExcessiveContradictions => contradictions
    case IdeaHoarding => hoarding
    case CreditGrabbing => credit
    case EchoChamber => echo
  }

  /** The warnings hold exactly the patterns whose level is positive. */
  lemma WarningKeys(a: int, b: int, c: int, d: int, p: Pattern)
    ensures HasKey(WarningsOf(a, b, c, d), p) <==> LevelOf(p, a, b, c, d) > 0
  {
    var l1, l2, l3, l4 := Level(ExcessiveContradictions, a), Level(IdeaHoarding, b), Level(CreditGrabbing, c), Level(EchoChamber, d);
    HasKeyConcat(l1, l2, p);
    HasKeyConcat(l1 + l2, l3, p);
    HasKeyConcat(l1 + l2 + l3, l4, p);
    if LevelOf(p, a, b, c, d) > 0 {
      var l := match p
        case ExcessiveContradictions => l1
        case IdeaHoarding => l2
        case CreditGrabbing => l3
        case EchoChamber => l4;
      assert l[0].0 == p;
    }
  }

  /** Every kept level is positive. */
  lemma WarningsPositive(a: int, b: int, c: int, d: int)
    ensures var w := WarningsOf(a, b, c, d); forall k :: 0 <= k < |w| ==> w[k].1 > 0
  {
    var l1, l2, l3, l4 := Level(ExcessiveContradictions, a), Level(IdeaHoarding, b), Level(CreditGrabbing, c), Level(EchoChamber, d);
    var w := l1 + l2 + l3 + l4;
    forall k | 0 <= k < |w|
      ensures w[k].1 > 0
    {
      var n1, n2, n3 := |l1|, |l1| + |l2|, |l1| + |l2| + |l3|;
      if k < n1 {
        assert w[k] == l1[k];
      } else if k < n2 {
        assert w[k] == l2[k - n1];
      } else if k < n3 {
        assert w[k] == l3[k - n2];
      } else {
        assert w[k] == l4[k - n3];
      }
    }
  }

  /** An intervention is called for exactly when some level exceeds 2. */
  lemma WarningLevels(a: int, b: int, c: int, d: int)
    ensures InterventionNeeded(WarningsOf(a, b, c, d)) <==> a > 2 || b > 2 || c > 2 || d > 2
  {
    var l1, l2, l3, l4 := Level(ExcessiveContradictions, a), Level(IdeaHoarding, b), Level(CreditGrabbing, c), Level(EchoChamber, d);
    InterventionConcat(l1, l2);
    InterventionConcat(l1 + l2, l3);
    InterventionConcat(l1 + l2 + l3, l4);
    assert InterventionNeeded(l1) <==> a > 2 by {
      if a > 2 {
        assert l1[0].1 > 2;
      }
    }
    assert InterventionNeeded(l2) <==> b > 2 by {
      if b > 2 {
        assert l2[0].1 > 2;
      }
    }
    assert InterventionNeeded(l3) <==> c > 2 by {
      if c > 2 {
        assert l3[0].1 > 2;
      }
    }
    assert InterventionNeeded(l4) <==> d > 2 by {
      if d > 2 {
        assert l4[0].1 > 2;
      }
    }
  }

  lemma AdviceForLevel(a: int, b: int, c: int, d: int, p: Pattern)
    ensures |AdviceIf(WarningsOf(a, b, c, d), p)| == |Level(p, LevelOf(p, a, b, c, d))|
  {
    WarningKeys(a, b, c, d, p);
  }

  /** One recommendation per warning. */
  lemma RecommendationPerWarning(a: int, b: int, c: int, d: int)
    ensures |Recommendations(WarningsOf(a, b, c, d))| == |WarningsOf(a, b, c, d)|
  {
    AdviceForLevel(a, b, c, d, ExcessiveContradictions);
    AdviceForLevel(a, b, c, d, IdeaHoarding);
    AdviceForLevel(a, b, c, d, CreditGrabbing);
    AdviceForLevel(a, b, c, d, EchoChamber);
  }

  /**
   * Only positive levels are kept, one recommendation is produced per warning, and since
   * hoarding and echo-chamber levels never exceed 2, only the capped contradiction and
   * credit-grabbing detectors can call for an intervention.
   */
  lemma AnalysisShape(cs: seq<Contribution>)
    ensures var a := Analyze(cs);
      (forall k :: 0 <= k < |a.warnings| ==> a.warnings[k].1 > 0) &&
      |a.recommendations| == |a.warnings| &&
      (a.interventionNeeded <==> Contradictions(cs) == 3 || CreditGrabbingLevel(cs) == 3)
  {
    var c, h, g, e := Contradictions(cs), Hoarding(cs), CreditGrabbingLevel(cs), EchoChamberLevel(cs);
    assert Warnings(cs) == WarningsOf(c, h, g, e);
    RecommendationPerWarning(c, h, g, e);
    WarningsPositive(c, h, g, e);
    WarningLevels(c, h, g, e);
  }

  // ---------------------------------------------------------------------------------
  // CooperativeOrchestrator

  datatype Action =
    | SynthesisTriggered(participants: seq<string>)
    | InterventionRequired(warnings: Dict<Pattern, int>, recommendations: seq<string>)
    | Continue(health: Health)

  function AgentIds(cs: seq<Contribution>): (r: seq<string>)
    ensures |r| == |cs| && forall k :: 0 <= k < |cs| ==> r[k] == cs[k].agentId
  {
    seq(|cs|, k requires 0 <= k < |cs| => cs[k].agentId)
  }

  /**
   * What process_contribution answers for the session's contributions: synthesis among
   * the last five speakers on disagreement, checked first; otherwise an intervention if
   * the monitor calls for one; otherwise the metrics' health.
   */
  function Decide(cs: seq<Contribution>, health: Health): Action
  {
    if Disagreement(cs) then SynthesisTriggered(AgentIds(Recent(cs, 5)))
    else
      var a := Analyze(cs);
      if a.interventionNeeded then InterventionRequired(a.warnings, a.recommendations) else Continue(health)
  }

  function SessionOf(sessions: map<string, seq<Contribution>>, sessionId: string): seq<Contribution>
  {
    if sessionId in sessions then sessions[sessionId] else []
  }

  /** Per-agent statistics of the collaboration report. */
  datatype AgentStats = AgentStats(contributions: int, types: Dict<ContributionType, int>, buildsOnOthers: int)

  /** One more contribution of kind `kind` in a per-type count. */
  function Bump(types: Dict<ContributionType, int>, kind: ContributionType): Dict<ContributionType, int>
  {
    Put(types, kind, GetOr(types, kind, 0) + 1)
  }

  function Tallied(s: AgentStats, c: Contribution): AgentStats
  {
    AgentStats(s.contributions + 1, Bump(s.types, c.kind), s.buildsOnOthers + |c.buildsOn|)
  }

  const NoStats: AgentStats := AgentStats(0, [], 0)

  /** The `agent_stats` dictionary after the report's loop has seen `cs`. */
  function StatsOf(cs: seq<Contribution>): Dict<string, AgentStats>
  {
    if cs == [] then []
    else
      var d := StatsOf(cs[..|cs| - 1]);
      var c := cs[|cs| - 1];
      Put(d, c.agentId, Tallied(GetOr(d, c.agentId, NoStats), c))
  }

  lemma StatsStep(cs: seq<Contribution>, k: nat, stats: Dict<string, AgentStats>, s: AgentStats)
    requires k < |cs| && stats == StatsOf(cs[..k])
    requires s == Tallied(GetOr(stats, cs[k].agentId, NoStats), cs[k])
    ensures Put(stats, cs[k].agentId, s) == StatsOf(cs[..k + 1])
  {
    assert cs[..k + 1][..k] == cs[..k];
  }

  /** The report's loop over a session's contributions, building `agent_stats`. */
  method TallyStats(cs: seq<Contribution>) returns (stats: Dict<string, AgentStats>)
    ensures stats == StatsOf(cs)
  {
    stats := [];
    var k := 0;
    while k < |cs|
      invariant k <= |cs|
      invariant stats == StatsOf(cs[..k])
    {
      var c := cs[k];
      var prior := GetOr(stats, c.agentId, NoStats);
      var types := Bump(prior.types, c.kind);
      var builds := prior.buildsOnOthers;
      if c.buildsOn != [] {
        builds := builds + |c.buildsOn|;
      }
      var s := AgentStats(prior.contributions + 1, types, builds);
      assert s == Tallied(prior, c);
      StatsStep(cs, k, stats, s);
      stats := Put(stats, c.agentId, s);
      k := k + 1;
    }
    assert cs[..k] == cs;
  }

  function ContributionsOf(s: AgentStats): int
  {
    s.contributions
  }

  /** The per-agent contribution counts of the report add up to the session's total. */
  lemma {:induction false} StatsTotal(cs: seq<Contribution>)
    ensures UniqueKeys(StatsOf(cs))
    ensures SumOf(StatsOf(cs), ContributionsOf) == |cs|
  {
    if cs != [] {
      var d := StatsOf(cs[..|cs| - 1]);
      var c := cs[|cs| - 1];
      StatsTotal(cs[..|cs| - 1]);
      var s := GetOr(d, c.agentId, NoStats);
      PutUnique(d, c.agentId, Tallied(s, c));
      SumOfPut(d, c.agentId, Tallied(s, c), ContributionsOf);
    }
  }

  datatype Report = Report(
    sessionId: string,
    totalContributions: int,
    agentParticipation: Dict<string, AgentStats>,
    collaborationHealth: Health,
    synthesisEvents: int)

  class Orchestrator {
    const metrics: Metrics
    const roleRotator: RoleRotator
    var sessions: map<string, seq<Contribution>>

    constructor ()
      ensures fresh(metrics) && fresh(roleRotator) && roleRotator.Valid()
      ensures metrics.agentScores == [] && metrics.synthesisCount == 0 && sessions == map[]
    {
      metrics := new Metrics();
      roleRotator := new RoleRotator();
      sessions := map[];
    }

    /** process_contribution */
    method ProcessContribution(agentId: string, content: string, kind: ContributionType, sessionId: string)
      returns (action: Action)
      modifies this, metrics
      ensures var c := Contribution(agentId, content, kind, [], None);
        sessions == old(sessions)[sessionId := SessionOf(old(sessions), sessionId) + [c]] &&
        metrics.agentScores == Record(old(metrics.agentScores), c) &&
        metrics.synthesisCount == old(metrics.synthesisCount) + (if kind == Synthesize then 1 else 0) &&
        metrics.constructiveCritiques == old(metrics.constructiveCritiques)
      ensures action == Decide(sessions[sessionId], metrics.Health())
    {
      var c := Contribution(agentId, content, kind, [], None);
      metrics.RecordContribution(c);
      var cs := SessionOf(sessions, sessionId) + [c];
      sessions := sessions[sessionId := cs];
      var disagreement := DetectDisagreement(cs);
      if disagreement {
        return SynthesisTriggered(AgentIds(Recent(cs, 5)));
      }
      var analysis := Analyze(cs);
      if analysis.interventionNeeded {
        return InterventionRequired(analysis.warnings, analysis.recommendations);
      }
      return Continue(metrics.Health());
    }

    /** get_collaboration_report: an error for an unknown session, otherwise the participation statistics. */
    method GetCollaborationReport(sessionId: string) returns (r: Result<Report, string>)
      ensures sessionId !in sessions ==> r == Err("Session not found")
      ensures sessionId in sessions ==>
        r == Ok(Report(sessionId, |sessions[sessionId]|, StatsOf(sessions[sessionId]),
                       metrics.Health(), metrics.synthesisCount))
    {
      if sessionId !in sessions {
        return Err("Session not found");
      }
      var cs := sessions[sessionId];
      var stats := TallyStats(cs);
      r := Ok(Report(sessionId, |cs|, stats, metrics.Health(), metrics.synthesisCount));
    }
  }
}
