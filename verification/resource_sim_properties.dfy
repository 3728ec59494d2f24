/**
 * What the allocation cycle of c42_resource_sim.py guarantees, proved about the
 * functional specification `ResourceSim.Cycle` (which `Distributor.RunAllocationCycle`
 * computes exactly).
 */
module AllocationProperties {
  import opened Wrappers
  import opened Numeric
  import opened Dicts
  import opened ResourceSim

  predicate UniqueCauseIds(cs: seq<CauseView>)
  {
    forall i, j :: 0 <= i < j < |cs| ==> cs[i].id != cs[j].id
  }

  /**
   * Needs and priorities are non-negative, so every weighted score is too. A priority is
   * documented as lying in 0-1 and `register_need` clamps it there; the `CauseAgent`
   * constructor stores it as given, so this is the documented range, not a checked one.
   */
  predicate Fundable(cs: seq<CauseView>)
  {
    forall i :: 0 <= i < |cs| ==> cs[i].need >= 0.0 && cs[i].priority >= 0.0
  }

  // ---------------------------------------------------------------------------------
  // Arithmetic facts, each proved in isolation

  lemma ProductNonNegative(a: real, b: real, c: real)
    requires a >= 0.0 && b >= 0.0 && c >= 0.0
    ensures a * b * c >= 0.0
  {
    assert a * b >= 0.0;
  }

  lemma ShareNonNegative(budget: real, score: real, total: real)
    requires budget > 0.0 && score >= 0.0 && total > 0.0
    ensures budget * (score / total) >= 0.0
  {
    assert score / total >= 0.0;
  }

  lemma SharesAdd(budget: real, t: real, s: real, total: real)
    requires total != 0.0
    ensures budget * (t / total) + budget * (s / total) == budget * ((t + s) / total)
  {
    assert (t + s) / total == t / total + s / total;
  }

  lemma WholeShare(budget: real, total: real)
    requires total != 0.0
    ensures budget * (total / total) == budget
  {
    assert total / total == 1.0;
  }

  lemma WeightedBelow(p: real, x: real)
    requires 0.0 <= p <= 1.0 && x >= 0.0
    ensures 0.0 <= p * x <= x
  {
  }

  lemma RatioInUnit(num: real, w: real)
    requires 0.0 <= num <= w && w > 0.0
    ensures 0.0 <= num / w <= 1.0
  {
    assert num / w <= 1.0 by {
      assert num <= w * 1.0;
    }
  }

  // ---------------------------------------------------------------------------------
  // The proportional split never exceeds the donor's budget

  lemma SharesPrefix(budget: real, total: real, xs: seq<real>, n: nat)
    requires total != 0.0 && n <= |xs|
    ensures Shares(budget, total, xs)[..n] == Shares(budget, total, xs[..n])
  {
    forall i | 0 <= i < n
      ensures Shares(budget, total, xs)[..n][i] == Shares(budget, total, xs[..n])[i]
    {
      assert xs[..n][i] == xs[i];
    }
  }

  /** The uncapped shares add up to `budget * (sum of scores / total)`. */
  lemma {:induction false} SharesSum(budget: real, total: real, xs: seq<real>)
    requires total != 0.0
    ensures Sum(Shares(budget, total, xs)) == budget * (Sum(xs) / total)
  {
    if xs != [] {
      var n := |xs| - 1;
      SharesSum(budget, total, xs[..n]);
      SharesPrefix(budget, total, xs, n);
      SharesAdd(budget, Sum(xs[..n]), xs[n], total);
    }
  }

  lemma SharesNonNegative(budget: real, total: real, xs: seq<real>)
    requires budget > 0.0 && total > 0.0
    requires forall i :: 0 <= i < |xs| ==> xs[i] >= 0.0
    ensures forall i :: 0 <= i < |xs| ==> Shares(budget, total, xs)[i] >= 0.0
  {
    forall i | 0 <= i < |xs|
      ensures Shares(budget, total, xs)[i] >= 0.0
    {
      ShareNonNegative(budget, xs[i], total);
    }
  }

  lemma ScoresNonNegative(prefs: map<string, real>, budget: real, rel: seq<CauseView>)
    requires budget >= 0.0
    requires forall i :: 0 <= i < |rel| ==> Cares(prefs, rel[i]) && rel[i].need >= 0.0 && rel[i].priority >= 0.0
    ensures forall i :: 0 <= i < |rel| ==> Scores(prefs, budget, rel)[i] >= 0.0
  {
    forall i | 0 <= i < |rel|
      ensures Scores(prefs, budget, rel)[i] >= 0.0
    {
      var c := rel[i];
      ProductNonNegative(prefs[c.id], c.priority, Min(c.need, budget));
    }
  }

  lemma SumValuesPut(d: Dict<string, real>, k: string, v: real)
    requires UniqueKeys(d)
    requires forall i :: 0 <= i < |d| ==> d[i].1 >= 0.0
    ensures Sum(Values(Put(d, k, v))) <= Sum(Values(d)) + v
  {
    if HasKey(d, k) {
      var i :| 0 <= i < |d| && d[i].0 == k;
      assert Values(Put(d, k, v)) == Values(d)[i := v];
      SumUpdate(Values(d), i, v);
    } else {
      assert Values(Put(d, k, v)) == Values(d) + [v];
      assert (Values(d) + [v])[..|d|] == Values(d);
    }
  }

  /** Storing a positive amount keeps every stored amount positive. */
  lemma PutPositive(d: Dict<string, real>, k: string, v: real)
    requires v > 0.0 && forall i :: 0 <= i < |d| ==> d[i].1 > 0.0
    ensures forall i :: 0 <= i < |Put(d, k, v)| ==> Put(d, k, v)[i].1 > 0.0
  {
    var r := Put(d, k, v);
    forall i | 0 <= i < |r|
      ensures r[i].1 > 0.0
    {
      if i < |d| {
        assert r[i] == (if d[i].0 == k then (k, v) else d[i]);
      }
    }
  }

  /** Stored portions have distinct keys. */
  lemma {:induction false} PortionsUnique(rel: seq<CauseView>, shares: seq<real>)
    requires |shares| == |rel|
    ensures UniqueKeys(Portions(rel, shares))
  {
    if rel != [] {
      var n := |rel| - 1;
      PortionsUnique(rel[..n], shares[..n]);
      PutUnique(Portions(rel[..n], shares[..n]), rel[n].id, Min(shares[n], rel[n].need - rel[n].received));
    }
  }

  /** Stored portions are positive, whatever the shares. */
  lemma {:induction false} PortionsPositive(rel: seq<CauseView>, shares: seq<real>)
    requires |shares| == |rel|
    ensures forall k :: 0 <= k < |Portions(rel, shares)| ==> Portions(rel, shares)[k].1 > 0.0
  {
    if rel != [] {
      var n := |rel| - 1;
      var a := Min(shares[n], rel[n].need - rel[n].received);
      PortionsPositive(rel[..n], shares[..n]);
      if a > 0.0 {
        PutPositive(Portions(rel[..n], shares[..n]), rel[n].id, a);
      }
    }
  }

  /** Capping each share at the remaining need only lowers the sum of the split. */
  lemma {:induction false} PortionsWithinShares(rel: seq<CauseView>, shares: seq<real>)
    requires |shares| == |rel|
    requires forall i :: 0 <= i < |shares| ==> shares[i] >= 0.0
    ensures Sum(Values(Portions(rel, shares))) <= Sum(shares)
  {
    if rel != [] {
      var n := |rel| - 1;
      var acc := Portions(rel[..n], shares[..n]);
      PortionsWithinShares(rel[..n], shares[..n]);
      var a := Min(shares[n], rel[n].need - rel[n].received);
      if a > 0.0 {
        PortionsUnique(rel[..n], shares[..n]);
        PortionsPositive(rel[..n], shares[..n]);
        SumValuesPut(acc, rel[n].id, a);
      }
    }
  }

  /** With non-negative scores and a positive total, the uncapped shares are non-negative and add up to the budget. */
  lemma SharesOfBudget(budget: real, scores: seq<real>)
    requires budget > 0.0 && Sum(scores) > 0.0
    requires forall i :: 0 <= i < |scores| ==> scores[i] >= 0.0
    ensures Sum(Shares(budget, Sum(scores), scores)) == budget
    ensures forall i :: 0 <= i < |scores| ==> Shares(budget, Sum(scores), scores)[i] >= 0.0
  {
    var total := Sum(scores);
    SharesSum(budget, total, scores);
    WholeShare(budget, total);
    SharesNonNegative(budget, total, scores);
  }

  /**
   * The proportions of the split sum to one, and capping only lowers amounts, so a donor's
   * allocation never adds up to more than its budget.
   */
  lemma AllocationWithinBudget(prefs: map<string, real>, budget: real, causes: seq<CauseView>)
    requires Fundable(causes)
    ensures Sum(Values(DonorAllocation(prefs, budget, causes))) <= Max(budget, 0.0)
  {
    if |prefs| > 0 && budget > 0.0 {
      var rel := Relevant(prefs, causes);
      RelevantSpec(prefs, causes);
      var scores := Scores(prefs, budget, rel);
      if rel != [] && Sum(scores) > 0.0 {
        forall i | 0 <= i < |rel|
          ensures rel[i].need >= 0.0 && rel[i].priority >= 0.0
        {
          var j :| 0 <= j < |causes| && causes[j] == rel[i];
        }
        ScoresNonNegative(prefs, budget, rel);
        SharesOfBudget(budget, scores);
        PortionsWithinShares(rel, Shares(budget, Sum(scores), scores));
      }
    }
  }

  // ---------------------------------------------------------------------------------
  // Every planned item is paid in full

  lemma PrefixSumBelowTotal(s: seq<real>, k: nat)
    requires k <= |s|
    requires forall i :: 0 <= i < |s| ==> s[i] >= 0.0
    ensures Sum(s[..k]) <= Sum(s)
  {
    assert s == s[..k] + s[k..];
    SumAppend(s[..k], s[k..]);
    SumNonNegative(s[k..]);
  }

  /** One item whose cause exists and which the donor can afford is paid. */
  lemma ExecuteSharePays(l: Ledger, j: nat, s: (string, real))
    requires j < |l.donors| && IsCauseId(l.causes, s.0) && CanAllocate(l.donors[j], s.1)
    ensures ExecuteShare(l, j, s).donors[j] == Debit(l.donors[j], s.1)
    ensures ExecuteShare(l, j, s).paid == l.paid + s.1
    ensures |ExecuteShare(l, j, s).transfers| == |l.transfers| + 1
  {
    FindCauseFirst(l.causes, s.0);
    var m :| 0 <= m < |l.causes| && l.causes[m].id == s.0;
  }

  /** Executing items never changes which cause sits at which position. */
  lemma {:induction false} ExecuteSharesKeepIds(l: Ledger, j: nat, shares: Dict<string, real>)
    requires j < |l.donors|
    ensures forall m :: 0 <= m < |l.causes| ==> ExecuteShares(l, j, shares).causes[m].id == l.causes[m].id
  {
    if shares != [] {
      ExecuteSharesKeepIds(l, j, shares[..|shares| - 1]);
    }
  }

  /** The planned amounts up to item `k` never exceed what the whole plan takes from the budget. */
  lemma PrefixAffordable(d: DonorView, vs: seq<real>, k: nat)
    requires k < |vs|
    requires forall m :: 0 <= m < |vs| ==> vs[m] > 0.0
    requires Sum(vs) <= d.budget <= d.wallet
    ensures CanAllocate(Debit(d, Sum(vs[..k])), vs[k])
    ensures Sum(vs[..k + 1]) == Sum(vs[..k]) + vs[k]
  {
    assert vs[..k + 1][..k] == vs[..k];
    PrefixSumBelowTotal(vs, k + 1);
  }

  /** Two debits in a row are one debit of the total. */
  lemma DebitTwice(d: DonorView, a: real, b: real)
    ensures Debit(Debit(d, a), b) == Debit(d, a + b)
  {
  }

  lemma {:induction false} ExecuteSharesPaysPrefix(l: Ledger, j: nat, shares: Dict<string, real>, k: nat)
    requires j < |l.donors| && k <= |shares|
    requires forall m :: 0 <= m < |shares| ==> shares[m].1 > 0.0 && IsCauseId(l.causes, shares[m].0)
    requires Sum(Values(shares)) <= l.donors[j].budget <= l.donors[j].wallet
    ensures ExecuteShares(l, j, shares[..k]).donors[j] == Debit(l.donors[j], Sum(Values(shares)[..k]))
    ensures ExecuteShares(l, j, shares[..k]).paid == l.paid + Sum(Values(shares)[..k])
    ensures |ExecuteShares(l, j, shares[..k]).transfers| == |l.transfers| + k
  {
    var vs := Values(shares);
    if k == 0 {
      assert shares[..0] == [];
      assert vs[..0] == [];
      assert Debit(l.donors[j], 0.0) == l.donors[j];
    } else {
      var n := k - 1;
      ExecuteSharesPaysPrefix(l, j, shares, n);
      assert shares[..k][..n] == shares[..n];
      var prev := ExecuteShares(l, j, shares[..n]);
      var s := shares[n];
      assert ExecuteShares(l, j, shares[..k]) == ExecuteShare(prev, j, s);
      PrefixAffordable(l.donors[j], vs, n);
      ExecuteSharesKeepIds(l, j, shares[..n]);
      assert IsCauseId(prev.causes, s.0) by {
        var m :| 0 <= m < |l.causes| && l.causes[m].id == s.0;
        assert prev.causes[m].id == s.0;
      }
      ExecuteSharePays(prev, j, s);
      DebitTwice(l.donors[j], Sum(vs[..n]), s.1);
    }
  }

  /**
   * When needs and priorities are non-negative and the donor's budget is within its wallet,
   * every `allocate_tokens` call of the donor's pass succeeds: the pass pays out exactly
   * the planned allocation, one transfer per planned item.
   */
  lemma DonorPassPaysInFull(l: Ledger, j: nat)
    requires j < |l.donors|
    requires Fundable(l.causes)
    requires l.donors[j].budget <= l.donors[j].wallet
    ensures var d := l.donors[j];
      var plan := DonorAllocation(d.preferences, d.budget, l.causes);
      var r := DonorPass(l, j);
      r.paid == l.paid + Sum(Values(plan)) &&
      r.donors[j].wallet == d.wallet - Sum(Values(plan)) &&
      |r.transfers| == |l.transfers| + |plan|
  {
    var d := l.donors[j];
    var plan := DonorAllocation(d.preferences, d.budget, l.causes);
    if d.budget > 0.0 {
      AllocationWithinBudget(d.preferences, d.budget, l.causes);
      DonorAllocationSpec(d.preferences, d.budget, l.causes);
      forall m | 0 <= m < |plan|
        ensures IsCauseId(l.causes, plan[m].0)
      {
        assert Backed(d.preferences, l.causes, plan[m].0, plan[m].1);
      }
      ExecuteSharesPaysPrefix(l, j, plan, |plan|);
      assert plan[..|plan|] == plan;
      assert Values(plan)[..|plan|] == Values(plan);
    }
  }

  // ---------------------------------------------------------------------------------
  // Conservation

  /** Tokens leaving wallets, arriving at causes and listed as transfers all equal what was paid. */
  predicate Balanced(l0: Ledger, l: Ledger)
  {
    Sum(Wallets(l0.donors)) - Sum(Wallets(l.donors)) == l.paid - l0.paid &&
    Sum(LifetimeTotals(l.causes)) - Sum(LifetimeTotals(l0.causes)) == l.paid - l0.paid &&
    Sum(Amounts(l.transfers)) - Sum(Amounts(l0.transfers)) == l.paid - l0.paid
  }

  lemma ExecuteShareBalanced(l0: Ledger, l: Ledger, j: nat, s: (string, real))
    requires j < |l.donors| && Balanced(l0, l)
    ensures Balanced(l0, ExecuteShare(l, j, s))
  {
    match FindCause(l.causes, s.0)
    case None =>
    case Some(ci) =>
      var d := l.donors[j];
      if CanAllocate(d, s.1) {
        var r := ExecuteShare(l, j, s);
        assert Wallets(r.donors) == Wallets(l.donors)[j := d.wallet - s.1];
        SumUpdate(Wallets(l.donors), j, d.wallet - s.1);
        assert LifetimeTotals(r.causes) == LifetimeTotals(l.causes)[ci := l.causes[ci].totalReceived + s.1];
        SumUpdate(LifetimeTotals(l.causes), ci, l.causes[ci].totalReceived + s.1);
        assert Amounts(r.transfers)[..|l.transfers|] == Amounts(l.transfers);
      }
  }

  lemma {:induction false} ExecuteSharesBalanced(l0: Ledger, l: Ledger, j: nat, shares: Dict<string, real>)
    requires j < |l.donors| && Balanced(l0, l)
    ensures Balanced(l0, ExecuteShares(l, j, shares))
  {
    if shares != [] {
      ExecuteSharesBalanced(l0, l, j, shares[..|shares| - 1]);
      ExecuteShareBalanced(l0, ExecuteShares(l, j, shares[..|shares| - 1]), j, shares[|shares| - 1]);
    }
  }

  lemma {:induction false} PassUpToBalanced(l0: Ledger, i: nat)
    requires i <= |l0.donors|
    ensures Balanced(l0, PassUpTo(l0, i))
  {
    if i > 0 {
      PassUpToBalanced(l0, i - 1);
      var l := PassUpTo(l0, i - 1);
      var d := l.donors[i - 1];
      if d.budget > 0.0 {
        ExecuteSharesBalanced(l0, l, i - 1, DonorAllocation(d.preferences, d.budget, l.causes));
      }
    }
  }

  /**
   * Conservation of tokens: what the donors' wallets lose in a cycle is exactly the cycle's
   * total_allocated, exactly what the causes' lifetime totals gain, and exactly the sum of
   * the recorded allocations.
   */
  lemma CycleConservesTokens(donors: seq<DonorView>, causes: seq<CauseView>, history: seq<CycleResult>)
    ensures var o := Cycle(donors, causes, history);
      Sum(Wallets(donors)) - Sum(Wallets(o.donors)) == o.result.totalAllocated &&
      Sum(LifetimeTotals(o.causes)) - Sum(LifetimeTotals(causes)) == o.result.totalAllocated &&
      Sum(Amounts(o.result.allocations)) == o.result.totalAllocated
  {
    var offered := OfferAll(donors);
    var l0 := Ledger(offered, causes, [], 0.0);
    PassUpToBalanced(l0, |offered|);
    var l := PassUpTo(l0, |offered|);
    assert Wallets(offered) == Wallets(donors);
    assert LifetimeTotals(ResetAll(l.causes)) == LifetimeTotals(l.causes);
    assert Amounts([]) == [];
  }

  // ---------------------------------------------------------------------------------
  // No cause is funded beyond its need

  /** Since `c0`, a cause kept its identity and need and received at most up to its need. */
  predicate CappedAt(c0: CauseView, c: CauseView)
  {
    c.id == c0.id && c.need == c0.need &&
    c0.received <= c.received <= Max(c0.received, c0.need) &&
    c.totalReceived - c0.totalReceived == c.received - c0.received
  }

  predicate Capped(l0: Ledger, l: Ledger)
  {
    |l.causes| == |l0.causes| &&
    forall m :: 0 <= m < |l.causes| ==> CappedAt(l0.causes[m], l.causes[m])
  }

  /** An item for cause `m` that fits within what that cause still needs keeps the ledger capped. */
  lemma ExecuteShareCapped(l0: Ledger, l: Ledger, j: nat, s: (string, real), m: nat)
    requires j < |l.donors| && Capped(l0, l) && UniqueCauseIds(l0.causes)
    requires m < |l.causes| && l.causes[m].id == s.0 && 0.0 < s.1 <= l.causes[m].need - l.causes[m].received
    ensures Capped(l0, ExecuteShare(l, j, s))
  {
    var found := FindCause(l.causes, s.0);
    FindCauseFirst(l.causes, s.0);
    assert CappedAt(l0.causes[found.value], l.causes[found.value]);
    assert found.value == m;
  }

  /** The causes whose id is not a key of `shares` are untouched between `lb` and `r`. */
  predicate Untouched(lb: Ledger, r: Ledger, shares: Dict<string, real>)
  {
    |r.causes| == |lb.causes| &&
    forall m :: 0 <= m < |lb.causes| && !HasKey(shares, lb.causes[m].id) ==> r.causes[m] == lb.causes[m]
  }

  lemma ExecuteShareUntouched(l: Ledger, j: nat, s: (string, real))
    requires j < |l.donors|
    ensures forall m :: 0 <= m < |l.causes| && l.causes[m].id != s.0 ==> ExecuteShare(l, j, s).causes[m] == l.causes[m]
  {
  }

  /** With distinct keys, the key of item `k` does not occur before it. */
  lemma PrefixLacksNext<V>(shares: Dict<string, V>, k: nat)
    requires k < |shares| && UniqueKeys(shares)
    ensures !HasKey(shares[..k], shares[k].0)
  {
  }

  /** A key missing from a non-empty dictionary is missing from all but its last item, and is not the last key. */
  lemma LastLacks<V>(shares: Dict<string, V>, key: string)
    requires shares != [] && !HasKey(shares, key)
    ensures !HasKey(shares[..|shares| - 1], key) && shares[|shares| - 1].0 != key
  {
    var n := |shares| - 1;
    forall x | 0 <= x < n
      ensures shares[..n][x].0 != key
    {
      assert shares[..n][x] == shares[x];
    }
  }

  lemma {:induction false} ExecuteSharesUntouched(lb: Ledger, j: nat, shares: Dict<string, real>)
    requires j < |lb.donors|
    ensures Untouched(lb, ExecuteShares(lb, j, shares), shares)
  {
    if shares != [] {
      var n := |shares| - 1;
      ExecuteSharesUntouched(lb, j, shares[..n]);
      var prev := ExecuteShares(lb, j, shares[..n]);
      ExecuteShareUntouched(prev, j, shares[n]);
      forall m | 0 <= m < |lb.causes| && !HasKey(shares, lb.causes[m].id)
        ensures ExecuteShares(lb, j, shares).causes[m] == lb.causes[m]
      {
        LastLacks(shares, lb.causes[m].id);
      }
    }
  }

  lemma {:induction false} ExecuteSharesCapped(l0: Ledger, lb: Ledger, j: nat, prefs: map<string, real>, shares: Dict<string, real>, k: nat)
    requires j < |lb.donors| && k <= |shares|
    requires Capped(l0, lb) && UniqueCauseIds(l0.causes) && UniqueKeys(shares)
    requires forall m :: 0 <= m < |shares| ==> shares[m].1 > 0.0 && Backed(prefs, lb.causes, shares[m].0, shares[m].1)
    ensures Capped(l0, ExecuteShares(lb, j, shares[..k]))
  {
    if k == 0 {
      assert shares[..0] == [];
    } else {
      var n := k - 1;
      ExecuteSharesCapped(l0, lb, j, prefs, shares, n);
      assert shares[..k][..n] == shares[..n];
      var prev := ExecuteShares(lb, j, shares[..n]);
      var s := shares[n];
      assert ExecuteShares(lb, j, shares[..k]) == ExecuteShare(prev, j, s);
      var m :| 0 <= m < |lb.causes| && lb.causes[m].id == s.0 && s.1 <= lb.causes[m].need - lb.causes[m].received;
      PrefixLacksNext(shares, n);
      ExecuteSharesUntouched(lb, j, shares[..n]);
      ExecuteShareCapped(l0, prev, j, s, m);
    }
  }


  lemma DonorPassCapped(l0: Ledger, l: Ledger, j: nat)
    requires j < |l.donors| && Capped(l0, l) && UniqueCauseIds(l0.causes)
    ensures Capped(l0, DonorPass(l, j))
  {
    var d := l.donors[j];
    if d.budget > 0.0 {
      var plan := DonorAllocation(d.preferences, d.budget, l.causes);
      DonorAllocationSpec(d.preferences, d.budget, l.causes);
      ExecuteSharesCapped(l0, l, j, d.preferences, plan, |plan|);
      assert plan[..|plan|] == plan;
    }
  }

  lemma CappedRefl(l0: Ledger)
    ensures Capped(l0, l0)
  {
    assert forall m :: 0 <= m < |l0.causes| ==> CappedAt(l0.causes[m], l0.causes[m]);
  }

  lemma {:induction false} PassUpToCapped(l0: Ledger, i: nat)
    requires i <= |l0.donors| && UniqueCauseIds(l0.causes)
    ensures Capped(l0, PassUpTo(l0, i))
  {
    if i == 0 {
      CappedRefl(l0);
    } else {
      var prev := PassUpTo(l0, i - 1);
      PassUpToCapped(l0, i - 1);
      DonorPassCapped(l0, prev, i - 1);
    }
  }

  /**
   * No cause is over-funded: in one cycle a cause receives nothing negative and at most
   * what it still needed when the cycle began.
   */
  lemma CycleNeverOverfunds(donors: seq<DonorView>, causes: seq<CauseView>, history: seq<CycleResult>)
    requires UniqueCauseIds(causes)
    ensures var o := Cycle(donors, causes, history);
      forall m :: 0 <= m < |causes| ==>
        0.0 <= o.causes[m].totalReceived - causes[m].totalReceived <= Max(0.0, causes[m].need - causes[m].received)
  {
    var l0 := Ledger(OfferAll(donors), causes, [], 0.0);
    PassUpToCapped(l0, |donors|);
    var l := PassUpTo(l0, |donors|);
    forall m | 0 <= m < |causes|
      ensures 0.0 <= l.causes[m].totalReceived - causes[m].totalReceived <= Max(0.0, causes[m].need - causes[m].received)
    {
      assert CappedAt(causes[m], l.causes[m]);
    }
  }

  lemma {:induction false} FromPairsGet(pairs: seq<(string, real)>, k: nat)
    requires k < |pairs|
    requires forall i, j :: 0 <= i < j < |pairs| ==> pairs[i].0 != pairs[j].0
    ensures UniqueKeys(FromPairs(pairs))
    ensures Get(FromPairs(pairs), pairs[k].0) == Some(pairs[k].1)
  {
    var n := |pairs| - 1;
    if n == 0 {
      PutUnique([], pairs[0].0, pairs[0].1);
    } else if k < n {
      FromPairsGet(pairs[..n], k);
      PutUnique(FromPairs(pairs[..n]), pairs[n].0, pairs[n].1);
    } else {
      FromPairsGet(pairs[..n], 0);
      PutUnique(FromPairs(pairs[..n]), pairs[n].0, pairs[n].1);
    }
  }

  /**
   * The unmet need reported for a cause is what it still needed at the start of the cycle
   * minus what it received in the cycle, and never negative.
   */
  lemma UnmetNeedsAccount(donors: seq<DonorView>, causes: seq<CauseView>, history: seq<CycleResult>)
    requires UniqueCauseIds(causes)
    ensures var o := Cycle(donors, causes, history);
      forall m :: 0 <= m < |causes| ==>
        Get(o.result.unmetNeeds, causes[m].id)
          == Some(Max(0.0, causes[m].need - causes[m].received - (o.causes[m].totalReceived - causes[m].totalReceived)))
  {
    var l0 := Ledger(OfferAll(donors), causes, [], 0.0);
    PassUpToCapped(l0, |donors|);
    var l := PassUpTo(l0, |donors|);
    var pairs := UnmetPairs(l.causes);
    forall m | 0 <= m < |causes|
      ensures Get(UnmetNeeds(l.causes), causes[m].id) == Some(Max(0.0, l.causes[m].need - l.causes[m].received))
    {
      FromPairsGet(pairs, m);
    }
  }

  // ---------------------------------------------------------------------------------
  // Identities, wallets and the shape of the recorded transfers

  predicate IsDonorId(ds: seq<DonorView>, id: string)
  {
    exists k :: 0 <= k < |ds| && ds[k].id == id
  }

  predicate IsCauseId(cs: seq<CauseView>, id: string)
  {
    exists k :: 0 <= k < |cs| && cs[k].id == id
  }

  /**
   * Since `d0`: the donor keeps id and preferences, has paid only out of its budget,
   * never overdraws, and when it has paid at all both its wallet and budget are non-negative.
   */
  predicate DonorSound(d0: DonorView, d: DonorView)
  {
    d.id == d0.id && d.preferences == d0.preferences &&
    d0.wallet - d.wallet == d0.budget - d.budget && d.wallet <= d0.wallet &&
    (d == d0 || (d.wallet >= 0.0 && d.budget >= 0.0))
  }

  /** Since `c0`: the cause keeps id, need and priority. */
  predicate CauseSound(c0: CauseView, c: CauseView)
  {
    c.id == c0.id && c.need == c0.need && c.priority == c0.priority
  }

  /** A transfer is positive and names a donor and a cause of `l0`. */
  predicate TransferSound(l0: Ledger, t: Transfer)
  {
    t.amount > 0.0 && IsDonorId(l0.donors, t.donor) && IsCauseId(l0.causes, t.cause)
  }

  predicate Sound(l0: Ledger, l: Ledger)
  {
    |l.donors| == |l0.donors| && |l.causes| == |l0.causes| &&
    (forall k :: 0 <= k < |l.donors| ==> DonorSound(l0.donors[k], l.donors[k])) &&
    (forall m :: 0 <= m < |l.causes| ==> CauseSound(l0.causes[m], l.causes[m])) &&
    (forall n :: 0 <= n < |l.transfers| ==> TransferSound(l0, l.transfers[n]))
  }

  lemma ExecuteShareSound(l0: Ledger, l: Ledger, j: nat, s: (string, real))
    requires j < |l.donors| && Sound(l0, l) && s.1 > 0.0
    ensures Sound(l0, ExecuteShare(l, j, s))
  {
    match FindCause(l.causes, s.0)
    case None =>
    case Some(ci) =>
      var d := l.donors[j];
      if CanAllocate(d, s.1) {
        var r := ExecuteShare(l, j, s);
        assert DonorSound(l0.donors[j], r.donors[j]);
        assert CauseSound(l0.causes[ci], r.causes[ci]);
        assert TransferSound(l0, Transfer(d.id, s.0, s.1)) by {
          assert l0.donors[j].id == d.id;
          assert l0.causes[ci].id == s.0;
        }
        assert r.transfers == l.transfers + [Transfer(d.id, s.0, s.1)];
      }
  }

  lemma {:induction false} ExecuteSharesSound(l0: Ledger, l: Ledger, j: nat, shares: Dict<string, real>)
    requires j < |l.donors| && Sound(l0, l)
    requires forall m :: 0 <= m < |shares| ==> shares[m].1 > 0.0
    ensures Sound(l0, ExecuteShares(l, j, shares))
  {
    if shares != [] {
      var init := shares[..|shares| - 1];
      ExecuteSharesSound(l0, l, j, init);
      ExecuteShareSound(l0, ExecuteShares(l, j, init), j, shares[|shares| - 1]);
    }
  }

  lemma DonorPassSound(l0: Ledger, l: Ledger, j: nat)
    requires j < |l.donors| && Sound(l0, l)
    ensures Sound(l0, DonorPass(l, j))
  {
    var d := l.donors[j];
    if d.budget > 0.0 {
      DonorAllocationSpec(d.preferences, d.budget, l.causes);
      ExecuteSharesSound(l0, l, j, DonorAllocation(d.preferences, d.budget, l.causes));
    }
  }

  lemma {:induction false} PassUpToSound(l0: Ledger, i: nat)
    requires i <= |l0.donors|
    requires l0.transfers == []
    ensures Sound(l0, PassUpTo(l0, i))
  {
    if i == 0 {
      assert forall k :: 0 <= k < |l0.donors| ==> DonorSound(l0.donors[k], l0.donors[k]);
    } else {
      PassUpToSound(l0, i - 1);
      DonorPassSound(l0, PassUpTo(l0, i - 1), i - 1);
    }
  }

  /**
   * After a cycle: donors keep their identity and preferences, a donor pays at most the
   * capacity it offered (a tenth of a non-negative wallet) and never overdraws its wallet;
   * causes keep identity, need and priority and start the next cycle with nothing received;
   * every recorded transfer is positive and names a donor and a cause of the distributor.
   */
  lemma CycleIsSound(donors: seq<DonorView>, causes: seq<CauseView>, history: seq<CycleResult>)
    ensures var o := Cycle(donors, causes, history);
      (forall k :: 0 <= k < |donors| ==>
        o.donors[k].id == donors[k].id && o.donors[k].preferences == donors[k].preferences &&
        0.0 <= donors[k].wallet - o.donors[k].wallet <= Max(0.0, Offer(donors[k], OfferRate).budget) &&
        (o.donors[k].wallet >= 0.0 || o.donors[k].wallet == donors[k].wallet)) &&
      (forall m :: 0 <= m < |causes| ==>
        o.causes[m].id == causes[m].id && o.causes[m].need == causes[m].need &&
        o.causes[m].priority == causes[m].priority && o.causes[m].received == 0.0) &&
      (forall t :: t in o.result.allocations ==>
        t.amount > 0.0 && IsDonorId(donors, t.donor) && IsCauseId(causes, t.cause))
  {
    var offered := OfferAll(donors);
    var l0 := Ledger(offered, causes, [], 0.0);
    PassUpToSound(l0, |donors|);
    var l := PassUpTo(l0, |donors|);
    forall t | t in l.transfers
      ensures t.amount > 0.0 && IsDonorId(donors, t.donor) && IsCauseId(causes, t.cause)
    {
      var n :| 0 <= n < |l.transfers| && l.transfers[n] == t;
      assert TransferSound(l0, t);
      var k :| 0 <= k < |offered| && offered[k].id == t.donor;
      assert donors[k].id == t.donor;
    }
    forall k | 0 <= k < |donors|
      ensures DonorSound(offered[k], l.donors[k])
    {
    }
  }

  // ---------------------------------------------------------------------------------
  // Satisfaction

  lemma WeightedTermBelow(prefs: map<string, real>, ts: seq<Transfer>, k: nat)
    requires forall c :: c in prefs ==> 0.0 <= prefs[c] <= 1.0
    requires k < |ts| && ts[k].amount >= 0.0
    ensures 0.0 <= WeightedAmounts(prefs, ts)[k] <= Amounts(ts)[k]
  {
    var p := PreferenceOf(prefs, ts[k].cause);
    var x := ts[k].amount;
    assert 0.0 <= p <= 1.0;
    WeightedBelow(p, x);
    assert WeightedAmounts(prefs, ts)[k] == p * x;
    assert Amounts(ts)[k] == x;
  }

  lemma WeightedWithinAmounts(prefs: map<string, real>, ts: seq<Transfer>)
    requires forall c :: c in prefs ==> 0.0 <= prefs[c] <= 1.0
    requires forall t :: t in ts ==> t.amount >= 0.0
    ensures 0.0 <= Sum(WeightedAmounts(prefs, ts)) <= Sum(Amounts(ts))
  {
    var ws := WeightedAmounts(prefs, ts);
    var xs := Amounts(ts);
    forall k | 0 <= k < |ts|
      ensures 0.0 <= ws[k] <= xs[k]
    {
      assert ts[k] in ts;
      WeightedTermBelow(prefs, ts, k);
    }
    SumNonNegative(ws);
    SumMonotone(ws, xs);
  }

  /**
   * Satisfaction is a weighted mean of preference weights, so it lies in [0, 1] whenever
   * the weights do (set_preference keeps them there) and the recorded amounts are
   * positive (as every cycle records them).
   */
  lemma SatisfactionInUnitRange(prefs: map<string, real>, donor: string, history: seq<CycleResult>)
    requires forall c :: c in prefs ==> 0.0 <= prefs[c] <= 1.0
    requires history != [] ==> forall t :: t in history[|history| - 1].allocations ==> t.amount > 0.0
    ensures 0.0 <= Satisfaction(prefs, donor, history) <= 1.0
  {
    if |prefs| > 0 && history != [] {
      var mine := DonorTransfers(history[|history| - 1].allocations, donor);
      WeightedWithinAmounts(prefs, mine);
      var w := Sum(Amounts(mine));
      var num := Sum(WeightedAmounts(prefs, mine));
      if w > 0.0 {
        RatioInUnit(num, w);
      }
    }
  }

  lemma {:induction false} FromPairsConstant(pairs: seq<(string, real)>, v: real, key: string)
    requires forall i :: 0 <= i < |pairs| ==> pairs[i].1 == v
    requires exists i :: 0 <= i < |pairs| && pairs[i].0 == key
    ensures Get(FromPairs(pairs), key) == Some(v)
  {
    var n := |pairs| - 1;
    if pairs[n].0 == key {
      if n > 0 {
        PutValues(FromPairs(pairs[..n]), key, v);
      }
      GetPutFound(FromPairs(pairs[..n]), key, v);
    } else {
      FromPairsConstant(pairs[..n], v, key);
      GetPutOther(FromPairs(pairs[..n]), pairs[n].0, pairs[n].1, key);
    }
  }

  lemma PutValues(d: Dict<string, real>, k: string, v: real)
    ensures forall i :: 0 <= i < |d| && d[i].0 == k ==> Put(d, k, v)[i] == (k, v)
  {
  }

  lemma GetPutFound(d: Dict<string, real>, k: string, v: real)
    ensures Get(Put(d, k, v), k) == Some(v)
  {
    var r := Put(d, k, v);
    var i := IndexOf(r, k).value;
    if i < |d| {
      assert r[i] == (k, v);
    }
  }

  /**
   * Satisfaction is computed before the cycle's own record is appended to the history,
   * so in the very first cycle every donor's satisfaction is 0, whatever it allocated.
   */
  lemma FirstCycleSatisfactionIsZero(donors: seq<DonorView>, causes: seq<CauseView>)
    ensures var o := Cycle(donors, causes, []);
      forall k :: 0 <= k < |donors| ==> Get(o.result.donorSatisfaction, donors[k].id) == Some(0.0)
  {
    var o := Cycle(donors, causes, []);
    CycleIsSound(donors, causes, []);
    var pairs := SatisfactionPairs(o.donors, []);
    forall k | 0 <= k < |donors|
      ensures Get(o.result.donorSatisfaction, donors[k].id) == Some(0.0)
    {
      assert pairs[k].0 == donors[k].id;
      FromPairsConstant(pairs, 0.0, donors[k].id);
    }
  }
}
