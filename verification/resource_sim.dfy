/**
 * The token-allocation cycle of c42_resource_sim.py: donors offer part of their wallet,
 * each donor splits its offer across the causes it prefers in proportion to
 * preference * priority * min(need, budget), capped by what each cause still needs,
 * and the distributor records the cycle.
 *
 * The pure part (views of donors and causes, the proportional split, the whole cycle as
 * a fold) is the specification; the classes below update their fields in place as the
 * Python objects do, and `Distributor.RunAllocationCycle` is proved to compute exactly
 * `Cycle` of the old state.
 */
module ResourceSim {
  import opened Wrappers
  import opened Numeric
  import opened Dicts

  /** Share of its wallet a donor offers in each cycle (offer_capacity's default). */
  const OfferRate: real := 0.1

  datatype DonorView = DonorView(id: string, wallet: real, preferences: map<string, real>, budget: real)

  datatype CauseView = CauseView(id: string, need: real, priority: real, received: real, totalReceived: real)

  /** One executed allocation: the `{'donor', 'cause', 'amount'}` record of a cycle. */
  datatype Transfer = Transfer(donor: string, cause: string, amount: real)

  datatype CycleResult = CycleResult(
    totalOffered: real,
    totalAllocated: real,
    allocations: seq<Transfer>,
    unmetNeeds: Dict<string, real>,
    donorSatisfaction: Dict<string, real>)

  // ---------------------------------------------------------------------------------
  // Single-agent operations on values

  /** offer_capacity: the budget becomes `min(wallet * rate, wallet)`. */
  function Offer(d: DonorView, rate: real): (r: DonorView)
    ensures r.budget <= r.wallet
    ensures 0.0 <= rate <= 1.0 && d.wallet >= 0.0 ==> r.budget == d.wallet * rate
    ensures r.(budget := d.budget) == d
  {
    d.(budget := Min(d.wallet * rate, d.wallet))
  }

  /** The guard of allocate_tokens. */
  predicate CanAllocate(d: DonorView, amount: real)
  {
    amount <= d.budget && amount <= d.wallet
  }

  /** allocate_tokens when its guard holds: wallet and budget both drop by `amount`. */
  function Debit(d: DonorView, amount: real): DonorView
  {
    d.(wallet := d.wallet - amount, budget := d.budget - amount)
  }

  /** receive_tokens: both the cycle's and the lifetime total grow by `amount`. */
  function Credit(c: CauseView, amount: real): CauseView
  {
    c.(received := c.received + amount, totalReceived := c.totalReceived + amount)
  }

  // ---------------------------------------------------------------------------------
  // _calculate_donor_allocation

  predicate Cares(prefs: map<string, real>, c: CauseView)
  {
    c.id in prefs && prefs[c.id] > 0.0
  }

  /** The causes a donor prefers with positive weight, in the distributor's order. */
  function Relevant(prefs: map<string, real>, causes: seq<CauseView>): seq<CauseView>
  {
    if causes == [] then []
    else
      var rest := Relevant(prefs, causes[..|causes| - 1]);
      var c := causes[|causes| - 1];
      if Cares(prefs, c) then rest + [c] else rest
  }

  /** `Relevant` keeps exactly the causes the donor cares about. */
  lemma {:induction false} RelevantSpec(prefs: map<string, real>, causes: seq<CauseView>)
    ensures forall i :: 0 <= i < |Relevant(prefs, causes)| ==>
      Cares(prefs, Relevant(prefs, causes)[i]) && Relevant(prefs, causes)[i] in causes
    ensures forall c :: c in causes && Cares(prefs, c) ==> c in Relevant(prefs, causes)
  {
    if causes != [] {
      RelevantSpec(prefs, causes[..|causes| - 1]);
      assert causes == causes[..|causes| - 1] + [causes[|causes| - 1]];
    }
  }

  /**
   * weighted_score = preference * priority * min(need, budget). The source indexes the
   * preferences directly; it only does so for relevant causes, whose id is a key, so the
   * lookup with default 0 gives the same value there.
   */
  function Score(prefs: map<string, real>, budget: real, c: CauseView): real
  {
    PreferenceOf(prefs, c.id) * c.priority * Min(c.need, budget)
  }

  /** The weighted score of every relevant cause, in order; their `Sum` is total_weighted_priority. */
  function Scores(prefs: map<string, real>, budget: real, rel: seq<CauseView>): (r: seq<real>)
    ensures |r| == |rel| && forall i :: 0 <= i < |rel| ==> r[i] == Score(prefs, budget, rel[i])
  {
    seq(|rel|, i requires 0 <= i < |rel| => Score(prefs, budget, rel[i]))
  }

  /** allocation = budget * (weighted_score / total) for every relevant cause, before capping. */
  function Shares(budget: real, total: real, scores: seq<real>): (r: seq<real>)
    requires total != 0.0
    ensures |r| == |scores| && forall i :: 0 <= i < |scores| ==> r[i] == budget * (scores[i] / total)
  {
    seq(|scores|, i requires 0 <= i < |scores| => budget * (scores[i] / total))
  }

  /**
   * An amount stored under `key` was computed for a cause of `cs` with that id which the
   * donor prefers, and does not exceed what that cause still needs.
   */
  predicate Backed(prefs: map<string, real>, cs: seq<CauseView>, key: string, amount: real)
  {
    exists i :: 0 <= i < |cs| && cs[i].id == key && Cares(prefs, cs[i]) && amount <= cs[i].need - cs[i].received
  }

  /** Every entry of `d` is a positive amount backed by a cause of `cs`. */
  predicate AllBacked(prefs: map<string, real>, cs: seq<CauseView>, d: Dict<string, real>)
  {
    forall k :: 0 <= k < |d| ==> d[k].1 > 0.0 && Backed(prefs, cs, d[k].0, d[k].1)
  }

  lemma BackedWiden(prefs: map<string, real>, rel: seq<CauseView>, causes: seq<CauseView>, d: Dict<string, real>)
    requires forall i :: 0 <= i < |rel| ==> rel[i] in causes
    requires AllBacked(prefs, rel, d)
    ensures AllBacked(prefs, causes, d)
  {
    forall k | 0 <= k < |d|
      ensures Backed(prefs, causes, d[k].0, d[k].1)
    {
      var i :| 0 <= i < |rel| && rel[i].id == d[k].0 && Cares(prefs, rel[i]) && d[k].1 <= rel[i].need - rel[i].received;
      var j :| 0 <= j < |causes| && causes[j] == rel[i];
    }
  }

  /**
   * The allocation loop over the relevant causes: each share is capped at what the cause
   * still needs, and positive amounts are stored under the cause id.
   */
  function Portions(rel: seq<CauseView>, shares: seq<real>): Dict<string, real>
    requires |shares| == |rel|
  {
    if rel == [] then []
    else
      var n := |rel| - 1;
      var acc := Portions(rel[..n], shares[..n]);
      var a := Min(shares[n], rel[n].need - rel[n].received);
      if a > 0.0 then Put(acc, rel[n].id, a) else acc
  }

  /** Every stored amount is positive, stored once, and backed by a relevant cause the donor cares about. */
  lemma {:induction false} PortionsSpec(prefs: map<string, real>, rel: seq<CauseView>, shares: seq<real>)
    requires |shares| == |rel|
    requires forall i :: 0 <= i < |rel| ==> Cares(prefs, rel[i])
    ensures UniqueKeys(Portions(rel, shares))
    ensures AllBacked(prefs, rel, Portions(rel, shares))
  {
    if rel != [] {
      var n := |rel| - 1;
      var acc := Portions(rel[..n], shares[..n]);
      var c := rel[n];
      PortionsSpec(prefs, rel[..n], shares[..n]);
      BackedWiden(prefs, rel[..n], rel, acc);
      var a := Min(shares[n], c.need - c.received);
      if a > 0.0 {
        PutUnique(acc, c.id, a);
        var r := Put(acc, c.id, a);
        assert Backed(prefs, rel, c.id, a);
        forall k | 0 <= k < |r|
          ensures r[k].1 > 0.0 && Backed(prefs, rel, r[k].0, r[k].1)
        {
          if k < |acc| && acc[k].0 != c.id {
            assert r[k] == acc[k];
          }
        }
      }
    }
  }

  /**
   * _calculate_donor_allocation: nothing without preferences, without budget, without a
   * relevant cause or without a positive total score; otherwise the proportional split.
   */
  function DonorAllocation(prefs: map<string, real>, budget: real, causes: seq<CauseView>): Dict<string, real>
  {
    if |prefs| == 0 || budget <= 0.0 then []
    else
      var rel := Relevant(prefs, causes);
      if rel == [] then []
      else
        var scores := Scores(prefs, budget, rel);
        var total := Sum(scores);
        if total <= 0.0 then []
        else Portions(rel, Shares(budget, total, scores))
  }

  /**
   * Every stored amount is positive, stored once, and at most the remaining need of a
   * cause the donor prefers; a donor without preferences or budget gets no allocation.
   */
  lemma DonorAllocationSpec(prefs: map<string, real>, budget: real, causes: seq<CauseView>)
    ensures UniqueKeys(DonorAllocation(prefs, budget, causes))
    ensures AllBacked(prefs, causes, DonorAllocation(prefs, budget, causes))
    ensures DonorAllocation(prefs, budget, causes) != [] ==> |prefs| > 0 && budget > 0.0
  {
    if |prefs| > 0 && budget > 0.0 {
      var rel := Relevant(prefs, causes);
      RelevantSpec(prefs, causes);
      var scores := Scores(prefs, budget, rel);
      var total := Sum(scores);
      if rel != [] && total > 0.0 {
        var shares := Shares(budget, total, scores);
        PortionsSpec(prefs, rel, shares);
        BackedWiden(prefs, rel, causes, Portions(rel, shares));
      }
    }
  }

  // ---------------------------------------------------------------------------------
  // _calculate_satisfaction

  function DonorTransfers(ts: seq<Transfer>, donor: string): (r: seq<Transfer>)
    ensures forall t :: t in r ==> t in ts && t.donor == donor
    ensures forall t :: t in ts && t.donor == donor ==> t in r
  {
    if ts == [] then []
    else
      var rest := DonorTransfers(ts[..|ts| - 1], donor);
      var t := ts[|ts| - 1];
      if t.donor == donor then rest + [t] else rest
  }

  function Amounts(ts: seq<Transfer>): (r: seq<real>)
    ensures |r| == |ts| && forall k :: 0 <= k < |ts| ==> r[k] == ts[k].amount
  {
    seq(|ts|, k requires 0 <= k < |ts| => ts[k].amount)
  }

  function PreferenceOf(prefs: map<string, real>, cause: string): real
  {
    if cause in prefs then prefs[cause] else 0.0
  }

  /** Each transfer's amount weighted by the donor's preference for its cause. */
  function WeightedAmounts(prefs: map<string, real>, ts: seq<Transfer>): (r: seq<real>)
    ensures |r| == |ts|
    ensures forall k :: 0 <= k < |ts| ==> r[k] == PreferenceOf(prefs, ts[k].cause) * ts[k].amount
  {
    seq(|ts|, k requires 0 <= k < |ts| => PreferenceOf(prefs, ts[k].cause) * ts[k].amount)
  }

  /**
   * _calculate_satisfaction: the amount-weighted mean preference of the donor's transfers
   * in the most recent recorded cycle; 0 without preferences, history or transfers.
   */
  function Satisfaction(prefs: map<string, real>, donor: string, history: seq<CycleResult>): real
  {
    if |prefs| == 0 || history == [] then 0.0
    else
      var mine := DonorTransfers(history[|history| - 1].allocations, donor);
      if mine == [] then 0.0
      else
        var weight := Sum(Amounts(mine));
        if weight > 0.0 then Sum(WeightedAmounts(prefs, mine)) / weight else 0.0
  }

  // ---------------------------------------------------------------------------------
  // run_allocation_cycle as a fold over the donors

  /** The state the cycle threads through its loops. */
  datatype Ledger = Ledger(donors: seq<DonorView>, causes: seq<CauseView>, transfers: seq<Transfer>, paid: real)

  /** `next((c for c in causes if c.id == id), None)` as a position. */
  function FindCause(causes: seq<CauseView>, id: string): (r: Option<nat>)
    ensures r.Some? ==> r.value < |causes| && causes[r.value].id == id
  {
    if causes == [] then None
    else if causes[0].id == id then Some(0)
    else match FindCause(causes[1..], id)
      case None => None
      case Some(k) => Some(k + 1)
  }

  /** `FindCause` finds the first cause with the id, and finds nothing only when there is none. */
  lemma {:induction false} FindCauseFirst(causes: seq<CauseView>, id: string)
    ensures FindCause(causes, id).Some? ==> forall k :: 0 <= k < FindCause(causes, id).value ==> causes[k].id != id
    ensures FindCause(causes, id).None? ==> forall k :: 0 <= k < |causes| ==> causes[k].id != id
  {
    if causes != [] && causes[0].id != id {
      FindCauseFirst(causes[1..], id);
      assert forall k :: 1 <= k < |causes| ==> causes[k] == causes[1..][k - 1];
    }
  }

  /** One `(cause_id, amount)` item of a donor's allocation, executed for donor `j`. */
  function ExecuteShare(l: Ledger, j: nat, s: (string, real)): (r: Ledger)
    requires j < |l.donors|
    ensures |r.donors| == |l.donors| && |r.causes| == |l.causes|
  {
    match FindCause(l.causes, s.0)
    case None => l
    case Some(ci) =>
      var d := l.donors[j];
      if CanAllocate(d, s.1) then
        Ledger(l.donors[j := Debit(d, s.1)], l.causes[ci := Credit(l.causes[ci], s.1)],
               l.transfers + [Transfer(d.id, s.0, s.1)], l.paid + s.1)
      else l
  }

  function ExecuteShares(l: Ledger, j: nat, shares: Dict<string, real>): (r: Ledger)
    requires j < |l.donors|
    ensures |r.donors| == |l.donors| && |r.causes| == |l.causes|
  {
    if shares == [] then l
    else ExecuteShare(ExecuteShares(l, j, shares[..|shares| - 1]), j, shares[|shares| - 1])
  }

  /** Steps 2 and 3 of the cycle for donor `j`. */
  function DonorPass(l: Ledger, j: nat): (r: Ledger)
    requires j < |l.donors|
    ensures |r.donors| == |l.donors| && |r.causes| == |l.causes|
  {
    var d := l.donors[j];
    if d.budget <= 0.0 then l
    else ExecuteShares(l, j, DonorAllocation(d.preferences, d.budget, l.causes))
  }

  /** The first `i` donors have made their pass. */
  function PassUpTo(l: Ledger, i: nat): (r: Ledger)
    requires i <= |l.donors|
    ensures |r.donors| == |l.donors| && |r.causes| == |l.causes|
  {
    if i == 0 then l else DonorPass(PassUpTo(l, i - 1), i - 1)
  }

  function OfferAll(ds: seq<DonorView>): (r: seq<DonorView>)
    ensures |r| == |ds| && forall k :: 0 <= k < |ds| ==> r[k] == Offer(ds[k], OfferRate)
  {
    seq(|ds|, k requires 0 <= k < |ds| => Offer(ds[k], OfferRate))
  }

  function Budgets(ds: seq<DonorView>): (r: seq<real>)
    ensures |r| == |ds| && forall k :: 0 <= k < |ds| ==> r[k] == ds[k].budget
  {
    seq(|ds|, k requires 0 <= k < |ds| => ds[k].budget)
  }

  function Wallets(ds: seq<DonorView>): (r: seq<real>)
    ensures |r| == |ds| && forall k :: 0 <= k < |ds| ==> r[k] == ds[k].wallet
  {
    seq(|ds|, k requires 0 <= k < |ds| => ds[k].wallet)
  }

  function LifetimeTotals(cs: seq<CauseView>): (r: seq<real>)
    ensures |r| == |cs| && forall k :: 0 <= k < |cs| ==> r[k] == cs[k].totalReceived
  {
    seq(|cs|, k requires 0 <= k < |cs| => cs[k].totalReceived)
  }

  function UnmetPairs(cs: seq<CauseView>): (r: seq<(string, real)>)
    ensures |r| == |cs|
    ensures forall k :: 0 <= k < |cs| ==> r[k] == (cs[k].id, Max(0.0, cs[k].need - cs[k].received))
  {
    seq(|cs|, k requires 0 <= k < |cs| => (cs[k].id, Max(0.0, cs[k].need - cs[k].received)))
  }

  /** `{cause.id: max(0, cause.need - cause.received) for cause in causes}` */
  function UnmetNeeds(cs: seq<CauseView>): Dict<string, real>
  {
    FromPairs(UnmetPairs(cs))
  }

  function SatisfactionPairs(ds: seq<DonorView>, history: seq<CycleResult>): (r: seq<(string, real)>)
    ensures |r| == |ds|
    ensures forall k :: 0 <= k < |ds| ==> r[k] == (ds[k].id, Satisfaction(ds[k].preferences, ds[k].id, history))
  {
    seq(|ds|, k requires 0 <= k < |ds| => (ds[k].id, Satisfaction(ds[k].preferences, ds[k].id, history)))
  }

  /** `{donor.id: _calculate_satisfaction(donor) for donor in donors}` */
  function Satisfactions(ds: seq<DonorView>, history: seq<CycleResult>): Dict<string, real>
  {
    FromPairs(SatisfactionPairs(ds, history))
  }

  function ResetAll(cs: seq<CauseView>): (r: seq<CauseView>)
    ensures |r| == |cs| && forall k :: 0 <= k < |cs| ==> r[k] == cs[k].(received := 0.0)
  {
    seq(|cs|, k requires 0 <= k < |cs| => cs[k].(received := 0.0))
  }

  datatype CycleOutcome = CycleOutcome(donors: seq<DonorView>, causes: seq<CauseView>, result: CycleResult)

  /** run_allocation_cycle on the donors and causes before the cycle and the history so far. */
  function Cycle(donors: seq<DonorView>, causes: seq<CauseView>, history: seq<CycleResult>): (r: CycleOutcome)
    ensures |r.donors| == |donors| && |r.causes| == |causes|
  {
    var offered := OfferAll(donors);
    var l := PassUpTo(Ledger(offered, causes, [], 0.0), |offered|);
    CycleOutcome(
      l.donors,
      ResetAll(l.causes),
      CycleResult(Sum(Budgets(offered)), l.paid, l.transfers,
                  UnmetNeeds(l.causes), Satisfactions(l.donors, history)))
  }

  // ---------------------------------------------------------------------------------
  // The agents as objects

  class Donor {
    const id: string
    var wallet: real
    var preferences: map<string, real>
    var allocationBudget: real

    constructor (id: string, wallet: real, preferences: map<string, real>)
      ensures View() == DonorView(id, wallet, preferences, 0.0)
    {
      this.id := id;
      this.wallet := wallet;
      this.preferences := preferences;
      allocationBudget := 0.0;
    }

    function View(): DonorView
      reads this
    {
      DonorView(id, wallet, preferences, allocationBudget)
    }

    /** set_preference: the weight is clamped into [0, 1]. */
    method SetPreference(causeId: string, weight: real)
      modifies this
      ensures View() == old(View()).(preferences := old(preferences)[causeId := Clamp01(weight)])
      ensures 0.0 <= preferences[causeId] <= 1.0
    {
      preferences := preferences[causeId := Clamp01(weight)];
    }

    method OfferCapacity(rate: real) returns (offered: real)
      modifies this
      ensures View() == Offer(old(View()), rate)
      ensures offered == allocationBudget
    {
      allocationBudget := Min(wallet * rate, wallet);
      offered := allocationBudget;
    }

    method AllocateTokens(amount: real, causeId: string) returns (ok: bool)
      modifies this
      ensures ok == CanAllocate(old(View()), amount)
      ensures View() == if ok then Debit(old(View()), amount) else old(View())
    {
      if amount <= allocationBudget && amount <= wallet {
        wallet := wallet - amount;
        allocationBudget := allocationBudget - amount;
        ok := true;
      } else {
        ok := false;
      }
    }
  }

  class Cause {
    const id: string
    const name: string
    var need: real
    var priority: real
    var received: real
    var totalReceived: real

    constructor (id: string, name: string, need: real, priority: real)
      ensures View() == CauseView(id, need, priority, 0.0, 0.0) && this.name == name
    {
      this.id := id;
      this.name := name;
      this.need := need;
      this.priority := priority;
      received := 0.0;
      totalReceived := 0.0;
    }

    function View(): CauseView
      reads this
    {
      CauseView(id, need, priority, received, totalReceived)
    }

    /** register_need: the priority is clamped into [0, 1]. */
    method RegisterNeed(amount: real, priority: real)
      modifies this
      ensures View() == old(View()).(need := amount, priority := Clamp01(priority))
    {
      need := amount;
      this.priority := Clamp01(priority);
    }

    method ReceiveTokens(amount: real, donorId: string) returns (ok: bool)
      modifies this
      ensures ok
      ensures View() == Credit(old(View()), amount)
    {
      received := received + amount;
      totalReceived := totalReceived + amount;
      ok := true;
    }

    method ResetCycle()
      modifies this
      ensures View() == old(View()).(received := 0.0)
    {
      received := 0.0;
    }
  }

  class Distributor {
    var donors: seq<Donor>
    var causes: seq<Cause>
    var allocationHistory: seq<CycleResult>

    /** Each agent object is listed once. */
    ghost predicate Valid()
      reads this
    {
      (forall i, j :: 0 <= i < j < |donors| ==> donors[i] != donors[j]) &&
      (forall i, j :: 0 <= i < j < |causes| ==> causes[i] != causes[j])
    }

    constructor ()
      ensures Valid() && donors == [] && causes == [] && allocationHistory == []
    {
      donors := [];
      causes := [];
      allocationHistory := [];
    }

    function DonorViews(): (r: seq<DonorView>)
      reads this, donors
      ensures |r| == |donors| && forall k :: 0 <= k < |donors| ==> r[k] == donors[k].View()
    {
      seq(|donors|, k reads this, donors requires 0 <= k < |donors| => donors[k].View())
    }

    function CauseViews(): (r: seq<CauseView>)
      reads this, causes
      ensures |r| == |causes| && forall k :: 0 <= k < |causes| ==> r[k] == causes[k].View()
    {
      seq(|causes|, k reads this, causes requires 0 <= k < |causes| => causes[k].View())
    }

    method AddDonor(d: Donor)
      requires Valid() && d !in donors
      modifies this
      ensures Valid() && donors == old(donors) + [d]
      ensures causes == old(causes) && allocationHistory == old(allocationHistory)
    {
      donors := donors + [d];
    }

    method AddCause(c: Cause)
      requires Valid() && c !in causes
      modifies this
      ensures Valid() && causes == old(causes) + [c]
      ensures donors == old(donors) && allocationHistory == old(allocationHistory)
    {
      causes := causes + [c];
    }

    /**
     * _calculate_donor_allocation for the donor at position `i`: each cause is keyed once, with
     * a positive amount no larger than what that cause, which the donor prefers, still needs;
     * a donor without preferences or budget gets nothing.
     */
    function CalculateDonorAllocation(i: nat): (r: Dict<string, real>)
      requires i < |donors|
      reads this, donors, causes
      ensures r == DonorAllocation(donors[i].preferences, donors[i].allocationBudget, CauseViews())
      ensures UniqueKeys(r) && AllBacked(donors[i].preferences, CauseViews(), r)
      ensures r != [] ==> |donors[i].preferences| > 0 && donors[i].allocationBudget > 0.0
    {
      DonorAllocationSpec(donors[i].preferences, donors[i].allocationBudget, CauseViews());
      DonorAllocation(donors[i].preferences, donors[i].allocationBudget, CauseViews())
    }

    /** Step 1: every donor offers its capacity; the offers are summed. */
    method OfferAllCapacity() returns (totalOffered: real)
      requires Valid()
      modifies donors
      ensures DonorViews() == OfferAll(old(DonorViews()))
      ensures CauseViews() == old(CauseViews())
      ensures totalOffered == Sum(Budgets(OfferAll(old(DonorViews()))))
    {
      ghost var d0 := DonorViews();
      ghost var offered := OfferAll(d0);
      totalOffered := 0.0;
      var i := 0;
      while i < |donors|
        invariant 0 <= i <= |donors|
        invariant forall k :: 0 <= k < i ==> donors[k].View() == offered[k]
        invariant forall k :: i <= k < |donors| ==> donors[k].View() == d0[k]
        invariant CauseViews() == old(CauseViews())
        invariant totalOffered == Sum(Budgets(offered)[..i])
      {
        label before:
        var amount := donors[i].OfferCapacity(OfferRate);
        assert forall k :: 0 <= k < |donors| && k != i ==> donors[k].View() == old@before(donors[k].View());
        assert Budgets(offered)[..i + 1][..i] == Budgets(offered)[..i];
        totalOffered := totalOffered + amount;
        i := i + 1;
      }
      assert Budgets(offered)[..i] == Budgets(offered);
    }

    /** Step 3 for one `(cause_id, amount)` item of donor `i`'s allocation. */
    method TransferShare(i: nat, causeId: string, amount: real, allocations: seq<Transfer>, total: real)
      returns (allocations': seq<Transfer>, total': real)
      requires Valid() && i < |donors|
      modifies donors[i], causes
      ensures Ledger(DonorViews(), CauseViews(), allocations', total')
        == ExecuteShare(old(Ledger(DonorViews(), CauseViews(), allocations, total)), i, (causeId, amount))
    {
      ghost var l := Ledger(DonorViews(), CauseViews(), allocations, total);
      allocations', total' := allocations, total;
      var found := FindCause(CauseViews(), causeId);
      if found.Some? {
        var donor := donors[i];
        var cause := causes[found.value];
        var ok := donor.AllocateTokens(amount, causeId);
        assert forall m :: 0 <= m < |donors| && m != i ==> donors[m].View() == old(donors[m].View());
        if ok {
          label mid:
          var _ := cause.ReceiveTokens(amount, donor.id);
          assert forall m :: 0 <= m < |causes| && m != found.value ==> causes[m].View() == old@mid(causes[m].View());
          total' := total + amount;
          allocations' := allocations + [Transfer(donor.id, causeId, amount)];
          assert DonorViews() == l.donors[i := Debit(l.donors[i], amount)];
          assert CauseViews() == l.causes[found.value := Credit(l.causes[found.value], amount)];
        } else {
          assert DonorViews() == l.donors;
        }
      }
    }

    /** Steps 2 and 3 for the donor at position `i`. */
    method DonorRound(i: nat, allocations: seq<Transfer>, total: real)
      returns (allocations': seq<Transfer>, total': real)
      requires Valid() && i < |donors|
      modifies donors[i], causes
      ensures Ledger(DonorViews(), CauseViews(), allocations', total')
        == DonorPass(old(Ledger(DonorViews(), CauseViews(), allocations, total)), i)
    {
      ghost var l := Ledger(DonorViews(), CauseViews(), allocations, total);
      allocations', total' := allocations, total;
      if donors[i].allocationBudget > 0.0 {
        var shares := CalculateDonorAllocation(i);
        var k := 0;
        while k < |shares|
          invariant 0 <= k <= |shares|
          invariant Ledger(DonorViews(), CauseViews(), allocations', total') == ExecuteShares(l, i, shares[..k])
        {
          assert shares[..k + 1][..k] == shares[..k];
          allocations', total' := TransferShare(i, shares[k].0, shares[k].1, allocations', total');
          k := k + 1;
        }
        assert shares[..k] == shares;
      }
    }

    /** Step 5: every cause starts the next cycle with nothing received. */
    method ResetCauses()
      requires Valid()
      modifies causes
      ensures CauseViews() == ResetAll(old(CauseViews()))
      ensures DonorViews() == old(DonorViews())
    {
      ghost var c0 := CauseViews();
      var i := 0;
      while i < |causes|
        invariant 0 <= i <= |causes|
        invariant forall k :: 0 <= k < i ==> causes[k].View() == c0[k].(received := 0.0)
        invariant forall k :: i <= k < |causes| ==> causes[k].View() == c0[k]
        invariant DonorViews() == old(DonorViews())
      {
        label before:
        causes[i].ResetCycle();
        assert forall k :: 0 <= k < |causes| && k != i ==> causes[k].View() == old@before(causes[k].View());
        i := i + 1;
      }
    }

    /** Steps 2 and 3 for every donor in turn. */
    method AllocateAll() returns (allocations: seq<Transfer>, totalAllocated: real)
      requires Valid()
      modifies donors, causes
      ensures Ledger(DonorViews(), CauseViews(), allocations, totalAllocated)
        == PassUpTo(old(Ledger(DonorViews(), CauseViews(), [], 0.0)), |donors|)
    {
      ghost var l0 := Ledger(DonorViews(), CauseViews(), [], 0.0);
      allocations, totalAllocated := [], 0.0;
      var i := 0;
      while i < |donors|
        invariant 0 <= i <= |donors|
        invariant Ledger(DonorViews(), CauseViews(), allocations, totalAllocated) == PassUpTo(l0, i)
      {
        allocations, totalAllocated := DonorRound(i, allocations, totalAllocated);
        i := i + 1;
      }
    }

    /** Steps 4 and 5: the metrics are taken, the causes reset and the cycle recorded. */
    method CloseCycle(totalOffered: real, allocations: seq<Transfer>, totalAllocated: real) returns (r: CycleResult)
      requires Valid()
      modifies this, causes
      ensures Valid() && donors == old(donors) && causes == old(causes)
      ensures r == CycleResult(totalOffered, totalAllocated, allocations,
                               UnmetNeeds(old(CauseViews())), Satisfactions(old(DonorViews()), old(allocationHistory)))
      ensures CauseViews() == ResetAll(old(CauseViews())) && DonorViews() == old(DonorViews())
      ensures allocationHistory == old(allocationHistory) + [r]
    {
      var unmet := UnmetNeeds(CauseViews());
      var satisfaction := Satisfactions(DonorViews(), allocationHistory);
      ResetCauses();
      r := CycleResult(totalOffered, totalAllocated, allocations, unmet, satisfaction);
      allocationHistory := allocationHistory + [r];
    }

    /** run_allocation_cycle: computes exactly `Cycle` of the state before it and records the result. */
    method RunAllocationCycle() returns (r: CycleResult)
      requires Valid()
      modifies this, donors, causes
      ensures Valid() && donors == old(donors) && causes == old(causes)
      ensures var outcome := Cycle(old(DonorViews()), old(CauseViews()), old(allocationHistory));
        DonorViews() == outcome.donors && CauseViews() == outcome.causes && r == outcome.result
      ensures allocationHistory == old(allocationHistory) + [r]
    {
      var totalOffered := OfferAllCapacity();
      var allocations, totalAllocated := AllocateAll();
      r := CloseCycle(totalOffered, allocations, totalAllocated);
    }
  }
}
