/** When two lists of lines for the same SKUs come to the same evaluation. */
module EvaluationAgreement {
  import opened Json
  import opened Seqs
  import opened Rules
  import opened RulesExact

  /** The same SKUs in the same order. */
  predicate SameSkus(a: seq<Dict>, b: seq<Dict>) {
    |a| == |b| && forall i :: 0 <= i < |a| ==> Key(a[i]) == Key(b[i])
  }

  predicate SamePrices(a: seq<Dict>, b: seq<Dict>)
    requires |a| == |b|
  {
    forall i :: 0 <= i < |a| ==> Price(a[i]) == Price(b[i])
  }

  /** The policy reaches the same SKUs of both lists. */
  predicate AppliesAlike(q: Policy, a: seq<Dict>, b: seq<Dict>)
    requires |a| == |b|
  {
    forall i :: 0 <= i < |a| ==> (AppliesTo(q, a, a[i]) <==> AppliesTo(q, b, b[i]))
  }

  // ---------------------------------------------------------------- firing follows from applying

  lemma FiresExactly(q: Policy, active: seq<Dict>)
    requires UniqueSkus(active) && active != []
    ensures Fires(q, active) <==>
            || (exists i :: 0 <= i < |active| && AppliesTo(q, active, active[i]))
            || (q.rule.SkuCombination? && q.rule.requirements == [])
  {
    assert active[0] in active;
    match q.rule
    case PerProduct(field, op, threshold) =>
      forall p | p in active
        ensures Key(p) in Keys(active)
      {
        assert p["product_id"] in Keys(active);
      }
    case Portfolio(_, _, _, _) => assert AppliesTo(q, active, active[0]) <==> Fires(q, active);
    case SkuCombination(requirements, toAll) => CombinationReaches(q, active);
  }

  /** A complete combination with a requirement reaches a line. */
  lemma CombinationReaches(q: Policy, active: seq<Dict>)
    requires q.rule.SkuCombination? && active != []
    ensures CombinationComplete(q.rule.requirements, active) && q.rule.requirements != [] ==>
              exists i :: 0 <= i < |active| && AppliesTo(q, active, active[i])
  {
    var requirements := q.rule.requirements;
    if CombinationComplete(requirements, active) && requirements != [] {
      assert requirements[0] in requirements;
      var p :| p in active && Satisfies(p, requirements[0]);
      var i :| 0 <= i < |active| && active[i] == p;
      assert AppliesTo(q, active, active[i]);
    }
  }

  lemma FiresAlike(q: Policy, a: seq<Dict>, b: seq<Dict>)
    requires SameSkus(a, b) && UniqueSkus(a) && UniqueSkus(b) && a != [] && AppliesAlike(q, a, b)
    ensures Fires(q, a) <==> Fires(q, b)
  {
    FiresExactly(q, a);
    FiresExactly(q, b);
  }

  // ---------------------------------------------------------------- the parts of a summary

  lemma {:induction false} AlikeIds(policies: seq<Policy>, a: seq<Dict>, p: Dict, b: seq<Dict>, r: Dict)
    requires forall q :: q in policies ==> (AppliesTo(q, a, p) <==> AppliesTo(q, b, r))
    ensures ApplicableIds(policies, a, p) == ApplicableIds(policies, b, r)
  {
    if policies != [] {
      assert policies == policies[..|policies| - 1] + [policies[|policies| - 1]];
      AlikeIds(policies[..|policies| - 1], a, p, b, r);
    }
  }

  lemma {:induction false} AlikeFired(policies: seq<Policy>, a: seq<Dict>, b: seq<Dict>)
    requires forall q :: q in policies ==> (Fires(q, a) <==> Fires(q, b))
    ensures FiredIds(policies, a) == FiredIds(policies, b)
  {
    if policies != [] {
      assert policies == policies[..|policies| - 1] + [policies[|policies| - 1]];
      AlikeFired(policies[..|policies| - 1], a, b);
    }
  }

  lemma RowAlike(policies: seq<Policy>, a: seq<Dict>, p: Dict, b: seq<Dict>, r: Dict)
    requires UniqueSkus(a) && UniqueSkus(b) && p in a && r in b
    requires Key(p) == Key(r) && Price(p) == Price(r)
    requires forall q :: q in policies ==> (AppliesTo(q, a, p) <==> AppliesTo(q, b, r))
    ensures ResultFor(policies, a, p) == ResultFor(policies, b, r)
  {
    RecordedExact(policies, a, p);
    RecordedExact(policies, b, r);
    AlikeIds(policies, a, p, b, r);
  }

  lemma {:induction false} SamePriceTotal(a: seq<Dict>, b: seq<Dict>)
    requires |a| == |b| && SamePrices(a, b)
    ensures SumBy(a, PricePlain()) == SumBy(b, PricePlain())
  {
    if a != [] {
      SamePriceTotal(a[1..], b[1..]);
    }
  }

  lemma SameParts(policies: seq<Policy>, a: seq<Dict>, b: seq<Dict>)
    requires Results(policies, a) == Results(policies, b) && FiredIds(policies, a) == FiredIds(policies, b)
    requires SumBy(a, PricePlain()) == SumBy(b, PricePlain())
    ensures Summarise(policies, a) == Summarise(policies, b)
  {
  }

  lemma SummaryAlike(policies: seq<Policy>, a: seq<Dict>, b: seq<Dict>)
    requires SameSkus(a, b) && UniqueSkus(a) && UniqueSkus(b) && a != [] && SamePrices(a, b)
    requires forall q :: q in policies ==> AppliesAlike(q, a, b)
    ensures Summarise(policies, a) == Summarise(policies, b)
  {
    forall i | 0 <= i < |a|
      ensures ResultFor(policies, a, a[i]) == ResultFor(policies, b, b[i])
    {
      assert a[i] in a && b[i] in b;
      RowAlike(policies, a, a[i], b, b[i]);
    }
    forall q | q in policies
      ensures Fires(q, a) <==> Fires(q, b)
    {
      FiresAlike(q, a, b);
    }
    AlikeFired(policies, a, b);
    SamePriceTotal(a, b);
    SameParts(policies, a, b);
  }

  // ---------------------------------------------------------------- and conversely

  lemma RowTellsPolicies(policies: seq<Policy>, a: seq<Dict>, p: Dict, b: seq<Dict>, r: Dict, q: Policy)
    requires NoDuplicates(Ids(policies)) && q in policies
    requires UniqueSkus(a) && UniqueSkus(b) && p in a && r in b
    requires ResultFor(policies, a, p) == ResultFor(policies, b, r)
    ensures AppliesTo(q, a, p) <==> AppliesTo(q, b, r)
  {
    RecordedExact(policies, a, p);
    RecordedExact(policies, b, r);
    assert ApplicableIds(policies, a, p) == ApplicableIds(policies, b, r);
    UniqueIds(policies);
    ApplicableMembers(policies, a, p, q.id);
    ApplicableMembers(policies, b, r, q.id);
  }

  lemma ResultsTell(policies: seq<Policy>, a: seq<Dict>, b: seq<Dict>)
    requires |a| == |b| && UniqueSkus(a) && UniqueSkus(b) && NoDuplicates(Ids(policies))
    requires Results(policies, a) == Results(policies, b)
    ensures SamePrices(a, b) && forall q :: q in policies ==> AppliesAlike(q, a, b)
  {
    forall i | 0 <= i < |a|
      ensures Price(a[i]) == Price(b[i])
    {
      assert Results(policies, a)[i].listPrice == Results(policies, b)[i].listPrice;
    }
    forall q, i | q in policies && 0 <= i < |a|
      ensures AppliesTo(q, a, a[i]) <==> AppliesTo(q, b, b[i])
    {
      assert Results(policies, a)[i] == Results(policies, b)[i];
      RowTellsPolicies(policies, a, a[i], b, b[i], q);
    }
  }

  /**
   * Two lists of active lines for the same distinct SKUs are summarised alike, line by line and in total, exactly when
   * each SKU has the same price in both and each policy reaches the same SKUs of both.
   */
  lemma SummariesAgreeExactly(policies: seq<Policy>, a: seq<Dict>, b: seq<Dict>)
    requires SameSkus(a, b) && UniqueSkus(a) && UniqueSkus(b) && NoDuplicates(Ids(policies))
    ensures Summarise(policies, a) == Summarise(policies, b) <==>
            SamePrices(a, b) && forall q :: q in policies ==> AppliesAlike(q, a, b)
  {
    if a == [] {
      assert b == [];
    } else if Summarise(policies, a) == Summarise(policies, b) {
      ResultsTell(policies, a, b);
    } else if SamePrices(a, b) && forall q :: q in policies ==> AppliesAlike(q, a, b) {
      SummaryAlike(policies, a, b);
    }
  }

  /** So are two evaluations, unless they raise. */
  lemma EvaluationsAgreeExactly(policies: seq<Policy>, now: seq<Dict>, other: seq<Dict>)
    requires SameSkus(Active(now), Active(other)) && UniqueSkus(Active(now)) && UniqueSkus(Active(other))
    requires NoDuplicates(Ids(policies))
    ensures Evaluate(policies, now) == Evaluate(policies, other) <==>
            if Evaluable(policies, Active(now)) && Evaluable(policies, Active(other)) then
              SamePrices(Active(now), Active(other)) && forall q :: q in policies ==> AppliesAlike(q, Active(now), Active(other))
            else !Evaluable(policies, Active(now)) && !Evaluable(policies, Active(other))
  {
    SummariesAgreeExactly(policies, Active(now), Active(other));
  }
}
