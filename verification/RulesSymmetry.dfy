/** The evaluator sees the active lines as a multiset. */
module RulesSymmetry {
  import opened Json
  import opened Seqs
  import opened Rules

  lemma SameKeys(a: seq<Dict>, b: seq<Dict>)
    requires multiset(a) == multiset(b)
    ensures forall p :: p in a <==> p in b
    ensures |a| == |b|
    ensures Keys(a) == Keys(b)
  {
    forall p
      ensures p in a <==> p in b
    {
      SamePermutationElements(a, b, p);
    }
    assert |a| == |multiset(a)| == |b|;
  }

  lemma SameRule(policy: Policy, a: seq<Dict>, b: seq<Dict>, key: Json)
    requires multiset(a) == multiset(b)
    ensures Fires(policy, a) == Fires(policy, b)
    ensures Hits(policy, a, key) == Hits(policy, b, key)
  {
    SameKeys(a, b);
    match policy.rule
    case PerProduct(field, op, threshold) =>
      CountByPermutation(a, b, MatchesKey(key, field, op, threshold));
    case Portfolio(_, field, _, _) =>
      SumByPermutation(a, b, FieldReader(field));
      assert a == [] <==> b == [];
    case SkuCombination(requirements, _) =>
      assert forall r :: r in requirements ==> (Met(r, a) <==> Met(r, b));
  }

  lemma {:induction false} SameCombinationOk(requirements: seq<Requirement>, a: seq<Dict>, b: seq<Dict>)
    requires multiset(a) == multiset(b)
    ensures CombinationOk(requirements, a) == CombinationOk(requirements, b)
  {
    SameKeys(a, b);
    if requirements != [] {
      SameCombinationOk(requirements[1..], a, b);
      assert Met(requirements[0], a) <==> Met(requirements[0], b);
    }
  }

  lemma SameEvaluable(policies: seq<Policy>, a: seq<Dict>, b: seq<Dict>)
    requires multiset(a) == multiset(b)
    ensures Evaluable(policies, a) == Evaluable(policies, b)
  {
    SameKeys(a, b);
    forall q | q in policies
      ensures PolicyOk(q, a) == PolicyOk(q, b)
    {
      if q.rule.SkuCombination? {
        SameCombinationOk(q.rule.requirements, a, b);
      }
    }
  }

  lemma {:induction false} SameRecorded(policies: seq<Policy>, a: seq<Dict>, b: seq<Dict>, key: Json)
    requires multiset(a) == multiset(b)
    ensures Recorded(policies, a, key) == Recorded(policies, b, key)
    ensures FiredIds(policies, a) == FiredIds(policies, b)
  {
    if policies != [] {
      SameRecorded(policies[..|policies| - 1], a, b, key);
      SameRule(policies[|policies| - 1], a, b, key);
    }
  }

  lemma SameResult(policies: seq<Policy>, a: seq<Dict>, b: seq<Dict>, p: Dict)
    requires multiset(a) == multiset(b)
    ensures ResultFor(policies, a, p) == ResultFor(policies, b, p)
  {
    SameKeys(a, b);
    SameRecorded(policies, a, b, Key(p));
  }

  /** Results of a sub-list `xs` of lines, each evaluated against the whole of `active`. */
  function ResultsOf(policies: seq<Policy>, active: seq<Dict>, xs: seq<Dict>): seq<ProductResult> {
    if xs == [] then [] else [ResultFor(policies, active, xs[0])] + ResultsOf(policies, active, xs[1..])
  }

  lemma {:induction false} ResultsOfIndex(policies: seq<Policy>, active: seq<Dict>, xs: seq<Dict>)
    ensures |ResultsOf(policies, active, xs)| == |xs|
    ensures forall i :: 0 <= i < |xs| ==> ResultsOf(policies, active, xs)[i] == ResultFor(policies, active, xs[i])
  {
    if xs != [] {
      ResultsOfIndex(policies, active, xs[1..]);
    }
  }

  lemma {:induction false} ResultsOfConcat(policies: seq<Policy>, active: seq<Dict>, xs: seq<Dict>, ys: seq<Dict>)
    ensures ResultsOf(policies, active, xs + ys) == ResultsOf(policies, active, xs) + ResultsOf(policies, active, ys)
  {
    if xs == [] {
      assert xs + ys == ys;
    } else {
      assert (xs + ys)[1..] == xs[1..] + ys;
      ResultsOfConcat(policies, active, xs[1..], ys);
    }
  }

  lemma {:induction false} ResultsPermute(policies: seq<Policy>, active: seq<Dict>, xs: seq<Dict>, ys: seq<Dict>)
    requires multiset(xs) == multiset(ys)
    ensures multiset(ResultsOf(policies, active, xs)) == multiset(ResultsOf(policies, active, ys))
  {
    if xs == [] {
      assert |ys| == |multiset(ys)| == 0;
    } else {
      var left, right := MatchHead(xs, ys);
      ResultsPermute(policies, active, xs[1..], left + right);
      ResultsOfConcat(policies, active, left, right);
      ResultsOfConcat(policies, active, left, [xs[0]] + right);
      assert ([xs[0]] + right)[1..] == right;
    }
  }

  /**
   * Evaluator symmetry: two line lists whose active lines agree up to order are evaluated alike.
   * Permuting lines, and inserting, editing or removing lines that are not active, changes no
   * per-SKU result, no total and no fired policy, and makes no evaluation raise.
   */
  lemma EvaluatorSymmetry(policies: seq<Policy>, lines: seq<Dict>, others: seq<Dict>)
    requires multiset(Active(lines)) == multiset(Active(others))
    ensures Evaluate(policies, lines).Ok? == Evaluate(policies, others).Ok?
    ensures Evaluate(policies, lines).Ok? ==>
              var s, t := Evaluate(policies, lines).value, Evaluate(policies, others).value;
              && t == s.(products := t.products)
              && multiset(t.products) == multiset(s.products)
              && forall i, j :: 0 <= i < |s.products| && 0 <= j < |t.products| && s.products[i].sku == t.products[j].sku
                                ==> s.products[i].applied == t.products[j].applied
                                    && s.products[i].totalPct == t.products[j].totalPct
  {
    var a, b := Active(lines), Active(others);
    SameEvaluable(policies, a, b);
    SameSummary(policies, a, b);
    forall i, j | 0 <= i < |a| && 0 <= j < |b| && Key(a[i]) == Key(b[j])
      ensures Results(policies, a)[i].applied == Results(policies, b)[j].applied
    {
      SameKeys(a, b);
      SameRecorded(policies, a, b, Key(a[i]));
    }
  }

  lemma SameSummary(policies: seq<Policy>, a: seq<Dict>, b: seq<Dict>)
    requires multiset(a) == multiset(b)
    ensures Summarise(policies, b) == Summarise(policies, a).(products := Results(policies, b))
    ensures multiset(Results(policies, b)) == multiset(Results(policies, a))
  {
    SameRecorded(policies, a, b, Null);
    SumByPermutation(a, b, PricePlain());
    SameResults(policies, a, b);
    SameTotals(Ids(policies), FiredIds(policies, a), Results(policies, a), Results(policies, b), SumBy(a, PricePlain()));
  }

  lemma SameTotals(loaded: seq<string>, fired: seq<string>, r: seq<ProductResult>, t: seq<ProductResult>, listSum: real)
    requires multiset(r) == multiset(t)
    ensures SummaryOf(loaded, fired, t, listSum) == SummaryOf(loaded, fired, r, listSum).(products := t)
  {
    SumByPermutation(r, t, DiscountedReader());
  }

  lemma SameResults(policies: seq<Policy>, a: seq<Dict>, b: seq<Dict>)
    requires multiset(a) == multiset(b)
    ensures multiset(Results(policies, a)) == multiset(Results(policies, b))
  {
    ResultsOfIndex(policies, a, a);
    ResultsOfIndex(policies, a, b);
    assert Results(policies, a) == ResultsOf(policies, a, a);
    forall i | 0 <= i < |b|
      ensures Results(policies, b)[i] == ResultsOf(policies, a, b)[i]
    {
      SameResult(policies, a, b, b[i]);
    }
    assert Results(policies, b) == ResultsOf(policies, a, b);
    ResultsPermute(policies, a, a, b);
  }
}
