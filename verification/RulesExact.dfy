/** The in-place accumulator holds exactly the policies that declaratively apply. */
module RulesExact {
  import opened Json
  import opened Numerals
  import opened Seqs
  import opened Rules

  predicate UniqueSkus(active: seq<Dict>) {
    && (forall p :: p in active ==> "product_id" in p)
    && (forall i, j :: 0 <= i < j < |active| ==> Key(active[i]) != Key(active[j]))
  }

  /** The ids of the policies that apply to one line, in load order. */
  function ApplicableIds(policies: seq<Policy>, active: seq<Dict>, p: Dict): seq<string> {
    if policies == [] then []
    else
      var last := policies[|policies| - 1];
      ApplicableIds(policies[..|policies| - 1], active, p) + (if AppliesTo(last, active, p) then [last.id] else [])
  }

  lemma {:induction false} CountUnique(active: seq<Dict>, p: Dict, f: Dict -> bool)
    requires UniqueSkus(active) && p in active
    requires forall q :: q in active && f(q) ==> Key(q) == Key(p)
    ensures CountBy(active, f) == if f(p) then 1 else 0
  {
    var i :| 0 <= i < |active| && active[i] == p;
    assert active == active[..i] + ([p] + active[i + 1..]);
    CountByConcat(active[..i], [p] + active[i + 1..], f);
    CountByConcat([p], active[i + 1..], f);
    CountByPositive(active[..i], f);
    CountByPositive(active[i + 1..], f);
    assert CountBy([p], f) == if f(p) then 1 else 0;
  }

  lemma HitsExact(policy: Policy, active: seq<Dict>, p: Dict)
    requires UniqueSkus(active) && p in active
    ensures Hits(policy, active, Key(p)) == if AppliesTo(policy, active, p) then 1 else 0
  {
    match policy.rule
    case PerProduct(field, op, threshold) =>
      CountUnique(active, p, MatchesKey(Key(p), field, op, threshold));
    case Portfolio(_, _, _, _) =>
    case SkuCombination(_, _) =>
      assert forall q :: q in active && Key(q) == Key(p) ==> q == p;
  }

  lemma {:induction false} RecordedExact(policies: seq<Policy>, active: seq<Dict>, p: Dict)
    requires UniqueSkus(active) && p in active
    ensures Recorded(policies, active, Key(p)) == ApplicableIds(policies, active, p)
  {
    if policies != [] {
      var last := policies[|policies| - 1];
      RecordedExact(policies[..|policies| - 1], active, p);
      HitsExact(last, active, p);
      assert Repeat(last.id, 0) == [] && Repeat(last.id, 1) == [] + [last.id];
    }
  }

  lemma {:induction false} ApplicableMembers(policies: seq<Policy>, active: seq<Dict>, p: Dict, id: string)
    ensures id in ApplicableIds(policies, active, p) <==>
            exists q :: q in policies && q.id == id && AppliesTo(q, active, p)
  {
    if policies != [] {
      var front, last := policies[..|policies| - 1], policies[|policies| - 1];
      ApplicableMembers(front, active, p, id);
      assert policies == front + [last];
    }
  }

  lemma {:induction false} ApplicableDistinct(policies: seq<Policy>, active: seq<Dict>, p: Dict)
    requires NoDuplicates(Ids(policies))
    ensures NoDuplicates(ApplicableIds(policies, active, p))
  {
    if policies != [] {
      var front, last := policies[..|policies| - 1], policies[|policies| - 1];
      assert forall i :: 0 <= i < |front| ==> Ids(policies)[i] == Ids(front)[i];
      ApplicableDistinct(front, active, p);
      ApplicableMembers(front, active, p, last.id);
      assert Ids(policies)[|front|] == last.id;
      forall q | q in front
        ensures q.id != last.id
      {
        var i :| 0 <= i < |front| && front[i] == q;
        assert Ids(policies)[i] == q.id;
      }
    }
  }

  lemma {:induction false} FiredMembers(policies: seq<Policy>, active: seq<Dict>, id: string)
    ensures id in FiredIds(policies, active) <==> exists q :: q in policies && q.id == id && Fires(q, active)
  {
    if policies != [] {
      var front, last := policies[..|policies| - 1], policies[|policies| - 1];
      FiredMembers(front, active, id);
      assert policies == front + [last];
    }
  }

  lemma {:induction false} LookupUnique(policies: seq<Policy>, q: Policy)
    requires NoDuplicates(Ids(policies)) && q in policies
    ensures Lookup(policies, q.id) == Some(q)
  {
    var front, last := policies[..|policies| - 1], policies[|policies| - 1];
    assert policies == front + [last];
    if q != last {
      var i :| 0 <= i < |front| && front[i] == q;
      assert Ids(policies)[i] == q.id && Ids(policies)[|front|] == last.id;
      assert forall j :: 0 <= j < |front| ==> Ids(policies)[j] == Ids(front)[j];
      LookupUnique(front, q);
    }
  }

  function ApplicablePct(active: seq<Dict>, p: Dict): Policy -> real {
    (q: Policy) => if AppliesTo(q, active, p) then q.pct else 0.0
  }

  /** The summed percentage is that of the applicable policies. */
  lemma {:induction false} ApplicableTotal(loaded: seq<Policy>, policies: seq<Policy>, active: seq<Dict>, p: Dict)
    requires NoDuplicates(Ids(loaded))
    requires forall q :: q in policies ==> q in loaded
    ensures TotalPct(loaded, ApplicableIds(policies, active, p)) == SumBy(policies, ApplicablePct(active, p))
  {
    if policies != [] {
      var front, last := policies[..|policies| - 1], policies[|policies| - 1];
      assert policies == front + [last];
      ApplicableTotal(loaded, front, active, p);
      SumByAppend(front, last, ApplicablePct(active, p));
      LookupUnique(loaded, last);
      var ids := ApplicableIds(front, active, p);
      SumByAppend(ids, last.id, PctReader(loaded));
      assert ApplicableIds(policies, active, p) == if AppliesTo(last, active, p) then ids + [last.id] else ids;
    }
  }

  /**
   * Evaluator refinement: with distinct active SKUs and distinct policy ids each line is
   * given exactly the policies that apply to it, once each and in load order, the total
   * percentage is theirs, and a policy is reported as fired exactly when it fires.
   */
  lemma EvaluatorRefinement(policies: seq<Policy>, lines: seq<Dict>, s: Summary)
    requires UniqueSkus(Active(lines)) && NoDuplicates(Ids(policies))
    requires Evaluate(policies, lines) == Ok(s)
    ensures |s.products| == |Active(lines)|
    ensures forall i :: 0 <= i < |s.products| ==>
              var p, r := Active(lines)[i], s.products[i];
              && r.sku == Key(p) && r.listPrice == Price(p)
              && r.applied == ApplicableIds(policies, Active(lines), p)
              && NoDuplicates(r.applied)
              && r.totalPct == SumBy(policies, ApplicablePct(Active(lines), p))
              && r.discounted == DiscountedPrice(Price(p), r.totalPct)
    ensures forall i, q :: 0 <= i < |s.products| && q in policies ==>
              (q.id in s.products[i].applied <==> AppliesTo(q, Active(lines), Active(lines)[i]))
    ensures forall q :: q in policies ==> (q.id in s.applied <==> Fires(q, Active(lines)))
  {
    var active := Active(lines);
    forall i | 0 <= i < |active|
      ensures s.products[i].applied == ApplicableIds(policies, active, active[i])
      ensures NoDuplicates(s.products[i].applied)
      ensures s.products[i].totalPct == SumBy(policies, ApplicablePct(active, active[i]))
      ensures forall q :: q in policies ==> (q.id in s.products[i].applied <==> AppliesTo(q, active, active[i]))
    {
      RecordedExact(policies, active, active[i]);
      ApplicableDistinct(policies, active, active[i]);
      ApplicableTotal(policies, policies, active, active[i]);
      forall q | q in policies
        ensures q.id in s.products[i].applied <==> AppliesTo(q, active, active[i])
      {
        ApplicableMembers(policies, active, active[i], q.id);
        UniqueIds(policies);
      }
    }
    forall q | q in policies
      ensures q.id in s.applied <==> Fires(q, active)
    {
      FiredMembers(policies, active, q.id);
      UniqueIds(policies);
    }
  }

  lemma UniqueIds(policies: seq<Policy>)
    requires NoDuplicates(Ids(policies))
    ensures forall q, r :: q in policies && r in policies && q.id == r.id ==> q == r
  {
    forall q, r | q in policies && r in policies && q.id == r.id
      ensures q == r
    {
      LookupUnique(policies, q);
      LookupUnique(policies, r);
    }
  }

  /** A portfolio policy reaches every active SKU or none; an incomplete combination reaches none
      and does not fire. */
  lemma PortfolioAllOrNone(policies: seq<Policy>, lines: seq<Dict>, s: Summary, q: Policy)
    requires UniqueSkus(Active(lines)) && NoDuplicates(Ids(policies)) && q in policies
    requires Evaluate(policies, lines) == Ok(s)
    ensures q.rule.Portfolio? ==>
              forall i :: 0 <= i < |s.products| ==> (q.id in s.products[i].applied <==> q.id in s.applied)
    ensures q.rule.SkuCombination? && !CombinationComplete(q.rule.requirements, Active(lines)) ==>
              && q.id !in s.applied
              && forall i :: 0 <= i < |s.products| ==> q.id !in s.products[i].applied
  {
    EvaluatorRefinement(policies, lines, s);
  }

  /**
   * The aggregate does not matter to the conversion: a portfolio rule raises exactly when some active line carries
   * under the rule's field what does not spell a number, even when it only counts the lines. A word is such text.
   * (README.md's triple-play example counts `product_type`.)
   */
  lemma CountingATextFieldRaises(policies: seq<Policy>, lines: seq<Dict>, q: Policy)
    requires q in policies && q.rule.Portfolio?
    ensures !PolicyOk(q, Active(lines)) <==>
            exists p: Dict :: p in Active(lines) && q.rule.field in p && NumberIn(p[q.rule.field]) == None
    ensures !PolicyOk(q, Active(lines)) ==> Evaluate(policies, lines) == Raised
    ensures (exists p: Dict :: p in Active(lines) && q.rule.field in p && p[q.rule.field].Str? && Word(p[q.rule.field].s)) ==>
              Evaluate(policies, lines) == Raised
  {
    forall p: Dict | p in Active(lines) && q.rule.field in p && p[q.rule.field].Str? && Word(p[q.rule.field].s)
      ensures !FieldOk(p, q.rule.field)
    {
      WordIsNoNumeral(p[q.rule.field].s);
    }
  }

  /** The requirement is tried: all before it are met. */
  predicate Reached(requirements: seq<Requirement>, active: seq<Dict>, k: nat)
    requires k < |requirements|
  {
    forall j :: 0 <= j < k ==> Met(requirements[j], active)
  }

  /** A combination raises exactly when it reaches a requirement that some active line cannot be compared with. */
  lemma {:induction false} CombinationRaisesExactly(requirements: seq<Requirement>, active: seq<Dict>)
    ensures CombinationOk(requirements, active) <==>
            forall k :: 0 <= k < |requirements| && Reached(requirements, active, k) ==>
              forall p :: p in active ==> Comparable(p, requirements[k])
  {
    if requirements != [] {
      var rest := requirements[1..];
      CombinationRaisesExactly(rest, active);
      assert Reached(requirements, active, 0);
      assert forall k :: 0 <= k < |rest| ==> rest[k] == requirements[k + 1];
      if Met(requirements[0], active) {
        ReachedTail(requirements, active);
      }
    }
  }

  lemma ReachedRaises(requirements: seq<Requirement>, active: seq<Dict>, k: nat, p: Dict)
    requires k < |requirements| && Reached(requirements, active, k) && p in active && !Comparable(p, requirements[k])
    ensures !CombinationOk(requirements, active)
  {
    CombinationRaisesExactly(requirements, active);
  }

  lemma ReachedTail(requirements: seq<Requirement>, active: seq<Dict>)
    requires requirements != [] && Met(requirements[0], active)
    ensures forall k :: 0 <= k < |requirements[1..]| ==> (Reached(requirements[1..], active, k) <==> Reached(requirements, active, k + 1))
  {
    var rest := requirements[1..];
    forall k | 0 <= k < |rest|
      ensures Reached(rest, active, k) <==> Reached(requirements, active, k + 1)
    {
      if Reached(rest, active, k) {
        forall j | 0 <= j < k + 1
          ensures Met(requirements[j], active)
        {
          assert j > 0 ==> requirements[j] == rest[j - 1];
        }
      }
      if Reached(requirements, active, k + 1) {
        assert forall j :: 0 <= j < k ==> rest[j] == requirements[j + 1];
      }
    }
  }

  /**
   * A combination whose first requirement has no value can be evaluated for customers without an active line only, so
   * one such policy makes every other evaluation raise. (README.md's bundle example gives its requirements a
   * `threshold` and no `value`.)
   */
  lemma ValuelessRequirementRaises(policies: seq<Policy>, lines: seq<Dict>, q: Policy)
    requires q in policies && q.rule.SkuCombination? && q.rule.requirements != [] && q.rule.requirements[0].value == None
    ensures PolicyOk(q, Active(lines)) <==> Active(lines) == []
    ensures Active(lines) != [] ==> Evaluate(policies, lines) == Raised
  {
    var active := Active(lines);
    if active == [] {
      CombinationRaisesExactly(q.rule.requirements, active);
    } else {
      ReachedRaises(q.rule.requirements, active, 0, active[0]);
    }
  }
}
