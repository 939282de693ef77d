/** Adding an active line never takes a discount away under upward policies. */
module RulesMonotone {
  import opened Json
  import opened Money
  import opened Seqs
  import opened Rules
  import opened RulesExact

  /** Rules that another active line cannot switch off. */
  predicate Upward(policy: Policy) {
    match policy.rule
    case PerProduct(_, _, _) => true
    case Portfolio(aggregate, _, op, _) => aggregate != Avg && (op == Gt || op == Gte)
    case SkuCombination(_, _) => true
  }

  /** The added line does not lower the sum a portfolio policy watches. */
  predicate AddsTo(policy: Policy, line: Dict) {
    policy.rule.Portfolio? && policy.rule.aggregate == Sum ==> Field(line, policy.rule.field) >= 0.0
  }

  function PlainPct(): Policy -> real {
    (q: Policy) => q.pct
  }

  predicate SoundPolicies(policies: seq<Policy>) {
    && NoDuplicates(Ids(policies))
    && (forall q :: q in policies ==> q.pct >= 0.0)
    && SumBy(policies, PlainPct()) <= 100.0
  }

  predicate NonNegativePrices(active: seq<Dict>) {
    forall p :: p in active ==> Price(p) >= 0.0
  }

  predicate WholePrices(active: seq<Dict>) {
    forall p :: p in active ==> WholePence(Price(p))
  }

  /** Rounding the grown total does not lose against rounding its two parts. */
  predicate PricesAddUp(active: seq<Dict>, line: Dict) {
    var total := SumBy(active, PricePlain());
    Round2(total + Price(line)) >= Round2(total) + Round2(Price(line))
  }

  lemma {:induction false} ActiveConcat(xs: seq<Dict>, ys: seq<Dict>)
    ensures Active(xs + ys) == Active(xs) + Active(ys)
  {
    if xs == [] {
      assert xs + ys == ys;
    } else {
      var head, tail := if IsActive(xs[0]) then [xs[0]] else [], xs[1..];
      assert (xs + ys)[0] == xs[0] && (xs + ys)[1..] == tail + ys;
      ActiveConcat(tail, ys);
      calc {
        Active(xs + ys);
        head + Active(tail + ys);
        head + (Active(tail) + Active(ys));
        (head + Active(tail)) + Active(ys);
        Active(xs) + Active(ys);
      }
    }
  }

  lemma AggregateGrows(policy: Policy, active: seq<Dict>, line: Dict)
    requires policy.rule.Portfolio? && Upward(policy) && AddsTo(policy, line)
    ensures AggregateOf(policy.rule.aggregate, policy.rule.field, active) <=
            AggregateOf(policy.rule.aggregate, policy.rule.field, active + [line])
  {
    SumByAppend(active, line, FieldReader(policy.rule.field));
  }

  lemma CompleteGrows(requirements: seq<Requirement>, active: seq<Dict>, line: Dict)
    requires CombinationComplete(requirements, active)
    ensures CombinationComplete(requirements, active + [line])
  {
  }

  lemma AppliesGrows(policy: Policy, active: seq<Dict>, line: Dict, p: Dict)
    requires Upward(policy) && AddsTo(policy, line) && AppliesTo(policy, active, p)
    ensures AppliesTo(policy, active + [line], p)
  {
    match policy.rule
    case PerProduct(_, _, _) =>
    case Portfolio(_, _, _, _) => AggregateGrows(policy, active, line);
    case SkuCombination(requirements, _) => CompleteGrows(requirements, active, line);
  }

  lemma FiresGrows(policy: Policy, active: seq<Dict>, line: Dict)
    requires Upward(policy) && AddsTo(policy, line) && Fires(policy, active)
    ensures Fires(policy, active + [line])
  {
    match policy.rule
    case PerProduct(field, op, threshold) =>
      var p :| p in active && Key(p) in Keys(active) && Compare(Field(p, field), op, threshold);
      var q :| q in active && "product_id" in q && q["product_id"] == Key(p);
      assert p in active + [line] && q in active + [line];
    case Portfolio(_, _, _, _) => AggregateGrows(policy, active, line);
    case SkuCombination(requirements, _) => CompleteGrows(requirements, active, line);
  }

  lemma {:induction false} CombinationOkShrinks(requirements: seq<Requirement>, active: seq<Dict>, line: Dict)
    requires CombinationOk(requirements, active + [line])
    ensures CombinationOk(requirements, active)
  {
    if requirements != [] {
      assert forall p :: p in active ==> p in active + [line];
      if Met(requirements[0], active) {
        CombinationOkShrinks(requirements[1..], active, line);
      }
    }
  }

  /** Whatever can be evaluated with the extra line can be evaluated without it. */
  lemma EvaluableShrinks(policies: seq<Policy>, active: seq<Dict>, line: Dict)
    requires Evaluable(policies, active + [line])
    ensures Evaluable(policies, active)
  {
    assert forall p :: p in active ==> p in active + [line];
    forall q | q in policies
      ensures PolicyOk(q, active)
    {
      assert PolicyOk(q, active + [line]);
      if q.rule.SkuCombination? {
        CombinationOkShrinks(q.rule.requirements, active, line);
      }
    }
  }

  lemma {:induction false} SumByOrdered<T>(xs: seq<T>, f: T -> real, g: T -> real)
    requires forall x :: x in xs ==> f(x) <= g(x)
    ensures SumBy(xs, f) <= SumBy(xs, g)
  {
    if xs != [] {
      SumByOrdered(xs[1..], f, g);
    }
  }

  lemma PctBounds(policies: seq<Policy>, active: seq<Dict>, p: Dict)
    requires SoundPolicies(policies)
    ensures 0.0 <= SumBy(policies, ApplicablePct(active, p)) <= 100.0
  {
    SumByNonnegative(policies, ApplicablePct(active, p));
    SumByOrdered(policies, ApplicablePct(active, p), PlainPct());
  }

  lemma PctGrows(policies: seq<Policy>, active: seq<Dict>, line: Dict, p: Dict)
    requires SoundPolicies(policies)
    requires forall q :: q in policies ==> Upward(q) && AddsTo(q, line)
    ensures SumBy(policies, ApplicablePct(active, p)) <= SumBy(policies, ApplicablePct(active + [line], p))
  {
    forall q | q in policies
      ensures ApplicablePct(active, p)(q) <= ApplicablePct(active + [line], p)(q)
    {
      if AppliesTo(q, active, p) {
        AppliesGrows(q, active, line, p);
      }
    }
    SumByOrdered(policies, ApplicablePct(active, p), ApplicablePct(active + [line], p));
  }

  lemma Scaled(price: real, a: real, b: real)
    requires price >= 0.0 && a <= b
    ensures ExactPrice(price, b) <= ExactPrice(price, a)
  {
  }

  /** A larger percentage never raises the rounded price. */
  lemma DiscountedAntitone(price: real, a: real, b: real)
    requires price >= 0.0 && a <= b
    ensures DiscountedPrice(price, b) <= DiscountedPrice(price, a)
  {
    Scaled(price, a, b);
    Round2Monotone(ExactPrice(price, b), ExactPrice(price, a));
  }

  /** With 0 to 100 per cent off, the price stays between zero and the rounded list price and within half a
      penny of the exact figure. */
  lemma DiscountedBounds(price: real, pct: real)
    requires price >= 0.0 && 0.0 <= pct <= 100.0
    ensures 0.0 <= DiscountedPrice(price, pct) <= Round2(price)
    ensures Abs(DiscountedPrice(price, pct) - ExactPrice(price, pct)) <= 0.005
  {
    DiscountedAntitone(price, 0.0, pct);
    DiscountedAntitone(price, pct, 100.0);
    assert WholePence(0.0);
    Round2Fixed(0.0);
    assert ExactPrice(price, 0.0) == price;
    assert ExactPrice(price, 100.0) == 0.0;
    Round2Near(ExactPrice(price, pct));
  }

  /** No discount ever exceeds the list price exactly when rounding the list price does not raise it, as with
      every whole-pence price. */
  lemma BelowListExactly(price: real)
    requires price >= 0.0
    ensures (forall pct :: 0.0 <= pct <= 100.0 ==> DiscountedPrice(price, pct) <= price) <==> Round2(price) <= price
    ensures WholePence(price) ==> Round2(price) <= price
  {
    assert ExactPrice(price, 0.0) == price;
    assert DiscountedPrice(price, 0.0) == Round2(price);
    forall pct | 0.0 <= pct <= 100.0
      ensures DiscountedPrice(price, pct) <= Round2(price)
    {
      DiscountedBounds(price, pct);
    }
    if WholePence(price) {
      Round2Fixed(price);
    }
  }

  function Saving(): ProductResult -> real {
    (r: ProductResult) => r.listPrice - r.discounted
  }

  lemma {:induction false} WholeSum<T>(xs: seq<T>, f: T -> real)
    requires forall x :: x in xs ==> WholePence(f(x))
    ensures WholePence(SumBy(xs, f))
  {
    if xs != [] {
      WholeSum(xs[1..], f);
      WholePenceClosed(f(xs[0]), SumBy(xs[1..], f));
    }
  }

  lemma {:induction false} SavingSum(active: seq<Dict>, results: seq<ProductResult>)
    requires |results| == |active|
    requires forall i :: 0 <= i < |active| ==> results[i].listPrice == Price(active[i])
    ensures SumBy(results, Saving()) == SumBy(active, PricePlain()) - SumBy(results, DiscountedReader())
  {
    if active != [] {
      SavingSum(active[1..], results[1..]);
    }
  }

  function ExactReader(): ProductResult -> real {
    (r: ProductResult) => ExactPrice(r.listPrice, r.totalPct)
  }

  lemma ResultShape(policies: seq<Policy>, active: seq<Dict>, r: ProductResult)
    requires r in Results(policies, active)
    ensures r.discounted == Round2(ExactReader()(r))
    ensures WholePence(r.discounted)
  {
  }

  lemma DiscountedTotal(policies: seq<Policy>, active: seq<Dict>)
    ensures WholePence(SumBy(Results(policies, active), DiscountedReader()))
  {
    var results := Results(policies, active);
    forall r | r in results
      ensures WholePence(DiscountedReader()(r))
    {
      ResultShape(policies, active, r);
    }
    WholeSum(results, DiscountedReader());
  }

  /**
   * Conservation: the reported total is the sum of the reported line prices, and the total saving
   * is exactly total list minus total discounted, whatever was rounded on the way.
   */
  lemma Conservation(policies: seq<Policy>, lines: seq<Dict>, s: Summary)
    requires Evaluate(policies, lines) == Ok(s)
    ensures s.totalDiscounted == SumBy(s.products, DiscountedReader())
    ensures s.totalSaving == s.totalList - s.totalDiscounted
    ensures Abs(s.totalList - SumBy(Active(lines), PricePlain())) <= 0.005
  {
    EvaluatedSummary(policies, Active(lines), s);
  }

  lemma EvaluatedSummary(policies: seq<Policy>, active: seq<Dict>, s: Summary)
    requires Evaluable(policies, active) && s == Summarise(policies, active)
    ensures s.totalDiscounted == SumBy(s.products, DiscountedReader())
    ensures s.totalSaving == s.totalList - s.totalDiscounted
    ensures Abs(s.totalList - SumBy(active, PricePlain())) <= 0.005
  {
    SummaryConserved(policies, active, s);
  }

  lemma SummaryConserved(policies: seq<Policy>, active: seq<Dict>, s: Summary)
    requires s == Summarise(policies, active)
    ensures s.totalDiscounted == SumBy(s.products, DiscountedReader())
    ensures s.totalSaving == s.totalList - s.totalDiscounted
    ensures Abs(s.totalList - SumBy(active, PricePlain())) <= 0.005
  {
    DiscountedTotal(policies, active);
    TotalsConserved(s, SumBy(active, PricePlain()), SumBy(Results(policies, active), DiscountedReader()));
  }

  lemma TotalsConserved(s: Summary, listSum: real, discountedSum: real)
    requires WholePence(discountedSum)
    requires s.totalList == Round2(listSum) && s.totalDiscounted == Round2(discountedSum)
    requires s.totalSaving == Round2(s.totalList - s.totalDiscounted)
    ensures s.totalDiscounted == discountedSum
    ensures s.totalSaving == s.totalList - s.totalDiscounted
    ensures Abs(s.totalList - listSum) <= 0.005
  {
    Round2Fixed(discountedSum);
    Round2Near(listSum);
    WholePenceClosed(Round2(listSum), discountedSum);
    Round2Fixed(Round2(listSum) - discountedSum);
  }

  lemma SavingIsLineSavings(policies: seq<Policy>, lines: seq<Dict>, s: Summary)
    requires Evaluate(policies, lines) == Ok(s)
    requires WholePrices(Active(lines))
    ensures s.totalList == SumBy(Active(lines), PricePlain())
    ensures s.totalSaving == SumBy(s.products, Saving())
  {
    var active := Active(lines);
    Conservation(policies, lines, s);
    WholeSum(active, PricePlain());
    Round2Fixed(SumBy(active, PricePlain()));
    SavingSum(active, s.products);
  }

  lemma {:induction false} RoundingDrift(results: seq<ProductResult>)
    requires forall r :: r in results ==> Abs(r.discounted - ExactReader()(r)) <= 0.005
    ensures Abs(SumBy(results, DiscountedReader()) - SumBy(results, ExactReader())) <= 0.005 * |results| as real
  {
    if results != [] {
      RoundingDrift(results[1..]);
      var rest := |results[1..]| as real;
      assert |results| as real == rest + 1.0;
    }
  }

  /** An n-line total is within n half-pennies of the exact total. */
  lemma TotalWithinHalfPennies(policies: seq<Policy>, lines: seq<Dict>, s: Summary)
    requires Evaluate(policies, lines) == Ok(s)
    ensures Abs(s.totalDiscounted - SumBy(s.products, ExactReader())) <= 0.005 * |Active(lines)| as real
  {
    EvaluatedDrift(policies, Active(lines), s);
  }

  lemma EvaluatedDrift(policies: seq<Policy>, active: seq<Dict>, s: Summary)
    requires s == Summarise(policies, active)
    ensures Abs(s.totalDiscounted - SumBy(s.products, ExactReader())) <= 0.005 * |active| as real
  {
    SummaryConserved(policies, active, Summarise(policies, active));
    ResultsNear(policies, active);
    DriftOfTotal(s.totalDiscounted, s.products);
  }

  lemma DriftOfTotal(total: real, results: seq<ProductResult>)
    requires total == SumBy(results, DiscountedReader())
    requires forall r :: r in results ==> Abs(r.discounted - ExactReader()(r)) <= 0.005
    ensures Abs(total - SumBy(results, ExactReader())) <= 0.005 * |results| as real
  {
    RoundingDrift(results);
  }

  lemma ResultsNear(policies: seq<Policy>, active: seq<Dict>)
    ensures forall r :: r in Results(policies, active) ==>
              r.discounted == DiscountedPrice(r.listPrice, r.totalPct) && Abs(r.discounted - ExactReader()(r)) <= 0.005
  {
  }

  /** Money bounds: with 0 to 100 per cent off every line's price lies between zero and the rounded list price,
      within half a penny of exact. */
  lemma MoneyBounds(policies: seq<Policy>, lines: seq<Dict>, s: Summary, r: ProductResult)
    requires Evaluate(policies, lines) == Ok(s) && r in s.products
    requires r.listPrice >= 0.0 && 0.0 <= r.totalPct <= 100.0
    ensures 0.0 <= r.discounted <= Round2(r.listPrice)
    ensures Abs(r.discounted - ExactPrice(r.listPrice, r.totalPct)) <= 0.005
  {
    ResultsNear(policies, Active(lines));
    DiscountedBounds(r.listPrice, r.totalPct);
  }

  predicate Addable(policies: seq<Policy>, lines: seq<Dict>, line: Dict) {
    && SoundPolicies(policies)
    && (forall q :: q in policies ==> Upward(q) && AddsTo(q, line))
    && IsActive(line) && UniqueSkus(Active(lines) + [line])
    && NonNegativePrices(Active(lines) + [line])
    && Evaluate(policies, lines + [line]).Ok?
  }

  lemma AddedActive(lines: seq<Dict>, line: Dict)
    requires IsActive(line)
    ensures Active(lines + [line]) == Active(lines) + [line]
  {
    ActiveConcat(lines, [line]);
    assert [line][1..] == [];
  }

  lemma LineNotHurt(policies: seq<Policy>, lines: seq<Dict>, line: Dict, i: nat)
    requires Addable(policies, lines, line) && i < |Active(lines)|
    requires Evaluate(policies, lines).Ok?
    ensures |Evaluate(policies, lines + [line]).value.products| == |Active(lines)| + 1
    ensures var before, after := Evaluate(policies, lines).value, Evaluate(policies, lines + [line]).value;
            && after.products[i].sku == before.products[i].sku
            && after.products[i].listPrice == before.products[i].listPrice
            && (forall id :: id in before.products[i].applied ==> id in after.products[i].applied)
            && after.products[i].discounted <= before.products[i].discounted
  {
    var active := Active(lines);
    AddedActive(lines, line);
    var grown := active + [line];
    var before, after := Evaluate(policies, lines).value, Evaluate(policies, lines + [line]).value;
    assert forall j :: 0 <= j < |active| ==> active[j] == grown[j];
    EvaluatorRefinement(policies, lines, before);
    EvaluatorRefinement(policies, lines + [line], after);
    assert grown[i] == active[i];
    PctGrows(policies, active, line, active[i]);
    assert active[i] in grown;
    DiscountedAntitone(Price(active[i]), before.products[i].totalPct, after.products[i].totalPct);
    forall id | id in before.products[i].applied
      ensures id in after.products[i].applied
    {
      ApplicableMembers(policies, active, active[i], id);
      var q :| q in policies && q.id == id && AppliesTo(q, active, active[i]);
      AppliesGrows(q, active, line, active[i]);
    }
  }

  /**
   * Adding never hurts: under upward policies of at most 100 per cent together, a new active line
   * takes no policy from an existing line, raises no existing line's price and leaves every fired policy fired;
   * and it does not lower the total saving if the list prices add up when rounded, as whole-pence prices do.
   */
  lemma AddingNeverHurts(policies: seq<Policy>, lines: seq<Dict>, line: Dict)
    requires Addable(policies, lines, line)
    ensures Evaluate(policies, lines).Ok?
    ensures var before, after := Evaluate(policies, lines).value, Evaluate(policies, lines + [line]).value;
            && |after.products| == |before.products| + 1
            && (forall i, id :: 0 <= i < |before.products| && id in before.products[i].applied ==>
                                  id in after.products[i].applied)
            && (forall i :: 0 <= i < |before.products| ==>
                              after.products[i].discounted <= before.products[i].discounted)
            && (PricesAddUp(Active(lines), line) ==> before.totalSaving <= after.totalSaving)
            && (forall id :: id in before.applied ==> id in after.applied)
  {
    var active := Active(lines);
    AddedActive(lines, line);
    EvaluableShrinks(policies, active, line);
    var before, after := Evaluate(policies, lines).value, Evaluate(policies, lines + [line]).value;
    forall i | 0 <= i < |active|
      ensures after.products[i].listPrice == before.products[i].listPrice
      ensures after.products[i].discounted <= before.products[i].discounted
      ensures forall id :: id in before.products[i].applied ==> id in after.products[i].applied
    {
      LineNotHurt(policies, lines, line, i);
    }
    if PricesAddUp(active, line) {
      SavingNotLower(policies, lines, line);
    }
    forall id | id in before.applied
      ensures id in after.applied
    {
      FiredMembers(policies, active, id);
      var q :| q in policies && q.id == id && Fires(q, active);
      FiresGrows(q, active, line);
      FiredMembers(policies, active + [line], id);
    }
  }

  lemma {:induction false} DiscountedOrdered(before: seq<ProductResult>, after: seq<ProductResult>)
    requires |before| == |after|
    requires forall i :: 0 <= i < |before| ==> after[i].discounted <= before[i].discounted
    ensures SumBy(after, DiscountedReader()) <= SumBy(before, DiscountedReader())
  {
    if before != [] {
      DiscountedOrdered(before[1..], after[1..]);
    }
  }

  /** The total saving is the rounded list total less the discounted prices. */
  lemma SavingSplit(policies: seq<Policy>, lines: seq<Dict>)
    requires Evaluate(policies, lines).Ok?
    ensures var s := Evaluate(policies, lines).value;
            s.totalSaving == Round2(SumBy(Active(lines), PricePlain())) - SumBy(s.products, DiscountedReader())
  {
    Conservation(policies, lines, Evaluate(policies, lines).value);
  }

  /** The new line's own price, and the total over the results that contain it. */
  lemma LastResult(policies: seq<Policy>, lines: seq<Dict>, line: Dict)
    requires Addable(policies, lines, line)
    ensures var n, after := |Active(lines)|, Evaluate(policies, lines + [line]).value;
            && |after.products| == n + 1
            && SumBy(after.products, DiscountedReader()) == SumBy(after.products[..n], DiscountedReader()) + after.products[n].discounted
            && after.products[n].discounted <= Round2(Price(line))
  {
    AddedActive(lines, line);
    LastRow(policies, Active(lines), line);
  }

  lemma LastRow(policies: seq<Policy>, active: seq<Dict>, line: Dict)
    requires SoundPolicies(policies) && UniqueSkus(active + [line]) && Price(line) >= 0.0
    ensures var n, rows := |active|, Results(policies, active + [line]);
            && SumBy(rows, DiscountedReader()) == SumBy(rows[..n], DiscountedReader()) + rows[n].discounted
            && rows[n].discounted <= Round2(Price(line))
  {
    var n, rows := |active|, Results(policies, active + [line]);
    SumOfFront(rows, DiscountedReader());
    assert (active + [line])[n] == line && line in active + [line];
    RecordedExact(policies, active + [line], line);
    ApplicableTotal(policies, policies, active + [line], line);
    NewLinePrice(policies, active, line, rows[n]);
  }

  lemma NewLinePrice(policies: seq<Policy>, active: seq<Dict>, line: Dict, r: ProductResult)
    requires SoundPolicies(policies) && Price(line) >= 0.0
    requires r.totalPct == SumBy(policies, ApplicablePct(active + [line], line))
    requires r.discounted == DiscountedPrice(Price(line), r.totalPct)
    ensures r.discounted <= Round2(Price(line))
  {
    PctBounds(policies, active + [line], line);
    DiscountedBounds(Price(line), r.totalPct);
  }

  lemma SumOfFront<T>(xs: seq<T>, f: T -> real)
    requires xs != []
    ensures SumBy(xs, f) == SumBy(xs[..|xs| - 1], f) + f(xs[|xs| - 1])
  {
    assert xs == xs[..|xs| - 1] + [xs[|xs| - 1]];
    SumByAppend(xs[..|xs| - 1], xs[|xs| - 1], f);
  }

  /** The discounted total grows by the new line's rounded list price at most. */
  lemma DiscountedGrowth(policies: seq<Policy>, lines: seq<Dict>, line: Dict)
    requires Addable(policies, lines, line) && Evaluate(policies, lines).Ok?
    ensures SumBy(Evaluate(policies, lines + [line]).value.products, DiscountedReader()) <=
            SumBy(Evaluate(policies, lines).value.products, DiscountedReader()) + Round2(Price(line))
  {
    LastResult(policies, lines, line);
    var before, after := Evaluate(policies, lines).value.products, Evaluate(policies, lines + [line]).value.products;
    forall i | 0 <= i < |before|
      ensures after[i].discounted <= before[i].discounted
    {
      LineNotHurt(policies, lines, line, i);
    }
    DiscountedOrdered(before, after[..|before|]);
  }

  lemma SavingNotLower(policies: seq<Policy>, lines: seq<Dict>, line: Dict)
    requires Addable(policies, lines, line)
    requires Evaluate(policies, lines).Ok? && PricesAddUp(Active(lines), line)
    ensures Evaluate(policies, lines).value.totalSaving <= Evaluate(policies, lines + [line]).value.totalSaving
  {
    var before, after := Evaluate(policies, lines).value, Evaluate(policies, lines + [line]).value;
    SavingSplit(policies, lines);
    SavingSplit(policies, lines + [line]);
    DiscountedGrowth(policies, lines, line);
    SavingFromTotals(before, after, lines, line);
  }

  lemma SavingFromTotals(before: Summary, after: Summary, lines: seq<Dict>, line: Dict)
    requires IsActive(line) && PricesAddUp(Active(lines), line)
    requires before.totalSaving == Round2(SumBy(Active(lines), PricePlain())) - SumBy(before.products, DiscountedReader())
    requires after.totalSaving == Round2(SumBy(Active(lines + [line]), PricePlain())) - SumBy(after.products, DiscountedReader())
    requires SumBy(after.products, DiscountedReader()) <= SumBy(before.products, DiscountedReader()) + Round2(Price(line))
    ensures before.totalSaving <= after.totalSaving
  {
    ListTotalGrowth(lines, line);
  }

  lemma ListTotalGrowth(lines: seq<Dict>, line: Dict)
    requires IsActive(line)
    ensures SumBy(Active(lines + [line]), PricePlain()) == SumBy(Active(lines), PricePlain()) + Price(line)
    ensures SumBy(Active(lines + [line]), RoundedPrice()) == SumBy(Active(lines), RoundedPrice()) + Round2(Price(line))
  {
    AddedActive(lines, line);
    SumByAppend(Active(lines), line, PricePlain());
    SumByAppend(Active(lines), line, RoundedPrice());
  }

  /** Whole-pence prices always add up. */
  lemma WholePricesAddUp(active: seq<Dict>, line: Dict)
    requires WholePrices(active + [line])
    ensures PricesAddUp(active, line)
  {
    assert forall p :: p in active ==> p in active + [line];
    assert line in active + [line];
    var total := SumBy(active, PricePlain());
    WholeSum(active, PricePlain());
    WholePenceClosed(total, Price(line));
    Round2Fixed(total);
    Round2Fixed(Price(line));
    Round2Fixed(total + Price(line));
  }

  lemma {:induction false} RoundedPrices(active: seq<Dict>, results: seq<ProductResult>)
    requires |results| == |active| && forall i :: 0 <= i < |active| ==> results[i].discounted == Round2(Price(active[i]))
    ensures SumBy(results, DiscountedReader()) == SumBy(active, RoundedPrice())
  {
    if active != [] {
      RoundedPrices(active[1..], results[1..]);
    }
  }

  function RoundedPrice(): Dict -> real {
    p => Round2(Price(p))
  }

  lemma UndiscountedSaving(lines: seq<Dict>)
    requires Evaluate([], lines).Ok?
    ensures Evaluate([], lines).value.totalSaving ==
            Round2(SumBy(Active(lines), PricePlain())) - SumBy(Active(lines), RoundedPrice())
  {
    SavingSplit([], lines);
    var active := Active(lines);
    forall i | 0 <= i < |active|
      ensures Results([], active)[i].discounted == Round2(Price(active[i]))
    {
      assert ExactPrice(Price(active[i]), 0.0) == Price(active[i]);
    }
    RoundedPrices(active, Results([], active));
  }

  /**
   * The condition on the prices cannot be dropped: where no policy is loaded, adding the line keeps the total
   * saving exactly when the list prices add up. Two lines of 0.6 pence do not: each rounds up, their sum does not
   * round up twice, and the saving falls below zero.
   */
  lemma SavingKeptExactly(lines: seq<Dict>, line: Dict)
    requires IsActive(line) && Evaluate([], lines).Ok? && Evaluate([], lines + [line]).Ok?
    ensures Evaluate([], lines).value.totalSaving <= Evaluate([], lines + [line]).value.totalSaving
            <==> PricesAddUp(Active(lines), line)
  {
    UndiscountedSaving(lines);
    UndiscountedSaving(lines + [line]);
    UndiscountedTotals(Evaluate([], lines).value.totalSaving, Evaluate([], lines + [line]).value.totalSaving, lines, line);
  }

  lemma UndiscountedTotals(before: real, after: real, lines: seq<Dict>, line: Dict)
    requires IsActive(line)
    requires before == Round2(SumBy(Active(lines), PricePlain())) - SumBy(Active(lines), RoundedPrice())
    requires after == Round2(SumBy(Active(lines + [line]), PricePlain())) - SumBy(Active(lines + [line]), RoundedPrice())
    ensures before <= after <==> PricesAddUp(Active(lines), line)
  {
    ListTotalGrowth(lines, line);
  }

  lemma TwoSmallPrices(a: Dict, b: Dict)
    requires Price(a) == 0.006 && Price(b) == 0.006
    ensures !PricesAddUp([a], b)
  {
    SumByAppend([], a, PricePlain());
    assert [] + [a] == [a];
    HalfEvenCharacterised(0.6, 1);
    HalfEvenCharacterised(1.2, 1);
  }

  /** An average is not upward: adding a cheaper line takes the policy away from the line that had it. */
  lemma AverageCanBeLost(line: Dict, cheaper: Dict, q: Policy)
    requires q.rule == Portfolio(Avg, "list_price_gbp", Gte, Field(line, "list_price_gbp"))
    requires Field(cheaper, "list_price_gbp") < Field(line, "list_price_gbp")
    ensures AppliesTo(q, [line], line) && !AppliesTo(q, [line] + [cheaper], line)
  {
    var f := FieldReader("list_price_gbp");
    var x, y := f(line), f(cheaper);
    SumByAppend([], line, f);
    assert [] + [line] == [line];
    SumByAppend([line], cheaper, f);
    assert SumBy([line], f) == x && SumBy([line] + [cheaper], f) == x + y;
    assert (x + y) / 2.0 < x;
  }
}
