/**
 * A proposal against what billing would charge. The engine evaluates the cached lines, which carry the catalogue's list
 * price and product type, with a line that has its price as a monthly charge; billing evaluates its own lines, which
 * carry billing's list price and no product type, with a line that has its price as a list price.
 */
module OfferQuotes {
  import opened Json
  import opened Seqs
  import opened Rules
  import opened RulesExact
  import opened RulesMonotone
  import opened EvaluationAgreement
  import opened Billing
  import opened BillingTheorems
  import opened BillingGrowth
  import opened Cdc
  import opened CdcRuns
  import opened OfferEngine
  import opened OfferTheorems
  import opened Pipeline

  /** The line billing would add, as the engine proposes it. */
  function Proposed(l: SubLine, kind: Json): Dict
    requires l.listPrice.Some? && l.term.Some?
  {
    ProposedLine(l.sku, l.listPrice.value, l.term.value, kind)
  }

  /** An active line with a price and a term, on a record without its SKU. */
  predicate Addition(lines: seq<SubLine>, l: SubLine) {
    WellFormed(lines + [l]) && l.stat == "A" && l.listPrice.Some? && l.term.Some?
  }

  /** The cached record has the lines of an event that carried the billing record. */
  predicate Caches(rec: Dict, e: Event, cid: string, lines: seq<SubLine>) {
    HoldsLinesOf(rec, e) && e.raw == RawRecord(cid, lines)
  }

  // ---------------------------------------------------------------- the held lines, side by side

  /** The two lines stand at the same place of the two lists. */
  predicate Beside(p: Dict, x: Dict, a: seq<Dict>, b: seq<Dict>) {
    exists j :: 0 <= j < |a| && j < |b| && p == a[j] && x == b[j]
  }

  lemma BesideTail(p: Dict, x: Dict, a: seq<Dict>, b: seq<Dict>)
    requires a != [] && b != [] && Beside(p, x, a[1..], b[1..])
    ensures Beside(p, x, a, b)
  {
    var j :| 0 <= j < |a[1..]| && j < |b[1..]| && p == a[1..][j] && x == b[1..][j];
    assert p == a[j + 1] && x == b[j + 1];
  }

  predicate SideBySide(xs: seq<Dict>, ys: seq<Dict>, a: seq<Dict>, b: seq<Dict>) {
    |xs| == |ys| && forall i :: 0 <= i < |xs| ==> Beside(xs[i], ys[i], a, b)
  }

  lemma SideBySideTail(xs: seq<Dict>, ys: seq<Dict>, a: seq<Dict>, b: seq<Dict>)
    requires a != [] && b != [] && SideBySide(xs, ys, a[1..], b[1..])
    ensures SideBySide(xs, ys, a, b) && SideBySide([a[0]] + xs, [b[0]] + ys, a, b)
  {
    forall i | 0 <= i < |xs|
      ensures Beside(xs[i], ys[i], a, b)
    {
      BesideTail(xs[i], ys[i], a, b);
    }
    assert Beside(a[0], b[0], a, b);
  }

  /** Lists that agree on which of their lines are active have their active lines side by side. */
  lemma {:induction false} ActiveTogether(a: seq<Dict>, b: seq<Dict>)
    requires |a| == |b| && forall i :: 0 <= i < |a| ==> (IsActive(a[i]) <==> IsActive(b[i]))
    ensures SideBySide(Active(a), Active(b), a, b)
  {
    if a != [] {
      ActiveTogether(a[1..], b[1..]);
      SideBySideTail(Active(a[1..]), Active(b[1..]), a, b);
    }
  }

  /** Each active cached line stands beside the evaluation of its billing line. */
  lemma HeldTogether(rec: Dict, e: Event, cid: string, lines: seq<SubLine>)
    requires Caches(rec, e, cid, lines)
    ensures |SubsOf(rec)| == |lines|
    ensures SideBySide(Active(SubsOf(rec)), Active(Context(lines)), SubsOf(rec), Context(lines))
  {
    CachedLinesInSync(rec, e, cid, lines);
    var subs, context := SubsOf(rec), Context(lines);
    forall i | 0 <= i < |subs|
      ensures IsActive(subs[i]) <==> IsActive(context[i])
    {
      assert context[i] == EvalLine(lines[i]);
    }
    ActiveTogether(subs, context);
  }

  lemma SkusSideBySide(xs: seq<Dict>, ys: seq<Dict>, a: seq<Dict>, b: seq<Dict>)
    requires SideBySide(xs, ys, a, b) && |a| == |b|
    requires forall j :: 0 <= j < |a| ==> "product_id" in a[j] && a[j]["product_id"].Str? && Key(a[j]) == Key(b[j])
    ensures SameSkus(xs, ys)
    ensures forall p: Dict :: p in xs ==> "product_id" in p && p["product_id"].Str?
  {
    forall i | 0 <= i < |xs|
      ensures Key(xs[i]) == Key(ys[i]) && "product_id" in xs[i] && xs[i]["product_id"].Str?
    {
      assert Beside(xs[i], ys[i], a, b);
    }
  }

  lemma SameSkuAt(subs: seq<Dict>, lines: seq<SubLine>, j: nat)
    requires InSync(subs, lines) && j < |lines|
    ensures "product_id" in subs[j] && subs[j]["product_id"].Str? && Key(subs[j]) == Key(EvalLine(lines[j]))
  {
  }

  lemma SameHeldSkus(rec: Dict, e: Event, cid: string, lines: seq<SubLine>)
    requires Caches(rec, e, cid, lines)
    ensures SameSkus(Active(SubsOf(rec)), Active(Context(lines)))
    ensures forall p: Dict :: p in Active(SubsOf(rec)) ==> "product_id" in p && p["product_id"].Str?
  {
    HeldTogether(rec, e, cid, lines);
    CachedLinesInSync(rec, e, cid, lines);
    var subs: seq<Dict>, context: seq<Dict> := SubsOf(rec), Context(lines);
    forall j | 0 <= j < |subs|
      ensures "product_id" in subs[j] && subs[j]["product_id"].Str? && Key(subs[j]) == Key(context[j])
    {
      SameSkuAt(subs, lines, j);
    }
    SkusSideBySide(Active(subs), Active(context), subs, context);
  }

  lemma UniqueFromKeys(a: seq<Dict>, b: seq<Dict>)
    requires UniqueSkus(b) && SameSkus(a, b) && forall p :: p in a ==> "product_id" in p
    ensures UniqueSkus(a)
  {
  }

  // ---------------------------------------------------------------- the new lines

  /** The fields that hold the price in one of the new lines only. */
  const PRICES: set<string> := {"list_price_gbp", "monthly_charge_gbp"}

  lemma NewLines(lines: seq<SubLine>, l: SubLine, kind: Json)
    requires Addition(lines, l)
    ensures var proposed, added := Proposed(l, kind), EvalLine(l);
            && IsActive(proposed) && IsActive(added)
            && "product_id" in proposed && proposed["product_id"] == Str(l.sku) && Key(proposed) == Key(added)
            && PriceJson(proposed) == PriceJson(added) == Num(l.listPrice.value)
  {
  }

  /** The new lines agree on every field but the prices and the product type. */
  lemma NewLinesAgree(l: SubLine, kind: Json, field: string)
    requires l.stat == "A" && l.listPrice.Some? && l.term.Some? && field !in PRICES + {"product_type"}
    ensures field in Proposed(l, kind) <==> field in EvalLine(l)
    ensures field in EvalLine(l) ==> Proposed(l, kind)[field] == EvalLine(l)[field]
  {
  }

  /** What billing evaluates shows identity, status, list price and term, and no other field. */
  lemma BillingFields(lines: seq<SubLine>, p: Dict)
    requires p in Active(Context(lines))
    ensures p.Keys == {"product_id", "status", "list_price_gbp", "contract_term_months"}
    ensures p["product_id"].Str? && p["list_price_gbp"].Num? && p["contract_term_months"].Num?
  {
    ActiveMembers(Context(lines));
    var k :| 0 <= k < |lines| && Context(lines)[k] == p;
    assert p == EvalLine(lines[k]);
  }

  /** What the engine evaluates and what billing evaluates, side by side. */
  lemma BothInputs(rec: Dict, e: Event, cid: string, lines: seq<SubLine>, l: SubLine, kind: Json)
    requires Caches(rec, e, cid, lines) && Addition(lines, l)
    ensures Active(SubsOf(rec) + [Proposed(l, kind)]) == Active(SubsOf(rec)) + [Proposed(l, kind)]
    ensures Active(Context(lines + [l])) == Active(Context(lines)) + [EvalLine(l)]
    ensures SameSkus(Active(SubsOf(rec)) + [Proposed(l, kind)], Active(Context(lines)) + [EvalLine(l)])
    ensures UniqueSkus(Active(SubsOf(rec)) + [Proposed(l, kind)]) && UniqueSkus(Active(Context(lines)) + [EvalLine(l)])
  {
    var proposed, added := Proposed(l, kind), EvalLine(l);
    NewLines(lines, l, kind);
    SameHeldSkus(rec, e, cid, lines);
    AddedActive(SubsOf(rec), proposed);
    GrownContext(lines, l);
    AddedActive(Context(lines), added);
    ContextDistinct(lines + [l]);
    UniqueFromKeys(Active(SubsOf(rec)) + [proposed], Active(Context(lines)) + [added]);
  }

  // ---------------------------------------------------------------- one policy on a grown list

  function Share(aggregate: Aggregate, total: real, n: nat): real
    requires n > 0
  {
    match aggregate
    case Sum => total
    case Avg => total / n as real
    case Count => n as real
  }

  /** What a portfolio rule watches once the line has joined the active ones. */
  function WatchedWith(rule: Rule, active: seq<Dict>, x: Dict): real
    requires rule.Portfolio?
  {
    Share(rule.aggregate, SumBy(active, FieldReader(rule.field)) + Field(x, rule.field), |active| + 1)
  }

  lemma AggregateWith(aggregate: Aggregate, field: string, active: seq<Dict>, x: Dict)
    ensures AggregateOf(aggregate, field, active + [x]) ==
            Share(aggregate, SumBy(active, FieldReader(field)) + Field(x, field), |active| + 1)
  {
    SumWith(field, active, x);
    AggregateShare(aggregate, field, active + [x]);
    SameShare(aggregate, SumBy(active + [x], FieldReader(field)), SumBy(active, FieldReader(field)) + Field(x, field), |active + [x]|, |active| + 1);
  }

  lemma SumWith(field: string, active: seq<Dict>, x: Dict)
    ensures SumBy(active + [x], FieldReader(field)) == SumBy(active, FieldReader(field)) + Field(x, field)
  {
    SumByAppend(active, x, FieldReader(field));
  }

  lemma SameShare(aggregate: Aggregate, a: real, b: real, m: nat, n: nat)
    requires a == b && m == n > 0
    ensures Share(aggregate, a, m) == Share(aggregate, b, n)
  {
  }

  lemma AggregateShare(aggregate: Aggregate, field: string, active: seq<Dict>)
    requires active != []
    ensures AggregateOf(aggregate, field, active) == Share(aggregate, SumBy(active, FieldReader(field)), |active|)
  {
  }

  /** Each requirement is met by a held line or the new one. */
  predicate CompleteWith(requirements: seq<Requirement>, active: seq<Dict>, x: Dict) {
    forall r :: r in requirements ==> Met(r, active) || Satisfies(x, r)
  }

  lemma MetWith(r: Requirement, active: seq<Dict>, x: Dict)
    ensures Met(r, active + [x]) <==> Met(r, active) || Satisfies(x, r)
  {
    if Met(r, active) {
      var p :| p in active && Satisfies(p, r);
      assert p in active + [x];
    }
    assert x in active + [x];
  }

  lemma CompletionWith(requirements: seq<Requirement>, active: seq<Dict>, x: Dict)
    ensures CombinationComplete(requirements, active + [x]) <==> CompleteWith(requirements, active, x)
  {
    forall r | r in requirements
      ensures Met(r, active + [x]) <==> Met(r, active) || Satisfies(x, r)
    {
      MetWith(r, active, x);
    }
  }

  /** Whether the policy reaches a line, held or new, once `x` has joined the active lines. */
  predicate Reaches(q: Policy, active: seq<Dict>, x: Dict, p: Dict) {
    match q.rule
    case PerProduct(field, op, threshold) => Compare(Field(p, field), op, threshold)
    case Portfolio(_, _, op, threshold) => Compare(WatchedWith(q.rule, active, x), op, threshold)
    case SkuCombination(requirements, toAll) =>
      CompleteWith(requirements, active, x) && (toAll || SatisfiesSome(p, requirements))
  }

  lemma ReachesExactly(q: Policy, active: seq<Dict>, x: Dict, p: Dict)
    ensures AppliesTo(q, active + [x], p) <==> Reaches(q, active, x, p)
  {
    match q.rule
    case PerProduct(_, _, _) =>
    case Portfolio(aggregate, field, _, _) => AggregateWith(aggregate, field, active, x);
    case SkuCombination(requirements, _) => CompletionWith(requirements, active, x);
  }

  /** Whether it can be evaluated then. */
  predicate ReadableWith(q: Policy, active: seq<Dict>, x: Dict) {
    match q.rule
    case PerProduct(field, _, _) => FieldOk(x, field) && forall p :: p in active ==> FieldOk(p, field)
    case Portfolio(_, field, _, _) => FieldOk(x, field) && forall p :: p in active ==> FieldOk(p, field)
    case SkuCombination(requirements, _) =>
      forall k :: 0 <= k < |requirements| && CompleteWith(requirements[..k], active, x) ==>
        Comparable(x, requirements[k]) && forall p :: p in active ==> Comparable(p, requirements[k])
  }

  lemma ReachedWith(requirements: seq<Requirement>, active: seq<Dict>, x: Dict, k: nat)
    requires k < |requirements|
    ensures Reached(requirements, active + [x], k) <==> CompleteWith(requirements[..k], active, x)
  {
    CompletionWith(requirements[..k], active, x);
    if CompleteWith(requirements[..k], active, x) {
      forall j | 0 <= j < k
        ensures Met(requirements[j], active + [x])
      {
        assert requirements[..k][j] == requirements[j];
      }
    }
  }

  lemma ReadableExactly(q: Policy, active: seq<Dict>, x: Dict)
    ensures PolicyOk(q, active + [x]) <==> ReadableWith(q, active, x)
  {
    assert forall p :: p in active + [x] <==> p in active || p == x;
    if q.rule.SkuCombination? {
      var requirements := q.rule.requirements;
      CombinationRaisesExactly(requirements, active + [x]);
      forall k | 0 <= k < |requirements|
        ensures Reached(requirements, active + [x], k) <==> CompleteWith(requirements[..k], active, x)
      {
        ReachedWith(requirements, active, x, k);
      }
    }
  }

  /** The policy reaches the same SKUs whether the engine or billing evaluates it. */
  predicate ReachesAlike(q: Policy, held: seq<Dict>, proposed: Dict, charged: seq<Dict>, added: Dict)
    requires |held| == |charged|
  {
    && (Reaches(q, held, proposed, proposed) <==> Reaches(q, charged, added, added))
    && (forall i :: 0 <= i < |held| ==> (Reaches(q, held, proposed, held[i]) <==> Reaches(q, charged, added, charged[i])))
  }

  lemma AlikeExactly(q: Policy, held: seq<Dict>, proposed: Dict, charged: seq<Dict>, added: Dict)
    requires |held| == |charged|
    ensures AppliesAlike(q, held + [proposed], charged + [added]) <==> ReachesAlike(q, held, proposed, charged, added)
  {
    var a, b, n := held + [proposed], charged + [added], |held|;
    forall i | 0 <= i <= n
      ensures AppliesTo(q, a, a[i]) <==> Reaches(q, held, proposed, a[i])
      ensures AppliesTo(q, b, b[i]) <==> Reaches(q, charged, added, b[i])
    {
      ReachesExactly(q, held, proposed, a[i]);
      ReachesExactly(q, charged, added, b[i]);
    }
    assert a[n] == proposed && b[n] == added;
    assert forall i :: 0 <= i < n ==> a[i] == held[i] && b[i] == charged[i];
  }

  // ---------------------------------------------------------------- the whole evaluation

  /** Evaluation with one more line returns. */
  predicate EvaluableWith(policies: seq<Policy>, active: seq<Dict>, x: Dict) {
    (forall p :: p in active ==> PriceJson(p).Num?) && forall q :: q in policies ==> ReadableWith(q, active, x)
  }

  lemma EvaluableExactly(policies: seq<Policy>, active: seq<Dict>, x: Dict)
    requires PriceJson(x).Num? && "product_id" in x && x["product_id"].Str?
    requires forall p: Dict :: p in active ==> "product_id" in p && p["product_id"].Str?
    ensures Evaluable(policies, active + [x]) <==> EvaluableWith(policies, active, x)
  {
    assert forall p :: p in active + [x] <==> p in active || p == x;
    forall q | q in policies
      ensures PolicyOk(q, active + [x]) <==> ReadableWith(q, active, x)
    {
      ReadableExactly(q, active, x);
    }
  }

  lemma BothEvaluable(policies: seq<Policy>, rec: Dict, e: Event, cid: string, lines: seq<SubLine>, l: SubLine, kind: Json)
    requires Caches(rec, e, cid, lines) && Addition(lines, l)
    ensures Evaluate(policies, SubsOf(rec) + [Proposed(l, kind)]).Ok? <==> EvaluableWith(policies, Active(SubsOf(rec)), Proposed(l, kind))
    ensures Evaluate(policies, Context(lines + [l])).Ok? <==> EvaluableWith(policies, Active(Context(lines)), EvalLine(l))
  {
    BothInputs(rec, e, cid, lines, l, kind);
    SameHeldSkus(rec, e, cid, lines);
    NewLines(lines, l, kind);
    forall p: Dict | p in Active(Context(lines))
      ensures "product_id" in p && p["product_id"].Str?
    {
      BillingFields(lines, p);
    }
    EvaluableExactly(policies, Active(SubsOf(rec)), Proposed(l, kind));
    EvaluableExactly(policies, Active(Context(lines)), EvalLine(l));
  }

  lemma GrownPricesAgree(held: seq<Dict>, proposed: Dict, charged: seq<Dict>, added: Dict)
    requires |held| == |charged| && Price(proposed) == Price(added)
    ensures SamePrices(held + [proposed], charged + [added]) <==> SamePrices(held, charged)
  {
    var a, b := held + [proposed], charged + [added];
    assert forall i :: 0 <= i < |held| ==> a[i] == held[i] && b[i] == charged[i];
  }

  /**
   * A proposal against the charge. The engine evaluates the cached lines with its own line, billing its record with the
   * line it adds. Each raises exactly when a held price is no number or a policy cannot be read off the lines; if both
   * return, they come to the same, line by line and in total, exactly when every held line has the same price in
   * both and every policy reaches the same SKUs in both.
   */
  lemma ProposalMatchesBillingExactly(policies: seq<Policy>, rec: Dict, e: Event, cid: string, lines: seq<SubLine>,
                                      l: SubLine, kind: Json)
    requires Caches(rec, e, cid, lines) && Addition(lines, l) && NoDuplicates(Ids(policies))
    ensures var quoted, billed := Evaluate(policies, SubsOf(rec) + [Proposed(l, kind)]), Evaluate(policies, Context(lines + [l]));
            var held, charged := Active(SubsOf(rec)), Active(Context(lines));
            && |held| == |charged|
            && (quoted.Ok? <==> EvaluableWith(policies, held, Proposed(l, kind)))
            && (billed.Ok? <==> EvaluableWith(policies, charged, EvalLine(l)))
            && (quoted.Ok? && billed.Ok? ==>
                  (quoted == billed <==>
                   SamePrices(held, charged)
                   && forall q :: q in policies ==> ReachesAlike(q, held, Proposed(l, kind), charged, EvalLine(l))))
  {
    var held, charged, proposed, added := Active(SubsOf(rec)), Active(Context(lines)), Proposed(l, kind), EvalLine(l);
    BothInputs(rec, e, cid, lines, l, kind);
    BothEvaluable(policies, rec, e, cid, lines, l, kind);
    NewLines(lines, l, kind);
    SummariesAgreeExactly(policies, held + [proposed], charged + [added]);
    GrownPricesAgree(held, proposed, charged, added);
    forall q | q in policies
      ensures AppliesAlike(q, held + [proposed], charged + [added]) <==> ReachesAlike(q, held, proposed, charged, added)
    {
      AlikeExactly(q, held, proposed, charged, added);
    }
  }
}
