/** What a proposal quotes against what the customer pays once billing has added the product. */
module QuoteCharges {
  import opened Json
  import opened Seqs
  import opened Rules
  import opened RulesMonotone
  import opened RulesSymmetry
  import opened EvaluationAgreement
  import opened Products
  import opened Billing
  import opened BillingTheorems
  import opened BillingGrowth
  import opened DecodedActive
  import opened OfferEngine
  import opened OfferTheorems
  import opened Cdc
  import opened Pipeline
  import opened OfferQuotes
  import opened QuoteRules

  function ChargeReader(): SubLine -> real {
    (l: SubLine) => if l.stat == "A" && l.charge.Some? then l.charge.value else 0.0
  }

  /** What the customer pays each month. */
  function MonthlyCharge(lines: seq<SubLine>): real {
    SumBy(lines, ChargeReader())
  }

  lemma {:induction false} ChargedResults(policies: seq<Policy>, active: seq<Dict>, xs: seq<SubLine>)
    requires Coded(xs)
    requires forall l :: l in xs && l.stat == "A" ==> l.charge == Some(ResultFor(policies, active, EvalLine(l)).discounted)
    ensures SumBy(ResultsOf(policies, active, Active(Context(xs))), DiscountedReader()) == MonthlyCharge(xs)
  {
    if xs != [] {
      assert Context(xs)[0] == EvalLine(xs[0]) && Context(xs)[1..] == Context(xs[1..]);
      ChargedResults(policies, active, xs[1..]);
      HeadCharged(policies, active, xs[0], Active(Context(xs[1..])));
    }
  }

  lemma HeadCharged(policies: seq<Policy>, active: seq<Dict>, l: SubLine, rest: seq<Dict>)
    requires l.stat != "active" && (l.stat == "A" ==> l.charge == Some(ResultFor(policies, active, EvalLine(l)).discounted))
    ensures var head := if IsActive(EvalLine(l)) then [EvalLine(l)] else [];
            SumBy(ResultsOf(policies, active, head + rest), DiscountedReader()) ==
            ChargeReader()(l) + SumBy(ResultsOf(policies, active, rest), DiscountedReader())
  {
    if IsActive(EvalLine(l)) {
      assert ([EvalLine(l)] + rest)[1..] == rest;
      var r := ResultFor(policies, active, EvalLine(l));
      assert ([r] + ResultsOf(policies, active, rest))[1..] == ResultsOf(policies, active, rest);
    } else {
      assert [] + rest == rest;
    }
  }

  /** In a rule-consistent record the evaluated total is what the customer pays. */
  lemma TotalIsCharged(policies: seq<Policy>, lines: seq<SubLine>, s: Summary)
    requires Priced(policies, lines) && Coded(lines) && Evaluate(policies, Context(lines)) == Ok(s)
    ensures s.totalDiscounted == MonthlyCharge(lines)
  {
    var active := Active(Context(lines));
    Conservation(policies, Context(lines), s);
    ResultsOfIndex(policies, active, active);
    assert s.products == ResultsOf(policies, active, active);
    ChargedResults(policies, active, lines);
  }

  // ---------------------------------------------------------------- the delta

  /** The held lines alone are evaluated alike exactly when their prices agree and each policy reaches the same of them. */
  lemma HeldMatchExactly(policies: seq<Policy>, rec: Dict, e: Event, cid: string, lines: seq<SubLine>)
    requires Caches(rec, e, cid, lines) && WellFormed(lines) && NoDuplicates(Ids(policies))
    requires Evaluate(policies, SubsOf(rec)).Ok? && Evaluate(policies, Context(lines)).Ok?
    ensures var held, charged := Active(SubsOf(rec)), Active(Context(lines));
            |held| == |charged|
            && (Evaluate(policies, SubsOf(rec)) == Evaluate(policies, Context(lines)) <==>
                SamePrices(held, charged) && forall q :: q in policies ==> AppliesAlike(q, held, charged))
  {
    SameHeldSkus(rec, e, cid, lines);
    ContextDistinct(lines);
    UniqueFromKeys(Active(SubsOf(rec)), Active(Context(lines)));
    SummariesAgreeExactly(policies, Active(SubsOf(rec)), Active(Context(lines)));
  }

  /** Before and after, the engine reads what billing charges. */
  predicate ReadsTheSame(policies: seq<Policy>, held: seq<Dict>, proposed: Dict, charged: seq<Dict>, added: Dict)
    requires |held| == |charged|
  {
    SamePrices(held, charged)
    && forall q :: q in policies ==> AppliesAlike(q, held, charged) && ReachesAlike(q, held, proposed, charged, added)
  }

  /**
   * The charge delta of a proposal over the cached lines, against the change in what the customer pays once billing has
   * added the product: they differ by exactly what the engine's two totals differ from billing's two. They agree when
   * held prices and policies come out alike before and after.
   */
  lemma QuotedDeltaIsCharged(policies: seq<Policy>, catalogue: Catalogue, rec: Dict, e: Event, cid: string,
                             lines: seq<SubLine>, sub: NewSubscription, today: string, kind: Json, out: seq<SubLine>)
    requires Caches(rec, e, cid, lines) && WellFormed(lines) && Priced(policies, lines) && Coded(lines)
    requires sub.stat == "A" && ApplyAdd(policies, catalogue, lines, sub, today) == Written(out)
    requires var l := NewLine(sub, catalogue[sub.sku].listPrice.value, today);
             Evaluate(policies, SubsOf(rec)).Ok? && Evaluate(policies, SubsOf(rec) + [Proposed(l, kind)]).Ok?
    ensures var l := NewLine(sub, catalogue[sub.sku].listPrice.value, today);
            var current, quoted := Evaluate(policies, SubsOf(rec)).value, Evaluate(policies, SubsOf(rec) + [Proposed(l, kind)]).value;
            var charge, change := ComputeDelta(current, quoted).charge, MonthlyCharge(out) - MonthlyCharge(lines);
            && Addition(lines, l) && |Active(SubsOf(rec))| == |Active(Context(lines))|
            && Evaluate(policies, Context(lines)).Ok? && Evaluate(policies, Context(lines + [l])).Ok?
            && charge - change == (quoted.totalDiscounted - Evaluate(policies, Context(lines + [l])).value.totalDiscounted)
                                  - (current.totalDiscounted - Evaluate(policies, Context(lines)).value.totalDiscounted)
            && (NoDuplicates(Ids(policies))
                && ReadsTheSame(policies, Active(SubsOf(rec)), Proposed(l, kind), Active(Context(lines)), EvalLine(l)) ==>
                  charge == change)
  {
    var l := NewLine(sub, catalogue[sub.sku].listPrice.value, today);
    GrownRecord(policies, catalogue, lines, sub, today, out);
    CodedAdd(policies, catalogue, lines, sub, today, out);
    TotalIsCharged(policies, lines, Evaluate(policies, Context(lines)).value);
    TotalIsCharged(policies, out, Evaluate(policies, Context(lines + [l])).value);
    DeltaExact(policies, SubsOf(rec), SubsOf(rec) + [Proposed(l, kind)],
               Evaluate(policies, SubsOf(rec)).value, Evaluate(policies, SubsOf(rec) + [Proposed(l, kind)]).value);
    SameHeldSkus(rec, e, cid, lines);
    if NoDuplicates(Ids(policies))
       && ReadsTheSame(policies, Active(SubsOf(rec)), Proposed(l, kind), Active(Context(lines)), EvalLine(l)) {
      HeldMatchExactly(policies, rec, e, cid, lines);
      ProposalMatchesBillingExactly(policies, rec, e, cid, lines, l, kind);
    }
  }

  /** With settled list prices, and policies that read nothing else that differs, it is enough that none is crossed. */
  lemma SettledReadsTheSame(policies: seq<Policy>, held: seq<Dict>, lines: seq<SubLine>, l: SubLine, kind: Json)
    requires l.stat == "A" && l.listPrice.Some? && l.term.Some?
    requires SameField("list_price_gbp", held, Active(Context(lines)))
    requires forall q :: q in policies ==> SharedRule(q, held, Active(Context(lines))) && !Crossed(q, held, l.listPrice.value)
    ensures ReadsTheSame(policies, held, Proposed(l, kind), Active(Context(lines)), EvalLine(l))
  {
    var charged := Active(Context(lines));
    SettledPrices(held, lines);
    NewPairOf(l, kind);
    forall q | q in policies
      ensures AppliesAlike(q, held, charged) && ReachesAlike(q, held, Proposed(l, kind), charged, EvalLine(l))
    {
      SharedDecides(q, held, Proposed(l, kind), charged, EvalLine(l), l.listPrice.value);
      SharedAlike(q, held, charged);
    }
  }

  /** So the quoted delta is then what the customer's bill changes by. */
  lemma SettledDeltaIsCharged(policies: seq<Policy>, catalogue: Catalogue, rec: Dict, e: Event, cid: string,
                              lines: seq<SubLine>, sub: NewSubscription, today: string, kind: Json, out: seq<SubLine>)
    requires Caches(rec, e, cid, lines) && WellFormed(lines) && Priced(policies, lines) && Coded(lines)
    requires sub.stat == "A" && ApplyAdd(policies, catalogue, lines, sub, today) == Written(out)
    requires NoDuplicates(Ids(policies)) && SameField("list_price_gbp", Active(SubsOf(rec)), Active(Context(lines)))
    requires forall q :: q in policies ==>
               SharedRule(q, Active(SubsOf(rec)), Active(Context(lines))) && !Crossed(q, Active(SubsOf(rec)), catalogue[sub.sku].listPrice.value)
    ensures var l := NewLine(sub, catalogue[sub.sku].listPrice.value, today);
            var current, quoted := Evaluate(policies, SubsOf(rec)), Evaluate(policies, SubsOf(rec) + [Proposed(l, kind)]);
            current.Ok? && quoted.Ok? && ComputeDelta(current.value, quoted.value).charge == MonthlyCharge(out) - MonthlyCharge(lines)
  {
    var l := NewLine(sub, catalogue[sub.sku].listPrice.value, today);
    GrownRecord(policies, catalogue, lines, sub, today, out);
    SettledProposalMatchesExactly(policies, rec, e, cid, lines, l, kind);
    QuotedEvaluates(policies, rec, e, cid, lines, l, kind);
    SettledReadsTheSame(policies, Active(SubsOf(rec)), lines, l, kind);
    QuotedDeltaIsCharged(policies, catalogue, rec, e, cid, lines, sub, today, kind, out);
  }

  /** What evaluates with the proposed line evaluates without it. */
  lemma QuotedEvaluates(policies: seq<Policy>, rec: Dict, e: Event, cid: string, lines: seq<SubLine>, l: SubLine, kind: Json)
    requires Caches(rec, e, cid, lines) && Addition(lines, l) && Evaluate(policies, SubsOf(rec) + [Proposed(l, kind)]).Ok?
    ensures Evaluate(policies, SubsOf(rec)).Ok?
  {
    BothInputs(rec, e, cid, lines, l, kind);
    EvaluableShrinks(policies, Active(SubsOf(rec)), Proposed(l, kind));
  }

  lemma SharedAlike(q: Policy, held: seq<Dict>, charged: seq<Dict>)
    requires |held| == |charged| && SharedRule(q, held, charged)
    ensures AppliesAlike(q, held, charged)
  {
    match q.rule
    case PerProduct(field, _, _) =>
      assert field in FieldsOf(q);
      SameReadable(field, held, charged);
    case Portfolio(_, field, _, _) =>
      assert field in FieldsOf(q);
      SameSum(field, held, charged);
    case SkuCombination(requirements, _) =>
      assert forall r :: r in requirements ==> r.field in FieldsOf(q);
      SharedRequirements(requirements, held, map[], charged, map[]);
  }

}
