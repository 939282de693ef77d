/** Reachable caches in which a proposal is not what billing charges. */
module QuoteWitnesses {
  import opened Json
  import opened Seqs
  import opened Rules
  import opened RulesExact
  import opened RulesMonotone
  import opened Products
  import opened Billing
  import opened BillingGrowth
  import opened BillingStale
  import opened Cdc
  import opened CdcInvariant
  import opened CdcRuns
  import opened OfferEngine
  import opened Pipeline
  import opened OfferQuotes
  import opened QuoteRules
  import O = Ontology

  // ---------------------------------------------------------------- what the cache holds after two events

  /** A CRM event and a billing event. */
  predicate Arrivals(crm: Event, e: Event, cid: string, lines: seq<SubLine>) {
    && crm.domain == O.Customer && Accepted(crm) && CustomerRef(crm.raw) == Some(cid) && cid != ""
    && e.domain == O.Billing && e.raw == RawRecord(cid, lines)
  }

  /** They make a complete record with billing's lines and the catalogue's fields. */
  lemma CachedRun(products: Catalogue, crm: Event, e: Event, cid: string, lines: seq<SubLine>) returns (rec: Dict)
    requires Arrivals(crm, e, cid, lines)
    ensures RunView(Shared(products, []), [SorEvent(crm), SorEvent(e)], cid).tiers.hot == Some(rec)
    ensures Caches(rec, e, cid, lines) && AgreesWithCatalogue(rec, e, Shared(products, []))
  {
    var one, two, sh := [SorEvent(crm)], [SorEvent(crm), SorEvent(e)], Shared(products, []);
    assert one[..0] == [] && two[..1] == one;
    EmittedIsAccepted(cid, lines, e.id, e.now, e.corr);
    assert e == Event(O.Billing, RawRecord(cid, lines), e.id, e.now, e.corr);
    LastEventsStep(one, cid);
    LastEventsStep(two, cid);
    assert LastEvents(two, cid) == Lasts(Some(crm), Some(e));
    LatestWins(sh, two, cid);
    RunKeepsInvariant(sh, two, cid);
    StateOfView(RunView(sh, two, cid), RunShared(sh, two), LastEvents(two, cid), cid);
    assert RunShared(sh, two) == sh by {
      assert RunShared(sh, one) == sh;
    }
    CacheAgreesWithCatalogue(sh, two, cid);
    rec := RunView(sh, two, cid).tiers.hot.value;
  }

  /** A cached line has the catalogue's list price and type and billing's term. */
  lemma CachedLine(rec: Dict, e: Event, cid: string, lines: seq<SubLine>, products: Catalogue, j: nat)
    requires Caches(rec, e, cid, lines) && AgreesWithCatalogue(rec, e, Shared(products, []))
    requires j < |lines| && lines[j].sku != "" && lines[j].sku in products && lines[j].term.Some?
    ensures |SubsOf(rec)| == |lines|
    ensures var line, product := SubsOf(rec)[j], products[lines[j].sku];
            && "list_price_gbp" in line && line["list_price_gbp"] == PriceValue(product.listPrice)
            && "product_type" in line && line["product_type"] == Str(product.kind)
            && "contract_term_months" in line && line["contract_term_months"] == Num(lines[j].term.value as real)
            && "product_id" in line && line["product_id"] == Str(lines[j].sku)
            && (IsActive(line) <==> Decode(lines[j].stat) == "active")
  {
    CachedLinesInSync(rec, e, cid, lines);
    var items := rec["commercial_state"].fields["subscriptions"].items;
    assert SubsOf(rec)[j] == items[j].fields;
    CataloguedLine(items[j].fields, O.MappedLines(e.raw)[j], products, lines[j].sku);
    CachedTerm(rec, e, cid, lines, j);
  }

  lemma CataloguedLine(line: Dict, mapped: Json, products: Catalogue, sku: string)
    requires LineAgrees(line, mapped, Shared(products, [])) && sku != "" && sku in products
    requires "product_id" in line && line["product_id"] == Str(sku)
    ensures "list_price_gbp" in line && line["list_price_gbp"] == PriceValue(products[sku].listPrice)
    ensures "product_type" in line && line["product_type"] == Str(products[sku].kind)
  {
    assert ProductOf(products, line) == Some(products[sku]);
    assert "list_price_gbp" in ENRICHED && "product_type" in ENRICHED;
  }

  lemma CachedTerm(rec: Dict, e: Event, cid: string, lines: seq<SubLine>, j: nat)
    requires Caches(rec, e, cid, lines) && j < |lines| && lines[j].term.Some? && j < |SubsOf(rec)|
    ensures "contract_term_months" in SubsOf(rec)[j] && SubsOf(rec)[j]["contract_term_months"] == Num(lines[j].term.value as real)
  {
    var items := rec["commercial_state"].fields["subscriptions"].items;
    assert |O.RawLines(e.raw)| == |lines| && O.RawLines(e.raw)[j] == RawLine(lines[j]);
    MappedTerm(lines[j]);
    SameOutside(items[j].fields, O.MappedLine(RawLine(lines[j])).fields, "contract_term_months");
  }

  lemma MappedTerm(l: SubLine)
    requires l.term.Some?
    ensures var line := O.MappedLine(RawLine(l)).fields;
            "contract_term_months" in line && line["contract_term_months"] == Num(l.term.value as real)
  {
    RawTerm(l);
    O.DeclaredNamesDistinct();
    assert O.LINE_MAPPINGS[8] == O.Mapping("contract_term_months", "contract_term_months", false);
    O.MappedField(O.LINE_MAPPINGS, 8, RawLine(l).fields);
  }

  lemma RawTerm(l: SubLine)
    requires l.term.Some?
    ensures RawLine(l).Obj? && "contract_term_months" in RawLine(l).fields
    ensures RawLine(l).fields["contract_term_months"] == Num(l.term.value as real)
  {
    assert "contract_term_months" !in RawReason(l);
    assert "contract_term_months" in OptionalFields(l);
  }

  // ---------------------------------------------------------------- when the cache is settled

  lemma SideBySideField(field: string, xs: seq<Dict>, ys: seq<Dict>, a: seq<Dict>, b: seq<Dict>)
    requires SideBySide(xs, ys, a, b) && SameField(field, a, b)
    ensures SameField(field, xs, ys)
  {
    forall i | 0 <= i < |xs|
      ensures field in xs[i] <==> field in ys[i]
      ensures field in xs[i] ==> xs[i][field] == ys[i][field]
    {
      assert Beside(xs[i], ys[i], a, b);
    }
  }

  const SETTLED: set<string> := {"product_id", "status", "list_price_gbp", "contract_term_months"}

  /** The line has a term, and the list price that the catalogue has. */
  predicate Settled(products: Catalogue, l: SubLine) {
    && l.sku != "" && l.sku in products && l.term.Some? && l.listPrice.Some?
    && products[l.sku].listPrice == l.listPrice
  }

  lemma SettledLine(rec: Dict, e: Event, cid: string, lines: seq<SubLine>, products: Catalogue, j: nat, field: string)
    requires Caches(rec, e, cid, lines) && AgreesWithCatalogue(rec, e, Shared(products, []))
    requires j < |lines| && Settled(products, lines[j]) && field in SETTLED
    ensures |SubsOf(rec)| == |lines| && field in SubsOf(rec)[j] && field in EvalLine(lines[j])
    ensures SubsOf(rec)[j][field] == EvalLine(lines[j])[field]
  {
    CachedLine(rec, e, cid, lines, products, j);
    CachedStatus(rec, e, cid, lines, j);
    EvalFields(lines[j]);
  }

  lemma EvalFields(l: SubLine)
    requires l.term.Some? && l.listPrice.Some?
    ensures EvalLine(l).Keys == SETTLED
    ensures EvalLine(l)["product_id"] == Str(l.sku) && EvalLine(l)["status"] == Str(Decode(l.stat))
    ensures EvalLine(l)["list_price_gbp"] == Num(l.listPrice.value) && EvalLine(l)["contract_term_months"] == Num(l.term.value as real)
  {
  }

  lemma CachedStatus(rec: Dict, e: Event, cid: string, lines: seq<SubLine>, j: nat)
    requires Caches(rec, e, cid, lines) && j < |lines| && j < |SubsOf(rec)|
    ensures "status" in SubsOf(rec)[j] && SubsOf(rec)[j]["status"] == Str(Decode(lines[j].stat))
  {
    var items := rec["commercial_state"].fields["subscriptions"].items;
    assert |O.RawLines(e.raw)| == |lines| && O.RawLines(e.raw)[j] == RawLine(lines[j]);
    CanonicalLine(lines[j]);
    SameOutside(items[j].fields, O.MappedLine(RawLine(lines[j])).fields, "status");
  }

  /** Once the catalogue's prices have reached both the cache and billing, the engine and billing read the same
      identity, status, list price and term off every held line. */
  lemma SettledCacheReadsAlike(rec: Dict, e: Event, cid: string, lines: seq<SubLine>, products: Catalogue, field: string)
    requires Caches(rec, e, cid, lines) && AgreesWithCatalogue(rec, e, Shared(products, []))
    requires (forall l :: l in lines ==> Settled(products, l)) && field in SETTLED
    ensures SameField(field, Active(SubsOf(rec)), Active(Context(lines)))
  {
    HeldTogether(rec, e, cid, lines);
    var subs: seq<Dict>, context: seq<Dict> := SubsOf(rec), Context(lines);
    forall j | 0 <= j < |subs|
      ensures field in subs[j] && field in context[j] && subs[j][field] == context[j][field]
    {
      SettledLine(rec, e, cid, lines, products, j, field);
    }
    SideBySideField(field, Active(subs), Active(context), subs, context);
  }

  // ---------------------------------------------------------------- two products under the shipped policies

  predicate FieldIs(p: Dict, field: string, x: real) {
    FieldOk(p, field) && Field(p, field) == x
  }

  /** An active line of a monthly product that shows its price as `price` and its list price as `seen`. */
  predicate Monthly(p: Dict, sku: string, price: real, seen: real) {
    && IsActive(p) && "product_id" in p && p["product_id"] == Str(sku) && PriceJson(p) == Num(price)
    && FieldIs(p, "contract_term_months", 1.0) && FieldIs(p, "list_price_gbp", seen)
  }

  lemma ProposedMonthly(l: SubLine, kind: Json)
    requires l.stat == "A" && l.listPrice.Some? && l.term == Some(1)
    ensures Monthly(Proposed(l, kind), l.sku, l.listPrice.value, 0.0)
  {
  }

  lemma BilledMonthly(l: SubLine)
    requires l.stat == "A" && l.listPrice.Some? && l.term == Some(1)
    ensures Monthly(EvalLine(l), l.sku, l.listPrice.value, l.listPrice.value)
  {
  }

  lemma CachedMonthly(rec: Dict, e: Event, cid: string, held: SubLine, products: Catalogue)
    requires Caches(rec, e, cid, [held]) && AgreesWithCatalogue(rec, e, Shared(products, []))
    requires held.stat == "A" && held.term == Some(1) && held.sku != "" && held.sku in products && products[held.sku].listPrice.Some?
    ensures |SubsOf(rec)| == 1
    ensures var price := products[held.sku].listPrice.value; Monthly(SubsOf(rec)[0], held.sku, price, price)
  {
    CachedLine(rec, e, cid, [held], products, 0);
  }

  lemma ShippedPct(f: Policy -> real)
    ensures SumBy(SHIPPED, f) == f(LONG_CONTRACT) + f(HIGH_VALUE)
    ensures NoDuplicates(Ids(SHIPPED))
  {
    assert SHIPPED == [] + [LONG_CONTRACT] + [HIGH_VALUE];
    SumByAppend([] + [LONG_CONTRACT], HIGH_VALUE, f);
    SumByAppend([], LONG_CONTRACT, f);
    assert Ids(SHIPPED) == ["contract_duration_2yr", "high_value_contract"];
    assert |"contract_duration_2yr"| != |"high_value_contract"|;
  }

  /** Of two monthly products that show list prices adding up to `total` each gets the high-value discount or none. */
  lemma ShippedPair(active: seq<Dict>, x: Dict, total: real)
    requires SumBy(active, FieldReader("list_price_gbp")) == total && FieldIs(x, "contract_term_months", 1.0)
    ensures SumBy(SHIPPED, ApplicablePct(active, x)) == if total > 100.0 then 10.0 else 0.0
  {
    ShippedPct(ApplicablePct(active, x));
    assert !AppliesTo(LONG_CONTRACT, active, x);
    assert AppliesTo(HIGH_VALUE, active, x) <==> total > 100.0;
  }

  lemma PairActive(h: Dict, p: Dict)
    requires IsActive(h) && IsActive(p) && "product_id" in h && "product_id" in p && h["product_id"] != p["product_id"]
    ensures Active([h] + [p]) == [h] + [p] && UniqueSkus([h] + [p])
  {
    ActiveConcat([h], [p]);
    SingleActive(h);
    SingleActive(p);
  }

  lemma PairEvaluable(h: Dict, p: Dict)
    requires PriceJson(h).Num? && PriceJson(p).Num?
    requires "product_id" in h && "product_id" in p && h["product_id"].Str? && p["product_id"].Str?
    requires FieldOk(h, "contract_term_months") && FieldOk(p, "contract_term_months")
    requires FieldOk(h, "list_price_gbp") && FieldOk(p, "list_price_gbp")
    ensures Evaluable(SHIPPED, [h] + [p])
  {
    forall q | q in SHIPPED
      ensures PolicyOk(q, [h] + [p])
    {
      assert q == LONG_CONTRACT || q == HIGH_VALUE;
    }
  }

  /** The prices of the two results. */
  predicate Prices(s: Outcome<Summary>, first: real, second: real) {
    s.Ok? && |s.value.products| == 2 && s.value.products[0].discounted == first && s.value.products[1].discounted == second
  }

  /** Two monthly products under the shipped policies. */
  lemma PairEvaluated(h: Dict, p: Dict, k: string, sku: string, x: real, y: real, seen: real)
    requires Monthly(h, k, x, x) && Monthly(p, sku, y, seen) && k != sku
    ensures var pct := if x + seen > 100.0 then 10.0 else 0.0;
            Prices(Evaluate(SHIPPED, [h] + [p]), DiscountedPrice(x, pct), DiscountedPrice(y, pct))
  {
    PairActive(h, p);
    PairEvaluable(h, p);
    SumByAppend([h], p, FieldReader("list_price_gbp"));
    SumByAppend([], h, FieldReader("list_price_gbp"));
    assert [] + [h] == [h];
    ShippedPair([h] + [p], h, x + seen);
    ShippedPair([h] + [p], p, x + seen);
    ShippedPct(ApplicablePct([h] + [p], h));
    EvaluatorRefinement(SHIPPED, [h] + [p], Evaluate(SHIPPED, [h] + [p]).value);
  }

  /**
   * Two monthly products under the shipped policies, one held and one added: the engine gives the high-value discount
   * if the cached price of the held one alone is over 100 pounds, billing if billing's two prices together are.
   */
  lemma ShippedQuote(products: Catalogue, rec: Dict, e: Event, cid: string, held: SubLine, l: SubLine, kind: Json)
    requires Caches(rec, e, cid, [held]) && AgreesWithCatalogue(rec, e, Shared(products, []))
    requires held.stat == l.stat == "A" && held.term == l.term == Some(1) && held.listPrice.Some? && l.listPrice.Some?
    requires held.sku != l.sku && held.sku != "" && held.sku in products && products[held.sku].listPrice.Some?
    ensures var cached, x, y := products[held.sku].listPrice.value, held.listPrice.value, l.listPrice.value;
            var quotedPct, billedPct := if cached > 100.0 then 10.0 else 0.0, if x + y > 100.0 then 10.0 else 0.0;
            && Prices(Evaluate(SHIPPED, SubsOf(rec) + [Proposed(l, kind)]), DiscountedPrice(cached, quotedPct), DiscountedPrice(y, quotedPct))
            && Prices(Evaluate(SHIPPED, Context([held] + [l])), DiscountedPrice(x, billedPct), DiscountedPrice(y, billedPct))
  {
    CachedMonthly(rec, e, cid, held, products);
    ProposedMonthly(l, kind);
    BilledMonthly(held);
    BilledMonthly(l);
    GrownContext([held], l);
    assert Context([held]) == [EvalLine(held)] && SubsOf(rec) == [SubsOf(rec)[0]];
    var cached := products[held.sku].listPrice.value;
    PairEvaluated(SubsOf(rec)[0], Proposed(l, kind), held.sku, l.sku, cached, l.listPrice.value, 0.0);
    PairEvaluated(EvalLine(held), EvalLine(l), held.sku, l.sku, held.listPrice.value, l.listPrice.value, l.listPrice.value);
  }

  lemma WitnessPrices()
    ensures DiscountedPrice(90.0, 0.0) == 90.0 && DiscountedPrice(20.0, 0.0) == 20.0 && DiscountedPrice(5.0, 0.0) == 5.0
    ensures DiscountedPrice(90.0, 10.0) == 81.0 && DiscountedPrice(20.0, 10.0) == 18.0
    ensures DiscountedPrice(110.0, 10.0) == 99.0 && DiscountedPrice(5.0, 10.0) == 4.5
  {
    assert ExactPrice(90.0, 10.0) == 81.0 && ExactPrice(20.0, 10.0) == 18.0;
    assert ExactPrice(110.0, 10.0) == 99.0 && ExactPrice(5.0, 10.0) == 4.5;
  }

  /**
   * The shipped policies, a product of 90 pounds held and one of 20 added, both by the month: the proposal sees a list
   * price of 90 and gives no discount, while billing sees 110 and takes ten per cent off both.
   */
  lemma ProposalMissesItsPrice(products: Catalogue, crm: Event, e: Event, cid: string, held: SubLine, l: SubLine, kind: Json)
    returns (rec: Dict)
    requires Arrivals(crm, e, cid, [held])
    requires held.stat == l.stat == "A" && held.term == l.term == Some(1) && held.sku != l.sku && held.sku != ""
    requires held.listPrice == Some(90.0) && l.listPrice == Some(20.0)
    requires held.sku in products && products[held.sku].listPrice == Some(90.0)
    ensures RunView(Shared(products, []), [SorEvent(crm), SorEvent(e)], cid).tiers.hot == Some(rec)
    ensures Prices(Evaluate(SHIPPED, SubsOf(rec) + [Proposed(l, kind)]), 90.0, 20.0)
    ensures Prices(Evaluate(SHIPPED, Context([held] + [l])), 81.0, 18.0)
  {
    rec := CachedRun(products, crm, e, cid, [held]);
    ShippedQuote(products, rec, e, cid, held, l, kind);
    WitnessPrices();
  }

  /**
   * A held product that billing still has at 90 pounds and the catalogue at 110, and one of 5 pounds added: the
   * proposal sees 110 and takes ten per cent off, while billing sees 95 and does not. No policy is crossed.
   */
  lemma ProposalSeesTheNewPrice(products: Catalogue, crm: Event, e: Event, cid: string, held: SubLine, l: SubLine, kind: Json)
    returns (rec: Dict)
    requires Arrivals(crm, e, cid, [held])
    requires held.stat == l.stat == "A" && held.term == l.term == Some(1) && held.sku != l.sku && held.sku != ""
    requires held.listPrice == Some(90.0) && l.listPrice == Some(5.0)
    requires held.sku in products && products[held.sku].listPrice == Some(110.0)
    ensures RunView(Shared(products, []), [SorEvent(crm), SorEvent(e)], cid).tiers.hot == Some(rec)
    ensures forall q :: q in SHIPPED ==> !Crossed(q, Active(SubsOf(rec)), 5.0)
    ensures Prices(Evaluate(SHIPPED, SubsOf(rec) + [Proposed(l, kind)]), 99.0, 4.5)
    ensures Prices(Evaluate(SHIPPED, Context([held] + [l])), 90.0, 5.0)
  {
    rec := CachedRun(products, crm, e, cid, [held]);
    ShippedQuote(products, rec, e, cid, held, l, kind);
    WitnessPrices();
    CachedMonthly(rec, e, cid, held, products);
    NothingCrossed(SubsOf(rec), held.sku);
  }

  lemma NothingCrossed(subs: seq<Dict>, sku: string)
    requires |subs| == 1 && Monthly(subs[0], sku, 110.0, 110.0)
    ensures forall q :: q in SHIPPED ==> !Crossed(q, Active(subs), 5.0)
  {
    assert subs == [subs[0]];
    SingleActive(subs[0]);
    SumByAppend([], subs[0], FieldReader("list_price_gbp"));
    assert [] + [subs[0]] == [subs[0]];
    forall q | q in SHIPPED
      ensures !Crossed(q, Active(subs), 5.0)
    {
      assert q == LONG_CONTRACT || q == HIGH_VALUE;
    }
  }

  // ---------------------------------------------------------------- the bundle of the documentation

  const BROADBAND: Requirement := Requirement("product_type", Eq, Some(Str("broadband")))
  const TV: Requirement := Requirement("product_type", Eq, Some(Str("tv")))

  /** README.md's bundle, with its comparison values where the engine reads them. */
  const BUNDLE: Policy :=
    Policy("broadband_tv_bundle", 10.0, "Broadband + TV bundle discount", SkuCombination([BROADBAND, TV], false))

  lemma BundleShape(types: set<Json>)
    requires Str("broadband") in types && Str("tv") in types
    ensures TypeBundle(BUNDLE) && forall r :: r in BUNDLE.rule.requirements ==> r.value.value in types
  {
    assert BUNDLE.rule.requirements == [BROADBAND, TV];
  }

  lemma TypeHeld(subs: seq<Dict>, kind: Json)
    requires |subs| == 1 && IsActive(subs[0]) && Get(subs[0], "product_type", Null) == kind
    ensures kind in TypesOf(Active(subs))
  {
    assert subs == [subs[0]];
    SingleActive(subs[0]);
  }

  /** With a broadband product held, the bundle is quoted for a TV product, and not charged when it is added. */
  lemma BundleIsQuotedNotCharged(products: Catalogue, crm: Event, e: Event, cid: string, held: SubLine, l: SubLine)
    returns (rec: Dict)
    requires Arrivals(crm, e, cid, [held]) && Addition([held], l)
    requires held.stat == "A" && held.term.Some? && held.sku != "" && held.sku in products && products[held.sku].kind == "broadband"
    ensures RunView(Shared(products, []), [SorEvent(crm), SorEvent(e)], cid).tiers.hot == Some(rec)
    ensures Fires(BUNDLE, Active(SubsOf(rec) + [Proposed(l, Str("tv"))]))
    ensures !Fires(BUNDLE, Active(Context([held] + [l])))
  {
    rec := CachedRun(products, crm, e, cid, [held]);
    CachedLine(rec, e, cid, [held], products, 0);
    TypeHeld(SubsOf(rec), Str("broadband"));
    BundleShape(TypesOf(Active(SubsOf(rec))) + {Str("tv")});
    BundleIsQuotedExactly(BUNDLE, rec, e, cid, [held], l, Str("tv"));
  }

  // ---------------------------------------------------------------- requirements that order list prices

  lemma NoListPrice(p: Dict, r: Requirement)
    requires "list_price_gbp" !in p && r.field == "list_price_gbp" && r.op != Eq
    ensures !Comparable(p, r)
  {
  }

  lemma PolicyRaises(policies: seq<Policy>, lines: seq<Dict>, q: Policy)
    requires q in policies && !PolicyOk(q, Active(lines))
    ensures Evaluate(policies, lines) == Raised
  {
  }

  lemma OrderingRaises(q: Policy, active: seq<Dict>, p: Dict, k: nat)
    requires q.rule.SkuCombination? && k < |q.rule.requirements| && Reached(q.rule.requirements, active, k)
    requires p in active && "list_price_gbp" !in p
    requires q.rule.requirements[k].field == "list_price_gbp" && q.rule.requirements[k].op != Eq
    ensures !PolicyOk(q, active)
  {
    NoListPrice(p, q.rule.requirements[k]);
    ReachedRaises(q.rule.requirements, active, k, p);
  }

  /** A combination that orders list prices, once reached, makes every proposal evaluation raise: the proposed line has
      none to compare. */
  lemma ListPriceRequirementRaises(policies: seq<Policy>, subs: seq<Dict>, sku: string, price: real, term: int, kind: Json,
                                   q: Policy, k: nat)
    requires q in policies && q.rule.SkuCombination? && k < |q.rule.requirements|
    requires var r := q.rule.requirements[k]; r.field == "list_price_gbp" && r.op != Eq
    requires Reached(q.rule.requirements, Active(subs) + [ProposedLine(sku, price, term, kind)], k)
    ensures Evaluate(policies, subs + [ProposedLine(sku, price, term, kind)]) == Raised
  {
    var p := ProposedLine(sku, price, term, kind);
    AddedActive(subs, p);
    OrderingRaises(q, Active(subs) + [p], p, k);
    PolicyRaises(policies, subs + [p], q);
  }
}
