/** What the cache shows of billing's current record, field by field. */
module BillingInCache {
  import opened Json
  import opened Cdc
  import opened CdcRuns
  import opened OntologyTheorems
  import opened CachedFields
  import opened Pipeline
  import opened JointRuns
  import B = Billing
  import O = Ontology

  /** The status of a billing line in words. */
  predicate StatusShown(stat: string, shown: Json) {
    && (stat == "A" ==> shown == Str("active")) && (stat == "S" ==> shown == Str("suspended"))
    && (stat == "C" ==> shown == Str("cancelled"))
    && (stat !in {"A", "S", "C"} ==> shown == Str(stat))
  }

  predicate NumberShown(value: Option<real>, line: Dict, field: string) {
    (field in line <==> value.Some?) && (value.Some? ==> line[field] == Num(value.value))
  }

  predicate DiscountsShown(ds: seq<B.Discount>, shown: Json) {
    && shown.Arr? && |shown.items| == |ds|
    && forall k :: 0 <= k < |ds| ==>
         shown.items[k] == Obj(map["policy_id" := Str(ds[k].id), "discount_pct" := Num(ds[k].pct), "reason" := Str(ds[k].reason)])
  }

  /** The reason of the last status change as text, with its detail, which may be null. */
  predicate ReasonShown(l: B.SubLine, line: Dict) {
    && ("reason_code" in line <==> l.reasonCode.Some?) && ("reason_detail" in line <==> l.reasonCode.Some?)
    && (l.reasonCode.Some? ==>
          && line["reason_code"] == Str(match l.reasonCode.value
                                        case NonPayment => "non_payment"
                                        case CustomerRequest => "customer_request"
                                        case FraudHold => "fraud_hold"
                                        case TechnicalIssue => "technical_issue"
                                        case NetworkFault => "network_fault"
                                        case Other => "other")
          && line["reason_detail"] == (if l.reasonDetail.Some? then Str(l.reasonDetail.value) else Null))
  }

  /** The cached line shows the billing line, save for the list price. */
  predicate ShowsBillingLine(l: B.SubLine, line: Dict) {
    && "product_id" in line && line["product_id"] == Str(l.sku)
    && "status" in line && StatusShown(l.stat, line["status"])
    && "effective_date" in line && line["effective_date"] == Str(l.effFrom)
    && "total_discount_pct" in line && line["total_discount_pct"] == Num(l.totalPct)
    && "applied_discounts" in line && DiscountsShown(l.applied, line["applied_discounts"])
    && NumberShown(l.charge, line, "monthly_charge_gbp")
    && NumberShown(TermOf(l), line, "contract_term_months")
    && "discount_code" !in line && ReasonShown(l, line)
  }

  /** The fields that an emitted line always has. */
  predicate FixedShown(l: B.SubLine, raw: Dict) {
    && "sku" in raw && raw["sku"] == Str(l.sku) && "stat" in raw && raw["stat"] == Str(l.stat)
    && "eff_from" in raw && raw["eff_from"] == Str(l.effFrom)
    && "total_discount_pct" in raw && raw["total_discount_pct"] == Num(l.totalPct)
    && "applied_discounts" in raw && DiscountsShown(l.applied, raw["applied_discounts"])
  }

  /** Those that it has only with a value. */
  predicate OptionalShown(l: B.SubLine, raw: Dict) {
    && NumberShown(l.listPrice, raw, "list_price_gbp") && NumberShown(l.charge, raw, "monthly_charge")
    && NumberShown(TermOf(l), raw, "contract_term_months")
    && "discount_code" !in raw && ReasonShown(l, raw)
  }

  /** A line as billing emits it. */
  predicate EmittedFields(l: B.SubLine, raw: Dict) {
    FixedShown(l, raw) && OptionalShown(l, raw)
  }

  const FIXED: set<string> := {"sku", "stat", "eff_from", "total_discount_pct", "applied_discounts"}
  const OPTIONAL: set<string> := {"list_price_gbp", "monthly_charge", "contract_term_months", "reason_code", "reason_detail"}

  lemma FixedEmitted(l: B.SubLine)
    ensures FixedShown(l, FixedFields(l)) && FixedFields(l).Keys == FIXED
  {
  }

  lemma NumberEmitted(key: string, value: Option<real>)
    ensures NumberShown(value, OptionalNumber(key, value), key) && OptionalNumber(key, value).Keys <= {key}
  {
  }

  lemma ReasonEmitted(l: B.SubLine)
    ensures ReasonShown(l, RawReason(l)) && RawReason(l).Keys <= {"reason_code", "reason_detail"}
  {
  }

  function TermOf(l: B.SubLine): Option<real> {
    if l.term.Some? then Some(l.term.value as real) else None
  }

  lemma OptionalTogether(l: B.SubLine, price: Dict, charge: Dict, term: Dict, reason: Dict)
    requires NumberShown(l.listPrice, price, "list_price_gbp") && price.Keys <= {"list_price_gbp"}
    requires NumberShown(l.charge, charge, "monthly_charge") && charge.Keys <= {"monthly_charge"}
    requires NumberShown(TermOf(l), term, "contract_term_months") && term.Keys <= {"contract_term_months"}
    requires ReasonShown(l, reason) && reason.Keys <= {"reason_code", "reason_detail"}
    ensures OptionalShown(l, price + charge + term + reason) && (price + charge + term + reason).Keys <= OPTIONAL
  {
  }

  lemma OptionalEmitted(l: B.SubLine)
    ensures OptionalShown(l, OptionalFields(l)) && OptionalFields(l).Keys <= OPTIONAL
  {
    NumberEmitted("list_price_gbp", l.listPrice);
    NumberEmitted("monthly_charge", l.charge);
    NumberEmitted("contract_term_months", TermOf(l));
    ReasonEmitted(l);
    OptionalTogether(l, OptionalNumber("list_price_gbp", l.listPrice), OptionalNumber("monthly_charge", l.charge),
                     OptionalNumber("contract_term_months", TermOf(l)), RawReason(l));
  }

  lemma TogetherEmitted(l: B.SubLine, fixed: Dict, optional: Dict)
    requires FixedShown(l, fixed) && OptionalShown(l, optional) && fixed.Keys == FIXED && optional.Keys <= OPTIONAL
    ensures EmittedFields(l, fixed + optional)
  {
    assert FIXED !! OPTIONAL && "discount_code" !in FIXED;
    assert forall k :: k in optional ==> k !in fixed;
  }

  lemma LineEmitted(l: B.SubLine)
    ensures RawLine(l).Obj? && EmittedFields(l, RawLine(l).fields)
  {
    FixedEmitted(l);
    OptionalEmitted(l);
    TogetherEmitted(l, FixedFields(l), OptionalFields(l));
  }

  lemma EmittedShows(l: B.SubLine, raw: Dict, line: Dict)
    requires EmittedFields(l, raw) && LineCarried(raw, line)
    ensures ShowsBillingLine(l, line)
  {
  }

  /**
   * Over every joint run of billing and assembly, what the cache holds for a customer shows billing's current record
   * line by line: SKU, status in words, start, charge, percentage, discounts, term and the reason of the last change.
   */
  lemma CacheShowsBilling(setup: Setup, data: Records, steps: seq<Step>, sh0: Shared, c: string)
    requires Kept(setup, data) && PossibleRun(setup, data, steps) && c in data
    requires RunView(sh0, History(steps), c).tiers.hot.Some? && LastEvents(History(steps), c).billing.Some?
    ensures c in RunData(setup, data, steps)
    ensures var rec, billed := RunView(sh0, History(steps), c).tiers.hot.value, RunData(setup, data, steps)[c];
            && "commercial_state" in rec && rec["commercial_state"].Obj? && "subscriptions" in rec["commercial_state"].fields
            && rec["commercial_state"].fields["subscriptions"].Arr?
            && var lines := rec["commercial_state"].fields["subscriptions"].items;
               |lines| == |billed| && forall i :: 0 <= i < |billed| ==> lines[i].Obj? && ShowsBillingLine(billed[i], lines[i].fields)
  {
    LatestWins(sh0, History(steps), c);
    RunKeepsInvariant(sh0, History(steps), c);
    AssemblyIsInStep(setup, data, steps, c);
    RecordShowsBilling(RunView(sh0, History(steps), c).tiers.hot.value, LastEvents(History(steps), c).billing.value, c,
                       RunData(setup, data, steps)[c]);
  }

  lemma RecordShowsBilling(rec: Dict, e: Event, c: string, billed: seq<B.SubLine>)
    requires HoldsLinesOf(rec, e) && e.raw == RawRecord(c, billed)
    ensures var lines := rec["commercial_state"].fields["subscriptions"].items;
            |lines| == |billed| && forall i :: 0 <= i < |billed| ==> lines[i].Obj? && ShowsBillingLine(billed[i], lines[i].fields)
  {
    var lines := rec["commercial_state"].fields["subscriptions"].items;
    assert |O.RawLines(e.raw)| == |billed|;
    forall i | 0 <= i < |billed|
      ensures lines[i].Obj? && ShowsBillingLine(billed[i], lines[i].fields)
    {
      assert O.RawLines(e.raw)[i] == RawLine(billed[i]);
      LineEmitted(billed[i]);
      HeldLineShows(rec, e, i);
      EmittedShows(billed[i], RawLine(billed[i]).fields, lines[i].fields);
    }
  }
}
