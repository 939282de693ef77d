/** What the broker's intents are and do, in terms of their payloads and of the records. */
module IntentEffects {
  import opened Json
  import opened Products
  import opened Graphs
  import opened Rules
  import opened Billing
  import opened BillingTheorems
  import opened BillingContents
  import opened OfferTheorems
  import opened Broker
  import opened BrokerTheorems

  predicate IsText(payload: Payload, name: string) {
    name in payload && payload[name].PText?
  }

  predicate IsNumber(payload: Payload, name: string) {
    name in payload && (payload[name].PInt? || payload[name].PBool? || payload[name].PFloat?)
  }

  /** The payload of an intent is well formed. */
  predicate WellFormedPayload(name: string, payload: Payload) {
    || (name == "add_subscription"
        && payload.Keys <= {"sku", "contract_term_months", "stat"} && IsText(payload, "sku")
        && ("contract_term_months" in payload ==> payload["contract_term_months"].PInt? || payload["contract_term_months"].PBool?)
        && ("stat" in payload ==> IsText(payload, "stat")))
    || (name == "cancel_subscription"
        && payload.Keys <= {"product_sku", "reason_code", "reason_detail"}
        && IsText(payload, "product_sku") && IsText(payload, "reason_code")
        && ("reason_detail" in payload ==> IsText(payload, "reason_detail")))
    || (name == "update_product_price"
        && payload.Keys <= {"sku", "new_list_price_gbp"} && IsText(payload, "sku") && IsNumber(payload, "new_list_price_gbp"))
    || (name == "recalculate_billing" && payload.Keys <= {"product_sku"} && IsText(payload, "product_sku"))
  }

  lemma AddPayload(payload: Payload)
    ensures PayloadOk(payload, Route("add_subscription").value) <==> WellFormedPayload("add_subscription", payload)
  {
    var schema := Route("add_subscription").value;
    assert schema.properties == [("sku", TText), ("contract_term_months", TInt), ("stat", TText)] && schema.required == ["sku"];
    assert schema.properties[0] in schema.properties && schema.properties[1] in schema.properties && schema.properties[2] in schema.properties;
    assert PropertyNames(schema) == {"sku", "contract_term_months", "stat"};
    assert schema.required[0] in schema.required;
    NamesApart();
  }

  lemma CancelPayload(payload: Payload)
    ensures PayloadOk(payload, Route("cancel_subscription").value) <==> WellFormedPayload("cancel_subscription", payload)
  {
    var schema := Route("cancel_subscription").value;
    assert schema.properties == [("product_sku", TText), ("reason_code", TText), ("reason_detail", TText)]
           && schema.required == ["product_sku", "reason_code"];
    assert schema.properties[0] in schema.properties && schema.properties[1] in schema.properties && schema.properties[2] in schema.properties;
    assert PropertyNames(schema) == {"product_sku", "reason_code", "reason_detail"};
    assert schema.required[0] in schema.required && schema.required[1] in schema.required;
    NamesApart();
  }

  lemma PricePayload(payload: Payload)
    ensures PayloadOk(payload, Route("update_product_price").value) <==> WellFormedPayload("update_product_price", payload)
  {
    var schema := Route("update_product_price").value;
    assert schema.properties == [("sku", TText), ("new_list_price_gbp", TNumber)] && schema.required == ["sku", "new_list_price_gbp"];
    assert schema.properties[0] in schema.properties && schema.properties[1] in schema.properties;
    assert PropertyNames(schema) == {"sku", "new_list_price_gbp"};
    assert schema.required[0] in schema.required && schema.required[1] in schema.required;
    NamesApart();
  }

  lemma RecalculationPayload(payload: Payload)
    ensures PayloadOk(payload, Route("recalculate_billing").value) <==> WellFormedPayload("recalculate_billing", payload)
  {
    var schema := Route("recalculate_billing").value;
    assert schema.properties == [("product_sku", TText)] && schema.required == ["product_sku"];
    assert schema.properties[0] in schema.properties && schema.required[0] in schema.required;
    assert PropertyNames(schema) == {"product_sku"};
    NamesApart();
  }

  lemma NamesApart()
    ensures "add_subscription" != "cancel_subscription" && "add_subscription" != "update_product_price"
    ensures "add_subscription" != "recalculate_billing" && "cancel_subscription" != "update_product_price"
    ensures "cancel_subscription" != "recalculate_billing" && "update_product_price" != "recalculate_billing"
  {
    assert |"add_subscription"| == 16 && |"cancel_subscription"| == 19 && |"update_product_price"| == 20 && |"recalculate_billing"| == 19;
    assert "cancel_subscription"[0] == 'c' && "recalculate_billing"[0] == 'r';
  }

  /** An intent gets as far as the systems of record exactly if the policy engine allows it, it is one of the four, and
      its payload has the fields of that one, of their types, and no others. */
  lemma ForwardedExactly(i: Intent)
    ensures Forwarded(i) <==> i.opa == Allow && WellFormedPayload(i.name, i.payload)
  {
    AddPayload(i.payload);
    CancelPayload(i.payload);
    PricePayload(i.payload);
    RecalculationPayload(i.payload);
    NamesApart();
  }

  // ---------------------------------------------------------------- adds

  /** The term an add asks for: the payload's, or one month. */
  predicate TermGiven(payload: Payload, term: Option<int>) {
    && ("contract_term_months" !in payload ==> term == Some(1))
    && ("contract_term_months" in payload && payload["contract_term_months"].PInt? ==> term == Some(payload["contract_term_months"].i))
    && ("contract_term_months" in payload && payload["contract_term_months"] == PBool(true) ==> term == Some(1))
    && ("contract_term_months" in payload && payload["contract_term_months"] == PBool(false) ==> term == Some(0))
  }

  /** The new line is what the payload asks for, from today and at the catalogue's price. */
  predicate LineAsked(i: Intent, products: Catalogue, l: SubLine) {
    && IsText(i.payload, "sku") && l.sku == i.payload["sku"].s
    && ("stat" in i.payload ==> IsText(i.payload, "stat") && l.stat == i.payload["stat"].s) && ("stat" !in i.payload ==> l.stat == "A")
    && TermGiven(i.payload, l.term) && l.effFrom == i.today
    && l.sku in products && products[l.sku].listPrice.Some? && l.listPrice == products[l.sku].listPrice
    && l.reasonCode == None && l.reasonDetail == None
    && (l.stat != "A" ==> l.charge == l.listPrice && l.totalPct == 0.0 && l.applied == [])
  }

  /**
   * An accepted add appends exactly one line, as the payload asks for it; it repeats no SKU, changes nothing but the
   * charges and discounts of active lines beside it, leaves the record rule-consistent, and touches no other customer.
   */
  lemma AcceptedAddExact(fx: Fixed, w: World, i: Intent)
    requires Sound(fx, w) && AllWellFormed(w.data)
    requires i.name == "add_subscription" && Submit(fx, w, i).1 == 200
    ensures i.customer.Some? && i.customer.value != "" && i.customer.value in w.data
    ensures var cid, w' := i.customer.value, Submit(fx, w, i).0;
            && w'.products == w.products && cid in w'.data && w'.data == w.data[cid := w'.data[cid]]
            && Priced(fx.policies, w'.data[cid])
            && var before, after := w.data[cid], w'.data[cid];
               && |after| == |before| + 1 && LineAsked(i, w.products, after[|before|])
               && (forall k :: 0 <= k < |before| ==>
                     && before[k].sku != after[|before|].sku
                     && after[k] == before[k].(charge := after[k].charge, totalPct := after[k].totalPct, applied := after[k].applied)
                     && (before[k].stat != "A" ==> after[k] == before[k]))
  {
    ForwardedExactly(i);
    NamesApart();
    var cid, patch := i.customer.value, AddPatch(i.payload);
    match ApplyPatch(fx.policies, w.products, w.data[cid], Some(patch), i.today)
    case Written(out) =>
      AddExact(fx.policies, w.products, w.data[cid], patch.add.value, i.today, out);
      AddMakesLine(i, w.products, fx.policies, w.data[cid], out);
  }

  lemma AddMakesLine(i: Intent, products: Catalogue, policies: seq<Policy>, lines: seq<SubLine>, out: seq<SubLine>)
    requires WellFormed(lines) && WellFormedPayload("add_subscription", i.payload)
    requires ApplyAdd(policies, products, lines, AddPatch(i.payload).add.value, i.today) == Written(out)
    ensures |out| == |lines| + 1 && LineAsked(i, products, out[|lines|])
    ensures forall k :: 0 <= k < |lines| ==> lines[k].sku != out[|lines|].sku
  {
    NamesApart();
    var sub := AddPatch(i.payload).add.value;
    AddExact(policies, products, lines, sub, i.today, out);
    assert forall k :: 0 <= k < |lines| ==> lines[k] in lines;
  }

  /** How an add is answered. */
  lemma AddIntentAnswers(fx: Fixed, w: World, i: Intent)
    requires Sound(fx, w) && Forwarded(i) && i.name == "add_subscription"
    ensures var status := Submit(fx, w, i).1;
            var named := i.customer.Some? && i.customer.value != "";
            && IsText(i.payload, "sku")
            && var sku := i.payload["sku"].s;
               && (named && i.customer.value !in w.data ==> status == 404)
               && (!named ==> status == 422)
               && (named && i.customer.value in w.data ==>
                     var lines := w.data[i.customer.value];
                     if !ValidCombination(fx.graph, ActiveSkus(lines) + {sku}) then status == 422
                     else if exists l :: l in lines && l.sku == sku then status == 409
                     else if sku !in w.products then status == 404
                     else if w.products[sku].listPrice == None then status == 422
                     else status in {200, 500})
  {
    ForwardedExactly(i);
    NamesApart();
    if i.customer.Some? && i.customer.value in w.data {
      AddAnswers(fx.policies, w.products, w.data[i.customer.value], AddPatch(i.payload).add.value, i.today);
    }
  }

  // ---------------------------------------------------------------- cancellations

  predicate KnownReason(text: string) {
    text in {"non_payment", "customer_request", "fraud_hold", "technical_issue", "network_fault", "other"}
  }

  /** When a cancellation is accepted, and how it is refused. */
  lemma CancelIntentAnswers(fx: Fixed, w: World, i: Intent)
    requires Sound(fx, w) && Forwarded(i) && i.name == "cancel_subscription"
    ensures IsText(i.payload, "product_sku") && IsText(i.payload, "reason_code")
    ensures var status := Submit(fx, w, i).1;
            if i.customer == None || i.customer.value == "" || !KnownReason(i.payload["reason_code"].s) then status == 422
            else if i.customer.value !in w.data then status == 404
            else status == if exists l :: l in w.data[i.customer.value] && l.sku == i.payload["product_sku"].s then 200 else 404
  {
    ForwardedExactly(i);
    NamesApart();
    ReasonsKnown(TextAt(i.payload, "reason_code"));
    if i.customer.Some? && i.customer.value in w.data && ParseReason(TextAt(i.payload, "reason_code")).Some? {
      UpdateAnswers(w.data[i.customer.value], CancelPatch(i.payload, ParseReason(TextAt(i.payload, "reason_code")).value).update.value);
    }
  }

  /** The six reasons by their names. */
  lemma ReasonsKnown(text: string)
    ensures ParseReason(text).Some? <==> KnownReason(text)
    ensures ParseReason("non_payment") == Some(NonPayment) && ParseReason("customer_request") == Some(CustomerRequest)
    ensures ParseReason("fraud_hold") == Some(FraudHold) && ParseReason("technical_issue") == Some(TechnicalIssue)
    ensures ParseReason("network_fault") == Some(NetworkFault) && ParseReason("other") == Some(Other)
  {
    assert |"non_payment"| == 11 && |"customer_request"| == 16 && |"fraud_hold"| == 10 && |"technical_issue"| == 15
           && |"network_fault"| == 13 && |"other"| == 5;
  }

  // ---------------------------------------------------------------- prices and recalculations

  /** The price a payload gives. */
  predicate PriceGiven(payload: Payload, price: Option<real>) {
    && "new_list_price_gbp" in payload
    && (payload["new_list_price_gbp"].PFloat? ==> price == Some(payload["new_list_price_gbp"].r))
    && (payload["new_list_price_gbp"].PInt? ==> price == Some(payload["new_list_price_gbp"].i as real))
    && (payload["new_list_price_gbp"] == PBool(true) ==> price == Some(1.0))
    && (payload["new_list_price_gbp"] == PBool(false) ==> price == Some(0.0))
  }

  /** A price change is accepted exactly for a known product, and then sets its list price to the given number. */
  lemma PriceIntentExact(fx: Fixed, w: World, i: Intent)
    requires Sound(fx, w) && Forwarded(i) && i.name == "update_product_price"
    ensures IsText(i.payload, "sku")
    ensures var (w', status) := Submit(fx, w, i);
            var sku := i.payload["sku"].s;
            if sku !in w.products then status == 404 && w' == w
            else
              && status == 200 && w'.data == w.data && w'.products.Keys == w.products.Keys
              && w'.products[sku] == w.products[sku].(listPrice := w'.products[sku].listPrice)
              && PriceGiven(i.payload, w'.products[sku].listPrice)
              && forall s :: s in w.products && s != sku ==> w'.products[s] == w.products[s]
  {
    ForwardedExactly(i);
    NamesApart();
  }

  /**
   * An accepted recalculation: exactly the customers with a line of the product that is not cancelled are rewritten.
   * Those lines get the catalogue's price, and the record comes out rule-consistent.
   */
  lemma AcceptedRecalculationExact(fx: Fixed, w: World, i: Intent)
    requires Sound(fx, w) && AllWellFormed(w.data)
    requires i.name == "recalculate_billing" && Submit(fx, w, i).1 == 200
    ensures IsText(i.payload, "product_sku")
    ensures var w', sku := Submit(fx, w, i).0, i.payload["product_sku"].s;
            && w'.products == w.products && sku in w.products && w.products[sku].listPrice.Some? && w'.data.Keys == w.data.Keys
            && (forall c :: c in w.data && (forall l :: l in w.data[c] && l.sku == sku ==> l.stat == "C") ==> w'.data[c] == w.data[c])
            && (forall c :: c in w.data && (exists l :: l in w.data[c] && l.sku == sku && l.stat != "C") ==>
                  && Priced(fx.policies, w'.data[c]) && |w'.data[c]| == |w.data[c]|
                  && forall k :: 0 <= k < |w.data[c]| ==>
                       LineRecalculated(w.data[c][k], w'.data[c][k], sku, w.products[sku].listPrice.value))
  {
    ForwardedExactly(i);
    NamesApart();
    RecalculationExact(fx.policies, w.products, w.data, fx.order, TextAt(i.payload, "product_sku"));
  }

  /** How a recalculation is answered. */
  lemma RecalculationIntentAnswers(fx: Fixed, w: World, i: Intent)
    requires Sound(fx, w) && Forwarded(i) && i.name == "recalculate_billing"
    ensures IsText(i.payload, "product_sku")
    ensures var (w', status) := Submit(fx, w, i);
            var sku := i.payload["product_sku"].s;
            && (status == 404 <==> sku !in w.products) && (status == 422 <==> sku in w.products && w.products[sku].listPrice == None)
            && status in {200, 404, 422, 500} && (status in {404, 422} ==> w' == w)
  {
    ForwardedExactly(i);
    NamesApart();
    RecalculationAnswers(fx.policies, w.products, w.data, fx.order, TextAt(i.payload, "product_sku"));
  }
}
