/** What every run of broker intents keeps. */
module BrokerTheorems {
  import opened Json
  import opened Seqs
  import opened Rules
  import opened Products
  import opened Graphs
  import opened Billing
  import opened BillingTheorems
  import opened OfferTheorems
  import opened Broker

  predicate Sound(fx: Fixed, w: World) {
    NoDuplicates(fx.order) && w.data.Keys == SetOf(fx.order)
  }

  /** No customer holds two active products joined by an upgrade or incompatibility edge. */
  predicate PortfoliosConflictFree(fx: Fixed, w: World) {
    forall c :: c in w.data ==> ConflictFree(fx.graph, ActiveSkus(w.data[c]))
  }

  // ---------------------------------------------------------------- active sets

  lemma SameActive(before: seq<SubLine>, after: seq<SubLine>)
    requires |after| == |before|
    requires forall i :: 0 <= i < |before| ==> after[i].sku == before[i].sku && after[i].stat == before[i].stat
    ensures ActiveSkus(after) == ActiveSkus(before)
  {
  }

  lemma RecalculatedActive(policies: seq<Policy>, lines: seq<SubLine>, sku: string, price: real, out: seq<SubLine>)
    requires Recalculated(policies, lines, sku, price) == Ok(out)
    ensures ActiveSkus(out) == ActiveSkus(lines)
  {
    RepriceFrame(policies, SetPrice(lines, sku, price), out);
    SameActive(lines, out);
  }

  lemma AddedActiveSkus(policies: seq<Policy>, catalogue: Catalogue, lines: seq<SubLine>, sub: NewSubscription,
                        today: string, out: seq<SubLine>)
    requires ApplyAdd(policies, catalogue, lines, sub, today) == Written(out)
    ensures ActiveSkus(out) == ActiveSkus(lines) + if sub.stat == "A" then {sub.sku} else {}
  {
    var added := NewLine(sub, catalogue[sub.sku].listPrice.value, today);
    var grown := lines + [added];
    RepriceFrame(policies, grown, out);
    SameActive(grown, out);
    assert forall l :: l in grown <==> l in lines || l == added;
  }

  lemma ActiveSkusHead(lines: seq<SubLine>)
    requires lines != []
    ensures ActiveSkus(lines) == (if lines[0].stat == "A" then {lines[0].sku} else {}) + ActiveSkus(lines[1..])
  {
  }

  lemma {:induction false} CancelledActiveSkus(lines: seq<SubLine>, upd: Update)
    requires upd.newStat == Some("C")
    ensures ActiveSkus(PatchFirst(lines, upd)) <= ActiveSkus(lines) <= ActiveSkus(PatchFirst(lines, upd)) + {upd.sku}
  {
    if lines != [] {
      CancelledActiveSkus(lines[1..], upd);
      ActiveSkusHead(lines);
      ActiveSkusHead(PatchFirst(lines, upd));
    }
  }

  // ---------------------------------------------------------------- one intent

  lemma SoundKept(fx: Fixed, w: World, i: Intent)
    requires Sound(fx, w)
    ensures Sound(fx, Submit(fx, w, i).0)
  {
    if Forwarded(i) && i.name == "recalculate_billing" {
      RecalculateSafe(fx, w, TextAt(i.payload, "product_sku"));
    }
  }

  lemma WellFormedKept(fx: Fixed, w: World, i: Intent)
    requires Sound(fx, w) && AllWellFormed(w.data)
    ensures AllWellFormed(Submit(fx, w, i).0.data)
  {
    if Forwarded(i) {
      if i.name == "add_subscription" && CustomerGiven(i.customer) {
        PatchWellFormed(fx, w, i.customer.value, AddPatch(i.payload), i.today);
      } else if i.name == "cancel_subscription" && CustomerGiven(i.customer) {
        var reason := ParseReason(TextAt(i.payload, "reason_code"));
        if reason.Some? {
          PatchWellFormed(fx, w, i.customer.value, CancelPatch(i.payload, reason.value), i.today);
        }
      } else if i.name == "recalculate_billing" {
        ServeKeeps(fx.policies, w.data, fx.order, RecalculateSku(TextAt(i.payload, "product_sku"), w.products));
      }
    }
  }

  lemma PatchWellFormed(fx: Fixed, w: World, cid: string, patch: Patch, today: string)
    requires AllWellFormed(w.data)
    ensures AllWellFormed(PatchWorld(fx, w, cid, patch, today).0.data)
  {
    if cid in w.data {
      PatchKeepsWellFormed(fx.policies, w.products, w.data[cid], Some(patch), today);
    }
  }

  lemma RecalculateSafe(fx: Fixed, w: World, sku: string)
    requires Sound(fx, w)
    ensures var data' := Recalculate(fx.policies, w.products, w.data, fx.order, sku).0;
            data'.Keys == w.data.Keys && forall c :: c in w.data ==> ActiveSkus(data'[c]) == ActiveSkus(w.data[c])
  {
    if sku in w.products && w.products[sku].listPrice.Some? {
      var price := w.products[sku].listPrice.value;
      var cids := Affected(w.data, fx.order, sku);
      AffectedKnown(w.data, fx.order, sku);
      RecalculateEachEffect(fx.policies, w.data, cids, sku, price);
      var data' := Recalculate(fx.policies, w.products, w.data, fx.order, sku).0;
      forall c | c in w.data
        ensures ActiveSkus(data'[c]) == ActiveSkus(w.data[c])
      {
        if c in cids && data'[c] != w.data[c] {
          RecalculatedActive(fx.policies, w.data[c], sku, price, data'[c]);
        }
      }
    }
  }

  lemma AddSafe(fx: Fixed, w: World, i: Intent)
    requires Sound(fx, w) && PortfoliosConflictFree(fx, w)
    requires i.name == "add_subscription"
    ensures PortfoliosConflictFree(fx, Execute(fx, w, i).0)
  {
    if CustomerGiven(i.customer) && i.customer.value in w.data {
      var cid, patch := i.customer.value, AddPatch(i.payload);
      match ApplyPatch(fx.policies, w.products, w.data[cid], Some(patch), i.today)
      case Failed(_) =>
      case Written(out) =>
        AddedActiveSkus(fx.policies, w.products, w.data[cid], patch.add.value, i.today, out);
    }
  }

  lemma CancelSafe(fx: Fixed, w: World, i: Intent)
    requires Sound(fx, w) && PortfoliosConflictFree(fx, w)
    requires i.name == "cancel_subscription"
    ensures PortfoliosConflictFree(fx, Execute(fx, w, i).0)
  {
    var reason := ParseReason(TextAt(i.payload, "reason_code"));
    if CustomerGiven(i.customer) && i.customer.value in w.data && reason.Some? {
      var cid, upd := i.customer.value, CancelPatch(i.payload, reason.value).update.value;
      CancelledActiveSkus(w.data[cid], upd);
      ConflictFreeSubset(fx.graph, ActiveSkus(w.data[cid]), ActiveSkus(PatchFirst(w.data[cid], upd)));
    }
  }

  lemma SubmitSafe(fx: Fixed, w: World, i: Intent)
    requires Sound(fx, w) && PortfoliosConflictFree(fx, w)
    ensures PortfoliosConflictFree(fx, Submit(fx, w, i).0)
  {
    if Forwarded(i) {
      if i.name == "add_subscription" {
        AddSafe(fx, w, i);
      } else if i.name == "cancel_subscription" {
        CancelSafe(fx, w, i);
      } else if i.name == "recalculate_billing" {
        RecalculateSafe(fx, w, TextAt(i.payload, "product_sku"));
      }
    }
  }

  /** An accepted add of an active line: exactly that product joins the customer's active set, which is
      then fully valid, and no other customer's record changes. */
  lemma AcceptedAddIsValid(fx: Fixed, w: World, i: Intent)
    requires Sound(fx, w)
    requires i.name == "add_subscription" && Submit(fx, w, i).1 == 200
    requires AddPatch(i.payload).add.value.stat == "A"
    ensures var w' := Submit(fx, w, i).0;
            var cid, sku := i.customer.value, TextAt(i.payload, "sku");
            && cid in w.data && w'.products == w.products
            && w'.data.Keys == w.data.Keys && (forall c :: c in w.data && c != cid ==> w'.data[c] == w.data[c])
            && sku !in AllSkus(w.data[cid])
            && ActiveSkus(w'.data[cid]) == ActiveSkus(w.data[cid]) + {sku}
            && ValidCombination(fx.graph, ActiveSkus(w'.data[cid]))
  {
    var cid, patch := i.customer.value, AddPatch(i.payload);
    match ApplyPatch(fx.policies, w.products, w.data[cid], Some(patch), i.today)
    case Written(out) =>
      AddedActiveSkus(fx.policies, w.products, w.data[cid], patch.add.value, i.today, out);
      assert !HasSku(w.data[cid], patch.add.value.sku);
  }

  /** Reading the text of a reason code gives the code back. */
  lemma ReasonRoundTrip(r: ReasonCode)
    ensures ParseReason(ReasonText(r)) == Some(r)
  {
  }

  /** An accepted cancellation: the customer's line of that product is cancelled for the given reason, with its price
      and discounts as they were, and nothing else changes anywhere. */
  lemma AcceptedCancelExact(fx: Fixed, w: World, i: Intent)
    requires Sound(fx, w) && AllWellFormed(w.data)
    requires i.name == "cancel_subscription" && Submit(fx, w, i).1 == 200
    ensures var w' := Submit(fx, w, i).0;
            var cid, sku := i.customer.value, TextAt(i.payload, "product_sku");
            && cid in w.data && HasSku(w.data[cid], sku) && ParseReason(TextAt(i.payload, "reason_code")).Some?
            && w'.products == w.products && w'.data == w.data[cid := w'.data[cid]] && |w'.data[cid]| == |w.data[cid]|
            && forall k :: 0 <= k < |w.data[cid]| ==>
                 var before, after := w.data[cid][k], w'.data[cid][k];
                 if before.sku != sku then after == before
                 else
                   && after == before.(stat := "C", reasonCode := after.reasonCode, reasonDetail := after.reasonDetail)
                   && after.reasonCode == ParseReason(TextAt(i.payload, "reason_code"))
                   && (if "reason_detail" in i.payload then after.reasonDetail == Some(TextAt(i.payload, "reason_detail"))
                       else after.reasonDetail == None)
  {
    var cid, reason := i.customer.value, ParseReason(TextAt(i.payload, "reason_code"));
    UpdateExact(w.data[cid], CancelPatch(i.payload, reason.value).update.value);
  }

  /** An accepted price change: that product's list price is the given one, and nothing else changes anywhere. */
  lemma AcceptedPriceExact(fx: Fixed, w: World, i: Intent)
    requires Sound(fx, w)
    requires i.name == "update_product_price" && Submit(fx, w, i).1 == 200
    ensures var w' := Submit(fx, w, i).0;
            var sku := TextAt(i.payload, "sku");
            && "new_list_price_gbp" in i.payload && sku in w.products && w'.data == w.data
            && w'.products.Keys == w.products.Keys
            && w'.products[sku] == w.products[sku].(listPrice := Some(RealOf(i.payload["new_list_price_gbp"])))
            && forall s :: s in w.products && s != sku ==> w'.products[s] == w.products[s]
  {
    assert "new_list_price_gbp" in Route(i.name).value.required by {
      assert Route(i.name).value.required[1] == "new_list_price_gbp";
    }
  }

  // ---------------------------------------------------------------- runs

  function RunIntents(fx: Fixed, w: World, intents: seq<Intent>): (w': World)
    requires Sound(fx, w)
    ensures Sound(fx, w')
  {
    if intents == [] then w
    else
      var before := RunIntents(fx, w, intents[..|intents| - 1]);
      SoundKept(fx, before, intents[|intents| - 1]);
      Submit(fx, before, intents[|intents| - 1]).0
  }

  /**
   * Portfolio safety: from conflict-free portfolios every run of broker intents, of all four kinds and in
   * any order, keeps every customer's active set free of upgrade and incompatibility pairs; and whenever the
   * next intent is an accepted active add, that customer's active set is fully valid right after it.
   */
  lemma {:induction false} PortfolioSafety(fx: Fixed, w: World, intents: seq<Intent>, next: Intent)
    requires Sound(fx, w) && PortfoliosConflictFree(fx, w)
    ensures PortfoliosConflictFree(fx, RunIntents(fx, w, intents))
    ensures var before := RunIntents(fx, w, intents);
            var after := RunIntents(fx, w, intents + [next]);
            next.name == "add_subscription" && Submit(fx, before, next).1 == 200
            && AddPatch(next.payload).add.value.stat == "A" ==>
              ValidCombination(fx.graph, ActiveSkus(after.data[next.customer.value]))
    decreases |intents|
  {
    if intents != [] {
      var front, last := intents[..|intents| - 1], intents[|intents| - 1];
      PortfolioSafety(fx, w, front, last);
      SubmitSafe(fx, RunIntents(fx, w, front), last);
    }
    assert (intents + [next])[..|intents|] == intents;
    var before := RunIntents(fx, w, intents);
    if next.name == "add_subscription" && Submit(fx, before, next).1 == 200
       && AddPatch(next.payload).add.value.stat == "A" {
      AcceptedAddIsValid(fx, before, next);
    }
  }

  /** The same runs keep distinct SKUs per customer and a list price on every line. */
  lemma {:induction false} RecordsStayWellFormed(fx: Fixed, w: World, intents: seq<Intent>)
    requires Sound(fx, w) && AllWellFormed(w.data)
    ensures AllWellFormed(RunIntents(fx, w, intents).data)
    decreases |intents|
  {
    if intents != [] {
      var front := intents[..|intents| - 1];
      RecordsStayWellFormed(fx, w, front);
      WellFormedKept(fx, RunIntents(fx, w, front), intents[|intents| - 1]);
    }
  }

  /**
   * Cancelling may break a requirement and nothing else: out of a valid set the rest is valid exactly when
   * the cancelled product was nobody's only option left.
   */
  lemma CancelBreaksRequirementsOnly(g: Graph, skus: set<string>, gone: string)
    requires ValidCombination(g, skus)
    ensures ConflictFree(g, skus - {gone}) && skus - {gone} <= g.nodes
    ensures ValidCombination(g, skus - {gone}) <==>
            !exists s :: s in skus - {gone} && Options(g.edges, s) * skus == {gone}
  {
  }

  lemma PatchStatuses(fx: Fixed, w: World, cid: string, patch: Patch, today: string)
    ensures var (w', status) := PatchWorld(fx, w, cid, patch, today);
            && (status == 200 || (status >= 400 && w' == w))
            && w'.products == w.products && w'.data.Keys == w.data.Keys
            && forall c :: c in w.data && c != cid ==> w'.data[c] == w.data[c]
  {
  }

  lemma ExecuteStatuses(fx: Fixed, w: World, i: Intent)
    requires Sound(fx, w)
    ensures var (w', status) := Execute(fx, w, i);
            && (status == 200 || status >= 400)
            && (status != 200 && i.name != "recalculate_billing" ==> w' == w)
            && (i.name != "update_product_price" ==> w'.products == w.products)
            && (i.name == "update_product_price" ==> w'.data == w.data)
            && (i.name == "add_subscription" || i.name == "cancel_subscription" ==>
                  w'.data.Keys == w.data.Keys &&
                  forall c :: c in w.data && i.customer != Some(c) ==> w'.data[c] == w.data[c])
  {
    if i.name == "add_subscription" && CustomerGiven(i.customer) {
      PatchStatuses(fx, w, i.customer.value, AddPatch(i.payload), i.today);
    } else if i.name == "cancel_subscription" && CustomerGiven(i.customer) {
      var reason := ParseReason(TextAt(i.payload, "reason_code"));
      if reason.Some? {
        PatchStatuses(fx, w, i.customer.value, CancelPatch(i.payload, reason.value), i.today);
      }
    }
  }

  /** An intent that is not answered 200 changes nothing, save a recalculation that raised half-way;
      only the named customer is touched by an add or a cancel; and a price change leaves billing alone. */
  lemma IntentFrame(fx: Fixed, w: World, i: Intent)
    requires Sound(fx, w)
    ensures var (w', status) := Submit(fx, w, i);
            && (status == 200 || status >= 400)
            && (status != 200 && i.name != "recalculate_billing" ==> w' == w)
            && (i.name != "update_product_price" ==> w'.products == w.products)
            && (i.name == "update_product_price" ==> w'.data == w.data)
            && (i.name == "add_subscription" || i.name == "cancel_subscription" ==>
                  w'.data.Keys == w.data.Keys &&
                  forall c :: c in w.data && i.customer != Some(c) ==> w'.data[c] == w.data[c])
            && (!Forwarded(i) ==> w' == w)
            && (i.opa == Unreachable ==> status == 503) && (i.opa == Deny ==> status == 403)
            && (i.opa == Allow && !Forwarded(i) ==> status == 422)
  {
    ExecuteStatuses(fx, w, i);
  }

  // ---------------------------------------------------------------- the audit log

  lemma LastNStep<T>(xs: seq<T>, e: T, n: nat)
    requires n > 0
    ensures LastN(LastN(xs, n) + [e], n) == LastN(xs + [e], n)
  {
  }

  /** Every entry the intents give rise to, in order and without a bound. */
  function AllEntries(fx: Fixed, w: World, intents: seq<Intent>): seq<Entry>
    requires Sound(fx, w)
  {
    if intents == [] then []
    else
      var before := RunIntents(fx, w, intents[..|intents| - 1]);
      var last := intents[|intents| - 1];
      AllEntries(fx, w, intents[..|intents| - 1])
      + (if Audited(last) then [EntryFor(last, Submit(fx, before, last).1)] else [])
  }

  /** The bounded log after the intents, step by step as `SubmitIntent` leaves it. */
  function LogAfter(fx: Fixed, w: World, intents: seq<Intent>): seq<Entry>
    requires Sound(fx, w)
  {
    if intents == [] then []
    else
      var before := RunIntents(fx, w, intents[..|intents| - 1]);
      var last := intents[|intents| - 1];
      var log := LogAfter(fx, w, intents[..|intents| - 1]);
      if Audited(last) then LastN(log + [EntryFor(last, Submit(fx, before, last).1)], AUDIT_CAPACITY) else log
  }

  /** The bounded log is always the last 200 of the entries ever written. */
  lemma {:induction false} AuditLogIsSuffix(fx: Fixed, w: World, intents: seq<Intent>)
    requires Sound(fx, w)
    ensures LogAfter(fx, w, intents) == LastN(AllEntries(fx, w, intents), AUDIT_CAPACITY)
    decreases |intents|
  {
    if intents != [] {
      var front, last := intents[..|intents| - 1], intents[|intents| - 1];
      AuditLogIsSuffix(fx, w, front);
      if Audited(last) {
        var e := EntryFor(last, Submit(fx, RunIntents(fx, w, front), last).1);
        LastNStep(AllEntries(fx, w, front), e, AUDIT_CAPACITY);
      }
    }
  }

  /** All entries as long as there are at most 200, and the latest 200 from then on. */
  lemma AuditLogKeepsLatest(fx: Fixed, w: World, intents: seq<Intent>)
    requires Sound(fx, w)
    ensures var log, all := LogAfter(fx, w, intents), AllEntries(fx, w, intents);
            if |all| <= 200 then log == all else |log| == 200 && log == all[|all| - 200..]
  {
    AuditLogIsSuffix(fx, w, intents);
  }

  /** Not every decision is audited: exactly the allowed intents that are unrouted or malformed are not. The
      entry names the intent as submitted, and says permitted exactly for an answer of 200. */
  lemma AuditExactly(fx: Fixed, w: World, i: Intent)
    requires Sound(fx, w)
    ensures !Audited(i) <==> i.opa == Allow && (Route(i.name).None? || !PayloadOk(i.payload, Route(i.name).value))
    ensures !Audited(i) ==> Submit(fx, w, i).1 == 422
    ensures Audited(i) ==> (EntryFor(i, Submit(fx, w, i).1).outcome == Permitted <==> Submit(fx, w, i).1 == 200)
    ensures Audited(i) ==> (EntryFor(i, Submit(fx, w, i).1).outcome == Denied <==> i.opa == Deny)
    ensures var e := EntryFor(i, Submit(fx, w, i).1);
            e.auditId == i.auditId && e.caller == i.caller && e.intent == i.name && e.customer == i.customer && e.payload == i.payload
  {
    IntentFrame(fx, w, i);
  }
}
