/**
 * The broker checks the lines of status A; the rules, the cache and the offers go by the decoded status, for which the
 * word "active" counts as well. The status of a new line is not validated, so the two sets can come apart.
 */
module DecodedActive {
  import opened Json
  import opened Rules
  import opened Products
  import opened Graphs
  import opened Billing
  import opened BillingTheorems
  import opened OfferTheorems
  import opened Broker
  import opened BrokerTheorems

  /** The SKUs that count as active once decoded. */
  function DecodedSkus(lines: seq<SubLine>): set<string> {
    set l | l in lines && Decode(l.stat) == "active" :: l.sku
  }

  /** The two sets agree exactly when every SKU on a line of status "active" is on a line of status A as well. */
  lemma DecodedExact(lines: seq<SubLine>)
    ensures DecodedSkus(lines) == ActiveSkus(lines) <==>
            forall l :: l in lines && l.stat == "active" ==> exists k :: k in lines && k.stat == "A" && k.sku == l.sku
    ensures forall l :: l in lines ==> (IsActive(EvalLine(l)) <==> Decode(l.stat) == "active")
    ensures ActiveSkus(lines) <= DecodedSkus(lines)
  {
    if forall l :: l in lines && l.stat == "active" ==> exists k :: k in lines && k.stat == "A" && k.sku == l.sku {
      forall sku | sku in DecodedSkus(lines)
        ensures sku in ActiveSkus(lines)
      {
        var l :| l in lines && Decode(l.stat) == "active" && l.sku == sku;
      }
    } else {
      var l :| l in lines && l.stat == "active" && !exists k :: k in lines && k.stat == "A" && k.sku == l.sku;
      assert l.sku in DecodedSkus(lines);
    }
  }

  /** A line added with status "active": every evaluation counts it, at its undiscounted list price, while the set that
      the combination check looks at does not change. */
  lemma UnvalidatedStatusIsHalfActive(policies: seq<Policy>, catalogue: Catalogue, lines: seq<SubLine>,
                                      sub: NewSubscription, today: string, out: seq<SubLine>)
    requires WellFormed(lines) && sub.stat == "active"
    requires ApplyAdd(policies, catalogue, lines, sub, today) == Written(out)
    ensures var n, price := |lines|, catalogue[sub.sku].listPrice;
            && |out| == n + 1 && out[n].sku == sub.sku && out[n].charge == price && out[n].applied == []
            && EvalLine(out[n]) in Active(Context(out)) && Price(EvalLine(out[n])) == price.value
    ensures ActiveSkus(out) == ActiveSkus(lines) && sub.sku !in ActiveSkus(out)
    ensures DecodedSkus(out) == DecodedSkus(lines) + {sub.sku}
  {
    AddExact(policies, catalogue, lines, sub, today, out);
    AddedActiveSkus(policies, catalogue, lines, sub, today, out);
    AddedDecodedSkus(policies, catalogue, lines, sub, today, out);
    UnpricedAdd(policies, catalogue, lines, sub, today, out);
    HalfActiveEvaluated(out, out[|lines|]);
  }

  lemma UnpricedAdd(policies: seq<Policy>, catalogue: Catalogue, lines: seq<SubLine>,
                    sub: NewSubscription, today: string, out: seq<SubLine>)
    requires sub.stat == "active" && ApplyAdd(policies, catalogue, lines, sub, today) == Written(out)
    ensures |out| == |lines| + 1 && out[|lines|] == NewLine(sub, catalogue[sub.sku].listPrice.value, today)
  {
    RepriceFrame(policies, lines + [NewLine(sub, catalogue[sub.sku].listPrice.value, today)], out);
  }

  lemma HalfActiveEvaluated(lines: seq<SubLine>, l: SubLine)
    requires l in lines && l.stat == "active" && l.listPrice.Some?
    ensures EvalLine(l) in Active(Context(lines)) && Price(EvalLine(l)) == l.listPrice.value
  {
    var k :| 0 <= k < |lines| && lines[k] == l;
    assert Context(lines)[k] == EvalLine(l);
    ActiveMembers(Context(lines));
  }

  lemma SameDecoded(before: seq<SubLine>, after: seq<SubLine>)
    requires |after| == |before|
    requires forall i :: 0 <= i < |before| ==> after[i].sku == before[i].sku && after[i].stat == before[i].stat
    ensures DecodedSkus(after) == DecodedSkus(before)
  {
  }

  lemma AddedDecodedSkus(policies: seq<Policy>, catalogue: Catalogue, lines: seq<SubLine>, sub: NewSubscription,
                         today: string, out: seq<SubLine>)
    requires ApplyAdd(policies, catalogue, lines, sub, today) == Written(out)
    ensures DecodedSkus(out) == DecodedSkus(lines) + if Decode(sub.stat) == "active" then {sub.sku} else {}
  {
    var added := NewLine(sub, catalogue[sub.sku].listPrice.value, today);
    var grown := lines + [added];
    RepriceFrame(policies, grown, out);
    SameDecoded(grown, out);
    assert forall l :: l in grown <==> l in lines || l == added;
  }

  // ---------------------------------------------------------------- one accepted add

  /** An exclusive edge between the product and a half-active one. */
  predicate ClashesWithHalfActive(g: Graph, lines: seq<SubLine>, sku: string) {
    exists e :: e in g.edges && Exclusive(e.relation)
      && ((e.source == sku && e.target in DecodedSkus(lines) - ActiveSkus(lines))
          || (e.target == sku && e.source in DecodedSkus(lines) - ActiveSkus(lines)))
  }

  /**
   * What one accepted add does to the decoded set. From a conflict-free one it leaves a conflict-free one exactly when
   * no exclusive edge joins the product to a half-active one: the broker's check sees to the rest.
   */
  lemma AddKeepsDecodedExactly(fx: Fixed, w: World, i: Intent)
    requires Sound(fx, w)
    requires i.name == "add_subscription" && Submit(fx, w, i).1 == 200
    requires Decode(AddPatch(i.payload).add.value.stat) == "active"
    requires ConflictFree(fx.graph, DecodedSkus(w.data[i.customer.value]))
    ensures var cid, sku := i.customer.value, TextAt(i.payload, "sku");
            var after := Submit(fx, w, i).0.data[cid];
            && DecodedSkus(after) == DecodedSkus(w.data[cid]) + {sku}
            && (ConflictFree(fx.graph, DecodedSkus(after)) <==> !ClashesWithHalfActive(fx.graph, w.data[cid], sku))
  {
    var cid, sub := i.customer.value, AddPatch(i.payload).add.value;
    match ApplyPatch(fx.policies, w.products, w.data[cid], Some(AddPatch(i.payload)), i.today)
    case Written(out) =>
      AddedDecodedSkus(fx.policies, w.products, w.data[cid], sub, i.today, out);
      DecodedExact(w.data[cid]);
      ClashExactly(fx.graph, w.data[cid], sub.sku);
  }

  lemma ClashExactly(g: Graph, lines: seq<SubLine>, sku: string)
    requires ConflictFree(g, DecodedSkus(lines)) && ConflictFree(g, ActiveSkus(lines) + {sku})
    requires ActiveSkus(lines) <= DecodedSkus(lines)
    ensures ConflictFree(g, DecodedSkus(lines) + {sku}) <==> !ClashesWithHalfActive(g, lines, sku)
  {
    var all := DecodedSkus(lines) + {sku};
    if !ConflictFree(g, all) {
      var e :| e in g.edges && e.source in all && e.target in all && Exclusive(e.relation);
      assert !(e.source in ActiveSkus(lines) + {sku} && e.target in ActiveSkus(lines) + {sku});
      assert !(e.source in DecodedSkus(lines) && e.target in DecodedSkus(lines));
    }
  }

  // ---------------------------------------------------------------- runs

  predicate Coded(lines: seq<SubLine>) {
    forall l :: l in lines ==> l.stat != "active"
  }

  predicate AllCoded(w: World) {
    forall c :: c in w.data ==> Coded(w.data[c])
  }

  /** The intent is an accepted add of a line of status "active". */
  predicate AddsWord(fx: Fixed, w: World, i: Intent)
    requires Sound(fx, w)
  {
    i.name == "add_subscription" && Submit(fx, w, i).1 == 200 && AddPatch(i.payload).add.value.stat == "active"
  }

  /** No intent of the run is one. */
  predicate NeverAddsWord(fx: Fixed, w: World, intents: seq<Intent>)
    requires Sound(fx, w)
  {
    intents == [] ||
    (NeverAddsWord(fx, w, intents[..|intents| - 1])
     && !AddsWord(fx, RunIntents(fx, w, intents[..|intents| - 1]), intents[|intents| - 1]))
  }

  lemma CodedSame(before: seq<SubLine>, after: seq<SubLine>)
    requires Coded(before) && |after| == |before|
    requires forall i :: 0 <= i < |before| ==> after[i].stat == before[i].stat
    ensures Coded(after)
  {
  }

  lemma CodedAdd(policies: seq<Policy>, catalogue: Catalogue, lines: seq<SubLine>, sub: NewSubscription,
                 today: string, out: seq<SubLine>)
    requires Coded(lines) && sub.stat != "active"
    requires ApplyAdd(policies, catalogue, lines, sub, today) == Written(out)
    ensures Coded(out)
  {
    var grown := lines + [NewLine(sub, catalogue[sub.sku].listPrice.value, today)];
    RepriceFrame(policies, grown, out);
    CodedSame(grown, out);
  }

  lemma {:induction false} CodedPatch(lines: seq<SubLine>, upd: Update)
    requires Coded(lines) && upd.newStat == Some("C")
    ensures Coded(PatchFirst(lines, upd))
  {
    if lines != [] {
      assert lines == [lines[0]] + lines[1..];
      CodedPatch(lines[1..], upd);
    }
  }

  lemma CodedRecalculated(policies: seq<Policy>, lines: seq<SubLine>, sku: string, price: real, out: seq<SubLine>)
    requires Coded(lines) && Recalculated(policies, lines, sku, price) == Ok(out)
    ensures Coded(out)
  {
    RepriceFrame(policies, SetPrice(lines, sku, price), out);
    CodedSame(lines, out);
  }

  lemma CodedRecalculate(fx: Fixed, w: World, sku: string)
    requires Sound(fx, w) && AllCoded(w)
    ensures AllCoded(w.(data := Recalculate(fx.policies, w.products, w.data, fx.order, sku).0))
  {
    if sku in w.products && w.products[sku].listPrice.Some? {
      var price, cids := w.products[sku].listPrice.value, Affected(w.data, fx.order, sku);
      AffectedKnown(w.data, fx.order, sku);
      RecalculateEachEffect(fx.policies, w.data, cids, sku, price);
      var data' := RecalculateEach(fx.policies, w.data, cids, sku, price).0;
      forall c | c in data'
        ensures Coded(data'[c])
      {
        if data'[c] != w.data[c] {
          CodedRecalculated(fx.policies, w.data[c], sku, price, data'[c]);
        }
      }
    }
  }

  lemma CodedKept(fx: Fixed, w: World, i: Intent)
    requires Sound(fx, w) && AllCoded(w) && !AddsWord(fx, w, i)
    ensures AllCoded(Submit(fx, w, i).0)
  {
    if Forwarded(i) {
      if i.name == "add_subscription" {
        CodedAfterAdd(fx, w, i);
      } else if i.name == "cancel_subscription" {
        CodedAfterCancel(fx, w, i);
      } else if i.name == "recalculate_billing" {
        CodedRecalculate(fx, w, TextAt(i.payload, "product_sku"));
      }
    }
  }

  lemma CodedAfterAdd(fx: Fixed, w: World, i: Intent)
    requires Sound(fx, w) && AllCoded(w) && Forwarded(i) && i.name == "add_subscription" && !AddsWord(fx, w, i)
    ensures AllCoded(Execute(fx, w, i).0)
  {
    if CustomerGiven(i.customer) && i.customer.value in w.data {
      var cid := i.customer.value;
      match ApplyPatch(fx.policies, w.products, w.data[cid], Some(AddPatch(i.payload)), i.today)
      case Failed(_) =>
      case Written(out) =>
        if CombinationAccepted(fx, w, cid, TextAt(i.payload, "sku")) {
          CodedAdd(fx.policies, w.products, w.data[cid], AddPatch(i.payload).add.value, i.today, out);
        }
    }
  }

  lemma CodedAfterCancel(fx: Fixed, w: World, i: Intent)
    requires Sound(fx, w) && AllCoded(w) && i.name == "cancel_subscription"
    ensures AllCoded(Execute(fx, w, i).0)
  {
    var reason := ParseReason(TextAt(i.payload, "reason_code"));
    if CustomerGiven(i.customer) && i.customer.value in w.data && reason.Some? {
      CodedPatch(w.data[i.customer.value], CancelPatch(i.payload, reason.value).update.value);
    }
  }

  lemma {:induction false} RunsStayCoded(fx: Fixed, w: World, intents: seq<Intent>)
    requires Sound(fx, w) && AllCoded(w) && NeverAddsWord(fx, w, intents)
    ensures AllCoded(RunIntents(fx, w, intents))
    decreases |intents|
  {
    if intents != [] {
      RunsStayCoded(fx, w, intents[..|intents| - 1]);
      CodedKept(fx, RunIntents(fx, w, intents[..|intents| - 1]), intents[|intents| - 1]);
    }
  }

  /** The intent is an accepted add of a line that counts as active. */
  predicate AddsActive(fx: Fixed, w: World, i: Intent)
    requires Sound(fx, w)
  {
    i.name == "add_subscription" && Submit(fx, w, i).1 == 200 && Decode(AddPatch(i.payload).add.value.stat) == "active"
  }

  predicate ValidAt(fx: Fixed, w: World, cid: string) {
    cid in w.data && ValidCombination(fx.graph, DecodedSkus(w.data[cid]))
  }

  /**
   * Portfolio safety over what the rest of the system takes for active. From coded, conflict-free records every run
   * of intents that accepts no add of status "active" keeps every customer's decoded set free of exclusive pairs, and
   * an accepted active add leaves it fully valid.
   */
  lemma DecodedSafety(fx: Fixed, w: World, intents: seq<Intent>, next: Intent)
    requires Sound(fx, w) && AllCoded(w) && PortfoliosConflictFree(fx, w)
    requires NeverAddsWord(fx, w, intents + [next])
    ensures forall c :: c in RunIntents(fx, w, intents + [next]).data ==>
              ConflictFree(fx.graph, DecodedSkus(RunIntents(fx, w, intents + [next]).data[c]))
    ensures AddsActive(fx, RunIntents(fx, w, intents), next) ==>
              ValidAt(fx, RunIntents(fx, w, intents + [next]), next.customer.value)
  {
    assert (intents + [next])[..|intents|] == intents;
    var before, after := RunIntents(fx, w, intents), RunIntents(fx, w, intents + [next]);
    RunsStayCoded(fx, w, intents + [next]);
    PortfolioSafety(fx, w, intents + [next], next);
    forall c | c in after.data
      ensures DecodedSkus(after.data[c]) == ActiveSkus(after.data[c])
    {
      DecodedExact(after.data[c]);
    }
    if AddsActive(fx, before, next) {
      AcceptedAddIsValid(fx, before, next);
    }
  }

  // ---------------------------------------------------------------- the failing run

  function AddIntent(cid: string, sku: string, stat: string, auditId: string): Intent {
    Intent("agent", Allow, "add_subscription", Some(cid), map["sku" := PText(sku), "stat" := PText(stat)], auditId, "today")
  }

  lemma AddIntentReadable(cid: string, sku: string, stat: string, auditId: string)
    requires cid != ""
    ensures var i := AddIntent(cid, sku, stat, auditId);
            && Forwarded(i) && CustomerGiven(i.customer) && TextAt(i.payload, "sku") == sku
            && AddPatch(i.payload) == Patch(None, Some(NewSubscription(sku, stat, 1, None)))
  {
    var i := AddIntent(cid, sku, stat, auditId);
    var schema := Route(i.name).value;
    assert schema.required == ["sku"];
    assert schema.properties[0] == ("sku", TText) && schema.properties[1] == ("contract_term_months", TInt) && schema.properties[2] == ("stat", TText);
    assert "sku" in PropertyNames(schema) && "stat" in PropertyNames(schema);
    assert |"sku"| == 3 && |"stat"| == 4 && |"contract_term_months"| == 20;
  }

  /** Without policies billing accepts every add of a new, priced product. */
  lemma AddWritten(catalogue: Catalogue, lines: seq<SubLine>, sub: NewSubscription)
    requires !HasSku(lines, sub.sku) && sub.sku in catalogue && catalogue[sub.sku].listPrice.Some?
    ensures var reply := ApplyAdd([], catalogue, lines, sub, "today");
            && reply.Written? && |reply.lines| == |lines| + 1
            && (forall k :: 0 <= k < |lines| ==> reply.lines[k].sku == lines[k].sku && reply.lines[k].stat == lines[k].stat)
            && reply.lines[|lines|].sku == sub.sku && reply.lines[|lines|].stat == sub.stat
  {
    var grown := lines + [NewLine(sub, catalogue[sub.sku].listPrice.value, "today")];
    NoPoliciesNeverRaise(grown);
    RepriceFrame([], grown, Reprice([], grown).value);
  }

  /** An add that passes the combination check is what billing makes of it. */
  lemma AddForwarded(fx: Fixed, w: World, cid: string, sku: string, stat: string, auditId: string)
    requires Sound(fx, w) && cid != "" && CombinationAccepted(fx, w, cid, sku)
    ensures Submit(fx, w, AddIntent(cid, sku, stat, auditId)) ==
            PatchWorld(fx, w, cid, Patch(None, Some(NewSubscription(sku, stat, 1, None))), "today")
  {
    AddIntentReadable(cid, sku, stat, auditId);
  }

  /** Without policies so does the broker, if the product passes the combination check. */
  lemma AddAccepted(fx: Fixed, w: World, cid: string, sku: string, stat: string, auditId: string)
    requires fx.policies == [] && Sound(fx, w) && cid != "" && cid in w.data
    requires !HasSku(w.data[cid], sku) && sku in w.products && w.products[sku].listPrice.Some?
    requires ValidCombination(fx.graph, ActiveSkus(w.data[cid]) + {sku})
    ensures var out := ApplyAdd([], w.products, w.data[cid], NewSubscription(sku, stat, 1, None), "today");
            out.Written? && Submit(fx, w, AddIntent(cid, sku, stat, auditId)) == (w.(data := w.data[cid := out.lines]), 200)
  {
    AddForwarded(fx, w, cid, sku, stat, auditId);
    AddWritten(w.products, w.data[cid], NewSubscription(sku, stat, 1, None));
  }

  lemma NoPoliciesNeverRaise(lines: seq<SubLine>)
    ensures Reprice([], lines).Ok?
  {
    ActiveMembers(Context(lines));
    forall p | p in Active(Context(lines))
      ensures PriceJson(p).Num? && ("product_id" in p ==> Hashable(p["product_id"]))
    {
      var k :| 0 <= k < |lines| && Context(lines)[k] == p;
      assert p == EvalLine(lines[k]);
    }
  }

  /**
   * The run that breaks it. From an empty portfolio two adds are accepted: the first product with status "active", and
   * the second although it is incompatible with the first. Both count as active from then on.
   */
  lemma WordStatusBreaksSafety(cid: string, x: string, y: string, px: Product, py: Product) returns (fx: Fixed, w: World)
    requires cid != "" && x != y && px.listPrice.Some? && py.listPrice.Some?
    ensures Sound(fx, w) && w.data == map[cid := []] && fx.graph.Valid() && AllCoded(w)
    ensures var first, second := AddIntent(cid, x, "active", "1"), AddIntent(cid, y, "A", "2");
            var after := RunIntents(fx, w, [first, second]);
            && Submit(fx, w, first).1 == 200 && Submit(fx, RunIntents(fx, w, [first]), second).1 == 200
            && cid in after.data && DecodedSkus(after.data[cid]) == {x, y} && ActiveSkus(after.data[cid]) == {y}
            && !ConflictFree(fx.graph, DecodedSkus(after.data[cid]))
  {
    var g := Graph({x, y}, [Edge(y, x, IncompatibleWith)]);
    fx, w := Fixed(g, [cid], []), World(map[cid := []], map[x := px, y := py]);
    var first, second := AddIntent(cid, x, "active", "1"), AddIntent(cid, y, "A", "2");
    TwoAdds(fx, w, cid, x, y, first, second);
    assert Edge(y, x, IncompatibleWith) in g.edges;
  }

  lemma RunTwo(fx: Fixed, w: World, a: Intent, b: Intent)
    requires Sound(fx, w)
    ensures Sound(fx, Submit(fx, w, a).0)
    ensures RunIntents(fx, w, [a]) == Submit(fx, w, a).0
    ensures RunIntents(fx, w, [a, b]) == Submit(fx, Submit(fx, w, a).0, b).0
  {
    SoundKept(fx, w, a);
    assert [a][..0] == [] && [a, b][..1] == [a];
    assert RunIntents(fx, w, [a]) == Submit(fx, RunIntents(fx, w, []), a).0;
  }

  lemma OneLineSets(lines: seq<SubLine>, x: string)
    requires |lines| == 1 && lines[0].sku == x && lines[0].stat == "active"
    ensures ActiveSkus(lines) == {} && DecodedSkus(lines) == {x} && forall y :: y != x ==> !HasSku(lines, y)
  {
    assert lines == [lines[0]];
  }

  lemma TwoLineSets(lines: seq<SubLine>, x: string, y: string)
    requires |lines| == 2 && lines[0].sku == x && lines[0].stat == "active" && lines[1].sku == y && lines[1].stat == "A"
    ensures ActiveSkus(lines) == {y} && DecodedSkus(lines) == {x, y}
  {
    assert lines == [lines[0], lines[1]];
  }

  lemma SingleIsValid(g: Graph, x: string, y: string)
    requires x != y && g == Graph({x, y}, [Edge(y, x, IncompatibleWith)])
    ensures ValidCombination(g, {x}) && ValidCombination(g, {y})
  {
  }

  lemma TwoAdds(fx: Fixed, w: World, cid: string, x: string, y: string, first: Intent, second: Intent)
    requires fx.policies == [] && Sound(fx, w) && cid != "" && x != y && w.data == map[cid := []]
    requires fx.graph == Graph({x, y}, [Edge(y, x, IncompatibleWith)])
    requires x in w.products && y in w.products && w.products[x].listPrice.Some? && w.products[y].listPrice.Some?
    requires first == AddIntent(cid, x, "active", "1") && second == AddIntent(cid, y, "A", "2")
    ensures var after := RunIntents(fx, w, [first, second]);
            && Submit(fx, w, first).1 == 200 && Submit(fx, RunIntents(fx, w, [first]), second).1 == 200
            && cid in after.data && DecodedSkus(after.data[cid]) == {x, y} && ActiveSkus(after.data[cid]) == {y}
  {
    RunTwo(fx, w, first, second);
    SingleIsValid(fx.graph, x, y);
    var none: seq<SubLine> := [];
    assert ActiveSkus(none) + {x} == {x};
    AddAccepted(fx, w, cid, x, "active", "1");
    AddWritten(w.products, none, NewSubscription(x, "active", 1, None));
    var one := ApplyAdd([], w.products, none, NewSubscription(x, "active", 1, None), "today").lines;
    var w1 := w.(data := w.data[cid := one]);
    OneLineSets(one, x);
    assert ActiveSkus(one) + {y} == {y};
    AddAccepted(fx, w1, cid, y, "A", "2");
    AddWritten(w1.products, one, NewSubscription(y, "A", 1, None));
    TwoLineSets(ApplyAdd([], w1.products, one, NewSubscription(y, "A", 1, None), "today").lines, x, y);
  }
}
