/** What an added product does to the charges a customer already pays. */
module BillingGrowth {
  import opened Json
  import opened Seqs
  import opened Rules
  import opened RulesMonotone
  import opened Products
  import opened Billing
  import opened BillingTheorems

  predicate NonNegativePrice(price: Option<real>) {
    price.Some? && price.value >= 0.0
  }

  function DiscountFor(q: Policy): Discount {
    Discount(q.id, q.pct, q.reason)
  }

  lemma {:induction false} DiscountSource(policies: seq<Policy>, ids: seq<string>, d: Discount) returns (id: string)
    requires d in DiscountsOf(policies, ids)
    ensures id in ids && Lookup(policies, id).Some? && d == DiscountFor(Lookup(policies, id).value)
  {
    var front, last := ids[..|ids| - 1], ids[|ids| - 1];
    if d in DiscountsOf(policies, front) {
      id := DiscountSource(policies, front, d);
    } else {
      id := last;
    }
  }

  lemma {:induction false} DiscountListed(policies: seq<Policy>, ids: seq<string>, id: string)
    requires id in ids && Lookup(policies, id).Some?
    ensures DiscountFor(Lookup(policies, id).value) in DiscountsOf(policies, ids)
  {
    var front, last := ids[..|ids| - 1], ids[|ids| - 1];
    assert ids == front + [last];
    if id != last {
      DiscountListed(policies, front, id);
    }
  }

  lemma GrownContext(lines: seq<SubLine>, l: SubLine)
    ensures Context(lines + [l]) == Context(lines) + [EvalLine(l)]
  {
  }

  lemma GrownPrices(lines: seq<SubLine>)
    requires forall x :: x in lines ==> NonNegativePrice(x.listPrice)
    ensures NonNegativePrices(Active(Context(lines)))
  {
    ActiveMembers(Context(lines));
    forall p | p in Active(Context(lines))
      ensures Price(p) >= 0.0
    {
      var k :| 0 <= k < |lines| && Context(lines)[k] == p;
      assert p == EvalLine(lines[k]) && lines[k] in lines;
    }
  }

  lemma GrownAddable(policies: seq<Policy>, lines: seq<SubLine>, l: SubLine)
    requires WellFormed(lines + [l]) && l.stat == "A"
    requires forall x :: x in lines + [l] ==> NonNegativePrice(x.listPrice)
    requires SoundPolicies(policies) && forall q :: q in policies ==> Upward(q) && AddsTo(q, EvalLine(l))
    requires Evaluate(policies, Context(lines + [l])).Ok?
    ensures Addable(policies, Context(lines), EvalLine(l))
  {
    GrownContext(lines, l);
    AddedActive(Context(lines), EvalLine(l));
    ContextDistinct(lines + [l]);
    GrownPrices(lines + [l]);
  }

  /** The row of one active line, before and after. */
  lemma RowNotHurt(policies: seq<Policy>, lines: seq<Dict>, line: Dict, p: Dict)
    requires Addable(policies, lines, line) && p in Active(lines)
    ensures var before, after := ResultFor(policies, Active(lines), p), ResultFor(policies, Active(lines) + [line], p);
            && after.discounted <= before.discounted
            && forall id :: id in before.applied ==> id in after.applied
  {
    AddedActive(lines, line);
    EvaluableShrinks(policies, Active(lines), line);
    var j :| 0 <= j < |Active(lines)| && Active(lines)[j] == p;
    LineNotHurt(policies, lines, line, j);
  }

  lemma LineKept(policies: seq<Policy>, lines: seq<SubLine>, out: seq<SubLine>, before: SubLine, after: SubLine, line: Dict)
    requires before in lines && after in out && before.stat == after.stat == "A" && EvalLine(after) == EvalLine(before)
    requires Priced(policies, lines) && Priced(policies, out)
    requires Active(Context(out)) == Active(Context(lines)) + [line] && Addable(policies, Context(lines), line)
    ensures NoDearer(before, after)
  {
    var p, active := EvalLine(before), Active(Context(lines));
    PricedRow(policies, lines, before);
    PricedRow(policies, out, after);
    InContext(lines, before);
    RowNotHurt(policies, Context(lines), line, p);
    DiscountsKept(policies, ResultFor(policies, active, p).applied, ResultFor(policies, active + [line], p).applied);
  }

  lemma PricedRow(policies: seq<Policy>, lines: seq<SubLine>, l: SubLine)
    requires Priced(policies, lines) && l in lines && l.stat == "A"
    ensures var r := ResultFor(policies, Active(Context(lines)), EvalLine(l));
            l.charge == Some(r.discounted) && l.applied == DiscountsOf(policies, r.applied)
  {
  }

  lemma DiscountsKept(policies: seq<Policy>, before: seq<string>, after: seq<string>)
    requires forall id :: id in before ==> id in after
    ensures forall d :: d in DiscountsOf(policies, before) ==> d in DiscountsOf(policies, after)
  {
    forall d | d in DiscountsOf(policies, before)
      ensures d in DiscountsOf(policies, after)
    {
      var id := DiscountSource(policies, before, d);
      DiscountListed(policies, after, id);
    }
  }

  /** The line keeps each of its discounts and is charged no more. */
  predicate NoDearer(before: SubLine, after: SubLine) {
    && before.charge.Some? && after.charge.Some? && after.charge.value <= before.charge.value
    && forall d :: d in before.applied ==> d in after.applied
  }

  /** The record after an add is the old one with the new line, repriced. */
  lemma GrownRecord(policies: seq<Policy>, catalogue: Catalogue, lines: seq<SubLine>, sub: NewSubscription,
                    today: string, out: seq<SubLine>)
    requires WellFormed(lines)
    requires ApplyAdd(policies, catalogue, lines, sub, today) == Written(out)
    ensures var grown := lines + [NewLine(sub, catalogue[sub.sku].listPrice.value, today)];
            && WellFormed(grown) && Evaluate(policies, Context(grown)).Ok?
            && Context(out) == Context(grown) && Priced(policies, out)
  {
    AddExact(policies, catalogue, lines, sub, today, out);
    var grown := lines + [NewLine(sub, catalogue[sub.sku].listPrice.value, today)];
    assert WellFormed(grown) by {
      assert forall i :: 0 <= i < |lines| ==> lines[i] in lines;
    }
    RepriceFixpoint(policies, grown, out);
  }

  /**
   * An accepted active add never makes an existing product dearer: under upward policies of at most 100 per cent
   * together every line that was active keeps each of its discounts and is charged no more than before.
   */
  lemma AddNeverRaisesACharge(policies: seq<Policy>, catalogue: Catalogue, lines: seq<SubLine>, sub: NewSubscription,
                              today: string, out: seq<SubLine>)
    requires WellFormed(lines) && Priced(policies, lines)
    requires forall l :: l in lines ==> NonNegativePrice(l.listPrice)
    requires ApplyAdd(policies, catalogue, lines, sub, today) == Written(out)
    requires sub.stat == "A" && NonNegativePrice(catalogue[sub.sku].listPrice)
    requires SoundPolicies(policies)
    requires var l := NewLine(sub, catalogue[sub.sku].listPrice.value, today);
             forall q :: q in policies ==> Upward(q) && AddsTo(q, EvalLine(l))
    ensures |out| == |lines| + 1
    ensures forall i :: 0 <= i < |lines| && lines[i].stat == "A" ==> NoDearer(lines[i], out[i])
  {
    AddExact(policies, catalogue, lines, sub, today, out);
    GrownRecord(policies, catalogue, lines, sub, today, out);
    GrownNotDearer(policies, lines, NewLine(sub, catalogue[sub.sku].listPrice.value, today), out);
  }

  lemma GrownNotDearer(policies: seq<Policy>, lines: seq<SubLine>, l: SubLine, out: seq<SubLine>)
    requires WellFormed(lines + [l]) && Priced(policies, lines) && Priced(policies, out) && l.stat == "A"
    requires forall x :: x in lines + [l] ==> NonNegativePrice(x.listPrice)
    requires SoundPolicies(policies) && forall q :: q in policies ==> Upward(q) && AddsTo(q, EvalLine(l))
    requires Context(out) == Context(lines + [l]) && Evaluate(policies, Context(out)).Ok?
    requires |out| == |lines| + 1 && forall i :: 0 <= i < |lines| ==> out[i].stat == lines[i].stat
    ensures forall i :: 0 <= i < |lines| && lines[i].stat == "A" ==> NoDearer(lines[i], out[i])
  {
    GrownAddable(policies, lines, l);
    GrownContext(lines, l);
    AddedActive(Context(lines), EvalLine(l));
    forall i | 0 <= i < |lines| && lines[i].stat == "A"
      ensures NoDearer(lines[i], out[i])
    {
      assert Context(out)[i] == Context(lines + [l])[i];
      LineKept(policies, lines, out, lines[i], out[i], EvalLine(l));
    }
  }

  // ---------------------------------------------------------------- the policies as shipped

  const LONG_CONTRACT: Policy :=
    Policy("contract_duration_2yr", 10.0, "24-month contract discount", PerProduct("contract_term_months", Gte, 24.0))

  const HIGH_VALUE: Policy :=
    Policy("high_value_contract", 10.0, "High-value contract discount (>£100/month)", Portfolio(Sum, "list_price_gbp", Gt, 100.0))

  const SHIPPED: seq<Policy> := [LONG_CONTRACT, HIGH_VALUE]

  /** The shipped policies never make a billing evaluation raise, so an add or a recalculation never ends in a 500. */
  lemma ShippedPoliciesNeverRaise(lines: seq<SubLine>)
    ensures Evaluate(SHIPPED, Context(lines)).Ok?
    ensures Reprice(SHIPPED, lines).Ok?
  {
    var active := Active(Context(lines));
    ActiveMembers(Context(lines));
    forall p | p in active
      ensures PriceJson(p).Num? && ("product_id" in p ==> Hashable(p["product_id"]))
      ensures FieldOk(p, "contract_term_months") && FieldOk(p, "list_price_gbp")
    {
      var k :| 0 <= k < |lines| && Context(lines)[k] == p;
      assert p == EvalLine(lines[k]);
    }
    forall q | q in SHIPPED
      ensures PolicyOk(q, active)
    {
      assert q == LONG_CONTRACT || q == HIGH_VALUE;
    }
  }

  /** And they are upward and sound, so what holds of such policies holds of them whatever product is added. */
  lemma ShippedPoliciesQualify(l: SubLine)
    requires NonNegativePrice(l.listPrice)
    ensures SoundPolicies(SHIPPED)
    ensures forall q :: q in SHIPPED ==> Upward(q) && AddsTo(q, EvalLine(l))
  {
    assert |"contract_duration_2yr"| != |"high_value_contract"|;
    assert Ids(SHIPPED) == ["contract_duration_2yr", "high_value_contract"];
    SumByAppend([LONG_CONTRACT], HIGH_VALUE, PlainPct());
    SumByAppend([], LONG_CONTRACT, PlainPct());
    assert SHIPPED == [] + [LONG_CONTRACT] + [HIGH_VALUE];
    assert [] + [LONG_CONTRACT] == [LONG_CONTRACT];
  }
}
