/** What billing evaluates, charges and answers, in terms of lines, policies and the catalogue. */
module BillingContents {
  import opened Json
  import opened Seqs
  import opened Rules
  import opened RulesExact
  import opened Products
  import opened Billing
  import opened BillingTheorems

  /** The evaluated line: the SKU, the status in words, the list price or else the charge or else nothing, and the term
      or else one month. */
  lemma ContextShows(lines: seq<SubLine>, i: nat)
    requires i < |lines|
    ensures |Context(lines)| == |lines|
    ensures var l, p := lines[i], Context(lines)[i];
            && p.Keys == {"product_id", "status", "list_price_gbp", "contract_term_months"}
            && p["product_id"] == Str(l.sku)
            && (l.stat == "A" ==> p["status"] == Str("active")) && (l.stat == "S" ==> p["status"] == Str("suspended"))
            && (l.stat == "C" ==> p["status"] == Str("cancelled"))
            && (l.stat !in {"A", "S", "C"} ==> p["status"] == Str(l.stat))
            && (l.listPrice.Some? ==> p["list_price_gbp"] == Num(l.listPrice.value))
            && (l.listPrice == None && l.charge.Some? ==> p["list_price_gbp"] == Num(l.charge.value))
            && (l.listPrice == None && l.charge == None ==> p["list_price_gbp"] == Num(0.0))
            && (l.term.Some? ==> p["contract_term_months"] == Num(l.term.value as real))
            && (l.term == None ==> p["contract_term_months"] == Num(1.0))
  {
  }

  // ---------------------------------------------------------------- the discounts of a line

  /** The discounts of loaded policies are theirs, one for one and in order. */
  lemma {:induction false} DiscountsListed(policies: seq<Policy>, ids: seq<string>)
    requires NoDuplicates(Ids(policies)) && forall id :: id in ids ==> exists q :: q in policies && q.id == id
    ensures |DiscountsOf(policies, ids)| == |ids|
    ensures forall k, q :: 0 <= k < |ids| && q in policies && q.id == ids[k] ==>
              DiscountsOf(policies, ids)[k] == Discount(q.id, q.pct, q.reason)
  {
    if ids != [] {
      var front, last := ids[..|ids| - 1], ids[|ids| - 1];
      assert last in ids && forall id :: id in front ==> id in ids;
      DiscountsListed(policies, front);
      var q :| q in policies && q.id == last;
      LookupUnique(policies, q);
      UniqueIds(policies);
    }
  }

  lemma ApplicableAreLoaded(policies: seq<Policy>, active: seq<Dict>, p: Dict)
    ensures forall id :: id in ApplicableIds(policies, active, p) ==> exists q :: q in policies && q.id == id
  {
    forall id | id in ApplicableIds(policies, active, p)
      ensures exists q :: q in policies && q.id == id
    {
      ApplicableMembers(policies, active, p, id);
    }
  }

  /** Applicable policies are listed in load order. */
  lemma {:induction false} LoadOrder(policies: seq<Policy>, active: seq<Dict>, p: Dict, i: nat, j: nat)
    requires i < j < |policies| && AppliesTo(policies[i], active, p) && AppliesTo(policies[j], active, p)
    ensures Ordered(ApplicableIds(policies, active, p), policies[i].id, policies[j].id)
  {
    var front, last := policies[..|policies| - 1], policies[|policies| - 1];
    var ids := ApplicableIds(front, active, p);
    if j < |front| {
      LoadOrder(front, active, p, i, j);
      OrderedGrows(ids, if AppliesTo(last, active, p) then [last.id] else [], policies[i].id, policies[j].id);
    } else {
      assert front[i] in front;
      ApplicableMembers(front, active, p, front[i].id);
      OrderedLast(ids, policies[i].id, policies[j].id);
    }
  }

  /**
   * An active line of a rule-consistent record with distinct SKUs, under distinct policy ids: its discounts are those
   * of the policies that apply to it, once each, its percentage is their sum and its charge the list price less that,
   * rounded to pennies.
   */
  lemma PricedLineShows(policies: seq<Policy>, lines: seq<SubLine>, l: SubLine)
    requires WellFormed(lines) && Priced(policies, lines) && l in lines && l.stat == "A" && NoDuplicates(Ids(policies))
    ensures forall d :: d in l.applied <==>
              exists q :: q in policies && d == Discount(q.id, q.pct, q.reason) && AppliesTo(q, Active(Context(lines)), EvalLine(l))
    ensures forall i, j :: 0 <= i < j < |l.applied| ==> l.applied[i].id != l.applied[j].id
    ensures l.totalPct == SumBy(policies, ApplicablePct(Active(Context(lines)), EvalLine(l)))
    ensures l.charge == Some(DiscountedPrice(l.listPrice.value, l.totalPct))
  {
    var active, p := Active(Context(lines)), EvalLine(l);
    InContext(lines, l);
    ContextDistinct(lines);
    RecordedExact(policies, active, p);
    ApplicableDistinct(policies, active, p);
    ApplicableTotal(policies, policies, active, p);
    ApplicableAreLoaded(policies, active, p);
    var ids := ApplicableIds(policies, active, p);
    DiscountsListed(policies, ids);
    assert l.applied == DiscountsOf(policies, ids);
    DiscountsApply(policies, active, p, ids, l.applied);
  }

  lemma DiscountsApply(policies: seq<Policy>, active: seq<Dict>, p: Dict, ids: seq<string>, applied: seq<Discount>)
    requires NoDuplicates(Ids(policies)) && ids == ApplicableIds(policies, active, p) && NoDuplicates(ids)
    requires |applied| == |ids| && forall k, q :: 0 <= k < |ids| && q in policies && q.id == ids[k] ==>
               applied[k] == Discount(q.id, q.pct, q.reason)
    ensures forall d :: d in applied <==>
              exists q :: q in policies && d == Discount(q.id, q.pct, q.reason) && AppliesTo(q, active, p)
    ensures forall i, j :: 0 <= i < j < |applied| ==> applied[i].id != applied[j].id
  {
    UniqueIds(policies);
    forall k | 0 <= k < |ids|
      ensures exists q :: q in policies && applied[k] == Discount(q.id, q.pct, q.reason) && AppliesTo(q, active, p)
      ensures applied[k].id == ids[k]
    {
      ApplicableMembers(policies, active, p, ids[k]);
      var q :| q in policies && q.id == ids[k] && AppliesTo(q, active, p);
      assert applied[k] == Discount(q.id, q.pct, q.reason);
    }
    forall q | q in policies && AppliesTo(q, active, p)
      ensures Discount(q.id, q.pct, q.reason) in applied
    {
      ApplicableMembers(policies, active, p, q.id);
      var k :| 0 <= k < |ids| && ids[k] == q.id;
      assert applied[k] == Discount(q.id, q.pct, q.reason);
    }
  }

  // ---------------------------------------------------------------- answers

  /** When an add is refused, and with which status. */
  lemma AddAnswers(policies: seq<Policy>, catalogue: Catalogue, lines: seq<SubLine>, sub: NewSubscription, today: string)
    ensures var r := ApplyAdd(policies, catalogue, lines, sub, today);
            var held, sold := exists l :: l in lines && l.sku == sub.sku, sub.sku in catalogue;
            && (r == Failed(409) <==> held)
            && (r == Failed(404) <==> !held && !sold)
            && (r == Failed(422) <==> !held && sold && catalogue[sub.sku].listPrice == None)
            && (r == Failed(500) <==>
                (!held && sold && catalogue[sub.sku].listPrice.Some?
                 && Evaluate(policies, Context(lines + [NewLine(sub, catalogue[sub.sku].listPrice.value, today)])) == Raised))
            && (r.Failed? ==> r.status in {409, 404, 422, 500})
  {
  }

  /** When an update is refused, and with which status. */
  lemma UpdateAnswers(lines: seq<SubLine>, upd: Update)
    ensures var r := ApplyUpdate(lines, upd);
            && (r == Failed(422) <==> upd.newStat.Some? && (upd.newStat.value !in {"A", "S", "C"} || upd.reasonCode == None))
            && (r == Failed(404) <==> r != Failed(422) && forall l :: l in lines ==> l.sku != upd.sku)
            && (r.Failed? ==> r.status in {404, 422})
  {
  }

  /** An update goes before an add, and without either the record is captured as it is. */
  lemma PatchBranches(policies: seq<Policy>, catalogue: Catalogue, lines: seq<SubLine>, patch: Option<Patch>, today: string)
    ensures patch.Some? && patch.value.update.Some? ==>
              ApplyPatch(policies, catalogue, lines, patch, today) == ApplyUpdate(lines, patch.value.update.value)
    ensures patch.Some? && patch.value.update == None && patch.value.add.Some? ==>
              ApplyPatch(policies, catalogue, lines, patch, today) == ApplyAdd(policies, catalogue, lines, patch.value.add.value, today)
    ensures patch == None || patch.value == Patch(None, None) ==> ApplyPatch(policies, catalogue, lines, patch, today) == Written(lines)
  {
  }

  /** When a recalculation is refused or raises: nothing is written for an unknown or unpriced product. */
  lemma RecalculationAnswers(policies: seq<Policy>, catalogue: Catalogue, data: map<string, seq<SubLine>>, order: seq<string>, sku: string)
    requires forall c :: c in order ==> c in data
    ensures var (data', status) := Recalculate(policies, catalogue, data, order, sku);
            && (status == 404 <==> sku !in catalogue) && (status == 422 <==> sku in catalogue && catalogue[sku].listPrice == None)
            && (status in {404, 422} ==> data' == data) && status in {200, 404, 422, 500}
  {
  }

  /** The affected customers are taken in the order in which they are listed. */
  lemma {:induction false} AffectedInOrder(data: map<string, seq<SubLine>>, order: seq<string>, sku: string, i: nat, j: nat)
    requires (forall c :: c in order ==> c in data) && i < j < |order|
    requires exists l :: l in data[order[i]] && l.sku == sku && l.stat != "C"
    requires exists l :: l in data[order[j]] && l.sku == sku && l.stat != "C"
    ensures Ordered(Affected(data, order, sku), order[i], order[j])
  {
    var rest := Affected(data, order[1..], sku);
    if i > 0 {
      AffectedInOrder(data, order[1..], sku, i - 1, j - 1);
      OrderedAfter(if Holds(data[order[0]], sku) then [order[0]] else [], rest, order[i], order[j]);
    } else {
      AffectedKnown(data, order[1..], sku);
      assert order[1..][j - 1] == order[j] && order[j] in order[1..] && Holds(data[order[j]], sku);
      var b :| 0 <= b < |rest| && rest[b] == order[j];
      assert ([order[0]] + rest)[0] == order[i] && ([order[0]] + rest)[b + 1] == order[j];
    }
  }

  lemma OrderedAfter<T>(xs: seq<T>, ys: seq<T>, x: T, y: T)
    requires Ordered(ys, x, y)
    ensures Ordered(xs + ys, x, y)
  {
    var a, b :| 0 <= a < b < |ys| && ys[a] == x && ys[b] == y;
    assert (xs + ys)[|xs| + a] == x && (xs + ys)[|xs| + b] == y;
  }

  /** The loop has stopped at the `k`-th customer. */
  predicate StoppedAt(policies: seq<Policy>, before: map<string, seq<SubLine>>, after: map<string, seq<SubLine>>,
                      cids: seq<string>, k: nat, sku: string, price: real)
    requires forall c :: c in cids ==> c in before
  {
    && k < |cids| && Recalculated(policies, before[cids[k]], sku, price) == Raised
    && after.Keys == before.Keys
    && (forall j :: 0 <= j < k ==> Recalculated(policies, before[cids[j]], sku, price) == Ok(after[cids[j]]))
    && (forall c :: c in before && c !in cids[..k] ==> after[c] == before[c])
  }

  lemma StoppedLater(policies: seq<Policy>, before: map<string, seq<SubLine>>, after: map<string, seq<SubLine>>,
                     cids: seq<string>, n: nat, sku: string, price: real, lines: seq<SubLine>)
    requires cids != [] && NoDuplicates(cids) && forall c :: c in cids ==> c in before
    requires Recalculated(policies, before[cids[0]], sku, price) == Ok(lines)
    requires StoppedAt(policies, before[cids[0] := lines], after, cids[1..], n, sku, price)
    ensures StoppedAt(policies, before, after, cids, n + 1, sku, price)
  {
    HeadAndTail(cids, n);
    forall j | 0 <= j < n + 1
      ensures Recalculated(policies, before[cids[j]], sku, price) == Ok(after[cids[j]])
    {
      if j > 0 {
        assert cids[j] == cids[1..][j - 1];
      }
    }
  }

  lemma HeadAndTail(cids: seq<string>, n: nat)
    requires n + 1 < |cids| && NoDuplicates(cids)
    ensures cids[n + 1] == cids[1..][n] && cids[0] !in cids[1..] && cids[0] !in cids[1..][..n]
    ensures forall c :: c in cids[..n + 1] <==> c == cids[0] || c in cids[1..][..n]
  {
    assert cids[..n + 1] == [cids[0]] + cids[1..][..n];
  }

  /** A recalculation that raises does so at one customer: those before it have been rewritten, it and all others are as
      they were. */
  lemma {:induction false} RecalculationStops(policies: seq<Policy>, data: map<string, seq<SubLine>>, cids: seq<string>,
                                              sku: string, price: real) returns (k: nat)
    requires NoDuplicates(cids) && (forall c :: c in cids ==> c in data)
    requires !RecalculateEach(policies, data, cids, sku, price).1
    ensures StoppedAt(policies, data, RecalculateEach(policies, data, cids, sku, price).0, cids, k, sku, price)
    decreases |cids|
  {
    match Recalculated(policies, data[cids[0]], sku, price)
    case Raised => k := 0;
    case Ok(lines) =>
      var n := RecalculationStops(policies, data[cids[0] := lines], cids[1..], sku, price);
      StoppedLater(policies, data, RecalculateEach(policies, data, cids, sku, price).0, cids, n, sku, price, lines);
      k := n + 1;
  }
}
