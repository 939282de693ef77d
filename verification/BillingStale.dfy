/** Exactly when an update, which never reprices, leaves a record rule-consistent. */
module BillingStale {
  import opened Json
  import opened Seqs
  import opened Rules
  import opened RulesExact
  import opened RulesMonotone
  import opened RulesSymmetry
  import opened Billing
  import opened BillingTheorems

  /** The policies tell the line the same against both sets of active lines. */
  predicate SameApplicability(policies: seq<Policy>, before: seq<Dict>, after: seq<Dict>, p: Dict) {
    forall q :: q in policies ==> (AppliesTo(q, before, p) <==> AppliesTo(q, after, p))
  }

  lemma {:induction false} SameIds(policies: seq<Policy>, before: seq<Dict>, after: seq<Dict>, p: Dict)
    requires SameApplicability(policies, before, after, p)
    ensures ApplicableIds(policies, before, p) == ApplicableIds(policies, after, p)
  {
    if policies != [] {
      var front := policies[..|policies| - 1];
      assert policies == front + [policies[|policies| - 1]];
      SameIds(front, before, after, p);
    }
  }

  lemma IdsTellApplicability(policies: seq<Policy>, before: seq<Dict>, after: seq<Dict>, p: Dict)
    requires NoDuplicates(Ids(policies))
    requires ApplicableIds(policies, before, p) == ApplicableIds(policies, after, p)
    ensures SameApplicability(policies, before, after, p)
  {
    UniqueIds(policies);
    forall q | q in policies
      ensures AppliesTo(q, before, p) <==> AppliesTo(q, after, p)
    {
      ApplicableMembers(policies, before, p, q.id);
      ApplicableMembers(policies, after, p, q.id);
    }
  }

  lemma {:induction false} DiscountsTellIds(policies: seq<Policy>, ids: seq<string>)
    requires forall id :: id in ids ==> Lookup(policies, id).Some?
    ensures |DiscountsOf(policies, ids)| == |ids|
    ensures forall i :: 0 <= i < |ids| ==> DiscountsOf(policies, ids)[i].id == ids[i]
  {
    if ids != [] {
      DiscountsTellIds(policies, ids[..|ids| - 1]);
      LookupId(policies, ids[|ids| - 1]);
    }
  }

  lemma ApplicableKnown(policies: seq<Policy>, active: seq<Dict>, p: Dict)
    requires NoDuplicates(Ids(policies))
    ensures forall id :: id in ApplicableIds(policies, active, p) ==> Lookup(policies, id).Some?
  {
    forall id | id in ApplicableIds(policies, active, p)
      ensures Lookup(policies, id).Some?
    {
      ApplicableMembers(policies, active, p, id);
      var q :| q in policies && q.id == id;
      LookupUnique(policies, q);
    }
  }

  lemma OwnRow(policies: seq<Policy>, active: seq<Dict>, p: Dict)
    requires UniqueSkus(active) && p in active
    ensures ResultFor(policies, active, p) == Row(policies, p, ApplicableIds(policies, active, p))
  {
    RecordedExact(policies, active, p);
  }

  /** The same discounts are listed for a line exactly when the same policies apply to it. */
  lemma SameDiscounts(policies: seq<Policy>, before: seq<Dict>, after: seq<Dict>, p: Dict)
    requires NoDuplicates(Ids(policies))
    requires UniqueSkus(before) && UniqueSkus(after) && p in before && p in after
    ensures SameApplicability(policies, before, after, p) <==>
            DiscountsOf(policies, ResultFor(policies, before, p).applied) == DiscountsOf(policies, ResultFor(policies, after, p).applied)
    ensures SameApplicability(policies, before, after, p) ==> ResultFor(policies, before, p) == ResultFor(policies, after, p)
  {
    OwnRow(policies, before, p);
    OwnRow(policies, after, p);
    var a, b := ApplicableIds(policies, before, p), ApplicableIds(policies, after, p);
    ApplicableKnown(policies, before, p);
    ApplicableKnown(policies, after, p);
    DiscountsTellIds(policies, a);
    DiscountsTellIds(policies, b);
    if DiscountsOf(policies, a) == DiscountsOf(policies, b) {
      assert |a| == |b| && forall i :: 0 <= i < |a| ==> a[i] == DiscountsOf(policies, a)[i].id == b[i];
      assert a == b;
      IdsTellApplicability(policies, before, after, p);
    }
    if SameApplicability(policies, before, after, p) {
      SameIds(policies, before, after, p);
    }
  }

  lemma StillPriced(policies: seq<Policy>, lines: seq<SubLine>, out: seq<SubLine>, l: SubLine)
    requires NoDuplicates(Ids(policies)) && WellFormed(lines) && WellFormed(out)
    requires l in lines && l in out && l.stat == "A" && PricedLine(policies, lines, l)
    ensures PricedLine(policies, out, l) <==>
            SameApplicability(policies, Active(Context(lines)), Active(Context(out)), EvalLine(l))
  {
    ContextDistinct(lines);
    ContextDistinct(out);
    InContext(lines, l);
    InContext(out, l);
    SameDiscounts(policies, Active(Context(lines)), Active(Context(out)), EvalLine(l));
  }

  /** Taking one line out of the active ones. */
  lemma EvaluableWithout(policies: seq<Policy>, front: seq<Dict>, x: Dict, back: seq<Dict>)
    requires Evaluable(policies, front + [x] + back)
    ensures Evaluable(policies, front + back)
  {
    assert multiset(front + [x] + back) == multiset((front + back) + [x]);
    SameEvaluable(policies, front + [x] + back, (front + back) + [x]);
    EvaluableShrinks(policies, front + back, x);
  }

  lemma ActiveAround(front: seq<Dict>, x: Dict, back: seq<Dict>)
    ensures Active(front + ([x] + back)) == Active(front) + (if IsActive(x) then [x] else []) + Active(back)
  {
    ActiveConcat(front, [x] + back);
    ActiveConcat([x], back);
    SingleActive(x);
  }

  lemma DeactivatedActive(lines: seq<Dict>, i: nat, x: Dict)
    requires i < |lines| && !IsActive(x)
    ensures var front, back := Active(lines[..i]), Active(lines[i + 1..]);
            && Active(lines[i := x]) == front + back
            && Active(lines) == front + (if IsActive(lines[i]) then [lines[i]] else []) + back
  {
    SplitAt(lines, i);
    assert lines[i := x] == lines[..i] + ([x] + lines[i + 1..]);
    ActiveAround(lines[..i], lines[i], lines[i + 1..]);
    ActiveAround(lines[..i], x, lines[i + 1..]);
  }

  lemma SingleActive(x: Dict)
    ensures Active([x]) == if IsActive(x) then [x] else []
  {
  }

  lemma DeactivatedEvaluable(policies: seq<Policy>, lines: seq<Dict>, i: nat, x: Dict)
    requires i < |lines| && !IsActive(x) && Evaluable(policies, Active(lines))
    ensures Evaluable(policies, Active(lines[i := x]))
  {
    DeactivatedActive(lines, i, x);
    var front, back := Active(lines[..i]), Active(lines[i + 1..]);
    if IsActive(lines[i]) {
      EvaluableWithout(policies, front, lines[i], back);
    } else {
      assert front + [] + back == front + back;
    }
  }

  /** The record without the line of a SKU. */
  function Others(lines: seq<SubLine>, sku: string): seq<SubLine> {
    if lines == [] then []
    else (if lines[0].sku == sku then [] else [lines[0]]) + Others(lines[1..], sku)
  }

  lemma {:induction false} OthersOfAbsent(lines: seq<SubLine>, sku: string)
    requires forall l :: l in lines ==> l.sku != sku
    ensures Others(lines, sku) == lines
  {
    if lines != [] {
      OthersOfAbsent(lines[1..], sku);
    }
  }

  lemma {:induction false} OthersConcat(front: seq<SubLine>, back: seq<SubLine>, sku: string)
    ensures Others(front + back, sku) == Others(front, sku) + Others(back, sku)
  {
    if front == [] {
      assert front + back == back;
    } else {
      assert (front + back)[0] == front[0] && (front + back)[1..] == front[1..] + back;
      OthersConcat(front[1..], back, sku);
    }
  }

  lemma Elsewhere(lines: seq<SubLine>, i: nat)
    requires WellFormed(lines) && i < |lines|
    ensures forall l :: l in lines[..i] ==> l.sku != lines[i].sku
    ensures forall l :: l in lines[i + 1..] ==> l.sku != lines[i].sku
  {
  }

  lemma OthersSplit(front: seq<SubLine>, l: SubLine, back: seq<SubLine>)
    requires (forall x :: x in front ==> x.sku != l.sku) && (forall x :: x in back ==> x.sku != l.sku)
    ensures Others(front + ([l] + back), l.sku) == front + back
  {
    OthersConcat(front, [l] + back, l.sku);
    OthersConcat([l], back, l.sku);
    OthersOfAbsent(front, l.sku);
    OthersOfAbsent(back, l.sku);
    OthersOfOne(l);
    assert [] + back == back;
  }

  lemma OthersAround(lines: seq<SubLine>, i: nat)
    requires WellFormed(lines) && i < |lines|
    ensures Others(lines, lines[i].sku) == lines[..i] + lines[i + 1..]
  {
    Elsewhere(lines, i);
    OthersSplit(lines[..i], lines[i], lines[i + 1..]);
    SplitAt(lines, i);
  }

  lemma SplitAt<T>(xs: seq<T>, i: nat)
    requires i < |xs|
    ensures xs == xs[..i] + ([xs[i]] + xs[i + 1..])
  {
  }

  lemma OthersOfOne(l: SubLine)
    ensures Others([l], l.sku) == []
  {
    assert [l][1..] == [];
  }

  lemma ContextAround(lines: seq<SubLine>, i: nat)
    requires i < |lines|
    ensures Context(lines[..i] + lines[i + 1..]) == Context(lines)[..i] + Context(lines)[i + 1..]
  {
  }

  lemma RemainingActive(lines: seq<SubLine>, i: nat, x: Dict)
    requires WellFormed(lines) && i < |lines| && !IsActive(x)
    ensures Active(Context(lines)[i := x]) == Active(Context(Others(lines, lines[i].sku)))
  {
    var context := Context(lines);
    DeactivatedActive(context, i, x);
    ActiveConcat(context[..i], context[i + 1..]);
    OthersAround(lines, i);
    ContextAround(lines, i);
  }

  // ---------------------------------------------------------------- the exact condition

  /** The line carries what evaluating these active lines gives it. */
  predicate CarriesResult(policies: seq<Policy>, active: seq<Dict>, l: SubLine) {
    var r := ResultFor(policies, active, EvalLine(l));
    l.charge == Some(r.discounted) && l.totalPct == r.totalPct && l.applied == DiscountsOf(policies, r.applied)
  }

  lemma CarriesIsPriced(policies: seq<Policy>, lines: seq<SubLine>, l: SubLine)
    ensures PricedLine(policies, lines, l) <==> CarriesResult(policies, Active(Context(lines)), l)
  {
    DiscountsTotal(policies, ResultFor(policies, Active(Context(lines)), EvalLine(l)).applied);
  }

  /** With line `i` turned into `x` the rules can still be evaluated, every other active line keeps its policies, and
      `x`, if it is active, carries its own result. */
  predicate StaysPriced(policies: seq<Policy>, lines: seq<SubLine>, i: nat, x: SubLine)
    requires i < |lines|
  {
    var before, after := Active(Context(lines)), Active(Context(lines[i := x]));
    && Evaluable(policies, after)
    && (forall l :: l in lines && l.stat == "A" && l.sku != x.sku ==> SameApplicability(policies, before, after, EvalLine(l)))
    && (x.stat == "A" ==> CarriesResult(policies, after, x))
  }

  lemma ActiveAfter(lines: seq<SubLine>, i: nat, x: SubLine, l: SubLine)
    requires WellFormed(lines) && i < |lines| && x.sku == lines[i].sku
    ensures l in lines[i := x] && l.stat == "A" <==>
            (l in lines && l.stat == "A" && l.sku != x.sku) || (l == x && x.stat == "A")
  {
    if l in lines[i := x] && l != x {
      var k :| 0 <= k < |lines| && lines[i := x][k] == l;
      assert k != i && lines[k] == l;
    }
    if l in lines && l.sku != x.sku {
      var k :| 0 <= k < |lines| && lines[k] == l;
      assert lines[i := x][k] == l;
    }
    assert lines[i := x][i] == x;
  }

  /**
   * No update reprices anything. An accepted update, of whatever kind, leaves a rule-consistent record
   * rule-consistent exactly when the patched line stays priced among the other lines.
   */
  lemma UpdateKeepsPricedExactly(policies: seq<Policy>, lines: seq<SubLine>, upd: Update, i: nat, out: seq<SubLine>)
    requires NoDuplicates(Ids(policies)) && WellFormed(lines) && Priced(policies, lines)
    requires i < |lines| && lines[i].sku == upd.sku
    requires ApplyUpdate(lines, upd) == Written(out)
    ensures Priced(policies, out) <==> StaysPriced(policies, lines, i, PatchLine(lines[i], upd))
  {
    var x := PatchLine(lines[i], upd);
    UpdatedRecord(lines, upd, i);
    CarriesIsPriced(policies, out, x);
    forall l
      ensures l in out && l.stat == "A" <==> (l in lines && l.stat == "A" && l.sku != x.sku) || (l == x && x.stat == "A")
    {
      ActiveAfter(lines, i, x, l);
    }
    forall l | l in lines && l.stat == "A" && l.sku != x.sku
      ensures PricedLine(policies, out, l) <==>
              SameApplicability(policies, Active(Context(lines)), Active(Context(out)), EvalLine(l))
    {
      ActiveAfter(lines, i, x, l);
      StillPriced(policies, lines, out, l);
    }
  }

  /**
   * A suspension or cancellation keeps the record rule-consistent exactly when, for every line still active, each
   * policy applies to it without the deactivated line as it did with it.
   */
  lemma DeactivationExact(policies: seq<Policy>, lines: seq<SubLine>, upd: Update, i: nat, out: seq<SubLine>)
    requires NoDuplicates(Ids(policies)) && WellFormed(lines) && Priced(policies, lines)
    requires i < |lines| && lines[i].sku == upd.sku
    requires ApplyUpdate(lines, upd) == Written(out)
    requires upd.newStat.Some? && upd.newStat.value != "A"
    ensures Priced(policies, out) <==>
            forall l :: l in lines && l.stat == "A" && l.sku != upd.sku ==>
              SameApplicability(policies, Active(Context(lines)), Active(Context(Others(lines, upd.sku))), EvalLine(l))
  {
    var x := PatchLine(lines[i], upd);
    UpdateKeepsPricedExactly(policies, lines, upd, i, out);
    InactiveAfter(x);
    RemainingActive(lines, i, EvalLine(x));
    DeactivatedEvaluable(policies, Context(lines), i, EvalLine(x));
    PatchedContext(lines, i, x);
  }

  /**
   * A reactivation, with or without a new charge, keeps the record rule-consistent exactly when the rules can be
   * evaluated over the grown active lines, the line already carries what they give it there, and each policy applies
   * to every other active line as it did before.
   */
  lemma ReactivationExact(policies: seq<Policy>, lines: seq<SubLine>, upd: Update, i: nat, out: seq<SubLine>)
    requires NoDuplicates(Ids(policies)) && WellFormed(lines) && Priced(policies, lines)
    requires i < |lines| && lines[i].sku == upd.sku
    requires ApplyUpdate(lines, upd) == Written(out)
    requires upd.newStat == Some("A")
    ensures Priced(policies, out) <==>
            var x := PatchLine(lines[i], upd);
            var grown := Active(Context(lines[..i])) + [EvalLine(x)] + Active(Context(lines[i + 1..]));
            && Evaluable(policies, grown) && CarriesResult(policies, grown, x)
            && forall l :: l in lines && l.stat == "A" && l.sku != upd.sku ==>
                 SameApplicability(policies, Active(Context(lines)), grown, EvalLine(l))
  {
    var x := PatchLine(lines[i], upd);
    UpdateKeepsPricedExactly(policies, lines, upd, i, out);
    GrownActive(lines, i, x);
  }

  /** A manual charge alone keeps a rule-consistent record so exactly when the line is not active, or is
      charged that already. */
  lemma ManualChargeExact(policies: seq<Policy>, lines: seq<SubLine>, upd: Update, i: nat, out: seq<SubLine>)
    requires NoDuplicates(Ids(policies)) && WellFormed(lines) && Priced(policies, lines)
    requires i < |lines| && lines[i].sku == upd.sku
    requires ApplyUpdate(lines, upd) == Written(out)
    requires upd.newStat.None? && upd.newCharge.Some?
    ensures Priced(policies, out) <==> (lines[i].stat == "A" ==> lines[i].charge == upd.newCharge)
  {
    var x := PatchLine(lines[i], upd);
    UpdateKeepsPricedExactly(policies, lines, upd, i, out);
    assert lines[i] in lines;
    assert EvalLine(x) == EvalLine(lines[i]);
    PatchedContext(lines, i, x);
    assert Context(lines)[i := EvalLine(x)] == Context(lines);
    CarriesIsPriced(policies, lines, lines[i]);
  }

  lemma UpdatedRecord(lines: seq<SubLine>, upd: Update, i: nat)
    requires WellFormed(lines) && i < |lines| && lines[i].sku == upd.sku
    ensures PatchFirst(lines, upd) == lines[i := PatchLine(lines[i], upd)]
    ensures WellFormed(PatchFirst(lines, upd))
  {
    PatchFirstAt(lines, i, upd);
    PatchFirstKeeps(lines, upd);
  }

  lemma PatchedContext(lines: seq<SubLine>, i: nat, x: SubLine)
    requires i < |lines|
    ensures Context(lines[i := x]) == Context(lines)[i := EvalLine(x)]
  {
  }

  lemma GrownActive(lines: seq<SubLine>, i: nat, x: SubLine)
    requires i < |lines| && x.stat == "A"
    ensures Active(Context(lines[i := x])) == Active(Context(lines[..i])) + [EvalLine(x)] + Active(Context(lines[i + 1..]))
  {
    var front, back := Context(lines[..i]), Context(lines[i + 1..]);
    assert Context(lines[i := x]) == front + ([EvalLine(x)] + back);
    ActiveAround(front, EvalLine(x), back);
  }

  lemma InactiveAfter(l: SubLine)
    requires l.stat == "S" || l.stat == "C"
    ensures !IsActive(EvalLine(l))
  {
  }

  // ---------------------------------------------------------------- records that do go stale

  predicate PairPolicy(q: Policy) {
    q.rule == Portfolio(Count, "list_price_gbp", Gte, 2.0)
  }

  lemma PairContext(a: SubLine, b: SubLine)
    ensures Active(Context([a, b])) == (if IsActive(EvalLine(a)) then [EvalLine(a)] else [])
                                       + (if IsActive(EvalLine(b)) then [EvalLine(b)] else [])
  {
    assert Context([a, b]) == [EvalLine(a)] + [EvalLine(b)];
    ActiveConcat([EvalLine(a)], [EvalLine(b)]);
    SingleActive(EvalLine(a));
    SingleActive(EvalLine(b));
  }

  /** The count policy tells the first line apart when the second comes or goes. */
  lemma CountTellsApart(q: Policy, p: Dict, other: Dict)
    requires PairPolicy(q)
    ensures !SameApplicability([q], [p] + [other], [p], p)
    ensures !SameApplicability([q], [p], [p] + [other], p)
  {
    assert q in [q];
    assert AppliesTo(q, [p] + [other], p) && !AppliesTo(q, [p], p);
  }

  /**
   * Cancelling one of two active lines leaves the count discount on the other: a rule-consistent record before,
   * and no longer one after.
   */
  lemma CancellingLeavesPricesStale(a: SubLine, b: SubLine, q: Policy, upd: Update)
    requires a.sku != b.sku && a.stat == b.stat == "A" && a.listPrice.Some? && b.listPrice.Some?
    requires PairPolicy(q) && Priced([q], [a, b])
    requires upd.sku == b.sku && upd.newStat == Some("C") && upd.reasonCode.Some?
    ensures ApplyUpdate([a, b], upd).Written?
    ensures !Priced([q], ApplyUpdate([a, b], upd).lines)
  {
    StaleAfter(a, b, q, upd);
  }

  /**
   * Reactivating the second of two lines brings the count policy to both, and neither is repriced: a rule-consistent
   * record before, and no longer one after.
   */
  lemma ReactivatingLeavesPricesStale(a: SubLine, b: SubLine, q: Policy, upd: Update)
    requires a.sku != b.sku && a.stat == "A" && (b.stat == "S" || b.stat == "C") && a.listPrice.Some? && b.listPrice.Some?
    requires PairPolicy(q) && Priced([q], [a, b])
    requires upd.sku == b.sku && upd.newStat == Some("A") && upd.reasonCode.Some?
    ensures ApplyUpdate([a, b], upd).Written?
    ensures !Priced([q], ApplyUpdate([a, b], upd).lines)
  {
    StaleAfter(a, b, q, upd);
  }

  lemma StaleAfter(a: SubLine, b: SubLine, q: Policy, upd: Update)
    requires a.sku != b.sku && a.stat == "A" && a.listPrice.Some? && b.listPrice.Some?
    requires PairPolicy(q) && Priced([q], [a, b]) && upd.sku == b.sku && upd.reasonCode.Some?
    requires (b.stat == "A" && upd.newStat == Some("C")) || ((b.stat == "S" || b.stat == "C") && upd.newStat == Some("A"))
    ensures ApplyUpdate([a, b], upd).Written?
    ensures !Priced([q], ApplyUpdate([a, b], upd).lines)
  {
    var lines, x := [a, b], PatchLine(b, upd);
    UpdateOfSecond(a, b, upd);
    assert NoDuplicates(Ids([q]));
    UpdateKeepsPricedExactly([q], lines, upd, 1, ApplyUpdate(lines, upd).lines);
    assert lines[1 := x] == [a, x];
    TellsPairsApart(a, b, x, q);
    assert a in lines;
  }

  lemma UpdateOfSecond(a: SubLine, b: SubLine, upd: Update)
    requires a.sku != b.sku && a.listPrice.Some? && b.listPrice.Some?
    requires upd.sku == b.sku && upd.reasonCode.Some? && (upd.newStat == Some("C") || upd.newStat == Some("A"))
    ensures WellFormed([a, b]) && ApplyUpdate([a, b], upd).Written?
  {
    assert b in [a, b];
  }

  lemma TellsPairsApart(a: SubLine, b: SubLine, x: SubLine, q: Policy)
    requires PairPolicy(q) && a.stat == "A" && b.stat in {"A", "S", "C"} && x.stat in {"A", "S", "C"}
    requires (b.stat == "A") != (x.stat == "A")
    ensures !SameApplicability([q], Active(Context([a, b])), Active(Context([a, x])), EvalLine(a))
  {
    PairContext(a, b);
    PairContext(a, x);
    InactiveIsNot(b, x);
    CountTellsApart(q, EvalLine(a), EvalLine(b));
    CountTellsApart(q, EvalLine(a), EvalLine(x));
    assert [EvalLine(a)] + [] == [EvalLine(a)];
  }

  lemma InactiveIsNot(b: SubLine, x: SubLine)
    requires b.stat in {"A", "S", "C"} && x.stat in {"A", "S", "C"}
    ensures IsActive(EvalLine(b)) <==> b.stat == "A"
    ensures IsActive(EvalLine(x)) <==> x.stat == "A"
  {
  }
}
