/** What the rule operators compare, and when they raise. */
module RuleOperators {
  import opened Json
  import opened Numerals
  import opened Seqs
  import opened Rules
  import opened RulesExact

  /** The first text comes before the second: it is a proper beginning of it, or has the smaller character where they
      first differ. */
  predicate Precedes(a: string, b: string, k: nat) {
    && k <= |a| && k <= |b| && a[..k] == b[..k]
    && ((k == |a| && k < |b|) || (k < |a| && k < |b| && a[k] < b[k]))
  }

  lemma {:induction false} TextOrder(a: string, b: string)
    ensures TextLess(a, b) <==> exists k: nat :: Precedes(a, b, k)
  {
    if a != [] && b != [] && a[0] == b[0] {
      TextOrder(a[1..], b[1..]);
      forall k: nat
        ensures Precedes(a, b, k + 1) <==> Precedes(a[1..], b[1..], k)
      {
        PrecedesTail(a, b, k);
      }
      if exists k: nat :: Precedes(a, b, k) {
        var k: nat :| Precedes(a, b, k);
        assert k > 0;
        assert Precedes(a[1..], b[1..], k - 1) by {
          PrecedesTail(a, b, k - 1);
        }
      }
      if exists k: nat :: Precedes(a[1..], b[1..], k) {
        var k: nat :| Precedes(a[1..], b[1..], k);
        assert Precedes(a, b, k + 1);
      }
    } else {
      if TextLess(a, b) {
        assert Precedes(a, b, 0);
      }
      forall k: nat | Precedes(a, b, k)
        ensures k == 0
      {
      }
    }
  }

  lemma PrecedesTail(a: string, b: string, k: nat)
    requires a != [] && b != [] && a[0] == b[0]
    ensures Precedes(a, b, k + 1) <==> Precedes(a[1..], b[1..], k)
  {
    if k < |a| && k < |b| {
      assert a[..k + 1] == [a[0]] + a[1..][..k];
      assert b[..k + 1] == [b[0]] + b[1..][..k];
      if a[..k + 1] == b[..k + 1] {
        assert a[1..][..k] == a[..k + 1][1..] && b[1..][..k] == b[..k + 1][1..];
      }
    }
  }

  /** Numbers and texts are each in exactly one of three relations, and the five operators are what they say of it. */
  lemma OperatorsOfNumbers(a: real, b: real)
    ensures Compare(a, Lt, b) <==> a < b
    ensures Compare(a, Gt, b) <==> b < a
    ensures Compare(a, Lte, b) <==> !Compare(b, Lt, a)
    ensures Compare(a, Gte, b) <==> !Compare(a, Lt, b)
    ensures Compare(a, Eq, b) <==> !Compare(a, Lt, b) && !Compare(b, Lt, a)
  {
  }

  lemma {:induction false} TextsCompare(a: string, b: string)
    ensures TextLess(a, b) || TextLess(b, a) || a == b
    ensures !(TextLess(a, b) && TextLess(b, a)) && !TextLess(a, a)
  {
    if a != [] && b != [] && a[0] == b[0] {
      TextsCompare(a[1..], b[1..]);
      assert a == [a[0]] + a[1..] && b == [b[0]] + b[1..];
    }
    if a != [] {
      TextIrreflexive(a);
    }
  }

  lemma {:induction false} TextIrreflexive(a: string)
    ensures !TextLess(a, a)
  {
    if a != [] {
      TextIrreflexive(a[1..]);
    }
  }

  /** The same five operators on texts, in their alphabetical order. */
  lemma OperatorsOfTexts(a: string, b: string)
    ensures CompareText(a, Lt, b) <==> exists k: nat :: Precedes(a, b, k)
    ensures CompareText(a, Gt, b) <==> exists k: nat :: Precedes(b, a, k)
    ensures CompareText(a, Lte, b) <==> CompareText(a, Lt, b) || a == b
    ensures CompareText(a, Gte, b) <==> CompareText(a, Gt, b) || a == b
    ensures CompareText(a, Eq, b) <==> a == b
  {
    TextOrder(a, b);
    TextOrder(b, a);
    TextsCompare(a, b);
  }

  /** An operator raises exactly when it orders values that are not two numbers or two texts; equality never does. */
  lemma OperatorRaisesExactly(a: Json, op: Operator, b: Json)
    ensures ApplyOperator(a, op, b) == Raised <==> op != Eq && !(a.Num? && b.Num?) && !(a.Str? && b.Str?)
    ensures ApplyOperator(a, Eq, b) == Ok(a == b)
    ensures a.Num? && b.Num? ==> ApplyOperator(a, op, b) == Ok(Compare(a.n, op, b.n))
    ensures a.Str? && b.Str? ==> ApplyOperator(a, op, b) == Ok(CompareText(a.s, op, b.s))
  {
  }

  // ---------------------------------------------------------------- what a summary reports beside the prices

  /** The loaded policies are reported in order, and the fired ones once each and in that order. */
  lemma SummaryReports(policies: seq<Policy>, lines: seq<Dict>, s: Summary)
    requires NoDuplicates(Ids(policies)) && Evaluate(policies, lines) == Ok(s)
    ensures |s.loaded| == |policies| && forall i :: 0 <= i < |policies| ==> s.loaded[i] == policies[i].id
    ensures NoDuplicates(s.applied)
    ensures forall i, j :: 0 <= i < j < |policies| && Fires(policies[i], Active(lines)) && Fires(policies[j], Active(lines)) ==>
              Ordered(s.applied, policies[i].id, policies[j].id)
  {
    var active := Active(lines);
    FiredOnce(policies, active);
    forall i, j | 0 <= i < j < |policies| && Fires(policies[i], active) && Fires(policies[j], active)
      ensures Ordered(s.applied, policies[i].id, policies[j].id)
    {
      FiredInOrder(policies, active, i, j);
    }
  }

  lemma {:induction false} FiredOnce(policies: seq<Policy>, active: seq<Dict>)
    requires NoDuplicates(Ids(policies))
    ensures NoDuplicates(FiredIds(policies, active))
  {
    if policies != [] {
      var front, last := policies[..|policies| - 1], policies[|policies| - 1];
      assert forall i :: 0 <= i < |front| ==> Ids(policies)[i] == Ids(front)[i];
      FiredOnce(front, active);
      FiredMembers(front, active, last.id);
      assert Ids(policies)[|front|] == last.id;
      forall q | q in front
        ensures q.id != last.id
      {
        var i :| 0 <= i < |front| && front[i] == q;
        assert Ids(policies)[i] == q.id;
      }
    }
  }

  lemma {:induction false} FiredInOrder(policies: seq<Policy>, active: seq<Dict>, i: nat, j: nat)
    requires i < j < |policies| && Fires(policies[i], active) && Fires(policies[j], active)
    ensures Ordered(FiredIds(policies, active), policies[i].id, policies[j].id)
  {
    var front, last := policies[..|policies| - 1], policies[|policies| - 1];
    var ids := FiredIds(front, active);
    if j < |front| {
      FiredInOrder(front, active, i, j);
      OrderedGrows(ids, if Fires(last, active) then [last.id] else [], policies[i].id, policies[j].id);
    } else {
      assert front[i] in front;
      FiredMembers(front, active, front[i].id);
      OrderedLast(ids, policies[i].id, policies[j].id);
    }
  }

  /** What a line is priced at: its list price, or without one its charge, or nothing. */
  lemma PriceRead(p: Dict)
    ensures "list_price_gbp" in p ==> PriceJson(p) == p["list_price_gbp"]
    ensures "list_price_gbp" !in p && "monthly_charge_gbp" in p ==> PriceJson(p) == p["monthly_charge_gbp"]
    ensures "list_price_gbp" !in p && "monthly_charge_gbp" !in p ==> PriceJson(p) == Num(0.0)
  {
  }

  /** Of several policies with one id the last counts for its percentage. */
  lemma {:induction false} LastPolicyCounts(policies: seq<Policy>, i: nat)
    requires i < |policies| && forall j :: i < j < |policies| ==> policies[j].id != policies[i].id
    ensures Lookup(policies, policies[i].id) == Some(policies[i]) && PctOf(policies, policies[i].id) == policies[i].pct
  {
    if i < |policies| - 1 {
      LastPolicyCounts(policies[..|policies| - 1], i);
    }
  }

  lemma {:induction false} UnknownPolicy(policies: seq<Policy>, id: string)
    requires forall q :: q in policies ==> q.id != id
    ensures Lookup(policies, id) == None && PctOf(policies, id) == 0.0
  {
    if policies != [] {
      UnknownPolicy(policies[..|policies| - 1], id);
    }
  }

  /** What a rule reads off a field: an absent one as zero, a number as it is, text as the number it spells; anything else
      makes it raise. */
  lemma FieldRead(p: Dict, field: string)
    ensures field !in p ==> FieldOk(p, field) && Field(p, field) == 0.0
    ensures field in p && p[field].Num? ==> FieldOk(p, field) && Field(p, field) == p[field].n
    ensures field in p && p[field].Str? ==>
              (FieldOk(p, field) <==> Numeral(p[field].s).Some?) && (FieldOk(p, field) ==> Numeral(p[field].s) == Some(Field(p, field)))
    ensures field in p && (p[field].Null? || p[field].Time? || p[field].Arr? || p[field].Obj?) ==> !FieldOk(p, field)
  {
  }

  /** A line without an SKU is reported under the empty one, and without a discount unless some line has that SKU. */
  lemma KeylessLine(policies: seq<Policy>, lines: seq<Dict>, s: Summary, i: nat)
    requires Evaluate(policies, lines) == Ok(s) && i < |Active(lines)| && "product_id" !in Active(lines)[i]
    ensures i < |s.products| && s.products[i].sku == Str("")
    ensures (forall p: Dict :: p in Active(lines) && "product_id" in p ==> p["product_id"] != Str("")) ==>
              s.products[i].applied == [] && s.products[i].totalPct == 0.0
              && s.products[i].discounted == DiscountedPrice(Price(Active(lines)[i]), 0.0)
  {
  }
}
