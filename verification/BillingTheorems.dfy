/** What billing keeps over whole runs, and what repricing establishes. */
module BillingTheorems {
  import opened Json
  import opened Seqs
  import opened Rules
  import opened RulesExact
  import opened Products
  import opened Billing

  predicate WellFormed(lines: seq<SubLine>) {
    && (forall i, j :: 0 <= i < j < |lines| ==> lines[i].sku != lines[j].sku)
    && (forall l :: l in lines ==> l.listPrice.Some?)
  }

  function DiscountPct(): Discount -> real {
    (d: Discount) => d.pct
  }

  /** The line carries the charge, percentage and discounts that evaluating its own record gives it,
      and the listed discounts add up to the percentage. */
  predicate PricedLine(policies: seq<Policy>, lines: seq<SubLine>, l: SubLine) {
    var r := ResultFor(policies, Active(Context(lines)), EvalLine(l));
    && l.charge == Some(r.discounted)
    && l.totalPct == r.totalPct
    && l.applied == DiscountsOf(policies, r.applied)
    && SumBy(l.applied, DiscountPct()) == l.totalPct
  }

  /** Rule-consistency of a record. */
  predicate Priced(policies: seq<Policy>, lines: seq<SubLine>) {
    && Evaluable(policies, Active(Context(lines)))
    && forall l :: l in lines && l.stat == "A" ==> PricedLine(policies, lines, l)
  }

  // ---------------------------------------------------------------- finding a line's own result

  lemma {:induction false} ActiveMembers(xs: seq<Dict>)
    ensures forall p :: p in Active(xs) <==> p in xs && IsActive(p)
  {
    if xs != [] {
      ActiveMembers(xs[1..]);
      assert xs == [xs[0]] + xs[1..];
    }
  }

  lemma InContext(lines: seq<SubLine>, l: SubLine)
    requires l in lines && l.stat == "A"
    ensures EvalLine(l) in Active(Context(lines))
  {
    var k :| 0 <= k < |lines| && lines[k] == l;
    assert Context(lines)[k] == EvalLine(l);
    ActiveMembers(Context(lines));
  }

  lemma {:induction false} ActiveDistinct(xs: seq<Dict>)
    requires UniqueSkus(xs)
    ensures UniqueSkus(Active(xs))
  {
    if xs != [] {
      ActiveDistinct(xs[1..]);
      ActiveMembers(xs);
      ActiveMembers(xs[1..]);
      forall p | p in xs[1..]
        ensures Key(p) != Key(xs[0])
      {
        var i :| 0 <= i < |xs[1..]| && xs[1..][i] == p;
        assert xs[i + 1] == p;
      }
    }
  }

  lemma ContextDistinct(lines: seq<SubLine>)
    requires WellFormed(lines)
    ensures UniqueSkus(Active(Context(lines)))
  {
    assert UniqueSkus(Context(lines)) by {
      forall i, j | 0 <= i < j < |lines|
        ensures Key(Context(lines)[i]) != Key(Context(lines)[j])
      {
        assert Context(lines)[i] == EvalLine(lines[i]) && Context(lines)[j] == EvalLine(lines[j]);
      }
    }
    ActiveDistinct(Context(lines));
  }

  lemma {:induction false} FindResultAt(results: seq<ProductResult>, i: nat, sku: string)
    requires i < |results| && results[i].sku == Str(sku)
    requires forall j :: i < j < |results| ==> results[j].sku != Str(sku)
    ensures FindResult(results, sku) == Some(results[i])
  {
    if i < |results| - 1 {
      FindResultAt(results[..|results| - 1], i, sku);
    }
  }

  lemma OwnResult(policies: seq<Policy>, lines: seq<SubLine>, l: SubLine)
    requires WellFormed(lines) && l in lines && l.stat == "A"
    ensures FindResult(Results(policies, Active(Context(lines))), l.sku) ==
            Some(ResultFor(policies, Active(Context(lines)), EvalLine(l)))
  {
    InContext(lines, l);
    ContextDistinct(lines);
    ResultFound(policies, Active(Context(lines)), EvalLine(l), l.sku);
  }

  lemma ResultFound(policies: seq<Policy>, active: seq<Dict>, p: Dict, sku: string)
    requires UniqueSkus(active) && p in active && Key(p) == Str(sku)
    ensures FindResult(Results(policies, active), sku) == Some(ResultFor(policies, active, p))
  {
    var i :| 0 <= i < |active| && active[i] == p;
    forall j | i < j < |active|
      ensures Results(policies, active)[j].sku != Str(sku)
    {
      assert Key(active[j]) != Key(active[i]);
    }
    FindResultAt(Results(policies, active), i, sku);
  }

  lemma {:induction false} DiscountsTotal(policies: seq<Policy>, ids: seq<string>)
    ensures SumBy(DiscountsOf(policies, ids), DiscountPct()) == TotalPct(policies, ids)
  {
    if ids != [] {
      var front, last := ids[..|ids| - 1], ids[|ids| - 1];
      DiscountsTotal(policies, front);
      assert ids == front + [last];
      SumByAppend(front, last, PctReader(policies));
      LookupId(policies, last);
      if Lookup(policies, last).Some? {
        var q := Lookup(policies, last).value;
        SumByAppend(DiscountsOf(policies, front), Discount(q.id, q.pct, q.reason), DiscountPct());
      }
    }
  }

  lemma {:induction false} LookupId(policies: seq<Policy>, id: string)
    ensures Lookup(policies, id).Some? ==> Lookup(policies, id).value.id == id
  {
    if policies != [] {
      LookupId(policies[..|policies| - 1], id);
    }
  }

  // ---------------------------------------------------------------- the repricing fixpoint

  lemma RepricedContext(policies: seq<Policy>, results: seq<ProductResult>, lines: seq<SubLine>)
    requires forall l :: l in lines ==> l.listPrice.Some?
    ensures Context(RepriceAll(policies, results, lines)) == Context(lines)
  {
  }

  /**
   * Repricing fixpoint: the record that comes out is rule-consistent, keeps its SKUs, statuses and
   * list prices, and repricing it again changes nothing, since evaluation reads list prices only.
   */
  lemma RepriceFixpoint(policies: seq<Policy>, lines: seq<SubLine>, out: seq<SubLine>)
    requires WellFormed(lines) && Reprice(policies, lines) == Ok(out)
    ensures WellFormed(out) && Context(out) == Context(lines)
    ensures Priced(policies, out)
    ensures Reprice(policies, out) == Ok(out)
  {
    var results := Results(policies, Active(Context(lines)));
    assert out == RepriceAll(policies, results, lines);
    assert forall i :: 0 <= i < |lines| ==> lines[i] in lines && out[i] == RepriceLine(policies, results, lines[i]);
    RepricedContext(policies, results, lines);
    forall i | 0 <= i < |lines|
      ensures out[i].stat == "A" ==> PricedLine(policies, out, out[i])
      ensures RepriceLine(policies, results, out[i]) == out[i]
    {
      RepricedLine(policies, lines, lines[i]);
    }
    assert RepriceAll(policies, results, out) == out;
  }

  lemma RepricedLine(policies: seq<Policy>, lines: seq<SubLine>, l: SubLine)
    requires WellFormed(lines) && l in lines
    ensures var results := Results(policies, Active(Context(lines)));
            var l' := RepriceLine(policies, results, l);
            && RepriceLine(policies, results, l') == l'
            && (l'.stat == "A" ==> PricedLine(policies, lines, l'))
  {
    if l.stat == "A" {
      OwnResult(policies, lines, l);
      var r := ResultFor(policies, Active(Context(lines)), EvalLine(l));
      DiscountsTotal(policies, r.applied);
      assert EvalLine(l.(charge := Some(r.discounted), totalPct := r.totalPct, applied := DiscountsOf(policies, r.applied)))
          == EvalLine(l);
    }
  }

  /** Repricing touches nothing but charge, percentage and discounts, and those on active lines only. */
  lemma RepriceFrame(policies: seq<Policy>, lines: seq<SubLine>, out: seq<SubLine>)
    requires Reprice(policies, lines) == Ok(out)
    ensures |out| == |lines|
    ensures forall i :: 0 <= i < |lines| ==>
              && out[i] == lines[i].(charge := out[i].charge, totalPct := out[i].totalPct, applied := out[i].applied)
              && (lines[i].stat != "A" ==> out[i] == lines[i])
  {
  }

  // ---------------------------------------------------------------- recalculation

  lemma {:induction false} RecalculateEachEffect(policies: seq<Policy>, data: map<string, seq<SubLine>>,
                                                 cids: seq<string>, sku: string, price: real)
    requires NoDuplicates(cids) && forall c :: c in cids ==> c in data
    ensures var (data', done) := RecalculateEach(policies, data, cids, sku, price);
            && data'.Keys == data.Keys
            && (forall c :: c in data && c !in cids ==> data'[c] == data[c])
            && (forall c :: c in cids ==> data'[c] == data[c] || Recalculated(policies, data[c], sku, price) == Ok(data'[c]))
            && (done ==> forall c :: c in cids ==> Recalculated(policies, data[c], sku, price) == Ok(data'[c]))
    decreases |cids|
  {
    if cids != [] {
      assert cids == [cids[0]] + cids[1..];
      match Recalculated(policies, data[cids[0]], sku, price)
      case Raised =>
      case Ok(lines) =>
        assert forall c :: c in cids[1..] ==> c != cids[0];
        RecalculateEachEffect(policies, data[cids[0] := lines], cids[1..], sku, price);
    }
  }

  lemma SetPriceKeeps(lines: seq<SubLine>, sku: string, price: real)
    requires WellFormed(lines)
    ensures WellFormed(SetPrice(lines, sku, price))
  {
  }

  /** What a recalculation does to one line of a customer it touches. */
  predicate LineRecalculated(before: SubLine, after: SubLine, sku: string, price: real) {
    && after.sku == before.sku && after.stat == before.stat && after.effFrom == before.effFrom
    && after.term == before.term && after.reasonCode == before.reasonCode && after.reasonDetail == before.reasonDetail
    && after.listPrice == (if before.sku == sku && before.stat != "C" then Some(price) else before.listPrice)
    && (before.stat != "A" ==>
          after.charge == before.charge && after.totalPct == before.totalPct && after.applied == before.applied)
    && (before.stat == "C" ==> after == before)
  }

  lemma RecalculatedFrame(policies: seq<Policy>, lines: seq<SubLine>, sku: string, price: real, out: seq<SubLine>)
    requires WellFormed(lines) && Recalculated(policies, lines, sku, price) == Ok(out)
    ensures |out| == |lines| && forall i :: 0 <= i < |lines| ==> LineRecalculated(lines[i], out[i], sku, price)
    ensures WellFormed(out) && Priced(policies, out)
    ensures Recalculated(policies, out, sku, price) == Ok(out)
  {
    var priced := SetPrice(lines, sku, price);
    SetPriceKeeps(lines, sku, price);
    RepriceFixpoint(policies, priced, out);
    RepriceFrame(policies, priced, out);
    assert forall i :: 0 <= i < |lines| ==> priced[i] == SetPriceLine(lines[i], sku, price);
    assert SetPrice(out, sku, price) == out;
  }

  predicate AllWellFormed(data: map<string, seq<SubLine>>) {
    forall c :: c in data ==> WellFormed(data[c])
  }

  /** A completed recalculation, customer by customer. */
  lemma RecalculatedCustomers(policies: seq<Policy>, data: map<string, seq<SubLine>>, cids: seq<string>, sku: string, price: real)
    requires NoDuplicates(cids) && (forall c :: c in cids ==> c in data) && AllWellFormed(data)
    requires RecalculateEach(policies, data, cids, sku, price).1
    ensures var data' := RecalculateEach(policies, data, cids, sku, price).0;
            && data'.Keys == data.Keys && AllWellFormed(data')
            && (forall c :: c in data && c !in cids ==> data'[c] == data[c])
            && (forall c :: c in cids ==>
                  && Priced(policies, data'[c]) && |data'[c]| == |data[c]|
                  && (forall i :: 0 <= i < |data[c]| ==> LineRecalculated(data[c][i], data'[c][i], sku, price))
                  && Recalculated(policies, data'[c], sku, price) == Ok(data'[c]))
  {
    var data' := RecalculateEach(policies, data, cids, sku, price).0;
    RecalculateEachEffect(policies, data, cids, sku, price);
    forall c | c in cids
      ensures WellFormed(data'[c]) && Priced(policies, data'[c]) && |data'[c]| == |data[c]|
      ensures forall i :: 0 <= i < |data[c]| ==> LineRecalculated(data[c][i], data'[c][i], sku, price)
      ensures Recalculated(policies, data'[c], sku, price) == Ok(data'[c])
    {
      RecalculatedFrame(policies, data[c], sku, price, data'[c]);
    }
  }

  /**
   * A completed recalculation changes exactly the customers with a non-cancelled line of the SKU. Each of
   * them comes out rule-consistent, with the SKU's lines at the catalogue price, suspended charges kept and
   * cancelled lines untouched.
   */
  lemma RecalculationExact(policies: seq<Policy>, catalogue: Catalogue, data: map<string, seq<SubLine>>,
                           order: seq<string>, sku: string)
    requires NoDuplicates(order) && data.Keys == (set c | c in order) && AllWellFormed(data)
    requires Recalculate(policies, catalogue, data, order, sku).1 == 200
    ensures var data' := Recalculate(policies, catalogue, data, order, sku).0;
            && data'.Keys == data.Keys && AllWellFormed(data')
            && (forall c :: c in data && (forall l :: l in data[c] && l.sku == sku ==> l.stat == "C") ==> data'[c] == data[c])
            && (forall c :: c in data && (exists l :: l in data[c] && l.sku == sku && l.stat != "C") ==>
                  && Priced(policies, data'[c]) && |data'[c]| == |data[c]|
                  && forall i :: 0 <= i < |data[c]| ==>
                       LineRecalculated(data[c][i], data'[c][i], sku, catalogue[sku].listPrice.value))
  {
    AffectedKnown(data, order, sku);
    RecalculatedCustomers(policies, data, Affected(data, order, sku), sku, catalogue[sku].listPrice.value);
    assert forall c :: c in data && (exists l :: l in data[c] && l.sku == sku && l.stat != "C") ==> Holds(data[c], sku);
  }

  /** Recalculating again at the same catalogue price changes nothing at all. */
  lemma RecalculationIdempotent(policies: seq<Policy>, catalogue: Catalogue, data: map<string, seq<SubLine>>,
                                order: seq<string>, sku: string)
    requires NoDuplicates(order) && data.Keys == (set c | c in order) && AllWellFormed(data)
    requires Recalculate(policies, catalogue, data, order, sku).1 == 200
    ensures var data' := Recalculate(policies, catalogue, data, order, sku).0;
            data'.Keys == data.Keys && Recalculate(policies, catalogue, data', order, sku) == (data', 200)
  {
    var price := catalogue[sku].listPrice.value;
    var cids := Affected(data, order, sku);
    AffectedKnown(data, order, sku);
    RecalculatedCustomers(policies, data, cids, sku, price);
    var data' := RecalculateEach(policies, data, cids, sku, price).0;
    AffectedKnown(data', order, sku);
    forall c | c in Affected(data', order, sku)
      ensures c in cids
    {
    }
    RecalculateNothing(policies, data', Affected(data', order, sku), sku, price);
  }

  lemma {:induction false} RecalculateNothing(policies: seq<Policy>, data: map<string, seq<SubLine>>,
                                              cids: seq<string>, sku: string, price: real)
    requires forall c :: c in cids ==> c in data && Recalculated(policies, data[c], sku, price) == Ok(data[c])
    ensures RecalculateEach(policies, data, cids, sku, price) == (data, true)
    decreases |cids|
  {
    if cids != [] {
      assert data[cids[0] := data[cids[0]]] == data;
      RecalculateNothing(policies, data, cids[1..], sku, price);
    }
  }

  // ---------------------------------------------------------------- patches

  lemma {:induction false} PatchFirstLines(lines: seq<SubLine>, upd: Update)
    requires forall i, j :: 0 <= i < j < |lines| ==> lines[i].sku != lines[j].sku
    ensures |PatchFirst(lines, upd)| == |lines|
    ensures forall i :: 0 <= i < |lines| ==>
              PatchFirst(lines, upd)[i] == if lines[i].sku == upd.sku then PatchLine(lines[i], upd) else lines[i]
  {
    if lines != [] {
      if lines[0].sku != upd.sku {
        PatchFirstLines(lines[1..], upd);
      }
    }
  }

  lemma PatchFirstKeeps(lines: seq<SubLine>, upd: Update)
    requires WellFormed(lines)
    ensures WellFormed(PatchFirst(lines, upd))
  {
    PatchFirstLines(lines, upd);
    var out := PatchFirst(lines, upd);
    forall i | 0 <= i < |lines|
      ensures out[i].sku == lines[i].sku && out[i].listPrice.Some?
    {
      assert lines[i] in lines;
    }
  }

  /** An accepted add leaves a well-formed, rule-consistent record with exactly one more line, at catalogue price and,
      unless it is active, without a discount. */
  lemma AddExact(policies: seq<Policy>, catalogue: Catalogue, lines: seq<SubLine>, sub: NewSubscription,
                 today: string, out: seq<SubLine>)
    requires WellFormed(lines)
    requires ApplyAdd(policies, catalogue, lines, sub, today) == Written(out)
    ensures WellFormed(out) && Priced(policies, out)
    ensures |out| == |lines| + 1 && !HasSku(lines, sub.sku)
    ensures forall i :: 0 <= i < |lines| ==>
              && out[i] == lines[i].(charge := out[i].charge, totalPct := out[i].totalPct, applied := out[i].applied)
              && (lines[i].stat != "A" ==> out[i] == lines[i])
    ensures out[|lines|].sku == sub.sku && out[|lines|].stat == sub.stat && out[|lines|].term == Some(sub.term)
    ensures out[|lines|].effFrom == if sub.effFrom.Some? && sub.effFrom.value != "" then sub.effFrom.value else today
    ensures sub.sku in catalogue && out[|lines|].listPrice == catalogue[sub.sku].listPrice
    ensures out[|lines|].reasonCode == None && out[|lines|].reasonDetail == None
    ensures sub.stat != "A" ==>
              out[|lines|].charge == catalogue[sub.sku].listPrice && out[|lines|].totalPct == 0.0 && out[|lines|].applied == []
  {
    var grown := lines + [NewLine(sub, catalogue[sub.sku].listPrice.value, today)];
    assert WellFormed(grown) by {
      assert forall i :: 0 <= i < |lines| ==> lines[i] in lines;
    }
    RepriceFixpoint(policies, grown, out);
    RepriceFrame(policies, grown, out);
  }

  /** What an update does to the line it names. */
  predicate LineUpdated(before: SubLine, after: SubLine, upd: Update) {
    && after.sku == before.sku && after.effFrom == before.effFrom && after.listPrice == before.listPrice
    && after.totalPct == before.totalPct && after.applied == before.applied && after.term == before.term
    && after.charge == (if upd.newCharge.Some? then upd.newCharge else before.charge)
    && (if upd.newStat.Some? then
          after.stat == upd.newStat.value && after.reasonCode == upd.reasonCode && after.reasonDetail == upd.reasonDetail
        else
          after.stat == before.stat && after.reasonCode == before.reasonCode && after.reasonDetail == before.reasonDetail)
  }

  /** An update is accepted exactly for a held SKU and, if it names a status, for one of the three and with a reason;
      it then changes the named fields of that line, prices nothing and leaves every other line as it was. */
  lemma UpdateExact(lines: seq<SubLine>, upd: Update)
    requires WellFormed(lines)
    ensures ApplyUpdate(lines, upd).Written? <==>
            HasSku(lines, upd.sku) && (upd.newStat.Some? ==> upd.newStat.value in {"A", "S", "C"} && upd.reasonCode.Some?)
    ensures ApplyUpdate(lines, upd).Written? ==>
              var out := ApplyUpdate(lines, upd).lines;
              && WellFormed(out) && |out| == |lines|
              && forall i :: 0 <= i < |lines| ==>
                   if lines[i].sku == upd.sku then LineUpdated(lines[i], out[i], upd) else out[i] == lines[i]
  {
    PatchFirstLines(lines, upd);
    PatchFirstKeeps(lines, upd);
  }

  lemma PatchKeepsWellFormed(policies: seq<Policy>, catalogue: Catalogue, lines: seq<SubLine>,
                             patch: Option<Patch>, today: string)
    requires WellFormed(lines)
    ensures ApplyPatch(policies, catalogue, lines, patch, today).Written? ==>
              WellFormed(ApplyPatch(policies, catalogue, lines, patch, today).lines)
  {
    if patch.Some? && patch.value.update.Some? {
      PatchFirstKeeps(lines, patch.value.update.value);
    } else if patch.Some? && patch.value.add.Some? {
      match ApplyAdd(policies, catalogue, lines, patch.value.add.value, today)
      case Failed(_) =>
      case Written(out) => AddExact(policies, catalogue, lines, patch.value.add.value, today, out);
    }
  }

  // ---------------------------------------------------------------- whole runs

  /** One request, with the catalogue as it stands when the request is served. */
  datatype Request =
    | PatchCustomer(cid: string, patch: Option<Patch>, catalogue: Catalogue, today: string)
    | RecalculateSku(sku: string, catalogue: Catalogue)

  function Serve(policies: seq<Policy>, data: map<string, seq<SubLine>>, order: seq<string>, r: Request):
    map<string, seq<SubLine>>
    requires data.Keys == set c | c in order
  {
    match r
    case PatchCustomer(cid, patch, catalogue, today) =>
      if cid !in data then data
      else
        var reply := ApplyPatch(policies, catalogue, data[cid], patch, today);
        if reply.Written? then data[cid := reply.lines] else data
    case RecalculateSku(sku, catalogue) => Recalculate(policies, catalogue, data, order, sku).0
  }

  lemma ServeKeeps(policies: seq<Policy>, data: map<string, seq<SubLine>>, order: seq<string>, r: Request)
    requires NoDuplicates(order) && data.Keys == (set c | c in order) && AllWellFormed(data)
    ensures Serve(policies, data, order, r).Keys == data.Keys
    ensures AllWellFormed(Serve(policies, data, order, r))
  {
    match r
    case PatchCustomer(cid, patch, catalogue, today) =>
      if cid in data {
        PatchKeepsWellFormed(policies, catalogue, data[cid], patch, today);
      }
    case RecalculateSku(sku, catalogue) =>
      if sku in catalogue && catalogue[sku].listPrice.Some? {
        var cids, price := Affected(data, order, sku), catalogue[sku].listPrice.value;
        AffectedKnown(data, order, sku);
        RecalculateEachEffect(policies, data, cids, sku, price);
        var data' := Serve(policies, data, order, r);
        forall c | c in data
          ensures WellFormed(data'[c])
        {
          if c in cids && data'[c] != data[c] {
            RecalculatedFrame(policies, data[c], sku, price, data'[c]);
          }
        }
      }
  }

  function ServeAll(policies: seq<Policy>, data: map<string, seq<SubLine>>, order: seq<string>, rs: seq<Request>):
    (data': map<string, seq<SubLine>>)
    requires NoDuplicates(order) && data.Keys == (set c | c in order) && AllWellFormed(data)
    ensures data'.Keys == data.Keys && AllWellFormed(data')
  {
    if rs == [] then data
    else
      var before := ServeAll(policies, data, order, rs[..|rs| - 1]);
      ServeKeeps(policies, before, order, rs[|rs| - 1]);
      Serve(policies, before, order, rs[|rs| - 1])
  }

  /**
   * Over every run of requests the records keep distinct SKUs and a list price on every line (the contract
   * of `ServeAll`), and whoever the last request repriced, by an accepted add or a completed recalculation,
   * is rule-consistent right after it.
   */
  lemma RepricedAfterEveryRun(policies: seq<Policy>, data: map<string, seq<SubLine>>, order: seq<string>,
                              rs: seq<Request>, r: Request, cid: string)
    requires NoDuplicates(order) && data.Keys == (set c | c in order) && AllWellFormed(data) && cid in data
    ensures var before, after := ServeAll(policies, data, order, rs), ServeAll(policies, data, order, rs + [r]);
            && (r.PatchCustomer? && r.cid == cid && r.patch.Some? && r.patch.value.update.None? && r.patch.value.add.Some?
                && ApplyPatch(policies, r.catalogue, before[cid], r.patch, r.today).Written?
                ==> Priced(policies, after[cid]))
            && (r.RecalculateSku? && Holds(before[cid], r.sku)
                && Recalculate(policies, r.catalogue, before, order, r.sku).1 == 200
                ==> Priced(policies, after[cid]))
  {
    assert (rs + [r])[..|rs|] == rs;
    RepricedByRequest(policies, ServeAll(policies, data, order, rs), order, r, cid);
  }

  lemma RepricedByRequest(policies: seq<Policy>, before: map<string, seq<SubLine>>, order: seq<string>, r: Request, cid: string)
    requires NoDuplicates(order) && before.Keys == (set c | c in order) && AllWellFormed(before) && cid in before
    ensures var after := Serve(policies, before, order, r);
            && cid in after
            && (r.PatchCustomer? && r.cid == cid && r.patch.Some? && r.patch.value.update.None? && r.patch.value.add.Some?
                && ApplyPatch(policies, r.catalogue, before[cid], r.patch, r.today).Written?
                ==> Priced(policies, after[cid]))
            && (r.RecalculateSku? && Holds(before[cid], r.sku)
                && Recalculate(policies, r.catalogue, before, order, r.sku).1 == 200
                ==> Priced(policies, after[cid]))
  {
    ServeKeeps(policies, before, order, r);
    match r
    case PatchCustomer(c, patch, catalogue, today) =>
      if c == cid && patch.Some? && patch.value.update.None? && patch.value.add.Some? {
        match ApplyAdd(policies, catalogue, before[cid], patch.value.add.value, today)
        case Failed(_) =>
        case Written(out) => AddExact(policies, catalogue, before[cid], patch.value.add.value, today, out);
      }
    case RecalculateSku(sku, catalogue) =>
      if Recalculate(policies, catalogue, before, order, sku).1 == 200 {
        RecalculationExact(policies, catalogue, before, order, sku);
      }
  }
}
