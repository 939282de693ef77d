/** Product definitions served by the catalogue, keyed by SKU. */
module Products {
  import opened Json

  datatype Product = Product(name: string, kind: string, listPrice: Option<real>, terms: seq<int>)

  type Catalogue = map<string, Product>
}

/** The billing system of record: subscription lines, status changes and rule-driven repricing. */
module Billing {
  import opened Json
  import opened Seqs
  import opened Rules
  import opened Products

  datatype ReasonCode = NonPayment | CustomerRequest | FraudHold | TechnicalIssue | NetworkFault | Other

  function ReasonText(r: ReasonCode): string {
    match r
    case NonPayment => "non_payment"
    case CustomerRequest => "customer_request"
    case FraudHold => "fraud_hold"
    case TechnicalIssue => "technical_issue"
    case NetworkFault => "network_fault"
    case Other => "other"
  }

  datatype Discount = Discount(id: string, pct: real, reason: string)

  datatype SubLine = SubLine(
    sku: string, stat: string, effFrom: string, listPrice: Option<real>, charge: Option<real>,
    totalPct: real, applied: seq<Discount>, term: Option<int>,
    reasonCode: Option<ReasonCode>, reasonDetail: Option<string>)

  datatype Update = Update(
    sku: string, newStat: Option<string>, reasonCode: Option<ReasonCode>, reasonDetail: Option<string>,
    newCharge: Option<real>)

  datatype NewSubscription = NewSubscription(sku: string, stat: string, term: int, effFrom: Option<string>)

  datatype Patch = Patch(update: Option<Update>, add: Option<NewSubscription>)

  /** Either the record as written and captured, or the HTTP status of the refusal. */
  datatype Reply = Written(lines: seq<SubLine>) | Failed(status: int)

  /** What billing sends to assembly after a write: the customer with the record as it then stands. */
  datatype Capture = Capture(cid: string, lines: seq<SubLine>)

  function PatchCaptures(cid: string, reply: Reply): seq<Capture> {
    if reply.Written? then [Capture(cid, reply.lines)] else []
  }

  // ---------------------------------------------------------------- evaluation context

  function Decode(stat: string): string {
    if stat == "A" then "active" else if stat == "S" then "suspended" else if stat == "C" then "cancelled" else stat
  }

  function EvalPrice(l: SubLine): real {
    match l.listPrice
    case Some(price) => price
    case None => if l.charge.Some? then l.charge.value else 0.0
  }

  function EvalLine(l: SubLine): Dict {
    map["product_id" := Str(l.sku),
        "status" := Str(Decode(l.stat)),
        "list_price_gbp" := Num(EvalPrice(l)),
        "contract_term_months" := Num(if l.term.Some? then l.term.value as real else 1.0)]
  }

  function Context(lines: seq<SubLine>): seq<Dict> {
    seq(|lines|, i requires 0 <= i < |lines| => EvalLine(lines[i]))
  }

  method BuildEvalContext(lines: seq<SubLine>) returns (subs: seq<Dict>)
    ensures subs == Context(lines)
  {
    subs := [];
    for i := 0 to |lines|
      invariant |subs| == i && forall j :: 0 <= j < i ==> subs[j] == EvalLine(lines[j])
    {
      subs := subs + [EvalLine(lines[i])];
    }
  }

  // ---------------------------------------------------------------- repricing

  /** `discount_by_sku`: of several results for a SKU the last one counts. */
  function FindResult(results: seq<ProductResult>, sku: string): Option<ProductResult> {
    if results == [] then None
    else if results[|results| - 1].sku == Str(sku) then Some(results[|results| - 1])
    else FindResult(results[..|results| - 1], sku)
  }

  function DiscountsOf(policies: seq<Policy>, ids: seq<string>): seq<Discount> {
    if ids == [] then []
    else
      var rest := DiscountsOf(policies, ids[..|ids| - 1]);
      match Lookup(policies, ids[|ids| - 1])
      case None => rest
      case Some(q) => rest + [Discount(q.id, q.pct, q.reason)]
  }

  function RepriceLine(policies: seq<Policy>, results: seq<ProductResult>, l: SubLine): SubLine {
    if l.stat != "A" then l
    else
      match FindResult(results, l.sku)
      case None => l
      case Some(r) => l.(charge := Some(r.discounted), totalPct := r.totalPct,
                         applied := DiscountsOf(policies, r.applied))
  }

  function RepriceAll(policies: seq<Policy>, results: seq<ProductResult>, lines: seq<SubLine>): seq<SubLine> {
    seq(|lines|, i requires 0 <= i < |lines| => RepriceLine(policies, results, lines[i]))
  }

  /** Re-evaluate the rules over the record and write the outcome into its active lines. */
  function Reprice(policies: seq<Policy>, lines: seq<SubLine>): Outcome<seq<SubLine>> {
    match Evaluate(policies, Context(lines))
    case Raised => Raised
    case Ok(s) => Ok(RepriceAll(policies, s.products, lines))
  }

  function SetPriceLine(l: SubLine, sku: string, price: real): SubLine {
    if l.sku == sku && l.stat != "C" then l.(listPrice := Some(price)) else l
  }

  function SetPrice(lines: seq<SubLine>, sku: string, price: real): seq<SubLine> {
    seq(|lines|, i requires 0 <= i < |lines| => SetPriceLine(lines[i], sku, price))
  }

  // ---------------------------------------------------------------- patches

  predicate ValidStat(stat: string) {
    stat == "A" || stat == "S" || stat == "C"
  }

  function PatchLine(l: SubLine, upd: Update): SubLine {
    var l' := if upd.newStat.Some?
              then l.(stat := upd.newStat.value, reasonCode := upd.reasonCode, reasonDetail := upd.reasonDetail)
              else l;
    if upd.newCharge.Some? then l'.(charge := upd.newCharge) else l'
  }

  /** The first line of the SKU is updated. */
  function PatchFirst(lines: seq<SubLine>, upd: Update): seq<SubLine> {
    if lines == [] then []
    else if lines[0].sku == upd.sku then [PatchLine(lines[0], upd)] + lines[1..]
    else [lines[0]] + PatchFirst(lines[1..], upd)
  }

  predicate HasSku(lines: seq<SubLine>, sku: string) {
    exists l :: l in lines && l.sku == sku
  }

  function ApplyUpdate(lines: seq<SubLine>, upd: Update): Reply {
    if upd.newStat.Some? && !ValidStat(upd.newStat.value) then Failed(422)
    else if upd.newStat.Some? && upd.reasonCode.None? then Failed(422)
    else if !HasSku(lines, upd.sku) then Failed(404)
    else Written(PatchFirst(lines, upd))
  }

  function NewLine(sub: NewSubscription, price: real, today: string): SubLine {
    SubLine(sub.sku, sub.stat,
            if sub.effFrom.Some? && sub.effFrom.value != "" then sub.effFrom.value else today,
            Some(price), Some(price), 0.0, [], Some(sub.term), None, None)
  }

  function ApplyAdd(policies: seq<Policy>, catalogue: Catalogue, lines: seq<SubLine>,
                    sub: NewSubscription, today: string): Reply {
    if HasSku(lines, sub.sku) then Failed(409)
    else if sub.sku !in catalogue then Failed(404)
    else if catalogue[sub.sku].listPrice.None? then Failed(422)
    else
      match Reprice(policies, lines + [NewLine(sub, catalogue[sub.sku].listPrice.value, today)])
      case Raised => Failed(500)
      case Ok(repriced) => Written(repriced)
  }

  function ApplyPatch(policies: seq<Policy>, catalogue: Catalogue, lines: seq<SubLine>,
                      patch: Option<Patch>, today: string): Reply {
    if patch.Some? && patch.value.update.Some? then ApplyUpdate(lines, patch.value.update.value)
    else if patch.Some? && patch.value.add.Some? then
      ApplyAdd(policies, catalogue, lines, patch.value.add.value, today)
    else Written(lines)
  }

  // ---------------------------------------------------------------- recalculation

  predicate Holds(lines: seq<SubLine>, sku: string) {
    exists l :: l in lines && l.sku == sku && l.stat != "C"
  }

  function Affected(data: map<string, seq<SubLine>>, order: seq<string>, sku: string): seq<string>
    requires forall c :: c in order ==> c in data
  {
    if order == [] then []
    else (if Holds(data[order[0]], sku) then [order[0]] else []) + Affected(data, order[1..], sku)
  }

  function Recalculated(policies: seq<Policy>, lines: seq<SubLine>, sku: string, price: real): Outcome<seq<SubLine>> {
    Reprice(policies, SetPrice(lines, sku, price))
  }

  /** The customers are rewritten one after the other; an exception keeps what was written so far. */
  function RecalculateEach(policies: seq<Policy>, data: map<string, seq<SubLine>>, cids: seq<string>,
                           sku: string, price: real): (map<string, seq<SubLine>>, bool)
    requires forall c :: c in cids ==> c in data
    decreases |cids|
  {
    if cids == [] then (data, true)
    else
      match Recalculated(policies, data[cids[0]], sku, price)
      case Raised => (data, false)
      case Ok(lines) => RecalculateEach(policies, data[cids[0] := lines], cids[1..], sku, price)
  }

  function Recalculate(policies: seq<Policy>, catalogue: Catalogue, data: map<string, seq<SubLine>>,
                       order: seq<string>, sku: string): (map<string, seq<SubLine>>, int)
    requires forall c :: c in order ==> c in data
  {
    if sku !in catalogue then (data, 404)
    else if catalogue[sku].listPrice.None? then (data, 422)
    else
      AffectedKnown(data, order, sku);
      var (data', done) := RecalculateEach(policies, data, Affected(data, order, sku), sku, catalogue[sku].listPrice.value);
      (data', if done then 200 else 500)
  }

  /** Each customer is captured when it has been rewritten. */
  function EachCaptured(policies: seq<Policy>, data: map<string, seq<SubLine>>, cids: seq<string>,
                        sku: string, price: real): seq<Capture>
    requires forall c :: c in cids ==> c in data
    decreases |cids|
  {
    if cids == [] then []
    else
      match Recalculated(policies, data[cids[0]], sku, price)
      case Raised => []
      case Ok(lines) => [Capture(cids[0], lines)] + EachCaptured(policies, data[cids[0] := lines], cids[1..], sku, price)
  }

  function RecalculationCaptures(policies: seq<Policy>, catalogue: Catalogue, data: map<string, seq<SubLine>>,
                                 order: seq<string>, sku: string): seq<Capture>
    requires forall c :: c in order ==> c in data
  {
    if sku !in catalogue || catalogue[sku].listPrice.None? then []
    else
      AffectedKnown(data, order, sku);
      EachCaptured(policies, data, Affected(data, order, sku), sku, catalogue[sku].listPrice.value)
  }

  lemma {:induction false} AffectedKnown(data: map<string, seq<SubLine>>, order: seq<string>, sku: string)
    requires forall c :: c in order ==> c in data
    ensures forall c :: c in Affected(data, order, sku) <==> c in order && Holds(data[c], sku)
    ensures NoDuplicates(order) ==> NoDuplicates(Affected(data, order, sku))
  {
    if order != [] {
      assert order == [order[0]] + order[1..];
      AffectedKnown(data, order[1..], sku);
    }
  }

  /** The loop over `cids`, begun on `start`, has come to the `k`-th customer. */
  predicate Underway(policies: seq<Policy>, start: map<string, seq<SubLine>>, data: map<string, seq<SubLine>>,
                     captured: seq<Capture>, cids: seq<string>, k: nat, sku: string, price: real)
    requires k <= |cids| && forall c :: c in cids ==> c in start && c in data
  {
    && RecalculateEach(policies, start, cids, sku, price) == RecalculateEach(policies, data, cids[k..], sku, price)
    && EachCaptured(policies, start, cids, sku, price) == captured + EachCaptured(policies, data, cids[k..], sku, price)
  }

  lemma LoopStart(policies: seq<Policy>, start: map<string, seq<SubLine>>, cids: seq<string>, sku: string, price: real)
    requires forall c :: c in cids ==> c in start
    ensures Underway(policies, start, start, [], cids, 0, sku, price)
  {
    assert cids[0..] == cids;
  }

  lemma LoopNext(policies: seq<Policy>, start: map<string, seq<SubLine>>, data: map<string, seq<SubLine>>,
                 captured: seq<Capture>, cids: seq<string>, k: nat, sku: string, price: real)
    requires k < |cids| && forall c :: c in cids ==> c in start && c in data
    requires Underway(policies, start, data, captured, cids, k, sku, price)
    ensures match Recalculated(policies, data[cids[k]], sku, price)
            case Raised =>
              && RecalculateEach(policies, start, cids, sku, price) == (data, false)
              && EachCaptured(policies, start, cids, sku, price) == captured
            case Ok(lines) =>
              Underway(policies, start, data[cids[k] := lines], captured + [Capture(cids[k], lines)], cids, k + 1, sku, price)
  {
    assert cids[k..][0] == cids[k] && cids[k..][1..] == cids[k + 1..];
  }

  lemma LoopEnd(policies: seq<Policy>, start: map<string, seq<SubLine>>, data: map<string, seq<SubLine>>,
                captured: seq<Capture>, cids: seq<string>, sku: string, price: real)
    requires forall c :: c in cids ==> c in start && c in data
    requires Underway(policies, start, data, captured, cids, |cids|, sku, price)
    ensures RecalculateEach(policies, start, cids, sku, price) == (data, true)
    ensures EachCaptured(policies, start, cids, sku, price) == captured
  {
    assert cids[|cids|..] == [];
  }

  // ---------------------------------------------------------------- loops over one record

  lemma {:induction false} PatchFirstAt(lines: seq<SubLine>, i: nat, upd: Update)
    requires i < |lines| && lines[i].sku == upd.sku
    requires forall j :: 0 <= j < i ==> lines[j].sku != upd.sku
    ensures PatchFirst(lines, upd) == lines[i := PatchLine(lines[i], upd)]
  {
    if i > 0 {
      PatchFirstAt(lines[1..], i - 1, upd);
    }
  }

  method PatchFirstLine(lines: seq<SubLine>, upd: Update) returns (matched: bool, raw: seq<SubLine>)
    ensures matched == HasSku(lines, upd.sku)
    ensures matched ==> raw == PatchFirst(lines, upd)
  {
    raw := lines;
    for i := 0 to |raw|
      invariant raw == lines && forall j :: 0 <= j < i ==> lines[j].sku != upd.sku
    {
      if raw[i].sku == upd.sku {
        PatchFirstAt(lines, i, upd);
        raw := raw[i := PatchLine(raw[i], upd)];
        return true, raw;
      }
    }
    return false, raw;
  }

  method SetPrices(lines: seq<SubLine>, sku: string, price: real) returns (raw: seq<SubLine>)
    ensures raw == SetPrice(lines, sku, price)
  {
    raw := lines;
    for i := 0 to |raw|
      invariant |raw| == |lines|
      invariant forall j :: 0 <= j < i ==> raw[j] == SetPriceLine(lines[j], sku, price)
      invariant forall j :: i <= j < |raw| ==> raw[j] == lines[j]
    {
      if raw[i].sku == sku && raw[i].stat != "C" {
        raw := raw[i := raw[i].(listPrice := Some(price))];
      }
    }
  }

  // ---------------------------------------------------------------- the service

  class BillingSor {
    /** Records by customer, with the order in which the dictionary lists them. */
    var data: map<string, seq<SubLine>>
    var order: seq<string>
    var policies: seq<Policy>

    ghost predicate Valid()
      reads this
    {
      NoDuplicates(order) && data.Keys == set c | c in order
    }

    constructor (records: map<string, seq<SubLine>>, listing: seq<string>, loaded: seq<Policy>)
      requires NoDuplicates(listing) && records.Keys == set c | c in listing
      ensures Valid() && data == records && order == listing && policies == loaded
    {
      data, order, policies := records, listing, loaded;
    }

    /** Writes the evaluation results into the active lines of a record. */
    method RepriceRecord(raw: seq<SubLine>) returns (r: Outcome<seq<SubLine>>)
      ensures r == Reprice(policies, raw)
    {
      var context := BuildEvalContext(raw);
      var summary := EvaluateDiscounts(policies, context);
      if summary == Raised {
        return Raised;
      }
      var results := summary.value.products;
      var lines := raw;
      for i := 0 to |raw|
        invariant |lines| == |raw|
        invariant forall j :: 0 <= j < i ==> lines[j] == RepriceLine(policies, results, raw[j])
        invariant forall j :: i <= j < |raw| ==> lines[j] == raw[j]
      {
        var sub := lines[i];
        if sub.stat == "A" {
          var result := FindResult(results, sub.sku);
          if result.Some? {
            lines := lines[i := sub.(charge := Some(result.value.discounted), totalPct := result.value.totalPct,
                                     applied := DiscountsOf(policies, result.value.applied))];
          }
        }
      }
      assert lines == RepriceAll(policies, results, raw);
      return Ok(lines);
    }

    method UpdateCustomer(cid: string, patch: Option<Patch>, catalogue: Catalogue, today: string)
      returns (reply: Reply, captured: seq<Capture>)
      requires Valid()
      modifies this`data
      ensures Valid()
      ensures reply == if cid in old(data) then ApplyPatch(policies, catalogue, old(data)[cid], patch, today) else Failed(404)
      ensures captured == PatchCaptures(cid, reply)
      ensures data == if reply.Written? then old(data)[cid := reply.lines] else old(data)
    {
      if cid !in data {
        return Failed(404), [];
      }
      var raw := data[cid];
      if patch.Some? && patch.value.update.Some? {
        reply := UpdateLine(cid, patch.value.update.value);
        return reply, PatchCaptures(cid, reply);
      } else if patch.Some? && patch.value.add.Some? {
        var sub := patch.value.add.value;
        if HasSku(raw, sub.sku) {
          return Failed(409), [];
        }
        if sub.sku !in catalogue {
          return Failed(404), [];
        }
        var listPrice := catalogue[sub.sku].listPrice;
        if listPrice == None {
          return Failed(422), [];
        }
        raw := raw + [NewLine(sub, listPrice.value, today)];
        var repriced := RepriceRecord(raw);
        if repriced == Raised {
          return Failed(500), [];
        }
        raw := repriced.value;
        data := data[cid := raw];
      }
      return Written(raw), [Capture(cid, raw)];
    }

    /** The update branch: patches the first line of the SKU. */
    method UpdateLine(cid: string, upd: Update) returns (reply: Reply)
      requires Valid() && cid in data
      modifies this`data
      ensures Valid()
      ensures reply == ApplyUpdate(old(data)[cid], upd)
      ensures data == if reply.Written? then old(data)[cid := reply.lines] else old(data)
    {
      if upd.newStat.Some? && !ValidStat(upd.newStat.value) {
        return Failed(422);
      }
      if upd.newStat.Some? && upd.reasonCode == None {
        return Failed(422);
      }
      var matched, raw := PatchFirstLine(data[cid], upd);
      if !matched {
        return Failed(404);
      }
      data := data[cid := raw];
      return Written(raw);
    }

    /** One round of the recalculation loop. */
    method RecalculateCustomer(cid: string, sku: string, price: real) returns (done: bool)
      requires Valid() && cid in data
      modifies this`data
      ensures Valid()
      ensures done == Recalculated(policies, old(data)[cid], sku, price).Ok?
      ensures data == if done then old(data)[cid := Recalculated(policies, old(data)[cid], sku, price).value] else old(data)
    {
      var raw := SetPrices(data[cid], sku, price);
      var repriced := RepriceRecord(raw);
      if repriced == Raised {
        return false;
      }
      data := data[cid := repriced.value];
      return true;
    }

    method RecalculateFromProduct(sku: string, catalogue: Catalogue) returns (status: int, captured: seq<Capture>)
      requires Valid()
      modifies this`data
      ensures Valid()
      ensures (data, status) == Recalculate(policies, catalogue, old(data), order, sku)
      ensures captured == RecalculationCaptures(policies, catalogue, old(data), order, sku)
    {
      if sku !in catalogue {
        return 404, [];
      }
      var listPrice := catalogue[sku].listPrice;
      if listPrice == None {
        return 422, [];
      }
      var affected := Affected(data, order, sku);
      AffectedKnown(data, order, sku);
      var done, sent := RecalculateAffected(affected, sku, listPrice.value);
      return if done then 200 else 500, sent;
    }

    /** The loop over the affected customers, each captured once it has been rewritten. */
    method RecalculateAffected(affected: seq<string>, sku: string, price: real) returns (done: bool, captured: seq<Capture>)
      requires Valid() && forall c :: c in affected ==> c in data
      modifies this`data
      ensures Valid()
      ensures (data, done) == RecalculateEach(policies, old(data), affected, sku, price)
      ensures captured == EachCaptured(policies, old(data), affected, sku, price)
    {
      captured := [];
      LoopStart(policies, data, affected, sku, price);
      for k := 0 to |affected|
        invariant data.Keys == old(data).Keys
        invariant Underway(policies, old(data), data, captured, affected, k, sku, price)
      {
        LoopNext(policies, old(data), data, captured, affected, k, sku, price);
        var rewritten := RecalculateCustomer(affected[k], sku, price);
        if !rewritten {
          return false, captured;
        }
        captured := captured + [Capture(affected[k], data[affected[k]])];
      }
      LoopEnd(policies, old(data), data, captured, affected, sku, price);
      return true, captured;
    }
  }
}
