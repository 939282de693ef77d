/**
 * The assembly service. Events of one customer wait in `pending` until both domains are there or a
 * timeout writes what has arrived; later events are domain upserts; complete records are enriched from the
 * catalogue, and product updates fan out to every holder. Each request is one atomic step here.
 */
module Cdc {
  import opened Json
  import opened Money
  import opened Products
  import opened Ontology
  import opened Cache
  import Cat = CatalogueService

  datatype Event = Event(domain: Domain, raw: Dict, id: string, now: int, corr: string)

  datatype Pending = Pending(corr: string, domains: Domains, received: seq<Domain>, firstSeen: int, timeoutAt: int)

  /** What the services hold about one customer. */
  datatype View = View(pending: Option<Pending>, tiers: Tiers)

  /** What all customers share: the catalogue, and the product updates whose fan-out has not run yet. */
  datatype Shared = Shared(products: Catalogue, fanouts: seq<string>)

  datatype Input =
    | SorEvent(e: Event)
    | Tick(now: int)
    | PriceChange(sku: string, price: Option<real>, terms: Option<seq<int>>)
    | ProductEvent(raw: Dict)
    | FanOut(index: nat, now: int)

  const TIMEOUT_SECONDS: int := 30

  function CustomerRef(raw: Dict): Option<string> {
    if "cust_ref" in raw && raw["cust_ref"].Str? && raw["cust_ref"].s != "" then Some(raw["cust_ref"].s) else None
  }

  /** The event is well typed and names a customer. */
  predicate Accepted(e: Event) {
    WellTyped(e.domain, e.raw) && CustomerRef(e.raw).Some?
  }

  function PartialOf(e: Event): Dict {
    Partial(e.domain, e.raw, e.id, e.now)
  }

  // ---------------------------------------------------------------- enrichment

  function PriceValue(price: Option<real>): Json {
    if price.Some? then Num(price.value) else Null
  }

  function ProductFields(p: Product): Dict {
    map["product_name" := Str(p.name),
        "product_type" := Str(p.kind),
        "list_price_gbp" := PriceValue(p.listPrice),
        "available_terms_months" := Arr(seq(|p.terms|, i requires 0 <= i < |p.terms| => Num(p.terms[i] as real)))]
  }

  /** The catalogue entry of a line, if its SKU is known. */
  function ProductOf(products: Catalogue, line: Dict): Option<Product> {
    var sku := Get(line, "product_id", Null);
    if sku.Str? && sku.s != "" && sku.s in products then Some(products[sku.s]) else None
  }

  function EnrichLine(products: Catalogue, line: Dict): Dict {
    match ProductOf(products, line)
    case None => line
    case Some(p) => line + ProductFields(p)
  }

  function EnrichLines(products: Catalogue, lines: seq<Json>): seq<Json>
    requires forall i :: 0 <= i < |lines| ==> lines[i].Obj?
  {
    seq(|lines|, i requires 0 <= i < |lines| => Obj(EnrichLine(products, lines[i].fields)))
  }

  datatype Totals = Totals(per: Dict, list: real, actual: real)

  /** One line's share of the derived discount. It reads `monthly_charge`; a null SKU is the key `null` once sent. */
  function AddTotals(t: Totals, line: Dict): Outcome<Totals> {
    var listPrice, actual := Get(line, "list_price_gbp", Null), Get(line, "monthly_charge", Null);
    var sku := Get(line, "product_id", Str("unknown"));
    if listPrice.Null? || actual.Null? then Ok(t)
    else if !listPrice.Num? || !actual.Num? || !(sku.Str? || sku.Null?) then Raised
    else
      Ok(Totals(t.per[if sku.Str? then sku.s else "null" := Obj(map["list_price_gbp" := listPrice,
                                       "actual_charge_gbp" := actual,
                                       "saving_gbp" := Num(Round2(listPrice.n - actual.n))])],
                t.list + listPrice.n, t.actual + actual.n))
  }

  function Derive(lines: seq<Json>): Outcome<Totals>
    requires forall i :: 0 <= i < |lines| ==> lines[i].Obj?
  {
    if lines == [] then Ok(Totals(map[], 0.0, 0.0))
    else
      match Derive(lines[..|lines| - 1])
      case Raised => Raised
      case Ok(t) => AddTotals(t, lines[|lines| - 1].fields)
  }

  function DiscountSummary(t: Totals): Json {
    Obj(map["per_subscription" := Obj(t.per),
            "total_list_gbp" := Num(Round2(t.list)),
            "total_actual_gbp" := Num(Round2(t.actual)),
            "total_saving_gbp" := Num(Round2(t.list - t.actual))])
  }

  predicate LinesReadable(lines: Json) {
    lines.Arr? && forall i :: 0 <= i < |lines.items| ==> lines.items[i].Obj?
  }

  /** The upsert an enrichment writes; `None` when it gives up, which it does silently. */
  function EnrichBody(record: Dict, products: Catalogue, now: int): Option<Dict> {
    var commercial := Get(record, "commercial_state", Null);
    if !Truthy(commercial) || !commercial.Obj? then None
    else
      var lines := Get(commercial.fields, "subscriptions", Arr([]));
      if !LinesReadable(lines) then None
      else
        var enriched := EnrichLines(products, lines.items);
        match Derive(enriched)
        case Raised => None
        case Ok(t) =>
          var meta := Get(commercial.fields, "_meta", Obj(map[]));
          if !meta.Obj? then None
          else Some(map["commercial_state" := Obj(EnrichedGroup(commercial.fields, enriched, t, meta.fields, now)),
                        "_merge_domain" := Str("enrichment")])
  }

  function EnrichedGroup(group: Dict, lines: seq<Json>, t: Totals, meta: Dict, now: int): Dict {
    group["subscriptions" := Arr(lines)]
    ["discount_summary" := DiscountSummary(t)]
    ["_meta" := Obj(meta["assembled_at" := Time(now)])]
  }

  function Enrich(t: Tiers, products: Catalogue, now: int): Tiers {
    if t.hot.None? then t
    else
      match EnrichBody(t.hot.value, products, now)
      case None => t
      case Some(body) => if Put(t, body).Ok? then Put(t, body).value else t
  }

  // ---------------------------------------------------------------- the steps, for one customer

  function NewState(existing: Dict, d: Domain): string {
    var hasCustomer := "profile" in existing || d == Customer;
    var hasBilling := "commercial_state" in existing || d == Billing;
    if hasCustomer && hasBilling then "complete" else if hasCustomer then "awaiting_billing" else "awaiting_customer"
  }

  function UpsertBody(existing: Dict, e: Event): Dict {
    PartialOf(e)["assembly_state" := Str(NewState(existing, e.domain))]["_merge_domain" := Str(DomainName(e.domain))]
  }

  /** A cache hit: the event's group is merged into the record. */
  function Upsert(v: View, e: Event, products: Catalogue): View
    requires v.tiers.hot.Some?
  {
    match Put(v.tiers, UpsertBody(v.tiers.hot.value, e))
    case Raised => v
    case Ok(t) =>
      v.(tiers := if NewState(v.tiers.hot.value, e.domain) == "complete" then Enrich(t, products, e.now) else t)
  }

  predicate AllDomains(ds: Domains) {
    HasDomain(ds, Customer) && HasDomain(ds, Billing)
  }

  function JoinBody(ds: Domains, now: int): Dict {
    Merged(ds, now)["assembly_state" := Str("complete")]["missing_domains" := Arr([])]
  }

  /** A cache miss: the event joins what is pending, or starts waiting. */
  function Receive(v: View, e: Event, products: Catalogue): View {
    match v.pending
    case None =>
      v.(pending := Some(Pending(e.corr, [(e.domain, PartialOf(e))], [e.domain], e.now, e.now + TIMEOUT_SECONDS)))
    case Some(pa) =>
      var domains := PutDomain(pa.domains, e.domain, PartialOf(e));
      if AllDomains(domains) then
        match Put(v.tiers, JoinBody(domains, e.now))
        case Raised => v.(pending := None)
        case Ok(t) => View(None, Enrich(t, products, e.now))
      else v.(pending := Some(pa.(domains := domains, received := pa.received + [e.domain])))
  }

  function OnEvent(v: View, cid: string, e: Event, products: Catalogue): View {
    if !Accepted(e) || CustomerRef(e.raw) != Some(cid) then v
    else if v.tiers.hot.Some? then Upsert(v, e, products)
    else Receive(v, e, products)
  }

  function Missing(ds: Domains): seq<Json> {
    (if HasDomain(ds, Customer) then [] else [Str("customer")]) + (if HasDomain(ds, Billing) then [] else [Str("billing")])
  }

  function TimeoutBody(ds: Domains, now: int): Dict {
    (if |ds| > 1 then Merged(ds, now) else if |ds| == 1 then ds[0].1 else map[])
    ["assembly_state" := Str("partial_timed_out")]["missing_domains" := Arr(Missing(ds))]
  }

  predicate Expired(v: View, now: int) {
    v.pending.Some? && now >= v.pending.value.timeoutAt
  }

  function OnTick(v: View, now: int): View {
    if !Expired(v, now) then v
    else
      match Put(v.tiers, TimeoutBody(v.pending.value.domains, now))
      case Raised => v.(pending := None)
      case Ok(t) => View(None, t)
  }

  predicate HoldsSku(record: Dict, sku: string) {
    var commercial := Get(record, "commercial_state", Null);
    commercial.Obj? &&
    var lines := Get(commercial.fields, "subscriptions", Arr([]));
    lines.Arr? && exists i :: 0 <= i < |lines.items| && lines.items[i].Obj?
                              && Get(lines.items[i].fields, "product_id", Null) == Str(sku)
  }

  function OnFanOut(v: View, sku: string, products: Catalogue, now: int): View {
    if v.tiers.hot.Some? && HoldsSku(v.tiers.hot.value, sku) then v.(tiers := Enrich(v.tiers, products, now)) else v
  }

  function StepView(v: View, sh: Shared, cid: string, input: Input): View {
    match input
    case SorEvent(e) => OnEvent(v, cid, e, sh.products)
    case Tick(now) => OnTick(v, now)
    case PriceChange(_, _, _) => v
    case ProductEvent(_) => v
    case FanOut(index, now) => if index < |sh.fanouts| then OnFanOut(v, sh.fanouts[index], sh.products, now) else v
  }

  /** The SKU of a product event, unless it is missing or empty. */
  function EventSku(raw: Dict): Option<string> {
    if "sku" in raw && raw["sku"].Str? && raw["sku"].s != "" then Some(raw["sku"].s) else None
  }

  function StepShared(sh: Shared, input: Input): Shared {
    match input
    case SorEvent(_) => sh
    case Tick(_) => sh
    case PriceChange(sku, price, terms) =>
      if Cat.PatchStatus(sh.products, sku, price, terms) != 200 then sh
      else Shared(Cat.PatchProduct(sh.products, sku, price, terms), if sku == "" then sh.fanouts else sh.fanouts + [sku])
    case ProductEvent(raw) =>
      if EventSku(raw).Some? then sh.(fanouts := sh.fanouts + [EventSku(raw).value]) else sh
    case FanOut(index, _) =>
      if index < |sh.fanouts| then sh.(fanouts := sh.fanouts[..index] + sh.fanouts[index + 1..]) else sh
  }

  // ---------------------------------------------------------------- the service

  class CdcService {
    const cache: ContextCache
    const catalogue: Cat.ProductCatalogue
    var pending: map<string, Pending>
    /** Scheduled fan-out tasks, by SKU. */
    var fanouts: seq<string>

    ghost predicate Valid()
      reads this, cache
    {
      cache.Valid()
    }

    ghost function ViewOf(cid: string): View
      reads this, cache
    {
      View(if cid in pending then Some(pending[cid]) else None, cache.TiersOf(cid))
    }

    ghost function SharedPart(): Shared
      reads this, catalogue
    {
      Shared(catalogue.products, fanouts)
    }

    constructor (cache: ContextCache, catalogue: Cat.ProductCatalogue)
      requires cache.Valid() && forall c :: cache.TiersOf(c) == EMPTY
      ensures Valid() && this.cache == cache && this.catalogue == catalogue
      ensures forall c :: ViewOf(c) == View(None, EMPTY)
      ensures fanouts == []
    {
      this.cache, this.catalogue, pending, fanouts := cache, catalogue, map[], [];
    }

    /** The derivation loop of `_enrich_and_write`. */
    method DeriveTotals(lines: seq<Json>) returns (t: Outcome<Totals>)
      requires forall i :: 0 <= i < |lines| ==> lines[i].Obj?
      ensures t == Derive(lines)
    {
      var totals := Totals(map[], 0.0, 0.0);
      for i := 0 to |lines|
        invariant Derive(lines[..i]) == Ok(totals)
      {
        assert lines[..i + 1][..i] == lines[..i];
        var next := AddTotals(totals, lines[i].fields);
        if next == Raised {
          DeriveRaises(lines, i + 1);
          return Raised;
        }
        totals := next.value;
      }
      assert lines[..|lines|] == lines;
      return Ok(totals);
    }

    method EnrichAndWrite(cid: string, now: int)
      requires Valid()
      modifies cache
      ensures Valid()
      ensures cache.TiersOf(cid) == Enrich(old(cache.TiersOf(cid)), catalogue.products, now)
      ensures forall c :: c != cid ==> cache.TiersOf(c) == old(cache.TiersOf(c))
    {
      var record := cache.ReadRecord(cid);
      if record == None {
        return;
      }
      var commercial := Get(record.value, "commercial_state", Null);
      if !Truthy(commercial) || !commercial.Obj? {
        return;
      }
      var lines := Get(commercial.fields, "subscriptions", Arr([]));
      if !LinesReadable(lines) {
        return;
      }
      var enriched: seq<Json> := [];
      for i := 0 to |lines.items|
        invariant |enriched| == i
        invariant forall j :: 0 <= j < i ==> enriched[j] == Obj(EnrichLine(catalogue.products, lines.items[j].fields))
      {
        enriched := enriched + [Obj(EnrichLine(catalogue.products, lines.items[i].fields))];
      }
      assert enriched == EnrichLines(catalogue.products, lines.items);
      var totals := DeriveTotals(enriched);
      if totals == Raised {
        return;
      }
      var meta := Get(commercial.fields, "_meta", Obj(map[]));
      if !meta.Obj? {
        return;
      }
      var body: Dict := map[
        "commercial_state" := Obj(EnrichedGroup(commercial.fields, enriched, totals.value, meta.fields, now)),
        "_merge_domain" := Str("enrichment")];
      assert EnrichBody(record.value, catalogue.products, now) == Some(body);
      var _ := cache.WriteRecord(cid, body);
    }

    /** A write that is followed by an enrichment, unless it is rejected. */
    method WriteAndEnrich(cid: string, body: Dict, now: int)
      requires Valid()
      modifies cache
      ensures Valid()
      ensures cache.TiersOf(cid) == match Put(old(cache.TiersOf(cid)), body)
                                    case Raised => old(cache.TiersOf(cid))
                                    case Ok(t) => Enrich(t, catalogue.products, now)
      ensures forall c :: c != cid ==> cache.TiersOf(c) == old(cache.TiersOf(c))
    {
      var stored := cache.WriteRecord(cid, body);
      if stored.Ok? {
        EnrichAndWrite(cid, now);
      }
    }

    /** The cache-hit branch of `process_event`. */
    method UpsertDomain(cid: string, e: Event, partial: Dict, existing: Dict)
      requires Valid() && partial == PartialOf(e) && ViewOf(cid).tiers.hot == Some(existing)
      modifies cache
      ensures Valid()
      ensures ViewOf(cid) == Upsert(old(ViewOf(cid)), e, catalogue.products)
      ensures forall c :: c != cid ==> ViewOf(c) == old(ViewOf(c))
    {
      var state := NewState(existing, e.domain);
      var body := partial["assembly_state" := Str(state)]["_merge_domain" := Str(DomainName(e.domain))];
      if state == "complete" {
        WriteAndEnrich(cid, body, e.now);
      } else {
        var _ := cache.WriteRecord(cid, body);
      }
    }

    /** The cache-miss branch of `process_event`. */
    method ReceiveDomain(cid: string, e: Event, partial: Dict)
      requires Valid() && partial == PartialOf(e) && ViewOf(cid).tiers.hot == None
      modifies this`pending, cache
      ensures Valid()
      ensures ViewOf(cid) == Receive(old(ViewOf(cid)), e, catalogue.products)
      ensures forall c :: c != cid ==> ViewOf(c) == old(ViewOf(c))
    {
      if cid in pending {
        var pa := pending[cid];
        pa := pa.(domains := PutDomain(pa.domains, e.domain, partial), received := pa.received + [e.domain]);
        if AllDomains(pa.domains) {
          var merged := MergeDomains(pa.domains, e.now);
          merged := merged["assembly_state" := Str("complete")]["missing_domains" := Arr([])];
          pending := pending - {cid};
          WriteAndEnrich(cid, merged, e.now);
        } else {
          pending := pending[cid := pa];
        }
      } else {
        pending := pending[cid := Pending(e.corr, [(e.domain, partial)], [e.domain], e.now, e.now + TIMEOUT_SECONDS)];
      }
    }

    method ProcessEvent(e: Event)
      requires Valid()
      modifies this`pending, cache
      ensures Valid()
      ensures forall c :: ViewOf(c) == StepView(old(ViewOf(c)), SharedPart(), c, SorEvent(e))
    {
      if !WellTyped(e.domain, e.raw) {
        return;
      }
      var partial := AssembleDomain(e.domain, e.raw, e.id, e.now);
      var customer := CustomerRef(e.raw);
      if customer == None {
        return;
      }
      var cid := customer.value;
      var record := cache.ReadRecord(cid);
      if record.Some? {
        UpsertDomain(cid, e, partial, record.value);
      } else {
        ReceiveDomain(cid, e, partial);
      }
    }

    /** One sweep of the timeout checker. */
    method TimeoutCheck(now: int)
      requires Valid()
      modifies this`pending, cache
      ensures Valid()
      ensures forall c :: ViewOf(c) == StepView(old(ViewOf(c)), SharedPart(), c, Tick(now))
    {
      var todo := set c | c in pending && now >= pending[c].timeoutAt;
      while todo != {}
        invariant Valid() && fanouts == old(fanouts)
        invariant forall c :: c in todo ==> Expired(old(ViewOf(c)), now)
        invariant forall c :: ViewOf(c) == if c in todo then old(ViewOf(c)) else OnTick(old(ViewOf(c)), now)
      {
        var cid :| cid in todo;
        assert ViewOf(cid) == old(ViewOf(cid));
        assert cid in pending;
        WriteTimedOut(cid, now);
        todo := todo - {cid};
      }
    }

    method WriteTimedOut(cid: string, now: int)
      requires Valid() && Expired(ViewOf(cid), now)
      modifies this`pending, cache
      ensures Valid()
      ensures ViewOf(cid) == OnTick(old(ViewOf(cid)), now)
      ensures forall c :: c != cid ==> ViewOf(c) == old(ViewOf(c))
    {
      var pa := pending[cid];
      pending := pending - {cid};
      var partial: Dict := map[];
      if |pa.domains| > 1 {
        partial := MergeDomains(pa.domains, now);
      } else if |pa.domains| == 1 {
        partial := pa.domains[0].1;
      }
      partial := partial["assembly_state" := Str("partial_timed_out")]["missing_domains" := Arr(Missing(pa.domains))];
      assert partial == TimeoutBody(pa.domains, now);
      var _ := cache.WriteRecord(cid, partial);
    }

    /** A `product.catalogue.updated` event schedules a fan-out. */
    method ReceiveProductEvent(raw: Dict)
      requires Valid()
      modifies this`fanouts
      ensures Valid()
      ensures SharedPart() == StepShared(old(SharedPart()), ProductEvent(raw))
      ensures forall c :: ViewOf(c) == old(ViewOf(c))
    {
      var sku := EventSku(raw);
      if sku == None {
        return;
      }
      fanouts := fanouts + [sku.value];
    }

    /** A catalogue PATCH, whose event schedules a fan-out. */
    method ChangeProduct(sku: string, price: Option<real>, terms: Option<seq<int>>)
      requires Valid()
      modifies this`fanouts, catalogue`products
      ensures Valid()
      ensures SharedPart() == StepShared(old(SharedPart()), PriceChange(sku, price, terms))
      ensures forall c :: ViewOf(c) == old(ViewOf(c))
    {
      var status := catalogue.UpdateProduct(sku, price, terms);
      if status == 200 {
        ReceiveProductEvent(map["sku" := Str(sku)]);
      }
    }

    /** One scheduled fan-out runs: every holder of the SKU is enriched again. */
    method HandleProductUpdate(index: nat, now: int)
      requires Valid() && index < |fanouts|
      modifies this`fanouts, cache
      ensures Valid()
      ensures SharedPart() == StepShared(old(SharedPart()), FanOut(index, now))
      ensures forall c :: ViewOf(c) == StepView(old(ViewOf(c)), old(SharedPart()), c, FanOut(index, now))
    {
      var sku := fanouts[index];
      fanouts := fanouts[..index] + fanouts[index + 1..];
      var affected := set c | c in cache.store && HoldsSku(cache.store[c], sku);
      EnrichHolders(sku, affected, now);
    }

    ghost function FannedOut(v: View, sku: string, now: int): View
      reads catalogue
    {
      OnFanOut(v, sku, catalogue.products, now)
    }

    /** Enriches the affected customers one after the other. */
    method EnrichHolders(sku: string, affected: set<string>, now: int)
      requires Valid()
      requires forall c :: c in affected <==> ViewOf(c).tiers.hot.Some? && HoldsSku(ViewOf(c).tiers.hot.value, sku)
      modifies cache
      ensures Valid()
      ensures forall c :: ViewOf(c) == OnFanOut(old(ViewOf(c)), sku, catalogue.products, now)
    {
      var todo := affected;
      while todo != {}
        invariant Valid() && todo <= affected
        invariant forall c :: ViewOf(c) == if c in affected && c !in todo then FannedOut(old(ViewOf(c)), sku, now)
                                           else old(ViewOf(c))
      {
        var cid :| cid in todo;
        assert ViewOf(cid) == old(ViewOf(cid));
        EnrichHolder(cid, sku, now);
        todo := todo - {cid};
      }
    }

    method EnrichHolder(cid: string, sku: string, now: int)
      requires Valid() && ViewOf(cid).tiers.hot.Some? && HoldsSku(ViewOf(cid).tiers.hot.value, sku)
      modifies cache
      ensures Valid()
      ensures ViewOf(cid) == OnFanOut(old(ViewOf(cid)), sku, catalogue.products, now)
      ensures forall c :: c != cid ==> ViewOf(c) == old(ViewOf(c))
    {
      EnrichAndWrite(cid, now);
    }
  }

  lemma {:induction false} DeriveRaises(lines: seq<Json>, i: nat)
    requires i <= |lines| && forall j :: 0 <= j < |lines| ==> lines[j].Obj?
    requires Derive(lines[..i]) == Raised
    ensures Derive(lines) == Raised
    decreases |lines| - i
  {
    if i == |lines| {
      assert lines[..i] == lines;
    } else {
      assert lines[..i + 1][..i] == lines[..i];
      DeriveRaises(lines, i + 1);
    }
  }
}
