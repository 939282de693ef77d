/** What a cached record shows of billing, of the customer and of the catalogue, field by field. */
module CachedFields {
  import opened Json
  import opened Products
  import opened Ontology
  import opened OntologyTheorems
  import opened Cache
  import opened Cdc
  import opened CdcInvariant
  import opened CdcSteps
  import opened CdcRuns

  /** The line shows the product's name, type, list price and terms. */
  predicate ShowsProduct(line: Dict, p: Product) {
    && "product_name" in line && line["product_name"] == Str(p.name)
    && "product_type" in line && line["product_type"] == Str(p.kind)
    && "list_price_gbp" in line && line["list_price_gbp"] == (if p.listPrice.Some? then Num(p.listPrice.value) else Null)
    && "available_terms_months" in line && line["available_terms_months"].Arr?
    && |line["available_terms_months"].items| == |p.terms|
    && forall k :: 0 <= k < |p.terms| ==> line["available_terms_months"].items[k] == Num(p.terms[k] as real)
  }

  /** The line shows no more of a product than the raw line does. */
  predicate ShowsNoProduct(raw: Dict, line: Dict) {
    Carried(raw, "list_price_gbp", line, "list_price_gbp") && line.Keys <= LINE_FIELDS
  }

  /** The product that the raw line names, if the catalogue knows it. */
  function NamedProduct(products: Catalogue, raw: Dict): Option<Product> {
    if "sku" in raw && raw["sku"].Str? && raw["sku"].s != "" && raw["sku"].s in products then Some(products[raw["sku"].s]) else None
  }

  predicate AwaitsFanOut(raw: Dict, fanouts: seq<string>) {
    "sku" in raw && raw["sku"].Str? && raw["sku"].s in fanouts
  }

  const CATALOGUE_FIELDS: set<string> := {"product_name", "product_type", "list_price_gbp", "available_terms_months"}

  /** The cached line of a raw line. */
  predicate CachedLineShows(raw: Dict, line: Dict, sh: Shared) {
    && LineCarried(raw, line) && line.Keys <= LINE_FIELDS + CATALOGUE_FIELDS
    && match NamedProduct(sh.products, raw)
       case None => ShowsNoProduct(raw, line)
       case Some(p) => AwaitsFanOut(raw, sh.fanouts) || ShowsProduct(line, p)
  }

  // ---------------------------------------------------------------- lines

  lemma SameCarried(raw: Dict, from: string, a: Dict, b: Dict, to: string)
    requires Carried(raw, from, b, to) && to !in ENRICHED && a - ENRICHED == b - ENRICHED
    ensures Carried(raw, from, a, to)
  {
    SameOutside(a, b, to);
  }

  /** What enrichment writes it does not take from the raw line. */
  lemma SameLineCarried(raw: Dict, a: Dict, b: Dict)
    requires LineCarried(raw, b) && a - ENRICHED == b - ENRICHED
    ensures LineCarried(raw, a)
  {
    SameCarried(raw, "sku", a, b, "product_id");
    SameOutside(a, b, "status");
    SameCarried(raw, "eff_from", a, b, "effective_date");
    SameCarried(raw, "monthly_charge", a, b, "monthly_charge_gbp");
    SameCarried(raw, "total_discount_pct", a, b, "total_discount_pct");
    SameCarried(raw, "applied_discounts", a, b, "applied_discounts");
    SameCarried(raw, "discount_code", a, b, "discount_code");
    SameCarried(raw, "contract_term_months", a, b, "contract_term_months");
    SameCarried(raw, "reason_code", a, b, "reason_code");
    SameCarried(raw, "reason_detail", a, b, "reason_detail");
  }

  /** Whatever record holds the lines of an event shows what its raw lines say. */
  lemma HeldLineShows(rec: Dict, e: Event, i: nat)
    requires HoldsLinesOf(rec, e) && i < |RawLines(e.raw)| && RawLines(e.raw)[i].Obj?
    ensures |rec["commercial_state"].fields["subscriptions"].items| == |RawLines(e.raw)|
    ensures LineCarried(RawLines(e.raw)[i].fields, rec["commercial_state"].fields["subscriptions"].items[i].fields)
  {
    var raw, line := RawLines(e.raw)[i].fields, rec["commercial_state"].fields["subscriptions"].items[i];
    MappedLineShows(raw);
    assert MappedLines(e.raw)[i] == MappedLine(Obj(raw));
    SameLineCarried(raw, line.fields, MappedLine(Obj(raw)).fields);
  }

  lemma ProductShown(line: Dict, p: Product)
    requires forall k :: k in ENRICHED ==> k in line && line[k] == ProductFields(p)[k]
    ensures ShowsProduct(line, p)
  {
    assert "product_name" in ENRICHED && "product_type" in ENRICHED && "list_price_gbp" in ENRICHED && "available_terms_months" in ENRICHED;
  }

  lemma NamedIsKnown(products: Catalogue, raw: Dict, line: Dict)
    requires LineCarried(raw, line)
    ensures ProductOf(products, line) == NamedProduct(products, raw)
    ensures forall fanouts :: Stale(line, fanouts) <==> AwaitsFanOut(raw, fanouts)
  {
  }

  lemma LineShows(raw: Dict, line: Dict, sh: Shared)
    requires LineCarried(raw, line) && line - ENRICHED == MappedLine(Obj(raw)).fields - ENRICHED
    requires LineAgrees(line, MappedLine(Obj(raw)), sh)
    ensures CachedLineShows(raw, line, sh)
  {
    MappedLineShows(raw);
    NamedIsKnown(sh.products, raw, line);
    KeysOutside(line, MappedLine(Obj(raw)).fields);
    match ProductOf(sh.products, line)
    case None =>
    case Some(p) =>
      if !Stale(line, sh.fanouts) {
        ProductShown(line, p);
      }
  }

  lemma KeysOutside(a: Dict, b: Dict)
    requires a - ENRICHED == b - ENRICHED && b.Keys <= LINE_FIELDS
    ensures a.Keys <= LINE_FIELDS + CATALOGUE_FIELDS
  {
    forall k | k in a
      ensures k in LINE_FIELDS + CATALOGUE_FIELDS
    {
      if k !in ENRICHED {
        SameOutside(a, b, k);
      }
    }
  }

  // ---------------------------------------------------------------- over every run

  /**
   * What a complete record shows, over every run: line by line the raw fields of the last accepted billing event, and
   * for each line whose SKU the catalogue knows and that awaits no fan-out the product's current name, type, list price
   * and terms; for a line whose SKU it does not know, nothing but the raw fields.
   */
  lemma CachedRecordShows(sh0: Shared, inputs: seq<Input>, cid: string)
    requires IsComplete(RunView(sh0, inputs, cid))
    ensures LastEvents(inputs, cid).billing.Some?
    ensures var rec, raw := RunView(sh0, inputs, cid).tiers.hot.value, LastEvents(inputs, cid).billing.value.raw;
            && "commercial_state" in rec && rec["commercial_state"].Obj? && "subscriptions" in rec["commercial_state"].fields
            && rec["commercial_state"].fields["subscriptions"].Arr?
            && var lines := rec["commercial_state"].fields["subscriptions"].items;
               && |lines| == (if "sub_lines" in raw && raw["sub_lines"].Arr? then |raw["sub_lines"].items| else 0)
               && forall i :: 0 <= i < |lines| ==>
                    && raw["sub_lines"].items[i].Obj? && lines[i].Obj?
                    && CachedLineShows(raw["sub_lines"].items[i].fields, lines[i].fields, RunShared(sh0, inputs))
  {
    CacheAgreesWithCatalogue(sh0, inputs, cid);
    RunKeepsInvariant(sh0, inputs, cid);
    var rec, e, sh := RunView(sh0, inputs, cid).tiers.hot.value, LastEvents(inputs, cid).billing.value, RunShared(sh0, inputs);
    assert WellTyped(Billing, e.raw);
    var lines := rec["commercial_state"].fields["subscriptions"].items;
    assert |lines| == |RawLines(e.raw)|;
    forall i | 0 <= i < |lines|
      ensures RawLines(e.raw)[i].Obj? && lines[i].Obj? && CachedLineShows(RawLines(e.raw)[i].fields, lines[i].fields, sh)
    {
      assert WellTypedLine(e.raw["sub_lines"].items[i]);
      OneLineShows(rec, e, sh, i);
    }
  }

  lemma OneLineShows(rec: Dict, e: Event, sh: Shared, i: nat)
    requires HoldsLinesOf(rec, e) && AgreesWithCatalogue(rec, e, sh)
    requires i < |RawLines(e.raw)| && RawLines(e.raw)[i].Obj?
    ensures i < |rec["commercial_state"].fields["subscriptions"].items|
    ensures CachedLineShows(RawLines(e.raw)[i].fields, rec["commercial_state"].fields["subscriptions"].items[i].fields, sh)
  {
    var line, raw := rec["commercial_state"].fields["subscriptions"].items[i], RawLines(e.raw)[i].fields;
    HeldLineShows(rec, e, i);
    assert MappedLines(e.raw)[i] == MappedLine(Obj(raw));
    LineShows(raw, line.fields, sh);
  }

  /** The profile of any cached record shows the last accepted CRM event. */
  lemma CachedProfileShows(sh0: Shared, inputs: seq<Input>, cid: string)
    requires RunView(sh0, inputs, cid).tiers.hot.Some? && LastEvents(inputs, cid).customer.Some?
    ensures var rec, e := RunView(sh0, inputs, cid).tiers.hot.value, LastEvents(inputs, cid).customer.value;
            && "profile" in rec && rec["profile"].Obj?
            && var g := rec["profile"].fields;
               && ProfileCarried(e.raw, g)
               && "full_name" in g && g["full_name"].Str?
               && Trimmed(NamePart(e.raw, "first_nm") + " " + NamePart(e.raw, "last_nm"), g["full_name"].s)
               && "_meta" in g
               && g["_meta"] == Obj(map["assembled_at" := Time(e.now), "source_system" := Str("crm-sor"),
                                        "ttl_seconds" := Num(3600.0), "consistency_class" := Str("eventual")])
  {
    LatestWins(sh0, inputs, cid);
    var e := LastEvents(inputs, cid).customer.value;
    CustomerPartialShows(e.raw, e.id, e.now);
    CustomerPartialParts(e.raw, e.id, e.now);
  }

  // ---------------------------------------------------------------- what an enrichment writes beside the lines

  /** An enrichment restamps the group and keeps its origin and freshness. */
  lemma EnrichmentStamps(rec: Dict, l: Lasts, cid: string, sh: Shared, now: int)
    requires RecordOk(rec, l, cid, sh.products) && l.For(cid) && l.billing.Some?
    ensures var t := Enrich(Tiers(Some(rec), Some(rec)), sh.products, now);
            && t.hot.Some? && "commercial_state" in t.hot.value && t.hot.value["commercial_state"].Obj?
            && "_meta" in t.hot.value["commercial_state"].fields
            && t.hot.value["commercial_state"].fields["_meta"] ==
               Obj(map["assembled_at" := Time(now), "source_system" := Str("billing-sor"),
                       "ttl_seconds" := Num(300.0), "consistency_class" := Str("strong")])
  {
    EnrichExact(rec, l, cid, sh, now);
    EnrichBodyShape(rec, l, cid, sh.products, now);
    var body := EnrichBody(rec, sh.products, now).value;
    StoredAt(rec, body, "commercial_state");
    MetaRestamped(rec["commercial_state"].fields["_meta"].fields, l.billing.value.now, now);
  }

  lemma MetaRestamped(meta: Dict, was: int, now: int)
    requires meta - {"assembled_at"} == Meta(Billing, was) - {"assembled_at"}
    ensures meta["assembled_at" := Time(now)] ==
            map["assembled_at" := Time(now), "source_system" := Str("billing-sor"),
                "ttl_seconds" := Num(300.0), "consistency_class" := Str("strong")]
  {
    assert meta["assembled_at" := Time(now)] == (meta - {"assembled_at"})["assembled_at" := Time(now)];
  }
}
