/** The invariant of the assembly service: what is held about a customer against the last event of each domain. */
module CdcInvariant {
  import opened Json
  import opened Seqs
  import opened Products
  import opened Ontology
  import opened CacheTheorems
  import opened Cdc

  /** The specification state of one customer: the last accepted event of each domain. */
  datatype Lasts = Lasts(customer: Option<Event>, billing: Option<Event>) {
    function Of(d: Domain): Option<Event> {
      if d == Customer then customer else billing
    }

    function Put(e: Event): Lasts {
      if e.domain == Customer then this.(customer := Some(e)) else this.(billing := Some(e))
    }

    predicate For(cid: string) {
      && (customer.Some? ==> customer.value.domain == Customer && Accepted(customer.value) && CustomerRef(customer.value.raw) == Some(cid))
      && (billing.Some? ==> billing.value.domain == Billing && Accepted(billing.value) && CustomerRef(billing.value.raw) == Some(cid))
    }
  }

  /** The fields of a line that enrichment writes. */
  const ENRICHED: set<string> := {"product_name", "product_type", "list_price_gbp", "available_terms_months"}

  /** The line is the mapped billing line, up to enriched fields if the catalogue knows its SKU. */
  predicate LineOk(line: Dict, mapped: Dict, products: Catalogue) {
    if ProductOf(products, mapped).None? then line == mapped else line - ENRICHED == mapped - ENRICHED
  }

  predicate LinesOk(lines: seq<Json>, mapped: seq<Json>, products: Catalogue) {
    && |lines| == |mapped|
    && forall i :: 0 <= i < |lines| ==> lines[i].Obj? && mapped[i].Obj? && LineOk(lines[i].fields, mapped[i].fields, products)
  }

  /** The line carries the catalogue's current fields, if the catalogue knows its SKU. */
  predicate LineCurrent(line: Dict, products: Catalogue) {
    EnrichLine(products, line) == line
  }

  const NO_SAVING: Json := DiscountSummary(Totals(map[], 0.0, 0.0))

  predicate GroupKeysOk(g: Dict) {
    && "subscriptions" in g && g["subscriptions"].Arr?
    && "_meta" in g && g["_meta"].Obj?
    && g.Keys <= {"subscriptions", "discount_summary", "_meta"}
  }

  /** The commercial group holds the lines of the event. */
  predicate CommercialOk(group: Json, e: Event, products: Catalogue) {
    && group.Obj? && GroupKeysOk(group.fields)
    && LinesOk(group.fields["subscriptions"].items, MappedLines(e.raw), products)
    && group.fields["_meta"].fields - {"assembled_at"} == Meta(Billing, e.now) - {"assembled_at"}
    && ("discount_summary" in group.fields ==> group.fields["discount_summary"] == NO_SAVING)
  }

  /** The state is `complete` exactly with both groups, and otherwise says that the other one is awaited or timed out. */
  predicate StateMatches(record: Dict, l: Lasts) {
    && "assembly_state" in record
    && (if l.customer.Some? && l.billing.Some? then record["assembly_state"] == Str("complete")
        else if l.customer.Some? then record["assembly_state"] in {Str("awaiting_billing"), Str("partial_timed_out")}
        else record["assembly_state"] in {Str("awaiting_customer"), Str("partial_timed_out")})
  }

  predicate RecordOk(record: Dict, l: Lasts, cid: string, products: Catalogue) {
    && Acceptable(record)
    && (l.customer.Some? || l.billing.Some?)
    && "customer_id" in record && record["customer_id"] == Str(cid)
    && ("profile" in record <==> l.customer.Some?)
    && ("commercial_state" in record <==> l.billing.Some?)
    && (l.customer.Some? ==> record["profile"] == Obj(Group(Customer, l.customer.value.raw, l.customer.value.now)))
    && (l.billing.Some? ==> CommercialOk(record["commercial_state"], l.billing.value, products))
    && StateMatches(record, l)
  }

  /** The lines of a complete record are current, save those whose product update has not fanned out yet. */
  predicate RecordCurrent(record: Dict, l: Lasts, sh: Shared) {
    l.customer.Some? && l.billing.Some? && "commercial_state" in record && record["commercial_state"].Obj?
    && GroupKeysOk(record["commercial_state"].fields) ==>
      var g := record["commercial_state"].fields;
      && "discount_summary" in g
      && forall i :: 0 <= i < |g["subscriptions"].items| && g["subscriptions"].items[i].Obj? ==>
           Stale(g["subscriptions"].items[i].fields, sh.fanouts) || LineCurrent(g["subscriptions"].items[i].fields, sh.products)
  }

  predicate Stale(line: Dict, fanouts: seq<string>) {
    exists sku :: sku in fanouts && Get(line, "product_id", Null) == Str(sku)
  }

  predicate PendingOk(pa: Pending, l: Lasts) {
    exists d ::
      && l.Of(d).Some? && l.Of(Other(d)).None?
      && pa.domains == [(d, PartialOf(l.Of(d).value))]
  }

  /** In exactly one place, or nowhere before the first event; both tiers equal. */
  predicate ViewOk(v: View, sh: Shared, l: Lasts, cid: string) {
    && l.For(cid)
    && v.tiers.hot == v.tiers.permanent
    && if v.tiers.hot.Some? then
         v.pending.None? && RecordOk(v.tiers.hot.value, l, cid, sh.products) && RecordCurrent(v.tiers.hot.value, l, sh)
       else if v.pending.Some? then PendingOk(v.pending.value, l)
       else l.customer.None? && l.billing.None?
  }

  // ---------------------------------------------------------------- mapped lines

  /** A mapped line never carries `monthly_charge`: the mapping renames it. */
  lemma MappedLineKeys(line: Json)
    ensures MappedLine(line).Obj? && "monthly_charge" !in MappedLine(line).fields
  {
    MappingKeys(LINE_MAPPINGS, if line.Obj? then line.fields else map[]);
  }

  lemma EnrichedLineOk(line: Dict, mapped: Dict, products: Catalogue)
    requires LineOk(line, mapped, products)
    ensures LineOk(EnrichLine(products, line), mapped, products)
    ensures LineCurrent(EnrichLine(products, line), products)
    ensures "monthly_charge" in line <==> "monthly_charge" in mapped
    ensures "monthly_charge" in EnrichLine(products, line) <==> "monthly_charge" in mapped
    ensures Get(line, "product_id", Null) == Get(mapped, "product_id", Null)
    ensures EnrichLine(products, line) == EnrichLine(products, mapped)
  {
    SameOutside(line, mapped, "product_id");
    SameOutside(line, mapped, "monthly_charge");
    var product := ProductOf(products, mapped);
    assert ProductOf(products, line) == product;
    if product.Some? {
      var out := line + ProductFields(product.value);
      assert ProductFields(product.value).Keys == ENRICHED;
      OverlayOutside(line, mapped, ProductFields(product.value));
      SameOutside(out, mapped, "product_id");
      SameOutside(out, mapped, "monthly_charge");
      assert out + ProductFields(product.value) == out;
    }
  }

  lemma SameOutside(a: Dict, b: Dict, k: string)
    requires k !in ENRICHED && (a == b || a - ENRICHED == b - ENRICHED)
    ensures k in a <==> k in b
    ensures k in a ==> a[k] == b[k]
  {
    assert k in a <==> k in a - ENRICHED;
    assert k in b <==> k in b - ENRICHED;
    if k in a {
      assert (a - ENRICHED)[k] == a[k];
      assert (b - ENRICHED)[k] == b[k];
    }
  }

  lemma OverlayOutside(a: Dict, b: Dict, overlay: Dict)
    requires overlay.Keys == ENRICHED && (a == b || a - ENRICHED == b - ENRICHED)
    ensures a + overlay == b + overlay
    ensures (a + overlay) - ENRICHED == b - ENRICHED
  {
    forall k
      ensures k in a + overlay <==> k in b + overlay
      ensures k in a + overlay ==> (a + overlay)[k] == (b + overlay)[k]
      ensures k in (a + overlay) - ENRICHED <==> k in b - ENRICHED
      ensures k in b - ENRICHED ==> (a + overlay)[k] == b[k]
    {
      if k !in ENRICHED {
        SameOutside(a, b, k);
      }
    }
    assert ((a + overlay) - ENRICHED).Keys == (b - ENRICHED).Keys;
  }

  lemma {:induction false} NothingDerived(lines: seq<Json>)
    requires forall i :: 0 <= i < |lines| ==> lines[i].Obj? && "monthly_charge" !in lines[i].fields
    ensures Derive(lines) == Ok(Totals(map[], 0.0, 0.0))
  {
    if lines != [] {
      NothingDerived(lines[..|lines| - 1]);
    }
  }

  lemma EnrichedLinesOk(lines: seq<Json>, raw: Dict, products: Catalogue)
    requires LinesOk(lines, MappedLines(raw), products)
    ensures LinesOk(EnrichLines(products, lines), MappedLines(raw), products)
    ensures forall i :: 0 <= i < |lines| ==> LineCurrent(EnrichLines(products, lines)[i].fields, products)
    ensures EnrichLines(products, lines) == EnrichLines(products, MappedLines(raw))
    ensures Derive(EnrichLines(products, lines)) == Ok(Totals(map[], 0.0, 0.0))
  {
    var mapped, out := MappedLines(raw), EnrichLines(products, lines);
    forall i | 0 <= i < |lines|
      ensures out[i].Obj? && LineOk(out[i].fields, mapped[i].fields, products) && LineCurrent(out[i].fields, products)
      ensures "monthly_charge" !in out[i].fields
      ensures out[i] == EnrichLines(products, mapped)[i]
    {
      MappedLineKeys(RawLines(raw)[i]);
      assert mapped[i] == MappedLine(RawLines(raw)[i]);
      EnrichedLineOk(lines[i].fields, mapped[i].fields, products);
    }
    NothingDerived(out);
  }

  // ---------------------------------------------------------------- accepted bodies

  lemma GroupAccepted(d: Domain, raw: Dict, now: int)
    ensures GroupOk(GroupName(d), Obj(Group(d, raw, now)))
  {
    if d == Customer {
      MappingKeys(CUSTOMER_MAPPINGS, raw);
    }
  }

  lemma GroupNames()
    ensures SetOf(GROUPS) == {"profile", "commercial_state"}
    ensures "profile" != "commercial_state"
    ensures CONTROL_FIELDS !! SetOf(GROUPS)
  {
  }

  lemma BodyAccepted(body: Dict)
    requires body.Keys <= CONTROL_FIELDS + {"profile", "commercial_state"}
    requires "profile" in body ==> GroupOk("profile", body["profile"])
    requires "commercial_state" in body ==> GroupOk("commercial_state", body["commercial_state"])
    requires "assembly_state" in body ==> StateOk(body["assembly_state"])
    ensures Accepts(body)
  {
  }

  /** What a partial consists of. */
  predicate ShapedLike(p: Dict, e: Event) {
    && p.Keys == {"customer_id", GroupName(e.domain), "assembled_at", "provenance"}
    && CustomerRef(e.raw).Some? && p["customer_id"] == Str(CustomerRef(e.raw).value)
    && p[GroupName(e.domain)] == Obj(Group(e.domain, e.raw, e.now))
    && p["assembled_at"] == Time(e.now)
  }

  lemma PartialShape(e: Event)
    requires Accepted(e)
    ensures ShapedLike(PartialOf(e), e)
    ensures PartialOf(e)["provenance"] == Provenance(e.domain, e.raw, e.id)
  {
  }
}
