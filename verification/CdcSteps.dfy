/** Every atomic step of the assembly service keeps the invariant of every customer. */
module CdcSteps {
  import opened Json
  import opened Products
  import opened Ontology
  import opened Cache
  import opened CacheTheorems
  import opened Cdc
  import opened CdcInvariant

  // ---------------------------------------------------------------- a freshly assembled group

  lemma FreshCommercial(e: Event, products: Catalogue)
    requires e.domain == Billing
    ensures CommercialOk(Obj(Group(Billing, e.raw, e.now)), e, products)
  {
  }

  /** Storing an accepted body over a record: the body's fields win, the rest stays. */
  lemma StoredAt(rec: Dict, body: Dict, k: string)
    requires MergeHint(body) && k != "version"
    ensures var stored, data := Stored(Some(rec), body), DataOf(body);
            && (k in stored <==> k in rec || k in data)
            && (k in data ==> stored[k] == data[k])
            && (k in rec && k !in data ==> stored[k] == rec[k])
  {
  }

  /** Storing a body where nothing is stored yet. */
  lemma StoredFirstAt(body: Dict, k: string)
    requires k != "version"
    ensures k in Stored(None, body) <==> k in DataOf(body)
    ensures k in DataOf(body) ==> Stored(None, body)[k] == DataOf(body)[k]
  {
  }

  // ---------------------------------------------------------------- cache hit

  lemma HintRemoved(data: Dict, hint: string)
    requires "_merge_domain" !in data && hint != ""
    ensures var body := data["_merge_domain" := Str(hint)];
            MergeHint(body) && DataOf(body) == data
  {
  }

  lemma StatedPartial(p: Dict, e: Event, state: string)
    requires ShapedLike(p, e) && state in ASSEMBLY_STATES
    ensures var data := p["assembly_state" := Str(state)];
            "_merge_domain" !in data && Accepts(data)
  {
    GroupAccepted(e.domain, e.raw, e.now);
    BodyAccepted(p["assembly_state" := Str(state)]);
  }

  lemma UpsertBodyShape(rec: Dict, e: Event)
    requires Accepted(e)
    ensures var body := UpsertBody(rec, e);
            && MergeHint(body) && Accepts(DataOf(body))
            && DataOf(body) == PartialOf(e)["assembly_state" := Str(NewState(rec, e.domain))]
  {
    PartialShape(e);
    StatedPartial(PartialOf(e), e, NewState(rec, e.domain));
    HintRemoved(PartialOf(e)["assembly_state" := Str(NewState(rec, e.domain))], DomainName(e.domain));
  }

  /** A record in order, with the group of an event and its state written over. */
  lemma OverwrittenRecordOk(rec: Dict, l: Lasts, cid: string, products: Catalogue, e: Event, p: Dict, stored: Dict)
    requires RecordOk(rec, l, cid, products) && l.For(cid) && Acceptable(stored)
    requires ShapedLike(p, e) && CustomerRef(e.raw) == Some(cid)
    requires var data := p["assembly_state" := Str(NewState(rec, e.domain))];
             forall k :: k in {"customer_id", "profile", "commercial_state", "assembly_state"} ==>
               && (k in stored <==> k in rec || k in data)
               && (k in data ==> stored[k] == data[k])
               && (k in rec && k !in data ==> stored[k] == rec[k])
    ensures RecordOk(stored, l.Put(e), cid, products)
    ensures NewState(rec, e.domain) == "complete" <==> l.Put(e).customer.Some? && l.Put(e).billing.Some?
  {
    GroupNames();
    if e.domain == Billing {
      FreshCommercial(e, products);
    }
  }

  lemma UpsertStored(rec: Dict, l: Lasts, cid: string, products: Catalogue, e: Event)
    requires RecordOk(rec, l, cid, products) && l.For(cid)
    requires Accepted(e) && CustomerRef(e.raw) == Some(cid)
    ensures var body := UpsertBody(rec, e);
            && MergeHint(body) && Accepts(DataOf(body))
            && RecordOk(Stored(Some(rec), body), l.Put(e), cid, products)
            && (NewState(rec, e.domain) == "complete" <==> l.Put(e).customer.Some? && l.Put(e).billing.Some?)
  {
    var body := UpsertBody(rec, e);
    UpsertBodyShape(rec, e);
    PartialShape(e);
    MergeAcceptable(Some(rec), body);
    forall k | k in {"customer_id", "profile", "commercial_state", "assembly_state"}
      ensures var data := DataOf(body);
              && (k in Stored(Some(rec), body) <==> k in rec || k in data)
              && (k in data ==> Stored(Some(rec), body)[k] == data[k])
              && (k in rec && k !in data ==> Stored(Some(rec), body)[k] == rec[k])
    {
      StoredAt(rec, body, k);
    }
    OverwrittenRecordOk(rec, l, cid, products, e, PartialOf(e), Stored(Some(rec), body));
  }

  // ---------------------------------------------------------------- enrichment

  lemma EnrichBodyShape(rec: Dict, l: Lasts, cid: string, products: Catalogue, now: int)
    requires RecordOk(rec, l, cid, products) && l.For(cid) && l.billing.Some?
    ensures var lines := EnrichLines(products, MappedLines(l.billing.value.raw));
            var group := rec["commercial_state"].fields;
            EnrichBody(rec, products, now) == Some(
              map["commercial_state" := Obj(EnrichedGroup(group, lines, Totals(map[], 0.0, 0.0), group["_meta"].fields, now)),
                  "_merge_domain" := Str("enrichment")])
  {
    var raw := l.billing.value.raw;
    var group := rec["commercial_state"].fields;
    EnrichedLinesOk(group["subscriptions"].items, raw, products);
    assert "subscriptions" in group;
  }

  lemma EnrichedGroupOk(group: Dict, e: Event, products: Catalogue, now: int)
    requires CommercialOk(Obj(group), e, products)
    ensures var lines := EnrichLines(products, MappedLines(e.raw));
            var out := EnrichedGroup(group, lines, Totals(map[], 0.0, 0.0), group["_meta"].fields, now);
            && CommercialOk(Obj(out), e, products)
            && out["subscriptions"] == Arr(lines)
            && "discount_summary" in out
            && (forall i :: 0 <= i < |lines| ==> LineCurrent(lines[i].fields, products))
            && GroupOk("commercial_state", Obj(out))
  {
    EnrichedLinesOk(group["subscriptions"].items, e.raw, products);
    var meta := group["_meta"].fields;
    assert meta["assembled_at" := Time(now)] - {"assembled_at"} == meta - {"assembled_at"};
    assert |"profile"| != |"commercial_state"|;
  }

  /**
   * Enrichment of a record that is in order: it succeeds, its PUT is accepted, it changes nothing but the
   * commercial group and the version, and in the group nothing but the lines, which become the mapped
   * billing lines with the catalogue's current fields, the derived summary and the timestamp.
   */
  lemma EnrichExact(rec: Dict, l: Lasts, cid: string, sh: Shared, now: int)
    requires RecordOk(rec, l, cid, sh.products) && l.For(cid) && l.billing.Some?
    ensures EnrichBody(rec, sh.products, now).Some?
    ensures var body := EnrichBody(rec, sh.products, now).value;
            var stored := Stored(Some(rec), body);
            && MergeHint(body) && Accepts(DataOf(body))
            && RecordOk(stored, l, cid, sh.products) && RecordCurrent(stored, l, sh)
            && (forall k :: k != "version" && k != "commercial_state" ==> (k in stored <==> k in rec) && (k in rec ==> stored[k] == rec[k]))
            && stored["commercial_state"].fields["subscriptions"] == Arr(EnrichLines(sh.products, MappedLines(l.billing.value.raw)))
            && "discount_summary" in stored["commercial_state"].fields
  {
    var e := l.billing.value;
    EnrichBodyShape(rec, l, cid, sh.products, now);
    var group := rec["commercial_state"].fields;
    EnrichedGroupOk(group, e, sh.products, now);
    var body := EnrichBody(rec, sh.products, now).value;
    var stored := Stored(Some(rec), body);
    assert body == map["commercial_state" := body["commercial_state"]]["_merge_domain" := Str("enrichment")];
    HintRemoved(map["commercial_state" := body["commercial_state"]], "enrichment");
    BodyAccepted(DataOf(body));
    MergeAcceptable(Some(rec), body);
    StoredAt(rec, body, "commercial_state");
    forall k | k != "version" && k != "commercial_state"
      ensures (k in stored <==> k in rec) && (k in rec ==> stored[k] == rec[k])
    {
      StoredAt(rec, body, k);
    }
    EnrichedRecordOk(rec, stored, l, cid, sh);
  }

  /** Only the commercial group and the version of a record in order were replaced. */
  lemma EnrichedRecordOk(rec: Dict, stored: Dict, l: Lasts, cid: string, sh: Shared)
    requires RecordOk(rec, l, cid, sh.products) && l.billing.Some? && Acceptable(stored)
    requires forall k :: k != "version" && k != "commercial_state" ==> (k in stored <==> k in rec) && (k in rec ==> stored[k] == rec[k])
    requires "commercial_state" in stored && CommercialOk(stored["commercial_state"], l.billing.value, sh.products)
    requires "discount_summary" in stored["commercial_state"].fields
    requires var lines := stored["commercial_state"].fields["subscriptions"].items;
             forall i :: 0 <= i < |lines| ==> LineCurrent(lines[i].fields, sh.products)
    ensures RecordOk(stored, l, cid, sh.products) && RecordCurrent(stored, l, sh)
  {
  }

  lemma EnrichView(t: Tiers, l: Lasts, cid: string, sh: Shared, now: int)
    requires t.hot.Some? && t.hot == t.permanent && l.For(cid) && l.billing.Some?
    requires RecordOk(t.hot.value, l, cid, sh.products)
    ensures var t' := Enrich(t, sh.products, now);
            && t'.hot.Some? && t'.hot == t'.permanent
            && RecordOk(t'.hot.value, l, cid, sh.products) && RecordCurrent(t'.hot.value, l, sh)
  {
    EnrichExact(t.hot.value, l, cid, sh, now);
  }

  // ---------------------------------------------------------------- cache miss

  lemma MergedPair(a: (Domain, Dict), b: (Domain, Dict))
    ensures MergedFields([a, b]) == (a.1 - {"provenance", "assembled_at"}) + (b.1 - {"provenance", "assembled_at"})
  {
    assert [a, b][..1] == [a];
    assert [a][..0] == [];
    assert MergedFields([a]) == MergedFields([]) + (a.1 - {"provenance", "assembled_at"});
  }

  lemma OverlaidShapes(first: Event, second: Event, p: Dict, q: Dict)
    requires second.domain == Other(first.domain) && CustomerRef(first.raw) == CustomerRef(second.raw)
    requires ShapedLike(p, first) && ShapedLike(q, second)
    ensures var fields := (p - {"provenance", "assembled_at"}) + (q - {"provenance", "assembled_at"});
            && fields.Keys == {"customer_id", "profile", "commercial_state"}
            && fields["customer_id"] == Str(CustomerRef(first.raw).value)
            && fields[GroupName(first.domain)] == Obj(Group(first.domain, first.raw, first.now))
            && fields[GroupName(second.domain)] == Obj(Group(second.domain, second.raw, second.now))
  {
    GroupNames();
    var a, b := p - {"provenance", "assembled_at"}, q - {"provenance", "assembled_at"};
    assert a.Keys == {"customer_id", GroupName(first.domain)};
    assert b.Keys == {"customer_id", GroupName(second.domain)};
  }

  lemma MergedPairShape(first: Event, second: Event)
    requires Accepted(first) && Accepted(second) && second.domain == Other(first.domain)
    requires CustomerRef(first.raw) == CustomerRef(second.raw)
    ensures var fields := MergedFields([(first.domain, PartialOf(first)), (second.domain, PartialOf(second))]);
            && fields.Keys == {"customer_id", "profile", "commercial_state"}
            && fields["customer_id"] == Str(CustomerRef(first.raw).value)
            && fields[GroupName(first.domain)] == Obj(Group(first.domain, first.raw, first.now))
            && fields[GroupName(second.domain)] == Obj(Group(second.domain, second.raw, second.now))
  {
    PartialShape(first);
    PartialShape(second);
    MergedPair((first.domain, PartialOf(first)), (second.domain, PartialOf(second)));
    OverlaidShapes(first, second, PartialOf(first), PartialOf(second));
  }

  /** The join of the two partials of a customer, whichever came first. */
  lemma JoinBodyShape(first: Event, second: Event, now: int)
    requires Accepted(first) && Accepted(second) && second.domain == Other(first.domain)
    requires CustomerRef(first.raw) == CustomerRef(second.raw)
    ensures var body := JoinBody([(first.domain, PartialOf(first)), (second.domain, PartialOf(second))], now);
            && !MergeHint(body) && DataOf(body) == body && Accepts(body)
            && body.Keys == CONTROL_FIELDS + {"profile", "commercial_state"}
            && body["customer_id"] == Str(CustomerRef(first.raw).value)
            && body["assembly_state"] == Str("complete") && body["missing_domains"] == Arr([])
            && body[GroupName(first.domain)] == Obj(Group(first.domain, first.raw, first.now))
            && body[GroupName(second.domain)] == Obj(Group(second.domain, second.raw, second.now))
  {
    var ds := [(first.domain, PartialOf(first)), (second.domain, PartialOf(second))];
    GroupAccepted(first.domain, first.raw, first.now);
    GroupAccepted(second.domain, second.raw, second.now);
    MergedPairShape(first, second);
    CompleteBody(MergedFields(ds), Merged(ds, now)["assembled_at"], Merged(ds, now)["provenance"]);
  }

  /** Merged fields of both groups, with the control fields of a join. */
  lemma CompleteBody(fields: Dict, at: Json, provenance: Json)
    requires fields.Keys == {"customer_id", "profile", "commercial_state"}
    requires GroupOk("profile", fields["profile"]) && GroupOk("commercial_state", fields["commercial_state"])
    ensures var body := fields["assembled_at" := at]["provenance" := provenance]
                              ["assembly_state" := Str("complete")]["missing_domains" := Arr([])];
            && !MergeHint(body) && DataOf(body) == body && Accepts(body)
            && body.Keys == CONTROL_FIELDS + {"profile", "commercial_state"}
            && body["assembly_state"] == Str("complete") && body["missing_domains"] == Arr([])
            && forall k :: k in fields ==> body[k] == fields[k]
  {
    var body := fields["assembled_at" := at]["provenance" := provenance]
                      ["assembly_state" := Str("complete")]["missing_domains" := Arr([])];
    assert "_merge_domain" !in body;
    assert DataOf(body) == body;
    BodyAccepted(body);
  }

  lemma JoinStored(first: Event, second: Event, now: int, cid: string, products: Catalogue)
    requires Accepted(first) && Accepted(second) && second.domain == Other(first.domain)
    requires CustomerRef(first.raw) == CustomerRef(second.raw) == Some(cid)
    ensures var body := JoinBody([(first.domain, PartialOf(first)), (second.domain, PartialOf(second))], now);
            var l := Lasts(None, None).Put(first).Put(second);
            && !MergeHint(body) && Accepts(DataOf(body))
            && RecordOk(Stored(None, body), l, cid, products)
  {
    JoinBodyShape(first, second, now);
    var body := JoinBody([(first.domain, PartialOf(first)), (second.domain, PartialOf(second))], now);
    MergeAcceptable(None, body);
    StoredFirstAt(body, "customer_id");
    StoredFirstAt(body, "profile");
    StoredFirstAt(body, "commercial_state");
    StoredFirstAt(body, "assembly_state");
    if first.domain == Billing {
      FreshCommercial(first, products);
    } else {
      FreshCommercial(second, products);
    }
  }

  lemma TimedOutBody(p: Dict, e: Event, missing: Json)
    requires ShapedLike(p, e)
    ensures var body := p["assembly_state" := Str("partial_timed_out")]["missing_domains" := missing];
            !MergeHint(body) && DataOf(body) == body && Accepts(body)
  {
    var body := p["assembly_state" := Str("partial_timed_out")]["missing_domains" := missing];
    GroupAccepted(e.domain, e.raw, e.now);
    PlainBody(body, p);
    BodyAccepted(body);
  }

  /** Two control fields over a partial add no hint. */
  lemma PlainBody(body: Dict, p: Dict)
    requires body.Keys == p.Keys + {"assembly_state", "missing_domains"} && "_merge_domain" !in p
    ensures !MergeHint(body) && DataOf(body) == body
  {
    assert |"_merge_domain"| == 13 && |"assembly_state"| == 14 && |"missing_domains"| == 15;
    assert "_merge_domain" !in body;
  }

  lemma TimeoutBodyShape(e: Event, now: int)
    requires Accepted(e)
    ensures var ds := [(e.domain, PartialOf(e))];
            var body := TimeoutBody(ds, now);
            && Missing(ds) == [Str(DomainName(Other(e.domain)))]
            && body == PartialOf(e)["assembly_state" := Str("partial_timed_out")]["missing_domains" := Arr(Missing(ds))]
            && !MergeHint(body) && DataOf(body) == body && Accepts(body)
  {
    var ds := [(e.domain, PartialOf(e))];
    PartialShape(e);
    assert ds[0].0 == e.domain && HasDomain(ds, e.domain) && !HasDomain(ds, Other(e.domain));
    TimedOutBody(PartialOf(e), e, Arr(Missing(ds)));
  }

  lemma TimeoutStored(e: Event, now: int, cid: string, products: Catalogue)
    requires Accepted(e) && CustomerRef(e.raw) == Some(cid)
    ensures var body := TimeoutBody([(e.domain, PartialOf(e))], now);
            && !MergeHint(body) && Accepts(DataOf(body))
            && RecordOk(Stored(None, body), Lasts(None, None).Put(e), cid, products)
  {
    TimeoutBodyShape(e, now);
    PartialShape(e);
    GroupNames();
    var body := TimeoutBody([(e.domain, PartialOf(e))], now);
    MergeAcceptable(None, body);
    StoredFirstAt(body, "customer_id");
    StoredFirstAt(body, "profile");
    StoredFirstAt(body, "commercial_state");
    StoredFirstAt(body, "assembly_state");
    if e.domain == Billing {
      FreshCommercial(e, products);
    }
  }

  // ---------------------------------------------------------------- steps

  /** The specification of an input for one customer. */
  function StepLasts(l: Lasts, cid: string, input: Input): Lasts {
    if input.SorEvent? && Accepted(input.e) && CustomerRef(input.e.raw) == Some(cid) then l.Put(input.e) else l
  }

  lemma UpsertKeeps(v: View, sh: Shared, l: Lasts, cid: string, e: Event)
    requires ViewOk(v, sh, l, cid) && v.tiers.hot.Some?
    requires Accepted(e) && CustomerRef(e.raw) == Some(cid)
    ensures ViewOk(Upsert(v, e, sh.products), sh, l.Put(e), cid)
  {
    var rec := v.tiers.hot.value;
    UpsertStored(rec, l, cid, sh.products, e);
    var t := Put(v.tiers, UpsertBody(rec, e)).value;
    if NewState(rec, e.domain) == "complete" {
      EnrichView(t, l.Put(e), cid, sh, e.now);
    }
  }

  lemma PutDomainPair(d: Domain, p: Dict, e: Event)
    ensures PutDomain([(d, p)], e.domain, PartialOf(e)) ==
            if e.domain == d then [(d, PartialOf(e))] else [(d, p), (e.domain, PartialOf(e))]
    ensures AllDomains(PutDomain([(d, p)], e.domain, PartialOf(e))) <==> e.domain != d
  {
    var out := PutDomain([(d, p)], e.domain, PartialOf(e));
    assert [(d, p)][1..] == [];
    assert PutDomain([], e.domain, PartialOf(e)) == [(e.domain, PartialOf(e))];
    if e.domain != d {
      assert out == [(d, p), (e.domain, PartialOf(e))];
      assert out[0].0 == d && out[1].0 == e.domain;
    } else {
      assert out == [(d, PartialOf(e))];
    }
  }

  lemma ReceiveKeeps(v: View, sh: Shared, l: Lasts, cid: string, e: Event)
    requires ViewOk(v, sh, l, cid) && v.tiers.hot.None?
    requires Accepted(e) && CustomerRef(e.raw) == Some(cid)
    ensures ViewOk(Receive(v, e, sh.products), sh, l.Put(e), cid)
  {
    var l' := l.Put(e);
    match v.pending
    case None =>
      assert l'.Of(e.domain) == Some(e) && l'.Of(Other(e.domain)) == None;
    case Some(pa) =>
      var d :| l.Of(d).Some? && l.Of(Other(d)).None? && pa.domains == [(d, PartialOf(l.Of(d).value))];
      var first := l.Of(d).value;
      PutDomainPair(d, PartialOf(first), e);
      if e.domain == d {
        assert l'.Of(d) == Some(e) && l'.Of(Other(d)) == None;
      } else {
        JoinStored(first, e, e.now, cid, sh.products);
        assert l' == Lasts(None, None).Put(first).Put(e);
        var t := Put(v.tiers, JoinBody(PutDomain(pa.domains, e.domain, PartialOf(e)), e.now)).value;
        EnrichView(t, l', cid, sh, e.now);
      }
  }

  lemma TickKeeps(v: View, sh: Shared, l: Lasts, cid: string, now: int)
    requires ViewOk(v, sh, l, cid)
    ensures ViewOk(OnTick(v, now), sh, l, cid)
  {
    if Expired(v, now) {
      var pa := v.pending.value;
      var d :| l.Of(d).Some? && l.Of(Other(d)).None? && pa.domains == [(d, PartialOf(l.Of(d).value))];
      var e := l.Of(d).value;
      TimeoutStored(e, now, cid, sh.products);
      assert l == Lasts(None, None).Put(e);
    }
  }

  lemma PriceChangeKeeps(v: View, sh: Shared, l: Lasts, cid: string, sku: string, price: Option<real>, terms: Option<seq<int>>)
    requires ViewOk(v, sh, l, cid)
    ensures ViewOk(v, StepShared(sh, PriceChange(sku, price, terms)), l, cid)
  {
    var sh' := StepShared(sh, PriceChange(sku, price, terms));
    if v.tiers.hot.Some? && l.billing.Some? && sh' != sh {
      var rec := v.tiers.hot.value;
      var items := rec["commercial_state"].fields["subscriptions"].items;
      assert sh'.products.Keys == sh.products.Keys;
      forall i | 0 <= i < |items|
        ensures LineOk(items[i].fields, MappedLines(l.billing.value.raw)[i].fields, sh'.products)
        ensures Stale(items[i].fields, sh.fanouts) ==> Stale(items[i].fields, sh'.fanouts)
        ensures LineCurrent(items[i].fields, sh.products) ==>
                  Stale(items[i].fields, sh'.fanouts) || LineCurrent(items[i].fields, sh'.products)
      {
        if Get(items[i].fields, "product_id", Null) == Str(sku) && sku != "" {
          assert sku in sh'.fanouts;
        }
        if Stale(items[i].fields, sh.fanouts) {
          var s :| s in sh.fanouts && Get(items[i].fields, "product_id", Null) == Str(s);
          assert s in sh'.fanouts;
        }
      }
    }
  }

  /** More outstanding fan-outs excuse more lines. */
  lemma StaleStays(rec: Dict, sh: Shared, l: Lasts, sh': Shared)
    requires RecordCurrent(rec, l, sh) && sh'.products == sh.products
    requires forall sku :: sku in sh.fanouts ==> sku in sh'.fanouts
    ensures RecordCurrent(rec, l, sh')
  {
    assert forall line :: Stale(line, sh.fanouts) ==> Stale(line, sh'.fanouts);
  }

  lemma ProductEventKeeps(v: View, sh: Shared, l: Lasts, cid: string, raw: Dict)
    requires ViewOk(v, sh, l, cid)
    ensures ViewOk(v, StepShared(sh, ProductEvent(raw)), l, cid)
  {
    if v.tiers.hot.Some? {
      StaleStays(v.tiers.hot.value, sh, l, StepShared(sh, ProductEvent(raw)));
    }
  }

  lemma FanOutKeeps(v: View, sh: Shared, l: Lasts, cid: string, index: nat, now: int)
    requires ViewOk(v, sh, l, cid) && index < |sh.fanouts|
    ensures ViewOk(OnFanOut(v, sh.fanouts[index], sh.products, now), StepShared(sh, FanOut(index, now)), l, cid)
  {
    if v.tiers.hot.Some? {
      if HoldsSku(v.tiers.hot.value, sh.fanouts[index]) {
        HolderKeeps(v, sh, l, cid, StepShared(sh, FanOut(index, now)), now);
      } else if l.billing.Some? {
        NonHolderKeeps(v.tiers.hot.value, sh, l, cid, index, now);
      }
    }
  }

  lemma HolderKeeps(v: View, sh: Shared, l: Lasts, cid: string, sh': Shared, now: int)
    requires ViewOk(v, sh, l, cid) && v.tiers.hot.Some? && l.billing.Some? && sh'.products == sh.products
    ensures ViewOk(v.(tiers := Enrich(v.tiers, sh.products, now)), sh', l, cid)
  {
    EnrichView(v.tiers, l, cid, sh', now);
  }

  lemma NonHolderKeeps(rec: Dict, sh: Shared, l: Lasts, cid: string, index: nat, now: int)
    requires RecordOk(rec, l, cid, sh.products) && RecordCurrent(rec, l, sh) && l.billing.Some?
    requires index < |sh.fanouts| && !HoldsSku(rec, sh.fanouts[index])
    ensures RecordCurrent(rec, l, StepShared(sh, FanOut(index, now)))
  {
    var items := rec["commercial_state"].fields["subscriptions"].items;
    forall i | 0 <= i < |items| && Stale(items[i].fields, sh.fanouts)
      ensures Stale(items[i].fields, sh.fanouts[..index] + sh.fanouts[index + 1..])
    {
      assert Get(items[i].fields, "product_id", Null) != Str(sh.fanouts[index]);
      StaleElsewhere(items[i].fields, sh.fanouts, index);
    }
  }

  /** A stale line that does not hold the SKU of one fan-out is stale for another. */
  lemma StaleElsewhere(line: Dict, fanouts: seq<string>, index: nat)
    requires index < |fanouts| && Stale(line, fanouts)
    requires Get(line, "product_id", Null) != Str(fanouts[index])
    ensures Stale(line, fanouts[..index] + fanouts[index + 1..])
  {
  }

  /** Any input keeps the invariant of any customer. */
  lemma StepKeeps(v: View, sh: Shared, l: Lasts, cid: string, input: Input)
    requires ViewOk(v, sh, l, cid)
    ensures ViewOk(StepView(v, sh, cid, input), StepShared(sh, input), StepLasts(l, cid, input), cid)
  {
    match input
    case SorEvent(e) =>
      if Accepted(e) && CustomerRef(e.raw) == Some(cid) {
        if v.tiers.hot.Some? {
          UpsertKeeps(v, sh, l, cid, e);
        } else {
          ReceiveKeeps(v, sh, l, cid, e);
        }
      }
    case Tick(now) => TickKeeps(v, sh, l, cid, now);
    case PriceChange(sku, price, terms) => PriceChangeKeeps(v, sh, l, cid, sku, price, terms);
    case ProductEvent(raw) => ProductEventKeeps(v, sh, l, cid, raw);
    case FanOut(index, now) =>
      if index < |sh.fanouts| {
        FanOutKeeps(v, sh, l, cid, index, now);
      }
  }
}
