/** The services together: billing emits, assembly stores, the offer engine reads, the broker checks. */
module Pipeline {
  import opened Json
  import opened Rules
  import opened Products
  import opened Graphs
  import opened Ontology
  import opened Cdc
  import opened CdcInvariant
  import opened CdcRuns
  import opened OfferEngine
  import opened OfferTheorems
  import B = Billing
  import Cat = CatalogueService

  function OptionalNumber(key: string, value: Option<real>): Dict {
    if value.Some? then map[key := Num(value.value)] else map[]
  }

  function RawDiscounts(ds: seq<B.Discount>): Json {
    Arr(seq(|ds|, i requires 0 <= i < |ds| =>
      Obj(map["policy_id" := Str(ds[i].id), "discount_pct" := Num(ds[i].pct), "reason" := Str(ds[i].reason)])))
  }

  /** The reason of the last status change; the detail may be null. */
  function RawReason(l: B.SubLine): Dict {
    if l.reasonCode.None? then map[]
    else map["reason_code" := Str(B.ReasonText(l.reasonCode.value)),
             "reason_detail" := if l.reasonDetail.Some? then Str(l.reasonDetail.value) else Null]
  }

  /** What a line always has, and what it has only with a value. */
  function FixedFields(l: B.SubLine): Dict {
    map["sku" := Str(l.sku), "stat" := Str(l.stat), "eff_from" := Str(l.effFrom),
        "total_discount_pct" := Num(l.totalPct), "applied_discounts" := RawDiscounts(l.applied)]
  }

  function OptionalFields(l: B.SubLine): (d: Dict)
    ensures "sku" !in d && "stat" !in d
  {
    OptionalNumber("list_price_gbp", l.listPrice) + OptionalNumber("monthly_charge", l.charge)
    + OptionalNumber("contract_term_months", if l.term.Some? then Some(l.term.value as real) else None)
    + RawReason(l)
  }

  /** A subscription line as billing emits it. */
  function RawLine(l: B.SubLine): Json {
    Obj(FixedFields(l) + OptionalFields(l))
  }

  /** The raw record of a billing event. */
  function RawRecord(cid: string, lines: seq<B.SubLine>): Dict {
    map["cust_ref" := Str(cid), "sub_lines" := Arr(seq(|lines|, i requires 0 <= i < |lines| => RawLine(lines[i])))]
  }

  lemma RawLineFields(l: B.SubLine)
    ensures RawLine(l).Obj?
    ensures "sku" in RawLine(l).fields && RawLine(l).fields["sku"] == Str(l.sku)
    ensures "stat" in RawLine(l).fields && RawLine(l).fields["stat"] == Str(l.stat)
  {
    assert "sku" in FixedFields(l) && "stat" in FixedFields(l);
  }

  /** Billing's events are well typed, so they are always accepted. */
  lemma EmittedIsAccepted(cid: string, lines: seq<B.SubLine>, id: string, now: int, corr: string)
    requires cid != ""
    ensures Accepted(Event(Domain.Billing, RawRecord(cid, lines), id, now, corr))
    ensures CustomerRef(RawRecord(cid, lines)) == Some(cid)
  {
    var raw := RawRecord(cid, lines);
    forall i | 0 <= i < |lines|
      ensures WellTypedLine(raw["sub_lines"].items[i])
    {
      assert raw["sub_lines"].items[i] == RawLine(lines[i]);
      RawLineFields(lines[i]);
    }
  }

  /** The canonical line carries the SKU and the decoded status of the billing line. */
  lemma CanonicalLine(l: B.SubLine)
    ensures var line := MappedLine(RawLine(l));
            && line.Obj? && "product_id" in line.fields && line.fields["product_id"] == Str(l.sku)
            && "status" in line.fields && line.fields["status"] == Str(B.Decode(l.stat))
  {
    RawLineFields(l);
    DeclaredNamesDistinct();
    MappedField(LINE_MAPPINGS, 0, RawLine(l).fields);
    MappedField(LINE_MAPPINGS, 1, RawLine(l).fields);
  }

  /** The subscription lines of a record, as the offer engine receives them. */
  function SubsOf(rec: Dict): seq<Dict> {
    var group := Get(rec, "commercial_state", Null);
    var lines := if group.Obj? then Get(group.fields, "subscriptions", Arr([])) else Arr([]);
    if LinesReadable(lines) then seq(|lines.items|, i requires 0 <= i < |lines.items| => lines.items[i].fields) else []
  }

  /** Whatever holds the lines of the event that billing emitted is in step with billing: SKUs and activity agree. */
  lemma CachedLinesInSync(rec: Dict, e: Event, cid: string, lines: seq<B.SubLine>)
    requires HoldsLinesOf(rec, e) && e.raw == RawRecord(cid, lines)
    ensures InSync(SubsOf(rec), lines)
    ensures forall i :: 0 <= i < |lines| ==> (IsActive(SubsOf(rec)[i]) <==> B.Decode(lines[i].stat) == "active")
  {
    var cached := rec["commercial_state"].fields["subscriptions"].items;
    assert |RawLines(e.raw)| == |lines|;
    forall i | 0 <= i < |lines|
      ensures "product_id" in cached[i].fields && cached[i].fields["product_id"] == Str(lines[i].sku)
      ensures "status" in cached[i].fields && cached[i].fields["status"] == Str(B.Decode(lines[i].stat))
    {
      assert RawLines(e.raw)[i] == RawLine(lines[i]);
      CanonicalLine(lines[i]);
      SameOutside(cached[i].fields, MappedLines(e.raw)[i].fields, "product_id");
      SameOutside(cached[i].fields, MappedLines(e.raw)[i].fields, "status");
    }
  }

  /**
   * End to end: after any run of the assembly service in which billing's current record was the last one
   * emitted for a customer and has reached the cache, every offer made from the cached record is on none of the
   * customer's billing lines, conflicts with no active one, and, when all lines are active, passes the broker's
   * combination check.
   */
  lemma OffersFromTheCacheAreAddable(sh0: Shared, inputs: seq<Input>, cid: string, lines: seq<B.SubLine>,
                                     g: Graph, products: Catalogue, candidates: seq<Cat.Candidate>,
                                     policies: seq<Policy>, offers: seq<Offer>, o: Offer)
    requires RunView(sh0, inputs, cid).tiers.hot.Some? && LastEvents(inputs, cid).billing.Some?
    requires LastEvents(inputs, cid).billing.value.raw == RawRecord(cid, lines)
    requires var subs := SubsOf(RunView(sh0, inputs, cid).tiers.hot.value);
             && ProductIdsAreText(subs) && Cat.CandidatesExact(g, products, HeldSkus(subs), candidates)
             && OffersFor(policies, subs, candidates, offers)
    requires o in offers
    ensures !B.HasSku(lines, o.sku)
    ensures ConflictFree(g, ActiveSkus(lines) + {o.sku})
    ensures (forall l :: l in lines ==> l.stat == "A") ==> ValidCombination(g, ActiveSkus(lines) + {o.sku})
  {
    var rec, e := RunView(sh0, inputs, cid).tiers.hot.value, LastEvents(inputs, cid).billing.value;
    var subs := SubsOf(rec);
    LatestWins(sh0, inputs, cid);
    CachedLinesInSync(rec, e, cid, lines);
    InSyncHeld(subs, lines);
    OffersAreAddable(g, products, candidates, policies, subs, offers, lines, o);
  }
}
