/** What the assembly service remembers while it waits, what it writes, and what it schedules. */
module AssemblyDetails {
  import opened Json
  import opened Money
  import opened Seqs
  import opened Products
  import opened Ontology
  import opened Cache
  import opened Cdc
  import opened CdcInvariant
  import opened CdcSteps
  import opened CdcRuns
  import Cat = CatalogueService

  // ---------------------------------------------------------------- while it waits

  predicate IsFor(input: Input, cid: string) {
    input.SorEvent? && Accepted(input.e) && CustomerRef(input.e.raw) == Some(cid)
  }

  /** The accepted events of the customer, in order of arrival. */
  function Arrived(inputs: seq<Input>, cid: string): seq<Event> {
    if inputs == [] then []
    else Arrived(inputs[..|inputs| - 1], cid) + (if IsFor(inputs[|inputs| - 1], cid) then [inputs[|inputs| - 1].e] else [])
  }

  /** The entry remembers who opened it and when, what has arrived since, and when it is over. */
  predicate Remembers(pa: Pending, es: seq<Event>) {
    && es != [] && pa.corr == es[0].corr && pa.firstSeen == es[0].now && pa.timeoutAt == es[0].now + 30
    && |pa.received| == |es| && forall i :: 0 <= i < |es| ==> pa.received[i] == es[i].domain
  }

  lemma {:induction false} NothingArrived(inputs: seq<Input>, cid: string)
    ensures Arrived(inputs, cid) == [] <==> LastEvents(inputs, cid).customer.None? && LastEvents(inputs, cid).billing.None?
  {
    if inputs != [] {
      NothingArrived(inputs[..|inputs| - 1], cid);
      LastEventsStep(inputs, cid);
    }
  }

  lemma ReceiveRemembers(v: View, sh: Shared, l: Lasts, cid: string, e: Event, es: seq<Event>)
    requires ViewOk(v, sh, l, cid) && v.tiers.hot.None? && Accepted(e) && CustomerRef(e.raw) == Some(cid)
    requires if v.pending.Some? then Remembers(v.pending.value, es) else es == []
    ensures Receive(v, e, sh.products).pending.Some? ==> Remembers(Receive(v, e, sh.products).pending.value, es + [e])
  {
    if v.pending.Some? {
      var pa, all := v.pending.value, es + [e];
      assert all[0] == es[0];
      forall i | 0 <= i < |all|
        ensures (pa.received + [e.domain])[i] == all[i].domain
      {
      }
    } else {
      assert es + [e] == [e];
    }
  }

  /** Over every run an entry remembers exactly the accepted events of its customer, and lasts thirty seconds from the
      first of them. */
  lemma {:induction false} PendingRemembers(sh0: Shared, inputs: seq<Input>, cid: string)
    ensures var v := RunView(sh0, inputs, cid); v.pending.Some? ==> Remembers(v.pending.value, Arrived(inputs, cid))
  {
    if inputs != [] {
      var front, last := inputs[..|inputs| - 1], inputs[|inputs| - 1];
      PendingRemembers(sh0, front, cid);
      RunKeepsInvariant(sh0, front, cid);
      NothingArrived(front, cid);
      var v, sh, l := RunView(sh0, front, cid), RunShared(sh0, front), LastEvents(front, cid);
      if !IsFor(last, cid) {
        QuietInput(v, sh, cid, last);
      } else if v.tiers.hot.None? {
        ReceiveRemembers(v, sh, l, cid, last.e, Arrived(front, cid));
      } else {
        UpsertWaitsNot(v, last.e, sh.products);
      }
    }
  }

  lemma QuietInput(v: View, sh: Shared, cid: string, input: Input)
    requires !IsFor(input, cid)
    ensures StepView(v, sh, cid, input).pending.Some? ==> StepView(v, sh, cid, input).pending == v.pending
  {
  }

  lemma UpsertWaitsNot(v: View, e: Event, products: Catalogue)
    requires v.tiers.hot.Some?
    ensures Upsert(v, e, products).pending == v.pending
  {
  }

  /** What a sweep writes of an entry: the partial of the one domain that has arrived, and the name of the other. */
  predicate TimedOutRecord(rec: Dict, cid: string, d: Domain) {
    && "assembly_state" in rec && rec["assembly_state"] == Str("partial_timed_out")
    && "missing_domains" in rec && rec["missing_domains"] == Arr([Str(if d == Customer then "billing" else "customer")])
    && "customer_id" in rec && rec["customer_id"] == Str(cid)
    && ("profile" in rec <==> d == Customer) && ("commercial_state" in rec <==> d == Billing)
  }

  /** Over every run, a sweep leaves an entry alone for thirty seconds from its first event, and then replaces it. */
  lemma SweepExact(sh0: Shared, inputs: seq<Input>, cid: string, now: int)
    requires RunView(sh0, inputs, cid).pending.Some?
    ensures Arrived(inputs, cid) != []
    ensures var v, after := RunView(sh0, inputs, cid), RunView(sh0, inputs + [Tick(now)], cid);
            if now < Arrived(inputs, cid)[0].now + 30 then after == v
            else after.pending == None && after.tiers.hot.Some? && TimedOutRecord(after.tiers.hot.value, cid, Arrived(inputs, cid)[0].domain)
  {
    PendingRemembers(sh0, inputs, cid);
    RunKeepsInvariant(sh0, inputs, cid);
    OneDomainArrived(sh0, inputs, cid);
    assert (inputs + [Tick(now)])[..|inputs|] == inputs;
    var v, l := RunView(sh0, inputs, cid), LastEvents(inputs, cid);
    if Expired(v, now) {
      var d :| l.Of(d).Some? && l.Of(Other(d)).None? && v.pending.value.domains == [(d, PartialOf(l.Of(d).value))];
      TimeoutShows(l.Of(d).value, now, cid, v.tiers);
    }
  }

  /** While it waits, all that has arrived is of one domain. */
  lemma {:induction false} ArrivedDomains(inputs: seq<Input>, cid: string, d: Domain)
    requires LastEvents(inputs, cid).Of(d).None?
    ensures forall e :: e in Arrived(inputs, cid) ==> e.domain == Other(d)
  {
    if inputs != [] {
      LastEventsStep(inputs, cid);
      ArrivedDomains(inputs[..|inputs| - 1], cid, d);
    }
  }

  lemma OneDomainArrived(sh0: Shared, inputs: seq<Input>, cid: string)
    requires RunView(sh0, inputs, cid).pending.Some?
    ensures var l := LastEvents(inputs, cid);
            forall d, e :: l.Of(d).Some? && l.Of(Other(d)).None? && e in Arrived(inputs, cid) ==> e.domain == d
  {
    var l := LastEvents(inputs, cid);
    forall d | l.Of(d).Some? && l.Of(Other(d)).None?
      ensures forall e :: e in Arrived(inputs, cid) ==> e.domain == d
    {
      ArrivedDomains(inputs, cid, Other(d));
    }
  }

  lemma TimeoutShows(e: Event, now: int, cid: string, t: Tiers)
    requires Accepted(e) && CustomerRef(e.raw) == Some(cid)
    ensures var body := TimeoutBody([(e.domain, PartialOf(e))], now);
            Put(t, body).Ok? && TimedOutRecord(Put(t, body).value.hot.value, cid, e.domain)
  {
    var body := TimeoutBody([(e.domain, PartialOf(e))], now);
    TimeoutBodyShape(e, now);
    PartialShape(e);
    GroupNames();
    TimedOutShape(e, PartialOf(e), body, cid);
    assert Stored(t.hot, body) == body["version" := Stored(t.hot, body)["version"]];
  }

  lemma TimedOutShape(e: Event, p: Dict, body: Dict, cid: string)
    requires Accepted(e) && CustomerRef(e.raw) == Some(cid) && p == PartialOf(e)
    requires body == p["assembly_state" := Str("partial_timed_out")]["missing_domains" := Arr([Str(DomainName(Other(e.domain)))])]
    ensures TimedOutRecord(body, cid, e.domain)
  {
    PartialShape(e);
    GroupNames();
  }

  // ---------------------------------------------------------------- what a join writes

  /** The full write of a join: both groups, complete, and with no domain missing. */
  lemma JoinShows(first: Event, second: Event, cid: string)
    requires Accepted(first) && Accepted(second) && second.domain == Other(first.domain)
    requires CustomerRef(first.raw) == CustomerRef(second.raw) == Some(cid)
    ensures var body := JoinBody([(first.domain, PartialOf(first)), (second.domain, PartialOf(second))], second.now);
            var c, b := if first.domain == Customer then first else second, if first.domain == Customer then second else first;
            && body.Keys == {"customer_id", "profile", "commercial_state", "assembled_at", "assembly_state", "missing_domains", "provenance"}
            && body["customer_id"] == Str(cid) && body["assembly_state"] == Str("complete") && body["missing_domains"] == Arr([])
            && "profile" in PartialOf(c) && body["profile"] == PartialOf(c)["profile"]
            && "commercial_state" in PartialOf(b) && body["commercial_state"] == PartialOf(b)["commercial_state"]
  {
    JoinBodyShape(first, second, second.now);
    GroupShown(first);
    GroupShown(second);
    ControlFields();
  }

  lemma ControlFields()
    ensures CONTROL_FIELDS + {"profile", "commercial_state"} ==
            {"customer_id", "profile", "commercial_state", "assembled_at", "assembly_state", "missing_domains", "provenance"}
  {
  }

  /** It has the later of the two times, both origins in order of arrival, and each domain's own provenance. */
  lemma JoinOrigins(first: Event, second: Event)
    requires Accepted(first) && Accepted(second) && second.domain == Other(first.domain)
    ensures var body := JoinBody([(first.domain, PartialOf(first)), (second.domain, PartialOf(second))], second.now);
            var crm, bill := Str("crm-sor"), Str("billing-sor");
            var c, b := if first.domain == Customer then first else second, if first.domain == Customer then second else first;
            && "assembled_at" in body && body["assembled_at"] == Time(if first.now >= second.now then first.now else second.now)
            && "provenance" in body && "provenance" in PartialOf(c) && "provenance" in PartialOf(b)
            && body["provenance"] ==
               Obj(map["source_systems" := Arr(if first.domain == Customer then [crm, bill] else [bill, crm]),
                       "domains" := Obj(map["customer" := PartialOf(c)["provenance"], "billing" := PartialOf(b)["provenance"]])])
  {
    JoinHeader([(first.domain, PartialOf(first)), (second.domain, PartialOf(second))], second.now);
    MergedTimes(first, second);
    MergedOrigins(first, second);
  }

  lemma GroupShown(e: Event)
    requires Accepted(e)
    ensures GroupName(e.domain) == (if e.domain == Customer then "profile" else "commercial_state")
    ensures GroupName(e.domain) in PartialOf(e) && PartialOf(e)[GroupName(e.domain)] == Obj(Group(e.domain, e.raw, e.now))
    ensures "provenance" in PartialOf(e)
  {
    PartialShape(e);
  }

  lemma MergedTimes(first: Event, second: Event)
    requires Accepted(first) && Accepted(second)
    ensures LatestTime([(first.domain, PartialOf(first)), (second.domain, PartialOf(second))]) ==
            Some(if first.now >= second.now then first.now else second.now)
  {
    var one, two := [(first.domain, PartialOf(first))], [(first.domain, PartialOf(first)), (second.domain, PartialOf(second))];
    assert one[..0] == [] && two[..1] == one;
    assert PartialOf(first)["assembled_at"] == Time(first.now) && PartialOf(second)["assembled_at"] == Time(second.now);
    assert LatestTime(one) == Some(first.now);
  }

  lemma SourceShown(e: Event)
    requires Accepted(e)
    ensures SourceOf(PartialOf(e)) == (if e.domain == Customer then Str("crm-sor") else Str("billing-sor"))
    ensures "provenance" in PartialOf(e) && ProvenanceOf(PartialOf(e)) == PartialOf(e)["provenance"]
  {
    PartialShape(e);
  }

  lemma PairSources(d: Domain, p: Dict, other: Domain, q: Dict)
    requires Truthy(SourceOf(p)) && Truthy(SourceOf(q)) && SourceOf(p) != SourceOf(q)
    ensures MergedSources([(d, p), (other, q)]) == [SourceOf(p), SourceOf(q)]
  {
    var one, two := [(d, p)], [(d, p), (other, q)];
    assert one[..0] == [] && two[..1] == one;
    assert MergedSources(one) == [] + [SourceOf(p)];
  }

  lemma PairProvenance(d: Domain, p: Dict, q: Dict)
    ensures MergedProvenance([(d, p), (Other(d), q)]) ==
            if d == Customer then map["customer" := ProvenanceOf(p), "billing" := ProvenanceOf(q)]
            else map["customer" := ProvenanceOf(q), "billing" := ProvenanceOf(p)]
  {
    var one, two := [(d, p)], [(d, p), (Other(d), q)];
    assert one[..0] == [] && two[..1] == one;
    assert |"customer"| != |"billing"|;
    assert MergedProvenance(one) == map[][DomainName(d) := ProvenanceOf(p)];
  }

  lemma MergedOrigins(first: Event, second: Event)
    requires Accepted(first) && Accepted(second) && second.domain == Other(first.domain)
    ensures var ds := [(first.domain, PartialOf(first)), (second.domain, PartialOf(second))];
            var crm, bill := Str("crm-sor"), Str("billing-sor");
            var c, b := if first.domain == Customer then first else second, if first.domain == Customer then second else first;
            && "provenance" in PartialOf(c) && "provenance" in PartialOf(b)
            && MergedSources(ds) == (if first.domain == Customer then [crm, bill] else [bill, crm])
            && MergedProvenance(ds) == map["customer" := PartialOf(c)["provenance"], "billing" := PartialOf(b)["provenance"]]
  {
    SourceShown(first);
    SourceShown(second);
    assert |"crm-sor"| != |"billing-sor"|;
    PairSources(first.domain, PartialOf(first), second.domain, PartialOf(second));
    PairProvenance(first.domain, PartialOf(first), PartialOf(second));
  }

  /** The two parts of a full write that are no group. */
  lemma JoinHeader(ds: Domains, now: int)
    ensures var body := JoinBody(ds, now);
            && "assembled_at" in body && body["assembled_at"] == Time(if LatestTime(ds).Some? then LatestTime(ds).value else now)
            && "provenance" in body
            && body["provenance"] == Obj(map["source_systems" := Arr(MergedSources(ds)), "domains" := Obj(MergedProvenance(ds))])
  {
  }

  // ---------------------------------------------------------------- what is scheduled

  /** A product event with a SKU, and an accepted catalogue update of a product with one, schedule one fan-out for it; no
      other event does, and a fan-out that runs is taken off. */
  lemma FanOutsScheduled(sh: Shared, input: Input)
    ensures var after := StepShared(sh, input).fanouts;
            && (input.ProductEvent? ==>
                  (var raw := input.raw;
                   after == if "sku" in raw && raw["sku"].Str? && raw["sku"].s != "" then sh.fanouts + [raw["sku"].s] else sh.fanouts))
            && (input.PriceChange? ==>
                  (var updated := input.sku in sh.products && (input.price.Some? || input.terms.Some?);
                   after == if updated && input.sku != "" then sh.fanouts + [input.sku] else sh.fanouts))
            && (input.FanOut? && input.index < |sh.fanouts| ==>
                  && |after| == |sh.fanouts| - 1
                  && (forall i :: 0 <= i < input.index ==> after[i] == sh.fanouts[i])
                  && (forall i :: input.index <= i < |after| ==> after[i] == sh.fanouts[i + 1]))
            && (input.SorEvent? || input.Tick? ==> after == sh.fanouts)
    ensures input.PriceChange? && input.sku in sh.products && (input.price.Some? || input.terms.Some?) ==>
              StepShared(sh, input).products == Cat.PatchProduct(sh.products, input.sku, input.price, input.terms)
    ensures input.PriceChange? && !(input.sku in sh.products && (input.price.Some? || input.terms.Some?)) ==>
              StepShared(sh, input).products == sh.products
    ensures !input.PriceChange? ==> StepShared(sh, input).products == sh.products
  {
  }

  // ---------------------------------------------------------------- the derived discount

  /** The line counts for the derived discount: it has a list price and a `monthly_charge`. */
  predicate Counts(line: Json) {
    line.Obj? && "list_price_gbp" in line.fields && line.fields["list_price_gbp"].Num?
    && "monthly_charge" in line.fields && line.fields["monthly_charge"].Num?
  }

  function ListPriceOf(): Json -> real {
    line => if Counts(line) then line.fields["list_price_gbp"].n else 0.0
  }

  function ActualOf(): Json -> real {
    line => if Counts(line) then line.fields["monthly_charge"].n else 0.0
  }

  /** The derived totals are the sums over the lines that count. */
  lemma {:induction false} DerivedSums(lines: seq<Json>, t: Totals)
    requires (forall i :: 0 <= i < |lines| ==> lines[i].Obj?) && Derive(lines) == Ok(t)
    ensures t.list == SumBy(lines, ListPriceOf()) && t.actual == SumBy(lines, ActualOf())
  {
    if lines != [] {
      var front, last := lines[..|lines| - 1], lines[|lines| - 1];
      DerivedSums(front, Derive(front).value);
      assert lines == front + [last];
      SumByAppend(front, last, ListPriceOf());
      SumByAppend(front, last, ActualOf());
    }
  }

  /** Each SKU shows the prices of its last line that counts, and what lies between them. */
  lemma {:induction false} DerivedLine(lines: seq<Json>, t: Totals, i: nat, sku: string)
    requires (forall j :: 0 <= j < |lines| ==> lines[j].Obj?) && Derive(lines) == Ok(t)
    requires i < |lines| && Counts(lines[i]) && Get(lines[i].fields, "product_id", Null) == Str(sku)
    requires forall j :: i < j < |lines| && Counts(lines[j]) ==>
               "product_id" in lines[j].fields && lines[j].fields["product_id"].Str? && lines[j].fields["product_id"].s != sku
    ensures sku in t.per && t.per[sku] ==
            Obj(map["list_price_gbp" := lines[i].fields["list_price_gbp"], "actual_charge_gbp" := lines[i].fields["monthly_charge"],
                    "saving_gbp" := Num(Round2(lines[i].fields["list_price_gbp"].n - lines[i].fields["monthly_charge"].n))])
  {
    var front, last := lines[..|lines| - 1], lines[|lines| - 1];
    if i < |front| {
      DerivedLine(front, Derive(front).value, i, sku);
    }
  }

  /** The summary shows the rounded totals, and what lies between them. */
  lemma SummaryShown(t: Totals)
    ensures DiscountSummary(t).Obj?
    ensures var s := DiscountSummary(t).fields;
            && s.Keys == {"per_subscription", "total_list_gbp", "total_actual_gbp", "total_saving_gbp"}
            && s["per_subscription"] == Obj(t.per) && s["total_list_gbp"] == Num(Round2(t.list))
            && s["total_actual_gbp"] == Num(Round2(t.actual)) && s["total_saving_gbp"] == Num(Round2(t.list - t.actual))
  {
  }

  // ---------------------------------------------------------------- which events are taken

  predicate TextOrNull(raw: Dict, name: string) {
    name in raw ==> raw[name].Str? || raw[name].Null?
  }

  /** An event is taken exactly if it names a customer and has the shape of its system's records: names and SKUs that are
      text or null, lines that are records, and statuses that are no lists or records. */
  lemma AcceptedExactly(e: Event)
    ensures Accepted(e) <==>
            && "cust_ref" in e.raw && e.raw["cust_ref"].Str? && e.raw["cust_ref"].s != ""
            && (e.domain == Customer ==> TextOrNull(e.raw, "first_nm") && TextOrNull(e.raw, "last_nm"))
            && (e.domain == Billing && "sub_lines" in e.raw ==>
                  && e.raw["sub_lines"].Arr?
                  && forall i :: 0 <= i < |e.raw["sub_lines"].items| ==>
                       && e.raw["sub_lines"].items[i].Obj?
                       && TextOrNull(e.raw["sub_lines"].items[i].fields, "sku")
                       && ("stat" in e.raw["sub_lines"].items[i].fields ==>
                             !e.raw["sub_lines"].items[i].fields["stat"].Arr? && !e.raw["sub_lines"].items[i].fields["stat"].Obj?))
    ensures Accepted(e) ==> CustomerRef(e.raw) == Some(e.raw["cust_ref"].s)
  {
    if e.domain == Billing && "sub_lines" in e.raw && e.raw["sub_lines"].Arr? {
      forall i | 0 <= i < |e.raw["sub_lines"].items|
        ensures WellTypedLine(e.raw["sub_lines"].items[i]) <==>
                && e.raw["sub_lines"].items[i].Obj?
                && TextOrNull(e.raw["sub_lines"].items[i].fields, "sku")
                && ("stat" in e.raw["sub_lines"].items[i].fields ==>
                      !e.raw["sub_lines"].items[i].fields["stat"].Arr? && !e.raw["sub_lines"].items[i].fields["stat"].Obj?)
      {
      }
    }
  }

  // ---------------------------------------------------------------- whom a fan-out reaches

  /** The record has a line with the SKU. */
  predicate HasLine(rec: Dict, sku: string) {
    && "commercial_state" in rec && rec["commercial_state"].Obj?
    && "subscriptions" in rec["commercial_state"].fields && rec["commercial_state"].fields["subscriptions"].Arr?
    && exists line :: line in rec["commercial_state"].fields["subscriptions"].items && line.Obj?
                      && "product_id" in line.fields && line.fields["product_id"] == Str(sku)
  }

  /** A fan-out enriches the cached records with a line of the SKU and leaves all others alone. */
  lemma FanOutReaches(v: View, sku: string, products: Catalogue, now: int)
    ensures v.tiers.hot.Some? && HasLine(v.tiers.hot.value, sku) ==>
              OnFanOut(v, sku, products, now) == v.(tiers := Enrich(v.tiers, products, now))
    ensures v.tiers.hot == None || !HasLine(v.tiers.hot.value, sku) ==> OnFanOut(v, sku, products, now) == v
  {
    if v.tiers.hot.Some? {
      HoldsByLine(v.tiers.hot.value, sku);
    }
  }

  lemma HoldsByLine(rec: Dict, sku: string)
    ensures HoldsSku(rec, sku) <==> HasLine(rec, sku)
  {
    if HasLine(rec, sku) {
      var items := rec["commercial_state"].fields["subscriptions"].items;
      var line :| line in items && line.Obj? && "product_id" in line.fields && line.fields["product_id"] == Str(sku);
      var i :| 0 <= i < |items| && items[i] == line;
    }
  }

  /** A billing upsert that leaves a record incomplete stores the lines as they were mapped, without the catalogue. */
  lemma IncompleteIsNotEnriched(v: View, sh: Shared, l: Lasts, cid: string, e: Event)
    requires ViewOk(v, sh, l, cid) && v.tiers.hot.Some? && l.customer.None?
    requires e.domain == Billing && Accepted(e) && CustomerRef(e.raw) == Some(cid)
    ensures var v' := Upsert(v, e, sh.products);
            && v'.tiers.hot.Some? && "commercial_state" in v'.tiers.hot.value
            && v'.tiers.hot.value["commercial_state"] == PartialOf(e)["commercial_state"]
  {
    var rec := v.tiers.hot.value;
    UpsertStored(rec, l, cid, sh.products, e);
    UpsertBodyShape(rec, e);
    GroupShown(e);
    StoredAt(rec, UpsertBody(rec, e), "commercial_state");
  }
}
