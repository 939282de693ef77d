/** Further facts of every run: accepted PUTs, equal tiers, what enrichment leaves alone, and what the code does not keep. */
module CdcFacts {
  import opened Json
  import opened Money
  import opened Products
  import opened Ontology
  import opened Cache
  import opened CacheTheorems
  import opened Cdc
  import opened CdcInvariant
  import opened CdcSteps
  import opened CdcRuns

  // ---------------------------------------------------------------- schema closure

  /** Every PUT the service makes for the customer on this input is accepted by the cache. */
  predicate PutsAccepted(v: View, sh: Shared, cid: string, input: Input) {
    match input
    case SorEvent(e) =>
      Accepted(e) && CustomerRef(e.raw) == Some(cid) ==>
        if v.tiers.hot.Some? then
          && Put(v.tiers, UpsertBody(v.tiers.hot.value, e)).Ok?
          && (NewState(v.tiers.hot.value, e.domain) == "complete" ==>
                EnrichPutAccepted(Put(v.tiers, UpsertBody(v.tiers.hot.value, e)).value, sh.products, e.now))
        else
          v.pending.Some? && AllDomains(PutDomain(v.pending.value.domains, e.domain, PartialOf(e))) ==>
            var body := JoinBody(PutDomain(v.pending.value.domains, e.domain, PartialOf(e)), e.now);
            Put(v.tiers, body).Ok? && EnrichPutAccepted(Put(v.tiers, body).value, sh.products, e.now)
    case Tick(now) => Expired(v, now) ==> Put(v.tiers, TimeoutBody(v.pending.value.domains, now)).Ok?
    case FanOut(index, now) =>
      index < |sh.fanouts| && v.tiers.hot.Some? && HoldsSku(v.tiers.hot.value, sh.fanouts[index]) ==>
        EnrichPutAccepted(v.tiers, sh.products, now)
    case _ => true
  }

  /** The enrichment of a record is not given up, and its PUT is accepted. */
  predicate EnrichPutAccepted(t: Tiers, products: Catalogue, now: int) {
    t.hot.Some? && EnrichBody(t.hot.value, products, now).Some?
    && Put(t, EnrichBody(t.hot.value, products, now).value).Ok?
  }

  lemma UpsertPuts(v: View, sh: Shared, l: Lasts, cid: string, e: Event)
    requires ViewOk(v, sh, l, cid) && v.tiers.hot.Some? && Accepted(e) && CustomerRef(e.raw) == Some(cid)
    ensures Put(v.tiers, UpsertBody(v.tiers.hot.value, e)).Ok?
    ensures NewState(v.tiers.hot.value, e.domain) == "complete" ==>
              EnrichPutAccepted(Put(v.tiers, UpsertBody(v.tiers.hot.value, e)).value, sh.products, e.now)
  {
    var rec := v.tiers.hot.value;
    UpsertStored(rec, l, cid, sh.products, e);
    if NewState(rec, e.domain) == "complete" {
      EnrichExact(Stored(Some(rec), UpsertBody(rec, e)), l.Put(e), cid, sh, e.now);
    }
  }

  lemma JoinPuts(v: View, sh: Shared, l: Lasts, cid: string, e: Event)
    requires ViewOk(v, sh, l, cid) && v.tiers.hot.None? && v.pending.Some?
    requires Accepted(e) && CustomerRef(e.raw) == Some(cid)
    requires AllDomains(PutDomain(v.pending.value.domains, e.domain, PartialOf(e)))
    ensures var body := JoinBody(PutDomain(v.pending.value.domains, e.domain, PartialOf(e)), e.now);
            Put(v.tiers, body).Ok? && EnrichPutAccepted(Put(v.tiers, body).value, sh.products, e.now)
  {
    var pa := v.pending.value;
    var d :| l.Of(d).Some? && l.Of(Other(d)).None? && pa.domains == [(d, PartialOf(l.Of(d).value))];
    var first := l.Of(d).value;
    PutDomainPair(d, PartialOf(first), e);
    JoinStored(first, e, e.now, cid, sh.products);
    EnrichExact(Stored(None, JoinBody([(d, PartialOf(first)), (e.domain, PartialOf(e))], e.now)),
                Lasts(None, None).Put(first).Put(e), cid, sh, e.now);
  }

  lemma TimeoutPuts(v: View, sh: Shared, l: Lasts, cid: string, now: int)
    requires ViewOk(v, sh, l, cid) && Expired(v, now)
    ensures Put(v.tiers, TimeoutBody(v.pending.value.domains, now)).Ok?
  {
    var pa := v.pending.value;
    var d :| l.Of(d).Some? && l.Of(Other(d)).None? && pa.domains == [(d, PartialOf(l.Of(d).value))];
    TimeoutBodyShape(l.Of(d).value, now);
  }

  lemma FanOutPuts(v: View, sh: Shared, l: Lasts, cid: string, sku: string, now: int)
    requires ViewOk(v, sh, l, cid) && v.tiers.hot.Some? && HoldsSku(v.tiers.hot.value, sku)
    ensures EnrichPutAccepted(v.tiers, sh.products, now)
  {
    assert "commercial_state" in v.tiers.hot.value;
    EnrichExact(v.tiers.hot.value, l, cid, sh, now);
  }

  /**
   * Schema closure: after any run, whatever comes next, no PUT the service makes is rejected and no enrichment
   * is given up; and what is stored stays acceptable apart from its version. The two tiers are equal throughout.
   */
  lemma NoPutIsRejected(sh0: Shared, inputs: seq<Input>, cid: string, next: Input)
    ensures PutsAccepted(RunView(sh0, inputs, cid), RunShared(sh0, inputs), cid, next)
    ensures RunView(sh0, inputs, cid).tiers.hot.Some? ==> Acceptable(RunView(sh0, inputs, cid).tiers.hot.value)
    ensures RunView(sh0, inputs, cid).tiers.hot == RunView(sh0, inputs, cid).tiers.permanent
  {
    RunKeepsInvariant(sh0, inputs, cid);
    NextPutsAccepted(RunView(sh0, inputs, cid), RunShared(sh0, inputs), LastEvents(inputs, cid), cid, next);
  }

  lemma NextPutsAccepted(v: View, sh: Shared, l: Lasts, cid: string, input: Input)
    requires ViewOk(v, sh, l, cid)
    ensures PutsAccepted(v, sh, cid, input)
  {
    match input
    case SorEvent(e) =>
      if Accepted(e) && CustomerRef(e.raw) == Some(cid) {
        if v.tiers.hot.Some? {
          UpsertPuts(v, sh, l, cid, e);
        } else if v.pending.Some? && AllDomains(PutDomain(v.pending.value.domains, e.domain, PartialOf(e))) {
          JoinPuts(v, sh, l, cid, e);
        }
      }
    case Tick(now) =>
      if Expired(v, now) {
        TimeoutPuts(v, sh, l, cid, now);
      }
    case FanOut(index, now) =>
      if index < |sh.fanouts| && v.tiers.hot.Some? && HoldsSku(v.tiers.hot.value, sh.fanouts[index]) {
        FanOutPuts(v, sh, l, cid, sh.fanouts[index], now);
      }
    case _ =>
  }

  // ---------------------------------------------------------------- enrichment leaves alone and is idempotent

  /**
   * Enriching any reachable record again changes nothing but timestamps and version when the catalogue has not
   * changed in between; and no enrichment changes the profile, the state, or any line's order, status or charge.
   */
  lemma EnrichmentIsIdempotent(sh0: Shared, inputs: seq<Input>, cid: string, now: int, later: int)
    requires RunView(sh0, inputs, cid).tiers.hot.Some? && LastEvents(inputs, cid).billing.Some?
    ensures var products := RunShared(sh0, inputs).products;
            var t := RunView(sh0, inputs, cid).tiers;
            var once := Enrich(t, products, now);
            var twice := Enrich(once, products, later);
            && EnrichedFrame(t, once) && EnrichedFrame(once, twice)
            && Timeless(twice.hot.value["commercial_state"]) == Timeless(once.hot.value["commercial_state"])
  {
    RunKeepsInvariant(sh0, inputs, cid);
    var v, sh, l := RunView(sh0, inputs, cid), RunShared(sh0, inputs), LastEvents(inputs, cid);
    EnrichOnce(v.tiers, l, cid, sh, now);
    EnrichView(v.tiers, l, cid, sh, now);
    var once := Enrich(v.tiers, sh.products, now);
    EnrichOnce(once, l, cid, sh, later);
  }

  /** Both have a commercial group, and its lines agree in number, order, status, charge and everything else that is not enriched. */
  ghost predicate EnrichedFrame(before: Tiers, after: Tiers) {
    && before.hot.Some? && after.hot.Some?
    && (forall k :: k != "version" && k != "commercial_state" ==>
          (k in after.hot.value <==> k in before.hot.value) && (k in before.hot.value ==> after.hot.value[k] == before.hot.value[k]))
    && "commercial_state" in before.hot.value && "commercial_state" in after.hot.value
    && var g, h := before.hot.value["commercial_state"], after.hot.value["commercial_state"];
       && g.Obj? && h.Obj? && GroupKeysOk(g.fields) && GroupKeysOk(h.fields)
       && var xs, ys := g.fields["subscriptions"].items, h.fields["subscriptions"].items;
          && |xs| == |ys|
          && forall i :: 0 <= i < |xs| ==>
               Core(xs[i]) == Core(ys[i])
               && forall k :: k in {"status", "product_id", "monthly_charge_gbp"} ==>
                    FieldOf(xs[i], k) == FieldOf(ys[i], k)
  }

  function FieldOf(line: Json, k: string): Json {
    if line.Obj? then Get(line.fields, k, Null) else Null
  }

  lemma EnrichOnce(t: Tiers, l: Lasts, cid: string, sh: Shared, now: int)
    requires t.hot.Some? && t.hot == t.permanent && l.For(cid) && l.billing.Some?
    requires RecordOk(t.hot.value, l, cid, sh.products)
    ensures EnrichedFrame(t, Enrich(t, sh.products, now))
    ensures (forall i :: 0 <= i < |MappedLines(l.billing.value.raw)| ==> MappedLines(l.billing.value.raw)[i].Obj?)
    ensures Timeless(Enrich(t, sh.products, now).hot.value["commercial_state"]) == SettledCommercial(l.billing.value.raw, sh.products)
  {
    var e := l.billing.value;
    MappedAreObjects(e.raw);
    EnrichExact(t.hot.value, l, cid, sh, now);
    var out := Stored(Some(t.hot.value), EnrichBody(t.hot.value, sh.products, now).value);
    assert Enrich(t, sh.products, now).hot == Some(out);
    var xs := t.hot.value["commercial_state"].fields["subscriptions"].items;
    var ys := out["commercial_state"].fields["subscriptions"].items;
    forall i | 0 <= i < |xs|
      ensures Core(xs[i]) == Core(ys[i])
      ensures forall k :: k in {"status", "product_id", "monthly_charge_gbp"} ==> FieldOf(xs[i], k) == FieldOf(ys[i], k)
    {
      SameCore(xs[i], ys[i], MappedLines(e.raw)[i], sh.products);
    }
    forall i | 0 <= i < |ys|
      ensures LineCurrent(ys[i].fields, sh.products)
    {
      EnrichedLinesOk(xs, e.raw, sh.products);
    }
    SettledGroup(out["commercial_state"], e, sh);
  }

  lemma SameCore(x: Json, y: Json, mapped: Json, products: Catalogue)
    requires x.Obj? && y.Obj? && mapped.Obj?
    requires LineOk(x.fields, mapped.fields, products) && LineOk(y.fields, mapped.fields, products)
    ensures Core(x) == Core(y)
    ensures forall k :: k in {"status", "product_id", "monthly_charge_gbp"} ==> FieldOf(x, k) == FieldOf(y, k)
  {
    forall k | k in {"status", "product_id", "monthly_charge_gbp"}
      ensures FieldOf(x, k) == FieldOf(y, k)
    {
      SameOutside(x.fields, mapped.fields, k);
      SameOutside(y.fields, mapped.fields, k);
    }
  }

  /**
   * The derived discount summary is always empty: it reads `monthly_charge`, which the line mapping has renamed
   * to `monthly_charge_gbp`. Over every run, whatever a complete record's lines cost, all its derived totals are zero.
   */
  lemma DerivedTotalsAreZero(sh0: Shared, inputs: seq<Input>, cid: string)
    requires IsComplete(RunView(sh0, inputs, cid))
    ensures var rec := RunView(sh0, inputs, cid).tiers.hot.value;
            && "commercial_state" in rec && rec["commercial_state"].Obj?
            && "discount_summary" in rec["commercial_state"].fields
            && rec["commercial_state"].fields["discount_summary"] ==
               Obj(map["per_subscription" := Obj(map[]), "total_list_gbp" := Num(0.0),
                       "total_actual_gbp" := Num(0.0), "total_saving_gbp" := Num(0.0)])
  {
    RunKeepsInvariant(sh0, inputs, cid);
    StateOfView(RunView(sh0, inputs, cid), RunShared(sh0, inputs), LastEvents(inputs, cid), cid);
    assert WholePence(0.0);
    Round2Fixed(0.0);
  }

  // ---------------------------------------------------------------- missing_domains

  /** Whether a sweep found the customer's pending entry expired. */
  predicate EverTimedOut(sh0: Shared, inputs: seq<Input>, cid: string) {
    inputs != [] &&
    var front, last := inputs[..|inputs| - 1], inputs[|inputs| - 1];
    EverTimedOut(sh0, front, cid) || (last.Tick? && Expired(RunView(sh0, front, cid), last.now))
  }

  predicate MissingMatches(v: View, late: bool) {
    && (late ==> v.tiers.hot.Some?)
    && (v.tiers.hot.Some? ==>
          && "missing_domains" in v.tiers.hot.value
          && (v.tiers.hot.value["missing_domains"] == Arr([]) <==> !late))
  }

  lemma EnrichKeepsField(t: Tiers, l: Lasts, cid: string, sh: Shared, now: int, k: string)
    requires t.hot.Some? && t.hot == t.permanent && l.For(cid) && l.billing.Some?
    requires RecordOk(t.hot.value, l, cid, sh.products)
    requires k != "version" && k != "commercial_state" && k in t.hot.value
    ensures var t' := Enrich(t, sh.products, now);
            t'.hot.Some? && k in t'.hot.value && t'.hot.value[k] == t.hot.value[k]
  {
    EnrichExact(t.hot.value, l, cid, sh, now);
  }

  lemma UpsertData(rec: Dict, e: Event)
    requires Accepted(e)
    ensures var data := DataOf(UpsertBody(rec, e));
            && "missing_domains" !in data
            && "provenance" in data && data["provenance"] == Provenance(e.domain, e.raw, e.id)
  {
    UpsertBodyShape(rec, e);
    PartialShape(e);
  }

  /** What an upsert leaves in a field other than the commercial group. */
  lemma UpsertField(v: View, sh: Shared, l: Lasts, cid: string, e: Event, k: string, value: Json)
    requires ViewOk(v, sh, l, cid) && v.tiers.hot.Some? && Accepted(e) && CustomerRef(e.raw) == Some(cid)
    requires k != "version" && k != "commercial_state"
    requires k in Stored(v.tiers.hot, UpsertBody(v.tiers.hot.value, e))
    requires Stored(v.tiers.hot, UpsertBody(v.tiers.hot.value, e))[k] == value
    ensures var v' := Upsert(v, e, sh.products);
            v'.tiers.hot.Some? && k in v'.tiers.hot.value && v'.tiers.hot.value[k] == value
  {
    var rec := v.tiers.hot.value;
    UpsertStored(rec, l, cid, sh.products, e);
    var t := Put(v.tiers, UpsertBody(rec, e)).value;
    if NewState(rec, e.domain) == "complete" {
      EnrichKeepsField(t, l.Put(e), cid, sh, e.now, k);
    }
  }

  lemma UpsertKeepsMissing(v: View, sh: Shared, l: Lasts, cid: string, e: Event)
    requires ViewOk(v, sh, l, cid) && v.tiers.hot.Some? && "missing_domains" in v.tiers.hot.value
    requires Accepted(e) && CustomerRef(e.raw) == Some(cid)
    ensures var v' := Upsert(v, e, sh.products);
            v'.tiers.hot.Some? && "missing_domains" in v'.tiers.hot.value
            && v'.tiers.hot.value["missing_domains"] == v.tiers.hot.value["missing_domains"]
  {
    var rec := v.tiers.hot.value;
    UpsertBodyShape(rec, e);
    UpsertData(rec, e);
    StoredAt(rec, UpsertBody(rec, e), "missing_domains");
    UpsertField(v, sh, l, cid, e, "missing_domains", rec["missing_domains"]);
  }

  lemma ReceiveSetsMissing(v: View, sh: Shared, l: Lasts, cid: string, e: Event)
    requires ViewOk(v, sh, l, cid) && v.tiers.hot.None?
    requires Accepted(e) && CustomerRef(e.raw) == Some(cid)
    ensures MissingMatches(Receive(v, e, sh.products), false)
  {
    if v.pending.Some? {
      var pa := v.pending.value;
      var d :| l.Of(d).Some? && l.Of(Other(d)).None? && pa.domains == [(d, PartialOf(l.Of(d).value))];
      var first := l.Of(d).value;
      PutDomainPair(d, PartialOf(first), e);
      if e.domain != d {
        var body := JoinBody([(d, PartialOf(first)), (e.domain, PartialOf(e))], e.now);
        JoinBodyShape(first, e, e.now);
        JoinStored(first, e, e.now, cid, sh.products);
        StoredFirstAt(body, "missing_domains");
        EnrichKeepsField(Put(v.tiers, body).value, Lasts(None, None).Put(first).Put(e), cid, sh, e.now, "missing_domains");
      }
    }
  }

  lemma TimeoutSetsMissing(v: View, sh: Shared, l: Lasts, cid: string, now: int)
    requires ViewOk(v, sh, l, cid) && Expired(v, now)
    ensures MissingMatches(OnTick(v, now), true)
  {
    var pa := v.pending.value;
    var d :| l.Of(d).Some? && l.Of(Other(d)).None? && pa.domains == [(d, PartialOf(l.Of(d).value))];
    TimeoutBodyShape(l.Of(d).value, now);
    StoredFirstAt(TimeoutBody(pa.domains, now), "missing_domains");
  }

  lemma StepMissing(v: View, sh: Shared, l: Lasts, cid: string, input: Input, late: bool)
    requires ViewOk(v, sh, l, cid) && MissingMatches(v, late)
    ensures MissingMatches(StepView(v, sh, cid, input), late || (input.Tick? && Expired(v, input.now)))
  {
    match input
    case SorEvent(e) =>
      if Accepted(e) && CustomerRef(e.raw) == Some(cid) {
        if v.tiers.hot.Some? {
          UpsertKeepsMissing(v, sh, l, cid, e);
        } else {
          ReceiveSetsMissing(v, sh, l, cid, e);
        }
      }
    case Tick(now) =>
      if Expired(v, now) {
        TimeoutSetsMissing(v, sh, l, cid, now);
      }
    case FanOut(index, now) =>
      if index < |sh.fanouts| && v.tiers.hot.Some? && HoldsSku(v.tiers.hot.value, sh.fanouts[index]) {
        assert "commercial_state" in v.tiers.hot.value;
        EnrichKeepsField(v.tiers, l, cid, sh, now, "missing_domains");
      }
    case _ =>
  }

  /**
   * "Complete implies that no domain is missing" fails, and exactly when: over every run a stored record lists
   * missing domains if and only if a timeout once fired for the customer, however complete it has become since.
   */
  lemma {:induction false} MissingDomainsExact(sh0: Shared, inputs: seq<Input>, cid: string)
    ensures MissingMatches(RunView(sh0, inputs, cid), EverTimedOut(sh0, inputs, cid))
  {
    if inputs != [] {
      var front, last := inputs[..|inputs| - 1], inputs[|inputs| - 1];
      MissingDomainsExact(sh0, front, cid);
      RunKeepsInvariant(sh0, front, cid);
      StepMissing(RunView(sh0, front, cid), RunShared(sh0, front), LastEvents(front, cid), cid, last, EverTimedOut(sh0, front, cid));
    }
  }

  /** A complete record that still lists a missing domain: an event, a late sweep, the event of the other domain. */
  lemma CompleteWithMissingDomains(sh: Shared, first: Event, second: Event, cid: string, now: int)
    requires Accepted(first) && Accepted(second) && second.domain == Other(first.domain)
    requires CustomerRef(first.raw) == CustomerRef(second.raw) == Some(cid)
    requires now >= first.now + TIMEOUT_SECONDS
    ensures var v := RunView(sh, [SorEvent(first), Tick(now), SorEvent(second)], cid);
            IsComplete(v) && "missing_domains" in v.tiers.hot.value && v.tiers.hot.value["missing_domains"] != Arr([])
  {
    var a, b, c := [SorEvent(first)], [SorEvent(first), Tick(now)], [SorEvent(first), Tick(now), SorEvent(second)];
    assert a[..0] == [] && b[..1] == a && c[..2] == b;
    assert RunView(sh, a, cid) == Receive(View(None, EMPTY), first, sh.products);
    assert Expired(RunView(sh, a, cid), now);
    MissingDomainsExact(sh, c, cid);
    assert EverTimedOut(sh, b, cid);
    RunKeepsInvariant(sh, c, cid);
    BothInRun(first, second, cid, now);
    StateOfView(RunView(sh, c, cid), RunShared(sh, c), LastEvents(c, cid), cid);
  }

  lemma BothInRun(first: Event, second: Event, cid: string, now: int)
    requires Accepted(first) && Accepted(second) && second.domain == Other(first.domain)
    requires CustomerRef(first.raw) == CustomerRef(second.raw) == Some(cid)
    ensures LastEvents([SorEvent(first), Tick(now), SorEvent(second)], cid) == Lasts(None, None).Put(first).Put(second)
  {
    var a, b, c := [SorEvent(first)], [SorEvent(first), Tick(now)], [SorEvent(first), Tick(now), SorEvent(second)];
    assert a[..0] == [] && b[..1] == a && c[..2] == b;
    LastEventsStep(c, cid);
    LastEventsStep(b, cid);
    LastEventsStep(a, cid);
  }

  /** A domain upsert replaces the whole provenance: that of the other domain is gone. */
  lemma UpsertReplacesProvenance(v: View, sh: Shared, l: Lasts, cid: string, e: Event)
    requires ViewOk(v, sh, l, cid) && v.tiers.hot.Some?
    requires Accepted(e) && CustomerRef(e.raw) == Some(cid)
    ensures var v' := Upsert(v, e, sh.products);
            v'.tiers.hot.Some? && "provenance" in v'.tiers.hot.value
            && v'.tiers.hot.value["provenance"] == Provenance(e.domain, e.raw, e.id)
  {
    var rec := v.tiers.hot.value;
    UpsertBodyShape(rec, e);
    UpsertData(rec, e);
    StoredAt(rec, UpsertBody(rec, e), "provenance");
    UpsertField(v, sh, l, cid, e, "provenance", Provenance(e.domain, e.raw, e.id));
  }
}
