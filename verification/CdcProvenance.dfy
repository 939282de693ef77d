/**
 * Provenance is documented as kept for each domain. A join does list both domains, but a timeout partial carries that
 * of its only event, and every later upsert replaces the whole by its own.
 */
module CdcProvenance {
  import opened Json
  import opened Ontology
  import opened Cache
  import opened Cdc
  import opened CdcInvariant
  import opened CdcSteps
  import opened CdcRuns
  import opened CdcFacts

  /** The event of the customer finds the other domain pending. */
  predicate Joins(v: View, e: Event) {
    v.tiers.hot.None? && v.pending.Some? && AllDomains(PutDomain(v.pending.value.domains, e.domain, PartialOf(e)))
  }

  predicate EventOf(input: Input, cid: string) {
    input.SorEvent? && Accepted(input.e) && CustomerRef(input.e.raw) == Some(cid)
  }

  /** The last accepted event of the customer. */
  function LastAccepted(inputs: seq<Input>, cid: string): Option<Event> {
    if inputs == [] then None
    else if EventOf(inputs[|inputs| - 1], cid) then Some(inputs[|inputs| - 1].e)
    else LastAccepted(inputs[..|inputs| - 1], cid)
  }

  /** Whether the last accepted event of the customer was the one that joined. */
  predicate JoinStands(sh0: Shared, inputs: seq<Input>, cid: string) {
    inputs != [] &&
    var front, last := inputs[..|inputs| - 1], inputs[|inputs| - 1];
    if EventOf(last, cid) then Joins(RunView(sh0, front, cid), last.e) else JoinStands(sh0, front, cid)
  }

  function ProvenanceFor(e: Event): Json {
    Provenance(e.domain, e.raw, e.id)
  }

  predicate Lists(provenance: Json, d: Domain) {
    provenance.Obj? && "domains" in provenance.fields && provenance.fields["domains"].Obj?
    && DomainName(d) in provenance.fields["domains"].fields
  }

  /** The provenance lists the domain with that of its last event. */
  predicate Traces(provenance: Json, d: Domain, l: Lasts) {
    Lists(provenance, d) && l.Of(d).Some? && provenance.fields["domains"].fields[DomainName(d)] == ProvenanceFor(l.Of(d).value)
  }

  lemma SingleListsNothing(e: Event, d: Domain)
    ensures !Lists(ProvenanceFor(e), d)
  {
  }

  predicate ProvenanceOk(v: View, l: Lasts, joined: bool, last: Option<Event>) {
    && (joined ==> v.tiers.hot.Some?)
    && (v.pending.Some? ==> last.Some? && v.pending.value.domains == [(last.value.domain, PartialOf(last.value))])
    && (v.tiers.hot.Some? ==>
          && "provenance" in v.tiers.hot.value
          && if joined then forall d :: Traces(v.tiers.hot.value["provenance"], d, l)
             else last.Some? && v.tiers.hot.value["provenance"] == ProvenanceFor(last.value))
  }

  lemma PairProvenance(a: (Domain, Dict), b: (Domain, Dict))
    ensures MergedProvenance([a, b]) == map[][DomainName(a.0) := ProvenanceOf(a.1)][DomainName(b.0) := ProvenanceOf(b.1)]
  {
    var none: Domains := [];
    assert [a, b][..1] == [a] && [a][..0] == none;
    assert MergedProvenance([a]) == MergedProvenance(none)[DomainName(a.0) := ProvenanceOf(a.1)];
  }

  lemma JoinListing(ds: Domains, now: int)
    ensures "provenance" in JoinBody(ds, now) && JoinBody(ds, now)["provenance"].Obj?
    ensures "domains" in JoinBody(ds, now)["provenance"].fields
    ensures JoinBody(ds, now)["provenance"].fields["domains"] == Obj(MergedProvenance(ds))
  {
  }

  lemma DomainNames()
    ensures DomainName(Customer) != DomainName(Billing)
  {
    assert |"customer"| == 8 && |"billing"| == 7;
  }

  lemma JoinProvenance(first: Event, second: Event, now: int)
    requires Accepted(first) && Accepted(second) && second.domain == Other(first.domain)
    requires CustomerRef(first.raw) == CustomerRef(second.raw)
    ensures var body := JoinBody([(first.domain, PartialOf(first)), (second.domain, PartialOf(second))], now);
            && "provenance" in body
            && forall d :: Traces(body["provenance"], d, Lasts(None, None).Put(first).Put(second))
  {
    var a, b := (first.domain, PartialOf(first)), (second.domain, PartialOf(second));
    OwnProvenance(first);
    OwnProvenance(second);
    PairProvenance(a, b);
    JoinListing([a, b], now);
    DomainNames();
    BothTraced(JoinBody([a, b], now)["provenance"], first, second);
  }

  lemma OwnProvenance(e: Event)
    ensures ProvenanceOf(PartialOf(e)) == ProvenanceFor(e)
  {
  }

  lemma BothTraced(provenance: Json, first: Event, second: Event)
    requires second.domain == Other(first.domain) && DomainName(first.domain) != DomainName(second.domain)
    requires provenance.Obj? && "domains" in provenance.fields
    requires provenance.fields["domains"] ==
             Obj(map[][DomainName(first.domain) := ProvenanceFor(first)][DomainName(second.domain) := ProvenanceFor(second)])
    ensures forall d :: Traces(provenance, d, Lasts(None, None).Put(first).Put(second))
  {
    forall d
      ensures Traces(provenance, d, Lasts(None, None).Put(first).Put(second))
    {
      assert d == first.domain || d == second.domain;
    }
  }

  lemma JoinedOk(v: View, sh: Shared, l: Lasts, cid: string, first: Event, e: Event)
    requires ViewOk(v, sh, l, cid) && Accepted(first) && CustomerRef(first.raw) == Some(cid)
    requires v.tiers.hot.None? && v.pending.Some? && v.pending.value.domains == [(first.domain, PartialOf(first))]
    requires l.Of(first.domain) == Some(first) && l.Of(e.domain).None?
    requires Accepted(e) && CustomerRef(e.raw) == Some(cid) && e.domain == Other(first.domain)
    ensures ProvenanceOk(Receive(v, e, sh.products), l.Put(e), true, Some(e))
  {
    PutDomainPair(first.domain, PartialOf(first), e);
    var body := JoinBody([(first.domain, PartialOf(first)), (e.domain, PartialOf(e))], e.now);
    JoinBodyShape(first, e, e.now);
    JoinStored(first, e, e.now, cid, sh.products);
    JoinProvenance(first, e, e.now);
    StoredFirstAt(body, "provenance");
    var both := Lasts(None, None).Put(first).Put(e);
    assert l.Put(e) == both;
    EnrichKeepsField(Put(v.tiers, body).value, both, cid, sh, e.now, "provenance");
  }

  lemma EventProvenance(v: View, sh: Shared, l: Lasts, cid: string, e: Event, joined: bool, last: Option<Event>)
    requires ViewOk(v, sh, l, cid) && ProvenanceOk(v, l, joined, last)
    requires Accepted(e) && CustomerRef(e.raw) == Some(cid)
    ensures ProvenanceOk(OnEvent(v, cid, e, sh.products), l.Put(e), Joins(v, e), Some(e))
  {
    if v.tiers.hot.Some? {
      UpsertReplacesProvenance(v, sh, l, cid, e);
    } else if v.pending.Some? {
      var d :| l.Of(d).Some? && l.Of(Other(d)).None? && v.pending.value.domains == [(d, PartialOf(l.Of(d).value))];
      PutDomainPair(d, PartialOf(l.Of(d).value), e);
      if e.domain != d {
        JoinedOk(v, sh, l, cid, l.Of(d).value, e);
      }
    }
  }

  lemma TimeoutProvenance(v: View, sh: Shared, l: Lasts, cid: string, now: int, joined: bool, last: Option<Event>)
    requires ViewOk(v, sh, l, cid) && ProvenanceOk(v, l, joined, last) && Expired(v, now)
    ensures ProvenanceOk(OnTick(v, now), l, joined, last)
  {
    var d :| l.Of(d).Some? && l.Of(Other(d)).None? && v.pending.value.domains == [(d, PartialOf(l.Of(d).value))];
    TimeoutCarries(l.Of(d).value, now);
    OwnProvenance(l.Of(d).value);
    OwnProvenance(last.value);
    assert PartialOf(last.value) == PartialOf(l.Of(d).value);
  }

  lemma TimeoutCarries(e: Event, now: int)
    requires Accepted(e)
    ensures var body := TimeoutBody([(e.domain, PartialOf(e))], now);
            && !MergeHint(body) && Accepts(DataOf(body))
            && "provenance" in Stored(None, body) && Stored(None, body)["provenance"] == ProvenanceFor(e)
  {
    TimeoutBodyShape(e, now);
    PartialShape(e);
    StoredFirstAt(TimeoutBody([(e.domain, PartialOf(e))], now), "provenance");
  }

  lemma StepProvenance(v: View, sh: Shared, l: Lasts, cid: string, input: Input, joined: bool, last: Option<Event>)
    requires ViewOk(v, sh, l, cid) && ProvenanceOk(v, l, joined, last)
    ensures ProvenanceOk(StepView(v, sh, cid, input), StepLasts(l, cid, input),
                         if EventOf(input, cid) then Joins(v, input.e) else joined,
                         if EventOf(input, cid) then Some(input.e) else last)
  {
    match input
    case SorEvent(e) =>
      if EventOf(input, cid) {
        EventProvenance(v, sh, l, cid, e, joined, last);
      }
    case Tick(now) =>
      if Expired(v, now) {
        TimeoutProvenance(v, sh, l, cid, now, joined, last);
      }
    case FanOut(index, now) =>
      if index < |sh.fanouts| && v.tiers.hot.Some? && HoldsSku(v.tiers.hot.value, sh.fanouts[index]) {
        assert "commercial_state" in v.tiers.hot.value;
        EnrichKeepsField(v.tiers, l, cid, sh, now, "provenance");
      }
    case _ =>
  }

  lemma {:induction false} RunProvenance(sh0: Shared, inputs: seq<Input>, cid: string)
    ensures ProvenanceOk(RunView(sh0, inputs, cid), LastEvents(inputs, cid), JoinStands(sh0, inputs, cid), LastAccepted(inputs, cid))
  {
    if inputs != [] {
      var front, last := inputs[..|inputs| - 1], inputs[|inputs| - 1];
      RunProvenance(sh0, front, cid);
      RunKeepsInvariant(sh0, front, cid);
      StepProvenance(RunView(sh0, front, cid), RunShared(sh0, front), LastEvents(front, cid), cid, last,
                     JoinStands(sh0, front, cid), LastAccepted(front, cid));
      LastEventsStep(inputs, cid);
    }
  }

  /**
   * Over every run a stored record's provenance lists both domains if and only if its full write was a join and no
   * event of the customer has been accepted since. Then each domain is listed with the provenance of its last event;
   * otherwise the whole provenance is that of the last accepted event, and lists no domain.
   */
  lemma ProvenanceExact(sh0: Shared, inputs: seq<Input>, cid: string)
    requires RunView(sh0, inputs, cid).tiers.hot.Some?
    ensures var rec := RunView(sh0, inputs, cid).tiers.hot.value;
            && "provenance" in rec
            && ((forall d :: Lists(rec["provenance"], d)) <==> JoinStands(sh0, inputs, cid))
            && (JoinStands(sh0, inputs, cid) ==> forall d :: Traces(rec["provenance"], d, LastEvents(inputs, cid)))
            && (!JoinStands(sh0, inputs, cid) ==>
                  && LastAccepted(inputs, cid).Some? && rec["provenance"] == ProvenanceFor(LastAccepted(inputs, cid).value)
                  && forall d :: !Lists(rec["provenance"], d))
  {
    RunProvenance(sh0, inputs, cid);
    var rec := RunView(sh0, inputs, cid).tiers.hot.value;
    if JoinStands(sh0, inputs, cid) {
      forall d
        ensures Lists(rec["provenance"], d)
      {
        assert Traces(rec["provenance"], d, LastEvents(inputs, cid));
      }
    } else {
      forall d
        ensures !Lists(rec["provenance"], d)
      {
        SingleListsNothing(LastAccepted(inputs, cid).value, d);
      }
      assert !Lists(rec["provenance"], Customer);
    }
  }
}
