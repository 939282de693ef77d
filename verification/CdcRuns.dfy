/** Whole runs of the assembly service, compared with the last event of each domain. */
module CdcRuns {
  import opened Json
  import opened Seqs
  import opened Products
  import opened Ontology
  import opened Cache
  import opened Cdc
  import opened CdcInvariant
  import opened CdcSteps

  function RunShared(sh0: Shared, inputs: seq<Input>): Shared {
    if inputs == [] then sh0 else StepShared(RunShared(sh0, inputs[..|inputs| - 1]), inputs[|inputs| - 1])
  }

  function RunView(sh0: Shared, inputs: seq<Input>, cid: string): View {
    if inputs == [] then View(None, EMPTY)
    else
      var front, last := inputs[..|inputs| - 1], inputs[|inputs| - 1];
      StepView(RunView(sh0, front, cid), RunShared(sh0, front), cid, last)
  }

  /** The accepted events of one customer and domain, in order of arrival. */
  function EventsOf(inputs: seq<Input>, cid: string, d: Domain): seq<Event> {
    if inputs == [] then []
    else
      var front, last := inputs[..|inputs| - 1], inputs[|inputs| - 1];
      EventsOf(front, cid, d)
      + (if last.SorEvent? && last.e.domain == d && Accepted(last.e) && CustomerRef(last.e.raw) == Some(cid) then [last.e] else [])
  }

  function LastOf(es: seq<Event>): Option<Event> {
    if es == [] then None else Some(es[|es| - 1])
  }

  /** The whole specification: the last event per domain. */
  function LastEvents(inputs: seq<Input>, cid: string): Lasts {
    Lasts(LastOf(EventsOf(inputs, cid, Customer)), LastOf(EventsOf(inputs, cid, Billing)))
  }

  lemma LastEventsStep(inputs: seq<Input>, cid: string)
    requires inputs != []
    ensures LastEvents(inputs, cid) == StepLasts(LastEvents(inputs[..|inputs| - 1], cid), cid, inputs[|inputs| - 1])
  {
  }

  lemma {:induction false} RunKeepsInvariant(sh0: Shared, inputs: seq<Input>, cid: string)
    ensures ViewOk(RunView(sh0, inputs, cid), RunShared(sh0, inputs), LastEvents(inputs, cid), cid)
  {
    if inputs != [] {
      var front, last := inputs[..|inputs| - 1], inputs[|inputs| - 1];
      RunKeepsInvariant(sh0, front, cid);
      StepKeeps(RunView(sh0, front, cid), RunShared(sh0, front), LastEvents(front, cid), cid, last);
      LastEventsStep(inputs, cid);
    }
  }

  /** A commercial line without what enrichment writes. */
  function Core(line: Json): Dict {
    if line.Obj? then line.fields - ENRICHED else map[]
  }

  /**
   * Latest wins: over every run of events, ticks, price changes and fan-outs, a customer with an accepted
   * event is in exactly one of `pending` and the hot cache, and what is held there for each domain is what
   * the last event of that domain assembles to, in full for the profile and up to the enriched fields for
   * the billing lines. Nothing is held for a domain without an event, so no event is lost or invented.
   */
  lemma LatestWins(sh0: Shared, inputs: seq<Input>, cid: string)
    ensures HoldsLatest(RunView(sh0, inputs, cid), LastEvents(inputs, cid))
  {
    RunKeepsInvariant(sh0, inputs, cid);
    LatestHeld(RunView(sh0, inputs, cid), RunShared(sh0, inputs), LastEvents(inputs, cid), cid);
  }

  predicate HoldsLatest(v: View, l: Lasts) {
    && (l.customer.Some? || l.billing.Some? <==> v.pending.Some? || v.tiers.hot.Some?)
    && !(v.pending.Some? && v.tiers.hot.Some?)
    && (v.pending.Some? ==>
          && |v.pending.value.domains| == 1
          && var (d, partial) := v.pending.value.domains[0];
             l.Of(d).Some? && l.Of(Other(d)).None? && partial == PartialOf(l.Of(d).value))
    && (v.tiers.hot.Some? ==>
          var rec := v.tiers.hot.value;
          && ("profile" in rec <==> l.customer.Some?)
          && ("commercial_state" in rec <==> l.billing.Some?)
          && (l.customer.Some? ==> rec["profile"] == Obj(Group(Customer, l.customer.value.raw, l.customer.value.now)))
          && (l.billing.Some? ==> HoldsLinesOf(rec, l.billing.value)))
  }

  lemma LatestHeld(v: View, sh: Shared, l: Lasts, cid: string)
    requires ViewOk(v, sh, l, cid)
    ensures HoldsLatest(v, l)
  {
  }

  lemma PendingHeld(pa: Pending, l: Lasts)
    requires PendingOk(pa, l)
    ensures |pa.domains| == 1 && l.Of(pa.domains[0].0).Some? && l.Of(Other(pa.domains[0].0)).None?
    ensures pa.domains[0].1 == PartialOf(l.Of(pa.domains[0].0).value)
    ensures HasDomain(pa.domains, Customer) != HasDomain(pa.domains, Billing)
    ensures l.customer.Some? || l.billing.Some?
  {
  }

  /** The record's billing lines are those of the event, one for one and in order, up to enriched fields. */
  predicate HoldsLinesOf(rec: Dict, e: Event) {
    && "commercial_state" in rec && rec["commercial_state"].Obj?
    && "subscriptions" in rec["commercial_state"].fields && rec["commercial_state"].fields["subscriptions"].Arr?
    && var lines := rec["commercial_state"].fields["subscriptions"].items;
       && |lines| == |MappedLines(e.raw)|
       && forall i :: 0 <= i < |lines| ==> lines[i].Obj? && Core(lines[i]) == Core(MappedLines(e.raw)[i])
  }

  lemma LinesHeld(rec: Dict, l: Lasts, cid: string, products: Catalogue)
    requires RecordOk(rec, l, cid, products) && l.billing.Some?
    ensures HoldsLinesOf(rec, l.billing.value)
  {
  }

  /**
   * The assembly-state machine, over every run: `complete` exactly with both groups, `awaiting_x` and
   * `partial_timed_out` only with exactly one group, x being the absent one; a pending entry holds exactly
   * one of the two required domains; and completeness is never lost by any further input.
   */
  lemma ExactStateMachine(sh0: Shared, inputs: seq<Input>, cid: string, next: Input)
    ensures StateExact(RunView(sh0, inputs, cid))
    ensures IsComplete(RunView(sh0, inputs, cid)) ==> IsComplete(RunView(sh0, inputs + [next], cid))
  {
    RunKeepsInvariant(sh0, inputs, cid);
    assert (inputs + [next])[..|inputs|] == inputs;
    var v, sh, l := RunView(sh0, inputs, cid), RunShared(sh0, inputs), LastEvents(inputs, cid);
    StateOfView(v, sh, l, cid);
    if IsComplete(v) {
      CompleteStays(v, sh, l, cid, next);
    }
  }

  predicate StateExact(v: View) {
    && (v.tiers.hot.Some? ==>
          var rec := v.tiers.hot.value;
          && "assembly_state" in rec
          && (rec["assembly_state"] == Str("complete") <==> "profile" in rec && "commercial_state" in rec)
          && (rec["assembly_state"] == Str("awaiting_billing") ==> "profile" in rec && "commercial_state" !in rec)
          && (rec["assembly_state"] == Str("awaiting_customer") ==> "profile" !in rec && "commercial_state" in rec)
          && (rec["assembly_state"] == Str("partial_timed_out") ==> ("profile" in rec <==> "commercial_state" !in rec))
          && rec["assembly_state"].Str? && rec["assembly_state"].s in ASSEMBLY_STATES)
    && (v.pending.Some? ==> HasDomain(v.pending.value.domains, Customer) != HasDomain(v.pending.value.domains, Billing))
  }

  lemma StateOfView(v: View, sh: Shared, l: Lasts, cid: string)
    requires ViewOk(v, sh, l, cid)
    ensures StateExact(v)
    ensures IsComplete(v) <==> v.tiers.hot.Some? && l.customer.Some? && l.billing.Some?
  {
    StatesApart();
    if v.pending.Some? {
      PendingHeld(v.pending.value, l);
    }
  }

  lemma CompleteStays(v: View, sh: Shared, l: Lasts, cid: string, input: Input)
    requires ViewOk(v, sh, l, cid) && IsComplete(v)
    ensures IsComplete(StepView(v, sh, cid, input))
  {
    StateOfView(v, sh, l, cid);
    StepKeeps(v, sh, l, cid, input);
    HotStays(v, sh, cid, input);
    StateOfView(StepView(v, sh, cid, input), StepShared(sh, input), StepLasts(l, cid, input), cid);
  }

  lemma StatesApart()
    ensures "complete" != "awaiting_billing" && "complete" != "awaiting_customer" && "complete" != "partial_timed_out"
    ensures "awaiting_billing" != "awaiting_customer" && "awaiting_billing" != "partial_timed_out"
    ensures "awaiting_customer" != "partial_timed_out"
  {
  }

  predicate IsComplete(v: View) {
    v.tiers.hot.Some? && Get(v.tiers.hot.value, "assembly_state", Null) == Str("complete")
  }

  lemma HotStays(v: View, sh: Shared, cid: string, input: Input)
    requires v.tiers.hot.Some?
    ensures StepView(v, sh, cid, input).tiers.hot.Some?
  {
  }

  /**
   * The cache agrees with the catalogue: in every complete record every line whose SKU the catalogue knows
   * carries the catalogue's current name, type, list price and terms, unless an update of that SKU has still to
   * fan out; and a line whose SKU the catalogue does not know is exactly the mapped billing line.
   */
  lemma CacheAgreesWithCatalogue(sh0: Shared, inputs: seq<Input>, cid: string)
    requires IsComplete(RunView(sh0, inputs, cid))
    ensures LastEvents(inputs, cid).billing.Some?
    ensures HoldsLinesOf(RunView(sh0, inputs, cid).tiers.hot.value, LastEvents(inputs, cid).billing.value)
    ensures AgreesWithCatalogue(RunView(sh0, inputs, cid).tiers.hot.value, LastEvents(inputs, cid).billing.value, RunShared(sh0, inputs))
  {
    RunKeepsInvariant(sh0, inputs, cid);
    var v, l, sh := RunView(sh0, inputs, cid), LastEvents(inputs, cid), RunShared(sh0, inputs);
    StateOfView(v, sh, l, cid);
    LinesHeld(v.tiers.hot.value, l, cid, sh.products);
    LinesAgree(v.tiers.hot.value, l, cid, sh);
  }

  predicate AgreesWithCatalogue(rec: Dict, e: Event, sh: Shared)
    requires HoldsLinesOf(rec, e)
  {
    var lines := rec["commercial_state"].fields["subscriptions"].items;
    forall i :: 0 <= i < |lines| ==> LineAgrees(lines[i].fields, MappedLines(e.raw)[i], sh)
  }

  predicate LineAgrees(line: Dict, mapped: Json, sh: Shared) {
    match ProductOf(sh.products, line)
    case None => Obj(line) == mapped
    case Some(p) => Stale(line, sh.fanouts) || forall k :: k in ENRICHED ==> k in line && line[k] == ProductFields(p)[k]
  }

  lemma LinesAgree(rec: Dict, l: Lasts, cid: string, sh: Shared)
    requires RecordOk(rec, l, cid, sh.products) && RecordCurrent(rec, l, sh) && l.customer.Some? && l.billing.Some?
    ensures HoldsLinesOf(rec, l.billing.value) && AgreesWithCatalogue(rec, l.billing.value, sh)
  {
    LinesHeld(rec, l, cid, sh.products);
    var mapped := MappedLines(l.billing.value.raw);
    var lines := rec["commercial_state"].fields["subscriptions"].items;
    forall i | 0 <= i < |lines|
      ensures LineAgrees(lines[i].fields, mapped[i], sh)
    {
      OneLineAgrees(lines[i].fields, mapped[i], sh);
    }
  }

  lemma OneLineAgrees(line: Dict, mapped: Json, sh: Shared)
    requires mapped.Obj? && LineOk(line, mapped.fields, sh.products)
    requires Stale(line, sh.fanouts) || LineCurrent(line, sh.products)
    ensures LineAgrees(line, mapped, sh)
  {
    EnrichedLineOk(line, mapped.fields, sh.products);
    var product := ProductOf(sh.products, line);
    if product.Some? && !Stale(line, sh.fanouts) {
      assert line == line + ProductFields(product.value);
    }
  }

  // ---------------------------------------------------------------- confluence

  /** A field group without the time it was assembled at. */
  function Timeless(group: Json): Json {
    if group.Obj? && "_meta" in group.fields && group.fields["_meta"].Obj? then
      Obj(group.fields["_meta" := Obj(group.fields["_meta"].fields - {"assembled_at"})])
    else group
  }

  /** What a complete record's commercial group comes to once every update has fanned out. */
  function SettledCommercial(raw: Dict, products: Catalogue): Json {
    Obj(map["subscriptions" := Arr(EnrichLines(products, MappedLines(raw))),
            "discount_summary" := NO_SAVING,
            "_meta" := Obj(Meta(Billing, 0) - {"assembled_at"})])
  }

  lemma MappedAreObjects(raw: Dict)
    ensures forall i :: 0 <= i < |MappedLines(raw)| ==> MappedLines(raw)[i].Obj?
  {
  }

  lemma TimelessMeta(d: Domain, now: int, other: int)
    ensures Meta(d, now) - {"assembled_at"} == Meta(d, other) - {"assembled_at"}
  {
  }

  lemma SettledLines(lines: seq<Json>, raw: Dict, sh: Shared)
    requires LinesOk(lines, MappedLines(raw), sh.products)
    requires forall i :: 0 <= i < |lines| ==> LineCurrent(lines[i].fields, sh.products)
    ensures (forall i :: 0 <= i < |MappedLines(raw)| ==> MappedLines(raw)[i].Obj?)
            && lines == EnrichLines(sh.products, MappedLines(raw))
  {
    EnrichedLinesOk(lines, raw, sh.products);
    assert EnrichLines(sh.products, lines) == lines by {
      forall i | 0 <= i < |lines|
        ensures EnrichLines(sh.products, lines)[i] == lines[i]
      {
        assert EnrichLine(sh.products, lines[i].fields) == lines[i].fields;
      }
    }
  }

  lemma SettledGroup(group: Json, e: Event, sh: Shared)
    requires CommercialOk(group, e, sh.products) && "discount_summary" in group.fields
    requires var lines := group.fields["subscriptions"].items;
             forall i :: 0 <= i < |lines| ==> LineCurrent(lines[i].fields, sh.products)
    ensures (forall i :: 0 <= i < |MappedLines(e.raw)| ==> MappedLines(e.raw)[i].Obj?)
            && Timeless(group) == SettledCommercial(e.raw, sh.products)
  {
    var g := group.fields;
    SettledLines(g["subscriptions"].items, e.raw, sh);
    TimelessMeta(Billing, e.now, 0);
    var settled := SettledCommercial(e.raw, sh.products).fields;
    var out := Timeless(group).fields;
    assert g.Keys == {"subscriptions", "discount_summary", "_meta"};
    assert out.Keys == settled.Keys;
  }

  /** With no fan-out outstanding, a complete record's groups are a function of the last raw records and the catalogue. */
  lemma SettledRecord(sh0: Shared, inputs: seq<Input>, cid: string)
    requires LastEvents(inputs, cid).customer.Some? && LastEvents(inputs, cid).billing.Some?
    requires RunShared(sh0, inputs).fanouts == []
    requires RunView(sh0, inputs, cid).tiers.hot.Some?
    ensures (forall i :: 0 <= i < |MappedLines(LastEvents(inputs, cid).billing.value.raw)| ==>
              MappedLines(LastEvents(inputs, cid).billing.value.raw)[i].Obj?)
    ensures var l, rec := LastEvents(inputs, cid), RunView(sh0, inputs, cid).tiers.hot.value;
            && "assembly_state" in rec && rec["assembly_state"] == Str("complete")
            && "profile" in rec && rec["profile"] == Obj(Group(Customer, l.customer.value.raw, l.customer.value.now))
            && "commercial_state" in rec
            && Timeless(rec["commercial_state"]) == SettledCommercial(l.billing.value.raw, RunShared(sh0, inputs).products)
  {
    RunKeepsInvariant(sh0, inputs, cid);
    var l, rec, sh := LastEvents(inputs, cid), RunView(sh0, inputs, cid).tiers.hot.value, RunShared(sh0, inputs);
    var lines := rec["commercial_state"].fields["subscriptions"].items;
    forall i | 0 <= i < |lines|
      ensures LineCurrent(lines[i].fields, sh.products)
    {
      assert !Stale(lines[i].fields, sh.fanouts);
    }
    SettledGroup(rec["commercial_state"], l.billing.value, sh);
  }

  lemma TimelessProfile(raw: Dict, now: int, other: int)
    ensures Timeless(Obj(Group(Customer, raw, now))) == Timeless(Obj(Group(Customer, raw, other)))
  {
    TimelessMeta(Customer, now, other);
    var a, b := Group(Customer, raw, now), Group(Customer, raw, other);
    var m := Obj(Meta(Customer, now) - {"assembled_at"});
    assert a["_meta" := m] == GroupFields(Customer, raw)["_meta" := m];
    assert b["_meta" := m] == GroupFields(Customer, raw)["_meta" := m];
  }

  function RawsOf(es: seq<Event>): seq<Dict> {
    seq(|es|, i requires 0 <= i < |es| => es[i].raw)
  }

  lemma BothArrived(sh0: Shared, inputs: seq<Input>, cid: string)
    requires LastEvents(inputs, cid).customer.Some? && LastEvents(inputs, cid).billing.Some?
    ensures RunView(sh0, inputs, cid).tiers.hot.Some?
  {
    RunKeepsInvariant(sh0, inputs, cid);
    var l := LastEvents(inputs, cid);
    assert forall d :: l.Of(d).Some?;
  }

  /**
   * Confluence and timeout transparency: two runs that bring a customer the same raw records in the same
   * order per domain, however the domains interleave, wherever timeouts fire and whatever else happens, and
   * that leave the catalogue the same with nothing to fan out, end with the same complete record, up to
   * timestamps (and version, provenance and `missing_domains`).
   */
  lemma ArrivalOrderAndTimeoutsDoNotMatter(sh1: Shared, run1: seq<Input>, sh2: Shared, run2: seq<Input>, cid: string)
    requires forall d :: RawsOf(EventsOf(run1, cid, d)) == RawsOf(EventsOf(run2, cid, d))
    requires forall d :: EventsOf(run1, cid, d) != []
    requires RunShared(sh1, run1).products == RunShared(sh2, run2).products
    requires RunShared(sh1, run1).fanouts == [] && RunShared(sh2, run2).fanouts == []
    ensures RunView(sh1, run1, cid).tiers.hot.Some? && RunView(sh2, run2, cid).tiers.hot.Some?
    ensures var a, b := RunView(sh1, run1, cid).tiers.hot.value, RunView(sh2, run2, cid).tiers.hot.value;
            && "assembly_state" in a && "assembly_state" in b && a["assembly_state"] == b["assembly_state"] == Str("complete")
            && "profile" in a && "profile" in b && Timeless(a["profile"]) == Timeless(b["profile"])
            && "commercial_state" in a && "commercial_state" in b
            && Timeless(a["commercial_state"]) == Timeless(b["commercial_state"])
  {
    forall d
      ensures EventsOf(run2, cid, d) != []
      ensures LastOf(EventsOf(run1, cid, d)).value.raw == LastOf(EventsOf(run2, cid, d)).value.raw
    {
      var es, fs := EventsOf(run1, cid, d), EventsOf(run2, cid, d);
      assert |RawsOf(es)| == |es| && |RawsOf(fs)| == |fs|;
      assert RawsOf(es)[|es| - 1] == es[|es| - 1].raw && RawsOf(fs)[|fs| - 1] == fs[|fs| - 1].raw;
    }
    BothArrived(sh1, run1, cid);
    BothArrived(sh2, run2, cid);
    SettledRecord(sh1, run1, cid);
    SettledRecord(sh2, run2, cid);
    var l, m := LastEvents(run1, cid), LastEvents(run2, cid);
    TimelessProfile(l.customer.value.raw, l.customer.value.now, m.customer.value.now);
  }

  /** Joining two partials in either order gives the same record, up to the order of the source systems. */
  lemma MergeOrder(first: Event, second: Event, now: int)
    requires Accepted(first) && Accepted(second) && second.domain == Other(first.domain)
    requires CustomerRef(first.raw) == CustomerRef(second.raw)
    ensures var a, b := (first.domain, PartialOf(first)), (second.domain, PartialOf(second));
            && MergedFields([a, b]) == MergedFields([b, a])
            && LatestTime([a, b]) == LatestTime([b, a])
            && MergedProvenance([a, b]) == MergedProvenance([b, a])
            && SetOf(MergedSources([a, b])) == SetOf(MergedSources([b, a]))
            && Merged([a, b], now) - {"provenance"} == Merged([b, a], now) - {"provenance"}
  {
    var a, b := (first.domain, PartialOf(first)), (second.domain, PartialOf(second));
    PartialShape(first);
    PartialShape(second);
    MergedEitherWay(first, second);
    PairOrder(a, b);
    SamePairMerged(a, b, now);
  }

  lemma PairOrder(a: (Domain, Dict), b: (Domain, Dict))
    requires a.0 != b.0
    requires "assembled_at" in a.1 && a.1["assembled_at"].Time? && "assembled_at" in b.1 && b.1["assembled_at"].Time?
    ensures LatestTime([a, b]) == LatestTime([b, a])
    ensures MergedProvenance([a, b]) == MergedProvenance([b, a])
    ensures SetOf(MergedSources([a, b])) == SetOf(MergedSources([b, a]))
  {
  }

  lemma SamePairMerged(a: (Domain, Dict), b: (Domain, Dict), now: int)
    requires MergedFields([a, b]) == MergedFields([b, a]) && LatestTime([a, b]) == LatestTime([b, a])
    ensures Merged([a, b], now) - {"provenance"} == Merged([b, a], now) - {"provenance"}
  {
  }

  lemma MergedEitherWay(first: Event, second: Event)
    requires Accepted(first) && Accepted(second) && second.domain == Other(first.domain)
    requires CustomerRef(first.raw) == CustomerRef(second.raw)
    ensures var a, b := (first.domain, PartialOf(first)), (second.domain, PartialOf(second));
            MergedFields([a, b]) == MergedFields([b, a])
  {
    MergedPairShape(first, second);
    MergedPairShape(second, first);
    var a, b := (first.domain, PartialOf(first)), (second.domain, PartialOf(second));
    SameThreeFields(first, second, MergedFields([a, b]), MergedFields([b, a]));
  }

  lemma SameThreeFields(first: Event, second: Event, f: Dict, g: Dict)
    requires second.domain == Other(first.domain)
    requires f.Keys == {"customer_id", "profile", "commercial_state"} == g.Keys
    requires f["customer_id"] == g["customer_id"]
    requires f[GroupName(first.domain)] == g[GroupName(first.domain)]
    requires f[GroupName(second.domain)] == g[GroupName(second.domain)]
    ensures f == g
  {
  }
}
