/**
 * Billing and assembly run jointly: every accepted patch, recalculation round and capture emits the record as it then
 * stands, so what assembly last accepted for a customer is always billing's current record.
 */
module JointRuns {
  import opened Json
  import opened Seqs
  import opened Rules
  import opened Products
  import opened Graphs
  import opened Cdc
  import opened CdcRuns
  import opened Pipeline
  import opened OfferEngine
  import opened OfferTheorems
  import B = Billing
  import T = BillingTheorems
  import O = Ontology
  import Cat = CatalogueService

  type Records = map<string, seq<B.SubLine>>

  /** What does not change during a run: the loaded policies and the order in which customers are listed. */
  datatype Setup = Setup(policies: seq<Policy>, order: seq<string>)

  datatype Step =
    | Serving(r: T.Request, emitted: seq<Event>)
    | Capturing(captured: seq<B.Capture>, emitted: seq<Event>)
    | Other(input: Input)

  predicate Kept(setup: Setup, data: Records) {
    NoDuplicates(setup.order) && data.Keys == (set c | c in setup.order) && T.AllWellFormed(data)
  }

  /** What a request makes billing send, in order. */
  function Emissions(setup: Setup, data: Records, r: T.Request): seq<B.Capture>
    requires Kept(setup, data)
  {
    match r
    case PatchCustomer(cid, patch, catalogue, today) =>
      if cid in data then B.PatchCaptures(cid, B.ApplyPatch(setup.policies, catalogue, data[cid], patch, today)) else []
    case RecalculateSku(sku, catalogue) => B.RecalculationCaptures(setup.policies, catalogue, data, setup.order, sku)
  }

  /** A request to billing is a step of the run: the service sends exactly the emissions. */
  method ServeRequest(billing: B.BillingSor, r: T.Request) returns (captured: seq<B.Capture>)
    requires billing.Valid() && Kept(Setup(billing.policies, billing.order), billing.data)
    modifies billing`data
    ensures billing.data == T.Serve(billing.policies, old(billing.data), billing.order, r)
    ensures captured == Emissions(Setup(billing.policies, billing.order), old(billing.data), r)
    ensures billing.Valid() && Kept(Setup(billing.policies, billing.order), billing.data)
  {
    T.ServeKeeps(billing.policies, billing.data, billing.order, r);
    match r
    case PatchCustomer(cid, patch, catalogue, today) =>
      var _, sent := billing.UpdateCustomer(cid, patch, catalogue, today);
      captured := sent;
    case RecalculateSku(sku, catalogue) =>
      var _, sent := billing.RecalculateFromProduct(sku, catalogue);
      captured := sent;
  }

  /** One billing event for each capture. */
  predicate Carry(captured: seq<B.Capture>, emitted: seq<Event>) {
    && |emitted| == |captured|
    && forall k :: 0 <= k < |captured| ==>
         emitted[k].domain == O.Billing && emitted[k].raw == RawRecord(captured[k].cid, captured[k].lines)
  }

  /** The captures show the records as they stand. */
  predicate Current(data: Records, captured: seq<B.Capture>) {
    forall k :: 0 <= k < |captured| ==> captured[k].cid in data && captured[k].lines == data[captured[k].cid]
  }

  predicate Mentions(captured: seq<B.Capture>, c: string) {
    exists k :: 0 <= k < |captured| && captured[k].cid == c
  }

  function DataAfter(setup: Setup, data: Records, step: Step): Records
    requires Kept(setup, data)
  {
    if step.Serving? then T.Serve(setup.policies, data, setup.order, step.r) else data
  }

  /** Billing is the only source of billing events: they carry what a request makes it send, or records as they stand. */
  predicate Possible(setup: Setup, data: Records, step: Step)
    requires Kept(setup, data)
  {
    match step
    case Serving(r, emitted) => Carry(Emissions(setup, data, r), emitted)
    case Capturing(captured, emitted) => Current(data, captured) && Carry(captured, emitted)
    case Other(input) => !(input.SorEvent? && input.e.domain == O.Billing)
  }

  function AsInputs(events: seq<Event>): seq<Input> {
    seq(|events|, i requires 0 <= i < |events| => SorEvent(events[i]))
  }

  function InputsOf(step: Step): seq<Input> {
    if step.Other? then [step.input] else AsInputs(step.emitted)
  }

  /** Billing's records after the steps. */
  function RunData(setup: Setup, data: Records, steps: seq<Step>): (data': Records)
    requires Kept(setup, data)
    ensures Kept(setup, data')
  {
    if steps == [] then data
    else
      var before, last := RunData(setup, data, steps[..|steps| - 1]), steps[|steps| - 1];
      DataStaysKept(setup, before, last);
      DataAfter(setup, before, last)
  }

  lemma DataStaysKept(setup: Setup, data: Records, step: Step)
    requires Kept(setup, data)
    ensures Kept(setup, DataAfter(setup, data, step))
  {
    if step.Serving? {
      T.ServeKeeps(setup.policies, data, setup.order, step.r);
    }
  }

  predicate PossibleRun(setup: Setup, data: Records, steps: seq<Step>)
    requires Kept(setup, data)
  {
    steps == [] ||
    (PossibleRun(setup, data, steps[..|steps| - 1])
     && Possible(setup, RunData(setup, data, steps[..|steps| - 1]), steps[|steps| - 1]))
  }

  /** What assembly has received. */
  function History(steps: seq<Step>): seq<Input> {
    if steps == [] then [] else History(steps[..|steps| - 1]) + InputsOf(steps[|steps| - 1])
  }

  // ---------------------------------------------------------------- what is sent is what stands

  /** The captures are of customers listed, show the records as they stand, and miss no changed one. */
  ghost predicate SentRight(before: Records, after: Records, captured: seq<B.Capture>, cids: seq<string>) {
    && Current(after, captured)
    && (forall c :: Mentions(captured, c) ==> c in cids)
    && (forall c :: c in before && !Mentions(captured, c) ==> c in after && after[c] == before[c])
  }

  /** A recalculation sends each record as it leaves it, and nothing for a record it leaves alone. */
  lemma {:induction false} EachCapturedCurrent(policies: seq<Policy>, data: Records, cids: seq<string>, sku: string, price: real)
    requires NoDuplicates(cids) && forall x :: x in cids ==> x in data
    ensures SentRight(data, B.RecalculateEach(policies, data, cids, sku, price).0, B.EachCaptured(policies, data, cids, sku, price), cids)
    decreases |cids|
  {
    if cids != [] {
      match B.Recalculated(policies, data[cids[0]], sku, price)
      case Raised =>
      case Ok(lines) =>
        assert cids == [cids[0]] + cids[1..];
        var now := data[cids[0] := lines];
        EachCapturedCurrent(policies, now, cids[1..], sku, price);
        SentFirst(data, now, B.RecalculateEach(policies, now, cids[1..], sku, price).0, B.Capture(cids[0], lines),
                  B.EachCaptured(policies, now, cids[1..], sku, price), cids);
    }
  }

  lemma SentFirst(before: Records, now: Records, after: Records, first: B.Capture, rest: seq<B.Capture>, cids: seq<string>)
    requires cids != [] && NoDuplicates(cids) && first.cid == cids[0] && now == before[first.cid := first.lines]
    requires SentRight(now, after, rest, cids[1..])
    ensures SentRight(before, after, [first] + rest, cids)
  {
    Prepended(after, first, rest);
    assert cids[0] !in cids[1..];
  }

  lemma Prepended(data: Records, first: B.Capture, rest: seq<B.Capture>)
    ensures Current(data, [first] + rest) <==> (first.cid in data && first.lines == data[first.cid] && Current(data, rest))
    ensures forall c :: Mentions([first] + rest, c) <==> c == first.cid || Mentions(rest, c)
  {
    var all := [first] + rest;
    assert all[0] == first && forall k :: 0 <= k < |rest| ==> all[k + 1] == rest[k];
    if Current(data, all) {
      forall k | 0 <= k < |rest|
        ensures rest[k].cid in data && rest[k].lines == data[rest[k].cid]
      {
        assert all[k + 1] == rest[k];
      }
    }
    forall c
      ensures Mentions(all, c) <==> c == first.cid || Mentions(rest, c)
    {
      if Mentions(rest, c) {
        var k :| 0 <= k < |rest| && rest[k].cid == c;
        assert all[k + 1].cid == c;
      }
    }
  }

  /** What a request makes billing send is how the records stand afterwards; whoever is not sent is left alone. */
  lemma EmissionsCurrent(setup: Setup, data: Records, r: T.Request)
    requires Kept(setup, data)
    ensures var data' := T.Serve(setup.policies, data, setup.order, r);
            && Current(data', Emissions(setup, data, r))
            && forall c :: c in data && !Mentions(Emissions(setup, data, r), c) ==> c in data' && data'[c] == data[c]
  {
    match r
    case PatchCustomer(cid, patch, catalogue, today) =>
      if cid in data && B.ApplyPatch(setup.policies, catalogue, data[cid], patch, today).Written? {
        assert Emissions(setup, data, r)[0].cid == cid;
      }
    case RecalculateSku(sku, catalogue) =>
      if sku in catalogue && catalogue[sku].listPrice.Some? {
        B.AffectedKnown(data, setup.order, sku);
        EachCapturedCurrent(setup.policies, data, B.Affected(data, setup.order, sku), sku, catalogue[sku].listPrice.value);
      }
  }

  // ---------------------------------------------------------------- in step

  /** What assembly last accepted from billing for the customer is the given record. */
  predicate UpToDate(inputs: seq<Input>, c: string, lines: seq<B.SubLine>) {
    var last := LastEvents(inputs, c).billing;
    last.Some? ==> last.value.raw == RawRecord(c, lines)
  }

  lemma OneEvent(inputs: seq<Input>, e: Event, c: string, x: string, lines: seq<B.SubLine>)
    requires x != "" ==> CustomerRef(e.raw) == Some(x)
    requires c != "" && e.domain == O.Billing && e.raw == RawRecord(x, lines)
    ensures LastEvents(inputs + [SorEvent(e)], c).billing == if x == c then Some(e) else LastEvents(inputs, c).billing
  {
    var longer := inputs + [SorEvent(e)];
    assert longer[..|longer| - 1] == inputs && longer[|longer| - 1] == SorEvent(e);
    LastEventsStep(longer, c);
    if x == c {
      EmittedIsAccepted(x, lines, e.id, e.now, e.corr);
      assert e == Event(O.Billing, RawRecord(x, lines), e.id, e.now, e.corr);
    } else {
      assert CustomerRef(e.raw) != Some(c);
    }
  }

  lemma RecordRef(x: string, lines: seq<B.SubLine>)
    ensures CustomerRef(RawRecord(x, lines)) == if x != "" then Some(x) else None
  {
  }

  lemma LastCaptured(inputs: seq<Input>, data: Records, x: string, e: Event, c: string)
    requires c in data && c != "" && x in data && e.domain == O.Billing && e.raw == RawRecord(x, data[x])
    requires x == c || UpToDate(inputs, c, data[c])
    ensures UpToDate(inputs + [SorEvent(e)], c, data[c])
  {
    RecordRef(x, data[x]);
    OneEvent(inputs, e, c, x, data[x]);
  }

  lemma AsInputsSnoc(inputs: seq<Input>, emitted: seq<Event>)
    requires emitted != []
    ensures inputs + AsInputs(emitted) == (inputs + AsInputs(emitted[..|emitted| - 1])) + [SorEvent(emitted[|emitted| - 1])]
  {
  }

  /** After a capture of the customer, or of others only if it was up to date before, assembly is up to date. */
  lemma {:induction false} CapturedUpToDate(inputs: seq<Input>, data: Records, captured: seq<B.Capture>, emitted: seq<Event>, c: string)
    requires Current(data, captured) && Carry(captured, emitted) && c in data && c != ""
    requires Mentions(captured, c) || UpToDate(inputs, c, data[c])
    ensures UpToDate(inputs + AsInputs(emitted), c, data[c])
    decreases |captured|
  {
    if captured == [] {
      assert inputs + AsInputs(emitted) == inputs;
    } else {
      var n := |captured| - 1;
      if captured[n].cid != c {
        MentionedBefore(captured, c);
        CapturedUpToDate(inputs, data, captured[..n], emitted[..n], c);
      }
      AsInputsSnoc(inputs, emitted);
      LastCaptured(inputs + AsInputs(emitted[..n]), data, captured[n].cid, emitted[n], c);
    }
  }

  lemma MentionedBefore(captured: seq<B.Capture>, c: string)
    requires captured != [] && captured[|captured| - 1].cid != c
    ensures Mentions(captured, c) ==> Mentions(captured[..|captured| - 1], c)
  {
    if Mentions(captured, c) {
      var k :| 0 <= k < |captured| && captured[k].cid == c;
      assert captured[..|captured| - 1][k].cid == c;
    }
  }

  lemma OtherKeepsBilling(inputs: seq<Input>, input: Input, c: string)
    requires !(input.SorEvent? && input.e.domain == O.Billing)
    ensures LastEvents(inputs + [input], c).billing == LastEvents(inputs, c).billing
  {
    var longer := inputs + [input];
    assert longer[..|longer| - 1] == inputs && longer[|longer| - 1] == input;
    LastEventsStep(longer, c);
  }

  lemma StepUpToDate(setup: Setup, data: Records, step: Step, inputs: seq<Input>, c: string)
    requires Kept(setup, data) && Possible(setup, data, step) && c in data && c != ""
    requires UpToDate(inputs, c, data[c])
    ensures c in DataAfter(setup, data, step) && UpToDate(inputs + InputsOf(step), c, DataAfter(setup, data, step)[c])
  {
    DataStaysKept(setup, data, step);
    match step
    case Serving(r, emitted) =>
      EmissionsCurrent(setup, data, r);
      CapturedUpToDate(inputs, DataAfter(setup, data, step), Emissions(setup, data, r), emitted, c);
    case Capturing(captured, emitted) => CapturedUpToDate(inputs, data, captured, emitted, c);
    case Other(input) => OtherKeepsBilling(inputs, input, c);
  }

  /**
   * In step, over every joint run: whatever billing was asked, and whatever else reached assembly in between, the last
   * billing event assembly has accepted for a customer carries exactly the record billing holds.
   */
  lemma {:induction false} AssemblyIsInStep(setup: Setup, data: Records, steps: seq<Step>, c: string)
    requires Kept(setup, data) && PossibleRun(setup, data, steps) && c in data && c != ""
    ensures c in RunData(setup, data, steps) && UpToDate(History(steps), c, RunData(setup, data, steps)[c])
    decreases |steps|
  {
    if steps != [] {
      var front, last := steps[..|steps| - 1], steps[|steps| - 1];
      AssemblyIsInStep(setup, data, front, c);
      StepUpToDate(setup, RunData(setup, data, front), last, History(front), c);
    }
  }

  /**
   * End to end, over every joint run: once billing's record of a customer has reached the cache, every offer made from
   * the cached record is on none of the lines billing holds now, conflicts with no active one, and, when all lines are
   * active, passes the broker's combination check.
   */
  lemma OffersStayAddable(setup: Setup, data: Records, steps: seq<Step>, sh0: Shared, c: string, g: Graph, products: Catalogue,
                          candidates: seq<Cat.Candidate>, offers: seq<Offer>, o: Offer)
    requires Kept(setup, data) && PossibleRun(setup, data, steps) && c in data
    requires RunView(sh0, History(steps), c).tiers.hot.Some? && LastEvents(History(steps), c).billing.Some?
    requires var subs := SubsOf(RunView(sh0, History(steps), c).tiers.hot.value);
             && ProductIdsAreText(subs) && Cat.CandidatesExact(g, products, HeldSkus(subs), candidates)
             && OffersFor(setup.policies, subs, candidates, offers)
    requires o in offers
    ensures c in RunData(setup, data, steps)
    ensures var lines := RunData(setup, data, steps)[c];
            && !B.HasSku(lines, o.sku)
            && ConflictFree(g, ActiveSkus(lines) + {o.sku})
            && ((forall l :: l in lines ==> l.stat == "A") ==> ValidCombination(g, ActiveSkus(lines) + {o.sku}))
  {
    RunKeepsInvariant(sh0, History(steps), c);
    AssemblyIsInStep(setup, data, steps, c);
    OffersFromTheCacheAreAddable(sh0, History(steps), c, RunData(setup, data, steps)[c], g, products, candidates,
                                 setup.policies, offers, o);
  }
}
