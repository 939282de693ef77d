/** What an offer promises and what it does not. */
module OfferTheorems {
  import opened Json
  import opened Money
  import opened Seqs
  import opened Rules
  import opened RulesExact
  import opened RulesMonotone
  import opened Products
  import opened Graphs
  import opened Billing
  import Cat = CatalogueService
  import opened OfferEngine

  lemma {:induction false} WithoutNothing(xs: seq<string>, ys: seq<string>)
    requires forall x :: x in xs ==> x in ys
    ensures Without(xs, ys) == []
  {
    if xs != [] {
      assert xs == [xs[0]] + xs[1..];
      WithoutNothing(xs[1..], ys);
    }
  }

  /** No addition under upward policies is ever reported to lose a policy or, where prices add up, to lower the saving. */
  lemma DeltaLosesNothing(policies: seq<Policy>, lines: seq<Dict>, line: Dict)
    requires Addable(policies, lines, line)
    ensures Evaluate(policies, lines).Ok?
    ensures var delta := ComputeDelta(Evaluate(policies, lines).value, Evaluate(policies, lines + [line]).value);
            delta.lostPolicies == [] && (PricesAddUp(Active(lines), line) ==> delta.saving >= 0.0)
  {
    AddingNeverHurts(policies, lines, line);
    GrowingDelta(Evaluate(policies, lines).value, Evaluate(policies, lines + [line]).value);
  }

  lemma GrowingDelta(before: Summary, after: Summary)
    requires forall id :: id in before.applied ==> id in after.applied
    ensures ComputeDelta(before, after).lostPolicies == []
    ensures before.totalSaving <= after.totalSaving ==> ComputeDelta(before, after).saving >= 0.0
  {
    WithoutNothing(before.applied, after.applied);
    if before.totalSaving <= after.totalSaving {
      Round2Monotone(0.0, after.totalSaving - before.totalSaving);
    }
    assert WholePence(0.0);
    Round2Fixed(0.0);
  }

  lemma NewLineAddable(policies: seq<Policy>, subs: seq<Dict>, line: Dict)
    requires SoundPolicies(policies) && forall q :: q in policies ==> Upward(q)
    requires UniqueSkus(Active(subs)) && NonNegativePrices(Active(subs))
    requires IsActive(line) && "product_id" in line && forall p :: p in Active(subs) ==> Key(p) != Key(line)
    requires Price(line) >= 0.0
    requires forall q :: q in policies ==> AddsTo(q, line)
    requires Evaluate(policies, subs + [line]).Ok?
    ensures Addable(policies, subs, line)
  {
    var active := Active(subs);
    assert UniqueSkus(active + [line]) by {
      assert forall i :: 0 <= i < |active| ==> active[i] in active;
    }
  }

  lemma ProposedIsActive(sku: string, price: real, term: int, kind: Json)
    ensures var line := ProposedLine(sku, price, term, kind);
            && IsActive(line) && "product_id" in line && Key(line) == Str(sku)
            && Price(line) == price
  {
  }

  /**
   * Every proposal the engine makes reports no lost policy, provided the policies are upward and at most 100 per
   * cent together, prices are non-negative and the proposed line lowers no sum that a policy watches; and no
   * smaller saving where the list prices add up.
   */
  lemma ProposalsLoseNothing(policies: seq<Policy>, subs: seq<Dict>, c: Cat.Candidate, term: int, made: Proposal)
    requires ProposalFor(policies, subs, c, term) == Ok(made)
    requires SoundPolicies(policies) && forall q :: q in policies ==> Upward(q)
    requires UniqueSkus(Active(subs)) && NonNegativePrices(Active(subs))
    requires forall p :: p in Active(subs) ==> Key(p) != Str(c.sku)
    requires OfferPrice(c) >= 0.0
    requires forall q :: q in policies ==> AddsTo(q, ProposedLine(c.sku, OfferPrice(c), term, OfferKind(c)))
    ensures made.delta.lostPolicies == []
    ensures PricesAddUp(Active(subs), ProposedLine(c.sku, OfferPrice(c), term, OfferKind(c))) ==> made.delta.saving >= 0.0
  {
    var line := ProposedLine(c.sku, OfferPrice(c), term, OfferKind(c));
    ProposedIsActive(c.sku, OfferPrice(c), term, OfferKind(c));
    assert Evaluate(policies, subs + [line]).Ok?;
    NewLineAddable(policies, subs, line);
    DeltaLosesNothing(policies, subs, line);
  }

  lemma {:induction false} WithoutExact(xs: seq<string>, ys: seq<string>, x: string)
    ensures x in Without(xs, ys) <==> x in xs && x !in ys
  {
    if xs != [] {
      assert xs == [xs[0]] + xs[1..];
      WithoutExact(xs[1..], ys, x);
    }
  }

  lemma WholeTotals(policies: seq<Policy>, lines: seq<Dict>, s: Summary)
    requires Evaluate(policies, lines) == Ok(s)
    ensures WholePence(s.totalDiscounted) && WholePence(s.totalSaving)
  {
    Round2Near(SumBy(s.products, DiscountedReader()));
    Round2Near(s.totalList - s.totalDiscounted);
  }

  /** Between two evaluations the delta loses nothing to rounding: both differences are exact, the net change is the
      sign of the charge difference, and the new and lost policies are the set differences. */
  lemma DeltaExact(policies: seq<Policy>, now: seq<Dict>, later: seq<Dict>, current: Summary, proposed: Summary)
    requires Evaluate(policies, now) == Ok(current) && Evaluate(policies, later) == Ok(proposed)
    ensures var delta := ComputeDelta(current, proposed);
            && delta.charge == proposed.totalDiscounted - current.totalDiscounted
            && delta.saving == proposed.totalSaving - current.totalSaving
            && (delta.net == SavingChange <==> proposed.totalDiscounted < current.totalDiscounted)
            && (delta.net == CostIncrease <==> proposed.totalDiscounted > current.totalDiscounted)
            && (forall id :: id in delta.newPolicies <==> id in proposed.applied && id !in current.applied)
            && (forall id :: id in delta.lostPolicies <==> id in current.applied && id !in proposed.applied)
  {
    WholeTotals(policies, now, current);
    WholeTotals(policies, later, proposed);
    DeltaOfWhole(current, proposed);
    forall id
      ensures id in Without(proposed.applied, current.applied) <==> id in proposed.applied && id !in current.applied
      ensures id in Without(current.applied, proposed.applied) <==> id in current.applied && id !in proposed.applied
    {
      WithoutExact(proposed.applied, current.applied, id);
      WithoutExact(current.applied, proposed.applied, id);
    }
  }

  lemma DeltaOfWhole(current: Summary, proposed: Summary)
    requires WholePence(current.totalDiscounted) && WholePence(proposed.totalDiscounted)
    requires WholePence(current.totalSaving) && WholePence(proposed.totalSaving)
    ensures var delta := ComputeDelta(current, proposed);
            && delta.charge == proposed.totalDiscounted - current.totalDiscounted
            && delta.saving == proposed.totalSaving - current.totalSaving
  {
    WholePenceClosed(proposed.totalDiscounted, current.totalDiscounted);
    WholePenceClosed(proposed.totalSaving, current.totalSaving);
    Round2Fixed(proposed.totalDiscounted - current.totalDiscounted);
    Round2Fixed(proposed.totalSaving - current.totalSaving);
  }

  /**
   * A candidate that a held product upgrades to is always invalid, so it never becomes an offer:
   * the candidate keeps the upgraded product beside it.
   */
  lemma UpgradesAreNeverOffered(g: Graph, products: Catalogue, held: set<string>, candidates: seq<Cat.Candidate>,
                                policies: seq<Policy>, subs: seq<Dict>, offers: seq<Offer>)
    requires Cat.CandidatesExact(g, products, held, candidates)
    requires OffersFor(policies, subs, candidates, offers)
    ensures forall c, v :: c in candidates && v in c.via && v.relation == UpgradesTo ==> !c.valid
    ensures forall o, v :: o in offers && v in o.via ==> v.relation != UpgradesTo
  {
    forall c, v | c in candidates && v in c.via && v.relation == UpgradesTo
      ensures !c.valid
    {
      assert Cat.Witness(g, held, c.sku, v);
      var e :| e in g.edges && e.source in held && e.relation == UpgradesTo && e.target == c.sku;
      assert !ConflictFree(g, held + {c.sku});
    }
    ValidOnesMembers(candidates);
    forall o, v | o in offers && v in o.via
      ensures v.relation != UpgradesTo
    {
      var i :| 0 <= i < |offers| && offers[i] == o;
      assert OfferFor(policies, subs, ValidOnes(candidates)[i], o);
      assert ValidOnes(candidates)[i] in candidates;
    }
  }

  function ActiveSkus(lines: seq<SubLine>): set<string> {
    set l | l in lines && l.stat == "A" :: l.sku
  }

  function AllSkus(lines: seq<SubLine>): set<string> {
    set l | l in lines :: l.sku
  }

  /** The commercial state the offers are made from lists the SKUs of the billing record. */
  predicate InSync(subs: seq<Dict>, lines: seq<SubLine>) {
    && |subs| == |lines|
    && forall i :: 0 <= i < |lines| ==> "product_id" in subs[i] && subs[i]["product_id"] == Str(lines[i].sku)
  }

  lemma InSyncHeld(subs: seq<Dict>, lines: seq<SubLine>)
    requires InSync(subs, lines)
    ensures ProductIdsAreText(subs) && HeldSkus(subs) == AllSkus(lines)
  {
  }

  lemma ConflictFreeSubset(g: Graph, big: set<string>, small: set<string>)
    requires ConflictFree(g, big) && small <= big
    ensures ConflictFree(g, small)
  {
  }

  lemma OfferedCandidate(candidates: seq<Cat.Candidate>, policies: seq<Policy>, subs: seq<Dict>, offers: seq<Offer>, o: Offer)
    returns (c: Cat.Candidate)
    requires OffersFor(policies, subs, candidates, offers) && o in offers
    ensures c in candidates && c.valid && c.sku == o.sku
  {
    ValidOnesMembers(candidates);
    var i :| 0 <= i < |offers| && offers[i] == o;
    c := ValidOnes(candidates)[i];
    assert OfferFor(policies, subs, c, o);
  }

  /** An offer comes from a valid candidate, which is not held. */
  lemma OfferIsCandidate(g: Graph, products: Catalogue, held: set<string>, candidates: seq<Cat.Candidate>,
                         policies: seq<Policy>, subs: seq<Dict>, offers: seq<Offer>, o: Offer)
    requires Cat.CandidatesExact(g, products, held, candidates)
    requires OffersFor(policies, subs, candidates, offers) && o in offers
    ensures o.sku !in held && ValidCombination(g, held + {o.sku})
  {
    var c := OfferedCandidate(candidates, policies, subs, offers, o);
    assert Cat.Witness(g, held, c.sku, c.via[0]);
  }

  /**
   * Offers are addable. An offered product is on none of the customer's lines, so the add cannot meet the
   * duplicate-SKU refusal, and it conflicts with no active line. The broker's combination check over the
   * active lines accepts it exactly when every requirement is met among the active lines and the product;
   * when all lines are active that is always so.
   */
  lemma OffersAreAddable(g: Graph, products: Catalogue, candidates: seq<Cat.Candidate>,
                         policies: seq<Policy>, subs: seq<Dict>, offers: seq<Offer>, lines: seq<SubLine>, o: Offer)
    requires InSync(subs, lines)
    requires Cat.CandidatesExact(g, products, AllSkus(lines), candidates)
    requires OffersFor(policies, subs, candidates, offers) && o in offers
    ensures !HasSku(lines, o.sku)
    ensures ConflictFree(g, ActiveSkus(lines) + {o.sku})
    ensures ValidCombination(g, ActiveSkus(lines) + {o.sku}) <==>
            forall s :: s in ActiveSkus(lines) + {o.sku} ==> RequirementMet(g, ActiveSkus(lines) + {o.sku}, s)
    ensures (forall l :: l in lines ==> l.stat == "A") ==> ValidCombination(g, ActiveSkus(lines) + {o.sku})
  {
    OfferIsCandidate(g, products, AllSkus(lines), candidates, policies, subs, offers, o);
    assert !HasSku(lines, o.sku) by {
      assert forall l :: l in lines ==> l.sku in AllSkus(lines);
    }
    var all, active := AllSkus(lines) + {o.sku}, ActiveSkus(lines) + {o.sku};
    assert active <= all;
    ConflictFreeSubset(g, all, active);
    if forall l :: l in lines ==> l.stat == "A" {
      assert ActiveSkus(lines) == AllSkus(lines);
    }
  }

  /** With a suspended prerequisite the broker refuses what was offered. */
  lemma SuspendedPrerequisite(broadband: SubLine, booster: string)
    requires broadband.stat == "S" && booster != broadband.sku
    ensures var g := Graph({broadband.sku, booster}, [Edge(booster, broadband.sku, Requires)]);
            && Cat.Witness(g, AllSkus([broadband]), booster, Cat.Via(broadband.sku, Requires))
            && ValidCombination(g, AllSkus([broadband]) + {booster})
            && !ValidCombination(g, ActiveSkus([broadband]) + {booster})
  {
  }

  // ---------------------------------------------------------------- what an offer shows

  /** The line that a proposal adds to the held ones. */
  predicate HypotheticalLine(line: Dict, sku: string, price: real, term: int, kind: Json) {
    && line.Keys == {"product_id", "status", "monthly_charge_gbp", "contract_term_months", "product_type"}
    && line["product_id"] == Str(sku) && line["status"] == Str("active") && line["monthly_charge_gbp"] == Num(price)
    && line["contract_term_months"] == Num(term as real) && line["product_type"] == kind
  }

  /** The proposal is the delta of one evaluation with such a line against the one without. */
  ghost predicate ProposalShown(policies: seq<Policy>, subs: seq<Dict>, o: Offer, made: Proposal) {
    && made.charge == o.listPrice
    && exists line :: HypotheticalLine(line, o.sku, o.listPrice, made.term, o.kind)
                      && Evaluate(policies, subs).Ok? && Evaluate(policies, subs + [line]).Ok?
                      && made.delta == ComputeDelta(Evaluate(policies, subs).value, Evaluate(policies, subs + [line]).value)
  }

  /** The offer shows the candidate: its product's name, type, price and terms, one proposal for each of them, or, without
      a product or terms, one for a single month. */
  ghost predicate OfferShown(policies: seq<Policy>, subs: seq<Dict>, c: Cat.Candidate, o: Offer) {
    && o.sku == c.sku && o.via == c.via
    && (c.product.Some? ==> o.name == c.product.value.name && o.kind == Str(c.product.value.kind))
    && (c.product == None ==> o.name == c.sku && o.kind == Null)
    && (c.product.Some? && c.product.value.listPrice.Some? ==> o.listPrice == c.product.value.listPrice.value)
    && (c.product == None || c.product.value.listPrice == None ==> o.listPrice == 0.0)
    && (c.product.Some? && c.product.value.terms != [] ==> o.terms == c.product.value.terms)
    && (c.product == None || c.product.value.terms == [] ==> o.terms == [1])
    && |o.proposals| == |o.terms|
    && forall k :: 0 <= k < |o.proposals| ==> o.proposals[k].term == o.terms[k] && ProposalShown(policies, subs, o, o.proposals[k])
  }

  lemma ProposedIsHypothetical(sku: string, price: real, term: int, kind: Json)
    ensures HypotheticalLine(ProposedLine(sku, price, term, kind), sku, price, term, kind)
  {
  }

  lemma ProposalIsShown(policies: seq<Policy>, subs: seq<Dict>, c: Cat.Candidate, o: Offer, term: int, made: Proposal)
    requires ProposalFor(policies, subs, c, term) == Ok(made)
    requires o.sku == c.sku && o.listPrice == OfferPrice(c) && o.kind == OfferKind(c)
    ensures made.term == term && ProposalShown(policies, subs, o, made)
  {
    ProposedIsHypothetical(c.sku, OfferPrice(c), term, OfferKind(c));
  }

  lemma OfferIsShown(policies: seq<Policy>, subs: seq<Dict>, c: Cat.Candidate, o: Offer)
    requires OfferFor(policies, subs, c, o)
    ensures OfferShown(policies, subs, c, o)
  {
    forall k | 0 <= k < |o.proposals|
      ensures o.proposals[k].term == o.terms[k] && ProposalShown(policies, subs, o, o.proposals[k])
    {
      ProposalIsShown(policies, subs, c, o, o.terms[k], o.proposals[k]);
    }
  }

  /** The offers show the valid candidates, all of them and in their order. */
  lemma OffersShowCandidates(policies: seq<Policy>, subs: seq<Dict>, candidates: seq<Cat.Candidate>, offers: seq<Offer>)
    returns (from: seq<nat>)
    requires OffersFor(policies, subs, candidates, offers)
    ensures |from| == |offers| && forall i :: 0 <= i < |from| ==> from[i] < |candidates|
    ensures forall i, j :: 0 <= i < j < |from| ==> from[i] < from[j]
    ensures forall n :: 0 <= n < |candidates| ==> (n in from <==> candidates[n].valid)
    ensures forall i :: 0 <= i < |offers| ==> OfferShown(policies, subs, candidates[from[i]], offers[i])
  {
    from := ValidPlaces(candidates);
    forall i | 0 <= i < |offers|
      ensures OfferShown(policies, subs, candidates[from[i]], offers[i])
    {
      OfferIsShown(policies, subs, ValidOnes(candidates)[i], offers[i]);
    }
  }

  /** The places stand for the valid candidates, in order. */
  predicate Places(candidates: seq<Cat.Candidate>, valid: seq<Cat.Candidate>, from: seq<nat>) {
    && |from| == |valid|
    && (forall i :: 0 <= i < |from| ==> from[i] < |candidates| && candidates[from[i]] == valid[i])
    && (forall i, j :: 0 <= i < j < |from| ==> from[i] < from[j])
  }

  /** They are all of them. */
  predicate AllPlaces(candidates: seq<Cat.Candidate>, from: seq<nat>) {
    forall n :: 0 <= n < |candidates| ==> (n in from <==> candidates[n].valid)
  }

  lemma NextPlace(candidates: seq<Cat.Candidate>, valid: seq<Cat.Candidate>, from: seq<nat>, c: Cat.Candidate)
    requires Places(candidates, valid, from)
    ensures Places(candidates + [c], valid, from) && Places(candidates + [c], valid + [c], from + [|candidates|])
  {
    assert (candidates + [c])[|candidates|] == c;
    assert forall n :: 0 <= n < |candidates| ==> (candidates + [c])[n] == candidates[n];
  }

  lemma NextAllPlaces(candidates: seq<Cat.Candidate>, valid: seq<Cat.Candidate>, from: seq<nat>, c: Cat.Candidate)
    requires Places(candidates, valid, from) && AllPlaces(candidates, from)
    ensures AllPlaces(candidates + [c], if c.valid then from + [|candidates|] else from)
  {
    var grown, now := candidates + [c], if c.valid then from + [|candidates|] else from;
    forall n | 0 <= n < |grown|
      ensures n in now <==> grown[n].valid
    {
      if n < |candidates| {
        assert grown[n] == candidates[n];
      }
    }
  }

  lemma {:induction false} ValidPlaces(candidates: seq<Cat.Candidate>) returns (from: seq<nat>)
    ensures Places(candidates, ValidOnes(candidates), from) && AllPlaces(candidates, from)
  {
    from := [];
    if candidates != [] {
      var front, last := candidates[..|candidates| - 1], candidates[|candidates| - 1];
      from := ValidPlaces(front);
      NextPlace(front, ValidOnes(front), from, last);
      NextAllPlaces(front, ValidOnes(front), from, last);
      from := if last.valid then from + [|front|] else from;
      assert candidates == front + [last];
      assert ValidOnes(candidates) == if last.valid then ValidOnes(front) + [last] else ValidOnes(front);
    }
  }
}
