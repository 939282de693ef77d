/** The offer engine: before/after deltas and per-term proposals for compatible products. */
module OfferEngine {
  import opened Json
  import opened Money
  import opened Seqs
  import opened Rules
  import Cat = CatalogueService

  datatype NetChange = SavingChange | CostIncrease | Neutral

  datatype Delta = Delta(
    charge: real, saving: real, newPolicies: seq<string>, lostPolicies: seq<string>, net: NetChange)

  datatype Proposal = Proposal(term: int, charge: real, delta: Delta)

  datatype Offer = Offer(
    sku: string, name: string, kind: Json, listPrice: real, terms: seq<int>, via: seq<Cat.Via>, proposals: seq<Proposal>)

  /** The ids of `xs` that do not occur in `ys`, in order. */
  function Without(xs: seq<string>, ys: seq<string>): seq<string> {
    if xs == [] then []
    else (if xs[0] in ys then [] else [xs[0]]) + Without(xs[1..], ys)
  }

  function ComputeDelta(current: Summary, proposed: Summary): Delta {
    var charge := Round2(proposed.totalDiscounted - current.totalDiscounted);
    Delta(charge,
          Round2(proposed.totalSaving - current.totalSaving),
          Without(proposed.applied, current.applied),
          Without(current.applied, proposed.applied),
          if charge < 0.0 then SavingChange else if charge > 0.0 then CostIncrease else Neutral)
  }

  /** The hypothetical line of a proposal. It carries no `list_price_gbp`. */
  function ProposedLine(sku: string, price: real, term: int, kind: Json): Dict {
    map["product_id" := Str(sku),
        "status" := Str("active"),
        "monthly_charge_gbp" := Num(price),
        "contract_term_months" := Num(term as real),
        "product_type" := kind]
  }

  function OfferPrice(c: Cat.Candidate): real {
    if c.product.Some? && c.product.value.listPrice.Some? then c.product.value.listPrice.value else 0.0
  }

  function OfferTerms(c: Cat.Candidate): seq<int> {
    if c.product.Some? && c.product.value.terms != [] then c.product.value.terms else [1]
  }

  function OfferKind(c: Cat.Candidate): Json {
    if c.product.Some? then Str(c.product.value.kind) else Null
  }

  function OfferName(c: Cat.Candidate): string {
    if c.product.Some? then c.product.value.name else c.sku
  }

  predicate ProductIdsAreText(subs: seq<Dict>) {
    forall p: Dict :: p in subs && "product_id" in p ==> p["product_id"].Str?
  }

  function HeldSkus(subs: seq<Dict>): set<string>
    requires ProductIdsAreText(subs)
  {
    set p: Dict | p in subs && "product_id" in p :: p["product_id"].s
  }

  function ProposalFor(policies: seq<Policy>, subs: seq<Dict>, c: Cat.Candidate, term: int): Outcome<Proposal> {
    match (Evaluate(policies, subs), Evaluate(policies, subs + [ProposedLine(c.sku, OfferPrice(c), term, OfferKind(c))]))
    case (Ok(current), Ok(proposed)) => Ok(Proposal(term, OfferPrice(c), ComputeDelta(current, proposed)))
    case _ => Raised
  }

  /** The offer made for a candidate: one proposal for each contract term. */
  predicate OfferFor(policies: seq<Policy>, subs: seq<Dict>, c: Cat.Candidate, o: Offer) {
    && o.sku == c.sku && o.name == OfferName(c) && o.kind == OfferKind(c) && o.listPrice == OfferPrice(c) && o.terms == OfferTerms(c) && o.via == c.via
    && |o.proposals| == |o.terms|
    && forall k :: 0 <= k < |o.terms| ==> ProposalFor(policies, subs, c, o.terms[k]) == Ok(o.proposals[k])
  }

  /** The offers are those of the valid candidates, in order. */
  predicate OffersFor(policies: seq<Policy>, subs: seq<Dict>, candidates: seq<Cat.Candidate>, offers: seq<Offer>) {
    var valid := ValidOnes(candidates);
    |offers| == |valid| && forall i :: 0 <= i < |valid| ==> OfferFor(policies, subs, valid[i], offers[i])
  }

  function ValidOnes(candidates: seq<Cat.Candidate>): seq<Cat.Candidate> {
    if candidates == [] then []
    else
      var last := candidates[|candidates| - 1];
      ValidOnes(candidates[..|candidates| - 1]) + (if last.valid then [last] else [])
  }

  lemma {:induction false} ValidOnesMembers(candidates: seq<Cat.Candidate>)
    ensures forall c :: c in ValidOnes(candidates) <==> c in candidates && c.valid
  {
    if candidates != [] {
      var front, last := candidates[..|candidates| - 1], candidates[|candidates| - 1];
      ValidOnesMembers(front);
      assert candidates == front + [last];
    }
  }

  /** A duplicate-free listing of a set. */
  method Listing(s: set<string>) returns (xs: seq<string>)
    ensures NoDuplicates(xs) && SetOf(xs) == s
  {
    xs := [];
    var todo := s;
    while todo != {}
      invariant todo <= s && NoDuplicates(xs) && SetOf(xs) == s - todo
    {
      var x :| x in todo;
      assert x !in SetOf(xs);
      assert SetOf(xs + [x]) == SetOf(xs) + {x};
      xs := xs + [x];
      todo := todo - {x};
    }
  }

  /** One proposal for each of the first terms. */
  predicate ProposalsMade(policies: seq<Policy>, subs: seq<Dict>, c: Cat.Candidate, done: seq<Proposal>) {
    && |done| <= |OfferTerms(c)|
    && forall j :: 0 <= j < |done| ==> ProposalFor(policies, subs, c, OfferTerms(c)[j]) == Ok(done[j])
  }

  lemma ProposalMade(policies: seq<Policy>, subs: seq<Dict>, c: Cat.Candidate, done: seq<Proposal>, current: Summary, proposed: Summary)
    requires ProposalsMade(policies, subs, c, done) && |done| < |OfferTerms(c)| && Evaluate(policies, subs) == Ok(current)
    requires Evaluate(policies, subs + [ProposedLine(c.sku, OfferPrice(c), OfferTerms(c)[|done|], OfferKind(c))]) == Ok(proposed)
    ensures ProposalsMade(policies, subs, c, done + [Proposal(OfferTerms(c)[|done|], OfferPrice(c), ComputeDelta(current, proposed))])
  {
  }

  lemma NoProposal(policies: seq<Policy>, subs: seq<Dict>, c: Cat.Candidate, term: int)
    requires Evaluate(policies, subs + [ProposedLine(c.sku, OfferPrice(c), term, OfferKind(c))]) == Raised
    ensures ProposalFor(policies, subs, c, term) == Raised
  {
  }

  method TermProposals(policies: seq<Policy>, subs: seq<Dict>, current: Summary, c: Cat.Candidate)
    returns (proposals: Outcome<seq<Proposal>>)
    requires Evaluate(policies, subs) == Ok(current)
    ensures proposals.Ok? ==> ProposalsMade(policies, subs, c, proposals.value) && |proposals.value| == |OfferTerms(c)|
    ensures proposals == Raised ==> exists term :: term in OfferTerms(c) && ProposalFor(policies, subs, c, term) == Raised
  {
    var terms := OfferTerms(c);
    var done: seq<Proposal> := [];
    for k := 0 to |terms|
      invariant |done| == k && ProposalsMade(policies, subs, c, done)
    {
      var proposed := EvaluateDiscounts(policies, subs + [ProposedLine(c.sku, OfferPrice(c), terms[k], OfferKind(c))]);
      if proposed == Raised {
        NoProposal(policies, subs, c, terms[k]);
        return Raised;
      }
      ProposalMade(policies, subs, c, done, current, proposed.value);
      done := done + [Proposal(terms[k], OfferPrice(c), ComputeDelta(current, proposed.value))];
    }
    return Ok(done);
  }

  /** The held SKUs, the candidates the catalogue answered with, and the offers made of them. */
  method CompatibleOffers(policies: seq<Policy>, subs: seq<Dict>, catalogue: Cat.ProductCatalogue)
    returns (offers: Outcome<seq<Offer>>, heldList: seq<string>, candidates: seq<Cat.Candidate>)
    requires catalogue.Valid()
    ensures ProductIdsAreText(subs) ==> NoDuplicates(heldList) && SetOf(heldList) == HeldSkus(subs)
    ensures offers.Ok? ==>
              && ProductIdsAreText(subs) && Evaluate(policies, subs).Ok?
              && Cat.CandidatesExact(catalogue.graph, catalogue.products, HeldSkus(subs), candidates)
              && OffersFor(policies, subs, candidates, offers.value)
    ensures offers == Raised ==>
              || !ProductIdsAreText(subs) || Evaluate(policies, subs) == Raised
              || exists c, term :: c in candidates && c.valid && term in OfferTerms(c)
                                   && ProposalFor(policies, subs, c, term) == Raised
  {
    heldList, candidates := [], [];
    if !ProductIdsAreText(subs) {
      return Raised, heldList, candidates;
    }
    heldList := Listing(HeldSkus(subs));
    candidates := catalogue.CompatibleCandidates(heldList);
    var current := EvaluateDiscounts(policies, subs);
    if current == Raised {
      return Raised, heldList, candidates;
    }
    var results: seq<Offer> := [];
    for i := 0 to |candidates|
      invariant OffersFor(policies, subs, candidates[..i], results)
    {
      var c := candidates[i];
      assert candidates[..i + 1][..i] == candidates[..i];
      if !c.valid {
        continue;
      }
      var proposals := TermProposals(policies, subs, current.value, c);
      if proposals == Raised {
        return Raised, heldList, candidates;
      }
      results := results + [Offer(c.sku, OfferName(c), OfferKind(c), OfferPrice(c), OfferTerms(c), c.via, proposals.value)];
    }
    assert candidates[..|candidates|] == candidates;
    return Ok(results), heldList, candidates;
  }
}
