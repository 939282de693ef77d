/** Which files the conflict check lets through, and when the candidates are valid ones only. */
module CatalogueTheorems {
  import opened Json
  import opened Products
  import opened Graphs
  import opened CatalogueService

  /** What the check is documented to reject: a product pair listed as both compatible and incompatible. */
  predicate ListedAsBoth(rels: seq<Edge>) {
    Contradictory(rels)
  }

  /** No two relationships of the file name the same products in the same direction. */
  predicate DistinctArcs(rels: seq<Edge>) {
    forall i, j :: 0 <= i < j < |rels| ==> rels[i].source != rels[j].source || rels[i].target != rels[j].target
  }

  /** The relationship is the last of the file for its products and direction, so the graph keeps it. */
  predicate Survives(rels: seq<Edge>, e: Edge) {
    exists i :: 0 <= i < |rels| && rels[i] == e &&
      forall j :: i < j < |rels| ==> rels[j].source != e.source || rels[j].target != e.target
  }

  lemma {:induction false} GraphKeepsSurvivors(g: Graph, rels: seq<Edge>)
    requires g.Valid() && g.edges == []
    ensures AddEdges(g, rels).Valid()
    ensures forall e :: e in AddEdges(g, rels).edges <==> Survives(rels, e)
  {
    if rels != [] {
      var front, last := rels[..|rels| - 1], rels[|rels| - 1];
      GraphKeepsSurvivors(g, front);
      var h := AddEdges(g, front);
      PutEdgeKeeps(h.nodes, h.edges, last);
      forall e
        ensures Survives(rels, e) <==> e == last || (Survives(front, e) && (e.source != last.source || e.target != last.target))
      {
        SurvivesStep(rels, e);
      }
    }
  }

  lemma SurvivesStep(rels: seq<Edge>, e: Edge)
    requires rels != []
    ensures var front, last := rels[..|rels| - 1], rels[|rels| - 1];
            Survives(rels, e) <==> e == last || (Survives(front, e) && (e.source != last.source || e.target != last.target))
  {
  }

  /**
   * A file is refused exactly when two surviving relationships contradict each other. So every refusal is
   * deserved, and when no relationship is overwritten by a later one every contradictory pair is refused.
   */
  lemma RefusedFiles(file: File)
    ensures Contradictory(BuiltGraph(file).edges) <==>
              exists a, b :: Survives(file.relationships, a) && Survives(file.relationships, b)
                && a.relation == CompatibleWith && b.relation == IncompatibleWith
                && {a.source, a.target} == {b.source, b.target}
    ensures Contradictory(BuiltGraph(file).edges) ==> ListedAsBoth(file.relationships)
    ensures DistinctArcs(file.relationships) ==>
              (Contradictory(BuiltGraph(file).edges) <==> ListedAsBoth(file.relationships))
  {
    var rels := file.relationships;
    GraphKeepsSurvivors(Graph(Nodes(file), []), rels);
    if DistinctArcs(rels) {
      forall e | e in rels
        ensures Survives(rels, e)
      {
        var i :| 0 <= i < |rels| && rels[i] == e;
        assert forall j :: i < j < |rels| ==> rels[j].source != e.source || rels[j].target != e.target;
      }
    }
  }

  /** A pair marked both ways in the same direction is let through: the graph keeps the last label only. */
  lemma OverwrittenContradiction(a: string, b: string)
    ensures var file := File([], [], [Edge(a, b, CompatibleWith), Edge(a, b, IncompatibleWith)]);
            ListedAsBoth(file.relationships) && !Contradictory(BuiltGraph(file).edges)
  {
    var e, f := Edge(a, b, CompatibleWith), Edge(a, b, IncompatibleWith);
    var file := File([], [], [e, f]);
    assert e in file.relationships && f in file.relationships;
    RefusedFiles(file);
    forall x | Survives(file.relationships, x)
      ensures x != e
    {
    }
    forall x | Survives(file.relationships, x)
      ensures x.relation == IncompatibleWith
    {
      assert x in file.relationships;
    }
  }

  // ---------------------------------------------------------------- candidates that are not valid

  /** The answer lists valid combinations only exactly when every witnessed SKU forms one with the held ones. */
  lemma AllCandidatesValidExactly(g: Graph, products: Catalogue, held: set<string>, candidates: seq<Candidate>)
    requires CandidatesExact(g, products, held, candidates)
    ensures (forall c :: c in candidates ==> c.valid) <==>
            forall sku, v :: Witness(g, held, sku, v) ==> ValidCombination(g, held + {sku})
  {
    if forall sku, v :: Witness(g, held, sku, v) ==> ValidCombination(g, held + {sku}) {
      forall c | c in candidates
        ensures c.valid
      {
        assert Witness(g, held, c.sku, c.via[0]);
      }
    }
  }

  /** With a product held that upgrades to another, the other is listed, and is not valid. */
  lemma UpgradeIsListedInvalid(a: string, b: string, products: Catalogue, candidates: seq<Candidate>)
    requires a != b
    requires CandidatesExact(Graph({a, b}, [Edge(a, b, UpgradesTo)]), products, {a}, candidates)
    ensures exists c :: c in candidates && c.sku == b && !c.valid
    ensures forall c :: c in candidates ==> c.sku == b
  {
    var g := Graph({a, b}, [Edge(a, b, UpgradesTo)]);
    var e := g.edges[0];
    assert e in g.edges;
    assert Witness(g, {a}, b, Via(a, UpgradesTo));
    assert !ConflictFree(g, {a} + {b});
    forall c | c in candidates
      ensures c.sku == b
    {
      assert Witness(g, {a}, c.sku, c.via[0]);
    }
  }

  // ---------------------------------------------------------------- what the answer says, in terms of the edges

  /** A held product leads to one that is not held: the edge goes out of it and is a compatible or an upgrade one, or
      it comes in and is a requirement. */
  predicate LeadsTo(g: Graph, held: set<string>, sku: string, v: Via) {
    && sku !in held && v.source in held
    && ((v.relation in {CompatibleWith, UpgradesTo} && Edge(v.source, sku, v.relation) in g.edges)
        || (v.relation == Requires && Edge(sku, v.source, Requires) in g.edges))
  }

  predicate Listed(candidates: seq<Candidate>, sku: string) {
    exists c :: c in candidates && c.sku == sku
  }

  lemma WitnessIsEdge(g: Graph, held: set<string>, sku: string, v: Via)
    ensures Witness(g, held, sku, v) <==> LeadsTo(g, held, sku, v)
  {
    if LeadsTo(g, held, sku, v) {
      var e := if v.relation == Requires then Edge(sku, v.source, Requires) else Edge(v.source, sku, v.relation);
      assert e in g.edges;
      assert v == Via(v.source, v.relation);
    }
    if Witness(g, held, sku, v) {
      var e :| e in g.edges && ((e.source == v.source && e.target == sku) || (e.source == sku && e.target == v.source))
               && e.relation == v.relation;
      assert e == Edge(e.source, e.target, e.relation);
    }
  }

  /**
   * The candidates, by the edges alone: a product is listed exactly if a held one leads to it, once, with exactly the
   * edges that do, and flagged valid exactly if it forms a valid combination with the held ones.
   */
  lemma CandidatesByEdges(g: Graph, products: Catalogue, held: set<string>, candidates: seq<Candidate>)
    requires CandidatesExact(g, products, held, candidates)
    ensures forall i, j :: 0 <= i < j < |candidates| ==> candidates[i].sku != candidates[j].sku
    ensures forall sku :: Listed(candidates, sku) <==> exists v :: LeadsTo(g, held, sku, v)
    ensures forall c, v :: c in candidates ==> (v in c.via <==> LeadsTo(g, held, c.sku, v))
    ensures forall c :: c in candidates ==>
              && (c.valid <==> ValidCombination(g, held + {c.sku}))
              && (c.product.Some? <==> c.sku in products) && (c.sku in products ==> c.product == Some(products[c.sku]))
  {
    forall sku, v
      ensures Witness(g, held, sku, v) <==> LeadsTo(g, held, sku, v)
    {
      WitnessIsEdge(g, held, sku, v);
    }
    forall c | c in candidates
      ensures exists v :: LeadsTo(g, held, c.sku, v)
    {
      assert c.via[0] in c.via;
    }
  }

  predicate Needs(g: Graph, sku: string, t: string) {
    Edge(sku, t, Requires) in g.edges
  }

  /** The violations of a combination, by nodes and edges alone. */
  ghost predicate Breach(g: Graph, skus: set<string>, v: Violation) {
    match v
    case Unknown(sku) => sku in skus && sku !in g.nodes
    case Exclusion(pair, relation) =>
      relation in {UpgradesTo, IncompatibleWith}
      && exists e :: e in g.edges && e.relation == relation && e.source in skus && e.target in skus && pair == {e.source, e.target}
    case Missing(sku, options) =>
      && sku in skus && sku in g.nodes && options != {} && options !! skus
      && forall t :: t in options <==> Needs(g, sku, t)
  }

  lemma OptionsByEdges(g: Graph, sku: string)
    ensures forall t :: t in Options(g.edges, sku) <==> Needs(g, sku, t)
  {
    forall t
      ensures t in Options(g.edges, sku) <==> Needs(g, sku, t)
    {
      if t in Options(g.edges, sku) {
        var e :| e in g.edges && e.source == sku && e.relation == Requires && e.target == t;
        assert e == Edge(sku, t, Requires);
      }
    }
  }

  lemma ViolationsByEdges(g: Graph, skus: set<string>, v: Violation)
    requires g.Valid()
    ensures (exists s :: s in skus && ViolatedBy(g, skus, s, v)) <==> Breach(g, skus, v)
  {
    match v
    case Unknown(sku) => assert sku in skus && sku !in g.nodes ==> ViolatedBy(g, skus, sku, v);
    case Exclusion(pair, relation) =>
      if Breach(g, skus, v) {
        var e :| e in g.edges && e.relation == relation && e.source in skus && e.target in skus && pair == {e.source, e.target};
        assert ExclusionBy(g.edges, skus, e.source, relation, v);
        assert ViolatedBy(g, skus, e.source, v);
      }
    case Missing(sku, options) =>
      OptionsByEdges(g, sku);
      if Breach(g, skus, v) {
        assert options == Options(g.edges, sku);
        assert ViolatedBy(g, skus, sku, v);
      }
  }

  // ---------------------------------------------------------------- loading and updating

  /** Of several definitions of an SKU the last one counts. */
  lemma {:induction false} LastDefinitionCounts(raw: seq<RawProduct>, i: nat)
    requires i < |raw| && forall j :: i < j < |raw| ==> raw[j].sku != raw[i].sku
    ensures raw[i].sku in LoadedProducts(raw) && LoadedProducts(raw)[raw[i].sku] == raw[i].product
  {
    if i < |raw| - 1 {
      LastDefinitionCounts(raw[..|raw| - 1], i);
    }
  }

  lemma {:induction false} OnlyDefined(raw: seq<RawProduct>, sku: string)
    ensures sku in LoadedProducts(raw) ==> exists i :: 0 <= i < |raw| && raw[i].sku == sku
  {
    if raw != [] {
      OnlyDefined(raw[..|raw| - 1], sku);
    }
  }

  lemma {:induction false} EdgesAddTheirEnds(g: Graph, rels: seq<Edge>, x: string)
    ensures x in AddEdges(g, rels).nodes <==> x in g.nodes || exists e :: e in rels && (e.source == x || e.target == x)
  {
    if rels != [] {
      var front, last := rels[..|rels| - 1], rels[|rels| - 1];
      EdgesAddTheirEnds(g, front, x);
      assert rels == front + [last];
    }
  }

  /** The nodes are the products, the bundles and the ends of the relationships. */
  lemma BuiltNodes(file: File, x: string)
    ensures x in BuiltGraph(file).nodes <==>
            || (exists p :: p in file.products && p.sku == x)
            || (exists b :: b in file.bundles && b.id == x)
            || (exists e :: e in file.relationships && (e.source == x || e.target == x))
  {
    EdgesAddTheirEnds(Graph(Nodes(file), []), file.relationships, x);
  }

  /** A catalogue update: accepted exactly for a known product and a price or terms; it sets what is given of that
      product and leaves the rest of it, and every other product, alone. */
  lemma ProductUpdated(products: Catalogue, sku: string, price: Option<real>, terms: Option<seq<int>>)
    ensures PatchStatus(products, sku, price, terms) == 404 <==> sku !in products
    ensures PatchStatus(products, sku, price, terms) == 422 <==> sku in products && price == None && terms == None
    ensures PatchStatus(products, sku, price, terms) in {200, 404, 422}
    ensures sku in products ==>
              var after := PatchProduct(products, sku, price, terms);
              && after.Keys == products.Keys && (forall s :: s in products && s != sku ==> after[s] == products[s])
              && after[sku].name == products[sku].name && after[sku].kind == products[sku].kind
              && (price == None ==> after[sku].listPrice == products[sku].listPrice) && (price.Some? ==> after[sku].listPrice == price)
              && (terms == None ==> after[sku].terms == products[sku].terms) && (terms.Some? ==> after[sku].terms == terms.value)
  {
  }
}
