/** The product relationship graph: a labelled digraph with at most one edge from a node to another. */
module Graphs {

  datatype Relation = CompatibleWith | IncompatibleWith | UpgradesTo | Requires | OtherRelation(name: string)

  datatype Edge = Edge(source: string, target: string, relation: Relation)

  datatype Graph = Graph(nodes: set<string>, edges: seq<Edge>) {
    ghost predicate Valid() {
      && (forall e :: e in edges ==> e.source in nodes && e.target in nodes)
      && (forall i, j :: 0 <= i < j < |edges| ==>
            edges[i].source != edges[j].source || edges[i].target != edges[j].target)
    }
  }

  /** A second edge between the same nodes replaces the label of the first. */
  function PutEdge(edges: seq<Edge>, e: Edge): seq<Edge> {
    if edges == [] then [e]
    else if edges[0].source == e.source && edges[0].target == e.target then [e] + edges[1..]
    else [edges[0]] + PutEdge(edges[1..], e)
  }

  function AddEdge(g: Graph, e: Edge): Graph {
    Graph(g.nodes + {e.source, e.target}, PutEdge(g.edges, e))
  }

  function AddEdges(g: Graph, rels: seq<Edge>): Graph {
    if rels == [] then g else AddEdge(AddEdges(g, rels[..|rels| - 1]), rels[|rels| - 1])
  }

  lemma {:induction false} PutEdgeKeeps(nodes: set<string>, edges: seq<Edge>, e: Edge)
    requires Graph(nodes, edges).Valid()
    ensures Graph(nodes + {e.source, e.target}, PutEdge(edges, e)).Valid()
    ensures forall x :: x in PutEdge(edges, e) <==>
              x == e || (x in edges && (x.source != e.source || x.target != e.target))
  {
    if edges != [] {
      assert edges == [edges[0]] + edges[1..];
      assert Graph(nodes, edges[1..]).Valid();
      var out := PutEdge(edges, e);
      if edges[0].source == e.source && edges[0].target == e.target {
        assert forall x :: x in edges[1..] ==> x.source != e.source || x.target != e.target;
      } else {
        PutEdgeKeeps(nodes, edges[1..], e);
        forall j | 1 <= j < |out|
          ensures out[0].source != out[j].source || out[0].target != out[j].target
        {
          assert out[j] in PutEdge(edges[1..], e);
        }
      }
    }
  }

  lemma {:induction false} AddEdgesKeeps(g: Graph, rels: seq<Edge>)
    requires g.Valid()
    ensures AddEdges(g, rels).Valid()
  {
    if rels != [] {
      AddEdgesKeeps(g, rels[..|rels| - 1]);
      var h := AddEdges(g, rels[..|rels| - 1]);
      PutEdgeKeeps(h.nodes, h.edges, rels[|rels| - 1]);
    }
  }

  /** `_neighbours_by_relation` */
  function Neighbours(edges: seq<Edge>, sku: string, relation: Relation): seq<string> {
    if edges == [] then []
    else
      (if edges[0].source == sku && edges[0].relation == relation then [edges[0].target] else [])
      + Neighbours(edges[1..], sku, relation)
  }

  /** The sources of the incoming edges with a label. */
  function Sources(edges: seq<Edge>, sku: string, relation: Relation): seq<string> {
    if edges == [] then []
    else
      (if edges[0].target == sku && edges[0].relation == relation then [edges[0].source] else [])
      + Sources(edges[1..], sku, relation)
  }

  lemma {:induction false} NeighboursExact(edges: seq<Edge>, sku: string, relation: Relation)
    ensures forall t :: t in Neighbours(edges, sku, relation) <==> Edge(sku, t, relation) in edges
    ensures forall t :: t in Sources(edges, sku, relation) <==> Edge(t, sku, relation) in edges
  {
    if edges != [] {
      assert edges == [edges[0]] + edges[1..];
      NeighboursExact(edges[1..], sku, relation);
    }
  }

  lemma {:induction false} NeighboursDistinct(g: Graph, edges: seq<Edge>, sku: string, relation: Relation)
    requires Graph(g.nodes, edges).Valid()
    ensures forall i, j :: 0 <= i < j < |Neighbours(edges, sku, relation)| ==>
              Neighbours(edges, sku, relation)[i] != Neighbours(edges, sku, relation)[j]
    ensures forall i, j :: 0 <= i < j < |Sources(edges, sku, relation)| ==>
              Sources(edges, sku, relation)[i] != Sources(edges, sku, relation)[j]
  {
    if edges != [] {
      assert Graph(g.nodes, edges[1..]).Valid();
      NeighboursDistinct(g, edges[1..], sku, relation);
      NeighboursExact(edges[1..], sku, relation);
      forall e | e in edges[1..]
        ensures e.source != edges[0].source || e.target != edges[0].target
      {
        var k :| 0 <= k < |edges[1..]| && edges[1..][k] == e;
        assert edges[k + 1] == e;
      }
    }
  }

  // ---------------------------------------------------------------- combinations

  predicate Exclusive(relation: Relation) {
    relation == UpgradesTo || relation == IncompatibleWith
  }

  /** No upgrade or incompatibility edge runs between two members. */
  predicate ConflictFree(g: Graph, skus: set<string>) {
    forall e :: e in g.edges && e.source in skus && e.target in skus ==> !Exclusive(e.relation)
  }

  predicate RequirementMet(g: Graph, skus: set<string>, sku: string) {
    (exists e :: e in g.edges && e.source == sku && e.relation == Requires) ==>
      exists e :: e in g.edges && e.source == sku && e.relation == Requires && e.target in skus
  }

  /** The declarative combination rule: known products, no exclusive pair, every requirement met. */
  predicate ValidCombination(g: Graph, skus: set<string>) {
    && skus <= g.nodes
    && ConflictFree(g, skus)
    && forall s :: s in skus ==> RequirementMet(g, skus, s)
  }

  datatype Violation =
    | Unknown(sku: string)
    | Exclusion(pair: set<string>, relation: Relation)
    | Missing(sku: string, options: set<string>)

  predicate ExclusionBy(edges: seq<Edge>, skus: set<string>, sku: string, relation: Relation, v: Violation) {
    exists e :: e in edges && e.source == sku && e.relation == relation && e.target in skus
                && v == Exclusion({sku, e.target}, relation)
  }

  function Options(edges: seq<Edge>, sku: string): set<string> {
    set e | e in edges && e.source == sku && e.relation == Requires :: e.target
  }

  /** The violations one member gives rise to. */
  predicate ViolatedBy(g: Graph, skus: set<string>, sku: string, v: Violation) {
    if sku !in g.nodes then v == Unknown(sku)
    else
      || ExclusionBy(g.edges, skus, sku, UpgradesTo, v)
      || ExclusionBy(g.edges, skus, sku, IncompatibleWith, v)
      || (v == Missing(sku, Options(g.edges, sku)) && Options(g.edges, sku) != {} && Options(g.edges, sku) !! skus)
  }

  lemma NoViolations(g: Graph, skus: set<string>)
    requires g.Valid()
    ensures ValidCombination(g, skus) <==> forall s, v :: s in skus ==> !ViolatedBy(g, skus, s, v)
  {
    if ValidCombination(g, skus) {
      forall s, v | s in skus
        ensures !ViolatedBy(g, skus, s, v)
      {
        assert RequirementMet(g, skus, s);
      }
    } else if skus <= g.nodes {
      if !ConflictFree(g, skus) {
        var e :| e in g.edges && e.source in skus && e.target in skus && Exclusive(e.relation);
        assert ExclusionBy(g.edges, skus, e.source, e.relation, Exclusion({e.source, e.target}, e.relation));
        assert ViolatedBy(g, skus, e.source, Exclusion({e.source, e.target}, e.relation));
      } else {
        var s :| s in skus && !RequirementMet(g, skus, s);
        var e :| e in g.edges && e.source == s && e.relation == Requires;
        assert e.target in Options(g.edges, s);
        assert ViolatedBy(g, skus, s, Missing(s, Options(g.edges, s)));
      }
    } else {
      var s :| s in skus && s !in g.nodes;
      assert ViolatedBy(g, skus, s, Unknown(s));
    }
  }
}

/** The product catalogue: definitions, bundles, the graph and its queries. */
module CatalogueService {
  import opened Json
  import opened Seqs
  import opened Products
  import opened Graphs

  datatype RawProduct = RawProduct(sku: string, product: Product)

  datatype Bundle = Bundle(id: string, skus: seq<string>)

  datatype File = File(products: seq<RawProduct>, bundles: seq<Bundle>, relationships: seq<Edge>)

  function LoadedProducts(raw: seq<RawProduct>): Catalogue {
    if raw == [] then map[]
    else LoadedProducts(raw[..|raw| - 1])[raw[|raw| - 1].sku := raw[|raw| - 1].product]
  }

  function Nodes(file: File): set<string> {
    (set p | p in file.products :: p.sku) + (set b | b in file.bundles :: b.id)
  }

  function BuiltGraph(file: File): Graph {
    AddEdges(Graph(Nodes(file), []), file.relationships)
  }

  /** Some unordered pair carries both a compatible and an incompatible edge. */
  predicate Contradictory(edges: seq<Edge>) {
    exists a, b :: a in edges && b in edges && a.relation == CompatibleWith && b.relation == IncompatibleWith
                   && {a.source, a.target} == {b.source, b.target}
  }

  datatype Via = Via(source: string, relation: Relation)

  datatype Candidate = Candidate(
    sku: string, product: Option<Product>, via: seq<Via>, valid: bool, violations: seq<Violation>)

  /** The edges that bring candidates in: compatible or upgrade edges out of a held SKU to one not held,
      and requires edges into a held SKU from one not held. */
  function Witnesses(edges: seq<Edge>, held: set<string>, sources: set<string>): set<(string, Via)> {
    Outward(edges, held, sources, CompatibleWith) + Outward(edges, held, sources, UpgradesTo)
    + Inward(edges, held, sources, Requires)
  }

  function Outward(edges: seq<Edge>, held: set<string>, sources: set<string>, relation: Relation): set<(string, Via)> {
    set e | e in edges && e.source in sources && e.relation == relation && e.target !in held
      :: (e.target, Via(e.source, relation))
  }

  function Inward(edges: seq<Edge>, held: set<string>, sources: set<string>, relation: Relation): set<(string, Via)> {
    set e | e in edges && e.target in sources && e.relation == relation && e.source !in held
      :: (e.source, Via(e.target, relation))
  }

  /** What one inner loop records. */
  function Recorded(targets: seq<string>, held: set<string>, via: Via): set<(string, Via)> {
    set t | t in targets && t !in held :: (t, via)
  }

  /** `candidate_via`: an insertion-ordered dictionary of lists, filled in place. */
  class ViaMap {
    var order: seq<string>
    var entries: map<string, seq<Via>>

    /** The dictionary holds exactly the given pairs, each once. */
    ghost predicate Represents(pairs: set<(string, Via)>)
      reads this
    {
      && NoDuplicates(order)
      && (forall t :: t in order <==> t in entries)
      && (forall t :: t in entries ==> entries[t] != [] && NoDuplicates(entries[t]))
      && (forall t, v :: (t in entries && v in entries[t]) <==> (t, v) in pairs)
    }

    constructor ()
      ensures Represents({})
    {
      order, entries := [], map[];
    }

    method Add(target: string, via: Via, ghost pairs: set<(string, Via)>)
      requires Represents(pairs) && (target, via) !in pairs
      modifies this
      ensures Represents(pairs + {(target, via)})
    {
      if target !in entries {
        order := order + [target];
        entries := entries[target := [via]];
      } else {
        entries := entries[target := entries[target] + [via]];
      }
    }

    /** One of the inner loops: `via` is recorded for each target that is not held. */
    method AddAll(targets: seq<string>, held: set<string>, via: Via, ghost pairs: set<(string, Via)>)
      requires Represents(pairs) && NoDuplicates(targets)
      requires forall t :: t in targets ==> (t, via) !in pairs
      modifies this
      ensures Represents(pairs + Recorded(targets, held, via))
    {
      ghost var now := pairs;
      for i := 0 to |targets|
        invariant now == pairs + Recorded(targets[..i], held, via)
        invariant Represents(now)
      {
        assert targets[..i + 1] == targets[..i] + [targets[i]];
        if targets[i] !in held {
          Add(targets[i], via, now);
          now := now + {(targets[i], via)};
        }
      }
      assert targets[..|targets|] == targets;
    }
  }

  class ProductCatalogue {
    var products: Catalogue
    var bundles: seq<Bundle>
    var graph: Graph

    ghost predicate Valid()
      reads this
    {
      graph.Valid()
    }

    constructor ()
      ensures Valid() && products == map[] && bundles == [] && graph == Graph({}, [])
    {
      products, bundles, graph := map[], [], Graph({}, []);
    }

    /** Whether no product pair is marked both compatible and incompatible in the graph. */
    static method ValidateNoConflicts(g: Graph) returns (ok: bool)
      ensures ok == !Contradictory(g.edges)
    {
      var compatible: set<set<string>> := {};
      var incompatible: set<set<string>> := {};
      for i := 0 to |g.edges|
        invariant forall p :: p in compatible <==>
                    exists a :: a in g.edges[..i] && a.relation == CompatibleWith && p == {a.source, a.target}
        invariant forall p :: p in incompatible <==>
                    exists b :: b in g.edges[..i] && b.relation == IncompatibleWith && p == {b.source, b.target}
      {
        var e := g.edges[i];
        assert g.edges[..i + 1] == g.edges[..i] + [e];
        if e.relation == CompatibleWith {
          compatible := compatible + {{e.source, e.target}};
        } else if e.relation == IncompatibleWith {
          incompatible := incompatible + {{e.source, e.target}};
        }
      }
      assert g.edges[..|g.edges|] == g.edges;
      ok := compatible * incompatible == {};
      if !ok {
        var p :| p in compatible * incompatible;
        assert Contradictory(g.edges);
      } else {
        forall a, b | a in g.edges && b in g.edges && a.relation == CompatibleWith && b.relation == IncompatibleWith
          ensures {a.source, a.target} != {b.source, b.target}
        {
          assert {a.source, a.target} in compatible && {b.source, b.target} in incompatible;
          assert {b.source, b.target} !in compatible * incompatible;
        }
      }
    }

    /** Everything is rebuilt aside and swapped in at the end, or nothing changes. */
    method LoadCatalogue(file: File) returns (ok: bool)
      requires Valid()
      modifies this
      ensures Valid()
      ensures ok == !Contradictory(BuiltGraph(file).edges)
      ensures ok ==> products == LoadedProducts(file.products) && bundles == file.bundles && graph == BuiltGraph(file)
      ensures !ok ==> products == old(products) && bundles == old(bundles) && graph == old(graph)
    {
      var loaded: Catalogue := map[];
      for i := 0 to |file.products|
        invariant loaded == LoadedProducts(file.products[..i])
      {
        assert file.products[..i + 1][..i] == file.products[..i];
        loaded := loaded[file.products[i].sku := file.products[i].product];
      }
      assert file.products[..|file.products|] == file.products;
      var g := Graph(Nodes(file), []);
      for i := 0 to |file.relationships|
        invariant g == AddEdges(Graph(Nodes(file), []), file.relationships[..i])
      {
        assert file.relationships[..i + 1][..i] == file.relationships[..i];
        g := AddEdge(g, file.relationships[i]);
      }
      assert file.relationships[..|file.relationships|] == file.relationships;
      ok := ValidateNoConflicts(g);
      AddEdgesKeeps(Graph(Nodes(file), []), file.relationships);
      if ok {
        products, bundles, graph := loaded, file.bundles, g;
      }
    }

    /** Adds a violation for every held target of one kind of exclusive edge, skipping repeated messages. */
    method CheckExclusive(sku: string, skus: set<string>, relation: Relation, sofar: seq<Violation>)
      returns (violations: seq<Violation>)
      ensures forall v :: v in violations <==> v in sofar || ExclusionBy(graph.edges, skus, sku, relation, v)
    {
      violations := sofar;
      for i := 0 to |graph.edges|
        invariant forall v :: v in violations <==> v in sofar || ExclusionBy(graph.edges[..i], skus, sku, relation, v)
      {
        var e := graph.edges[i];
        assert graph.edges[..i + 1] == graph.edges[..i] + [e];
        if e.source == sku && e.relation == relation && e.target in skus {
          var v := Exclusion({sku, e.target}, relation);
          assert ExclusionBy(graph.edges[..i + 1], skus, sku, relation, v);
          if v !in violations {
            violations := violations + [v];
          }
        }
      }
      assert graph.edges[..|graph.edges|] == graph.edges;
    }

    method CheckMember(sku: string, skus: set<string>, sofar: seq<Violation>) returns (violations: seq<Violation>)
      ensures forall v :: v in violations <==> v in sofar || ViolatedBy(graph, skus, sku, v)
    {
      if sku !in graph.nodes {
        return sofar + [Unknown(sku)];
      }
      violations := CheckExclusive(sku, skus, UpgradesTo, sofar);
      violations := CheckExclusive(sku, skus, IncompatibleWith, violations);
      var required := Neighbours(graph.edges, sku, Requires);
      NeighboursExact(graph.edges, sku, Requires);
      assert Options(graph.edges, sku) == set t | t in required;
      assert required != [] <==> Options(graph.edges, sku) != {} by {
        if required != [] { assert required[0] in Options(graph.edges, sku); }
      }
      if required != [] && !(exists t :: t in required && t in skus) {
        violations := violations + [Missing(sku, Options(graph.edges, sku))];
      }
    }

    /** `_is_combination_valid`: valid exactly by the declarative rule, with every violation and only those. */
    method IsCombinationValid(skus: seq<string>) returns (valid: bool, violations: seq<Violation>)
      requires Valid()
      ensures valid == ValidCombination(graph, SetOf(skus))
      ensures forall v :: v in violations <==> exists s :: s in skus && ViolatedBy(graph, SetOf(skus), s, v)
    {
      var skuSet := SetOf(skus);
      violations := [];
      for i := 0 to |skus|
        invariant forall v :: v in violations <==> exists s :: s in skus[..i] && ViolatedBy(graph, skuSet, s, v)
      {
        assert skus[..i + 1] == skus[..i] + [skus[i]];
        violations := CheckMember(skus[i], skuSet, violations);
      }
      assert skus[..|skus|] == skus;
      valid := violations == [];
      NoViolations(graph, skuSet);
      if violations == [] {
        forall s, v | s in skuSet
          ensures !ViolatedBy(graph, skuSet, s, v)
        {
          assert v !in violations;
        }
      } else {
        assert violations[0] in violations;
      }
    }

    /** The body of the first loop of `compatible_candidates`: one held SKU. */
    method SurfaceFrom(via: ViaMap, sku: string, held: set<string>, ghost done: set<string>, ghost pairs: set<(string, Via)>)
      returns (ghost now: set<(string, Via)>)
      requires Valid() && sku !in done
      requires pairs == Witnesses(graph.edges, held, done) && via.Represents(pairs)
      modifies via
      ensures now == Witnesses(graph.edges, held, done + {sku}) && via.Represents(now)
    {
      var compatible := Neighbours(graph.edges, sku, CompatibleWith);
      var upgrades := Neighbours(graph.edges, sku, UpgradesTo);
      var dependants := Sources(graph.edges, sku, Requires);
      NeighboursDistinct(graph, graph.edges, sku, CompatibleWith);
      NeighboursDistinct(graph, graph.edges, sku, UpgradesTo);
      NeighboursDistinct(graph, graph.edges, sku, Requires);
      FreshVias(graph.edges, held, done, sku);
      now := pairs;
      via.AddAll(compatible, held, Via(sku, CompatibleWith), now);
      now := now + Recorded(compatible, held, Via(sku, CompatibleWith));
      via.AddAll(upgrades, held, Via(sku, UpgradesTo), now);
      now := now + Recorded(upgrades, held, Via(sku, UpgradesTo));
      via.AddAll(dependants, held, Via(sku, Requires), now);
      now := now + Recorded(dependants, held, Via(sku, Requires));
      OutwardStep(graph.edges, held, done, sku, CompatibleWith);
      OutwardStep(graph.edges, held, done, sku, UpgradesTo);
      InwardStep(graph.edges, held, done, sku, Requires);
    }

    /** The first loop of `compatible_candidates`. */
    method Surface(heldList: seq<string>) returns (via: ViaMap)
      requires Valid() && NoDuplicates(heldList)
      ensures fresh(via) && via.Represents(Witnesses(graph.edges, SetOf(heldList), SetOf(heldList)))
    {
      var held := SetOf(heldList);
      via := new ViaMap();
      ghost var pairs: set<(string, Via)> := {};
      for i := 0 to |heldList|
        invariant fresh(via)
        invariant pairs == Witnesses(graph.edges, held, SetOf(heldList[..i]))
        invariant via.Represents(pairs)
      {
        var sku := heldList[i];
        pairs := SurfaceFrom(via, sku, held, SetOf(heldList[..i]), pairs);
        assert SetOf(heldList[..i + 1]) == SetOf(heldList[..i]) + {sku};
      }
      assert heldList[..|heldList|] == heldList;
    }

    /** `compatible_candidates`, over a duplicate-free listing of the held SKUs. */
    method CompatibleCandidates(heldList: seq<string>) returns (candidates: seq<Candidate>)
      requires Valid() && NoDuplicates(heldList)
      ensures CandidatesExact(graph, products, SetOf(heldList), candidates)
    {
      ghost var held := SetOf(heldList);
      var via := Surface(heldList);
      var order, entries := via.order, via.entries;
      candidates := [];
      for i := 0 to |order|
        invariant |candidates| == i
        invariant forall j :: 0 <= j < i ==>
                    CandidateFor(graph, products, held, candidates[j], order[j], entries[order[j]])
      {
        var sku := order[i];
        var valid, violations := IsCombinationValid(heldList + [sku]);
        assert SetOf(heldList + [sku]) == held + {sku};
        assert forall s :: s in heldList + [sku] <==> s in held + {sku};
        candidates := candidates + [Candidate(sku, if sku in products then Some(products[sku]) else None,
                                              entries[sku], valid, violations)];
      }
      CandidatesComplete(graph, products, held, order, entries, candidates);
    }

    method UpdateProduct(sku: string, price: Option<real>, terms: Option<seq<int>>) returns (status: int)
      modifies this`products
      ensures status == PatchStatus(old(products), sku, price, terms)
      ensures products == if status == 200 then PatchProduct(old(products), sku, price, terms) else old(products)
    {
      if sku !in products {
        return 404;
      }
      if price.None? && terms.None? {
        return 422;
      }
      if price.Some? {
        products := products[sku := products[sku].(listPrice := price)];
      }
      if terms.Some? {
        products := products[sku := products[sku].(terms := terms.value)];
      }
      assert products == PatchProduct(old(products), sku, price, terms);
      return 200;
    }
  }

  function PatchStatus(products: Catalogue, sku: string, price: Option<real>, terms: Option<seq<int>>): int {
    if sku !in products then 404 else if price.None? && terms.None? then 422 else 200
  }

  function PatchProduct(products: Catalogue, sku: string, price: Option<real>, terms: Option<seq<int>>): Catalogue
    requires sku in products
  {
    products[sku := products[sku].(listPrice := if price.Some? then price else products[sku].listPrice,
                                   terms := if terms.Some? then terms.value else products[sku].terms)]
  }

  // ---------------------------------------------------------------- candidate search

  predicate Witness(g: Graph, held: set<string>, sku: string, via: Via) {
    (sku, via) in Witnesses(g.edges, held, held)
  }

  ghost predicate CandidateFor(g: Graph, products: Catalogue, held: set<string>, c: Candidate, sku: string, via: seq<Via>) {
    && c.sku == sku && c.via == via
    && c.product == (if sku in products then Some(products[sku]) else None)
    && c.valid == ValidCombination(g, held + {sku})
    && forall v :: v in c.violations <==> exists s :: s in held + {sku} && ViolatedBy(g, held + {sku}, s, v)
  }

  /** Each SKU with a witness edge is listed exactly once, with exactly its witness edges and its validity. */
  ghost predicate CandidatesExact(g: Graph, products: Catalogue, held: set<string>, candidates: seq<Candidate>) {
    && (forall i, j :: 0 <= i < j < |candidates| ==> candidates[i].sku != candidates[j].sku)
    && (forall sku, v :: Witness(g, held, sku, v) ==> exists c :: c in candidates && c.sku == sku)
    && (forall c :: c in candidates ==>
          && c.via != [] && NoDuplicates(c.via)
          && (forall v :: v in c.via <==> Witness(g, held, c.sku, v))
          && CandidateFor(g, products, held, c, c.sku, c.via))
  }

  lemma FreshVias(edges: seq<Edge>, held: set<string>, done: set<string>, sku: string)
    requires sku !in done
    ensures forall t, relation :: (t, Via(sku, relation)) !in Witnesses(edges, held, done)
  {
  }

  lemma OutwardStep(edges: seq<Edge>, held: set<string>, done: set<string>, sku: string, relation: Relation)
    ensures Outward(edges, held, done + {sku}, relation) ==
            Outward(edges, held, done, relation) + Recorded(Neighbours(edges, sku, relation), held, Via(sku, relation))
  {
    NeighboursExact(edges, sku, relation);
    forall e | e in edges && e.source == sku && e.relation == relation
      ensures e.target in Neighbours(edges, sku, relation)
    {
      assert e == Edge(sku, e.target, relation);
    }
    forall t | t in Neighbours(edges, sku, relation) && t !in held
      ensures (t, Via(sku, relation)) in Outward(edges, held, done + {sku}, relation)
    {
      assert Edge(sku, t, relation) in edges;
    }
  }

  lemma InwardStep(edges: seq<Edge>, held: set<string>, done: set<string>, sku: string, relation: Relation)
    ensures Inward(edges, held, done + {sku}, relation) ==
            Inward(edges, held, done, relation) + Recorded(Sources(edges, sku, relation), held, Via(sku, relation))
  {
    NeighboursExact(edges, sku, relation);
    forall e | e in edges && e.target == sku && e.relation == relation
      ensures e.source in Sources(edges, sku, relation)
    {
      assert e == Edge(e.source, sku, relation);
    }
    forall t | t in Sources(edges, sku, relation) && t !in held
      ensures (t, Via(sku, relation)) in Inward(edges, held, done + {sku}, relation)
    {
      assert Edge(t, sku, relation) in edges;
    }
  }

  lemma CandidatesComplete(g: Graph, products: Catalogue, held: set<string>, order: seq<string>,
                           entries: map<string, seq<Via>>, candidates: seq<Candidate>)
    requires NoDuplicates(order) && (forall t :: t in order <==> t in entries)
    requires forall t :: t in entries ==> entries[t] != [] && NoDuplicates(entries[t])
    requires forall t, v :: (t in entries && v in entries[t]) <==> (t, v) in Witnesses(g.edges, held, held)
    requires |candidates| == |order|
    requires forall j :: 0 <= j < |order| ==> order[j] in entries && CandidateFor(g, products, held, candidates[j], order[j], entries[order[j]])
    ensures CandidatesExact(g, products, held, candidates)
  {
  }
}
