/** The hot tier is simulated by the permanent one, under any sequence of PUTs and evictions. */
module CacheTheorems {
  import opened Json
  import opened Ontology
  import opened Cache

  datatype Op = PutOp(body: Dict) | EvictOp

  function Apply(t: Tiers, op: Op): Tiers {
    match op
    case PutOp(body) => if Put(t, body).Ok? then Put(t, body).value else t
    case EvictOp => t.(hot := None)
  }

  function ApplyAll(ops: seq<Op>): Tiers {
    if ops == [] then EMPTY else Apply(ApplyAll(ops[..|ops| - 1]), ops[|ops| - 1])
  }

  predicate AcceptedPut(op: Op) {
    op.PutOp? && Accepts(DataOf(op.body))
  }

  function AcceptedPuts(ops: seq<Op>): nat {
    if ops == [] then 0
    else AcceptedPuts(ops[..|ops| - 1]) + (if AcceptedPut(ops[|ops| - 1]) then 1 else 0)
  }

  /** The hot record, version aside, is a sub-map of the permanent one, and its version is no greater. */
  predicate Simulated(t: Tiers) {
    t.hot.Some? ==>
      && t.permanent.Some?
      && (forall k :: k in t.hot.value && k != "version" ==> k in t.permanent.value && t.permanent.value[k] == t.hot.value[k])
      && Version(t.hot.value) <= Version(t.permanent.value)
  }

  predicate Acceptable(record: Dict) {
    Versioned(record) && Accepts(record - {"version"})
  }

  /** Merging an accepted body into an acceptable record gives an acceptable record. */
  lemma MergeAcceptable(existing: Option<Dict>, body: Dict)
    requires existing.Some? ==> Acceptable(existing.value)
    requires Accepts(DataOf(body))
    ensures Acceptable(Stored(existing, body))
  {
  }

  /**
   * Two-tier simulation. Under any sequence of PUTs and evictions the permanent version counts the accepted
   * PUTs, the hot record is a sub-map of the permanent one at no greater version, a hot-then-permanent read
   * misses only a customer never written, and both records stay acceptable apart from their version.
   * Without evictions the tiers are equal.
   */
  lemma {:induction false} TwoTierSimulation(ops: seq<Op>)
    ensures var t := ApplyAll(ops);
            && Simulated(t)
            && (t.permanent.Some? <==> AcceptedPuts(ops) > 0)
            && (t.permanent.Some? ==> Acceptable(t.permanent.value) && Version(t.permanent.value) == AcceptedPuts(ops) as real)
            && (t.hot.Some? ==> Acceptable(t.hot.value))
            && (Read(t).Some? <==> AcceptedPuts(ops) > 0)
            && (EvictOp !in ops ==> t.hot == t.permanent)
  {
    if ops != [] {
      var front, last := ops[..|ops| - 1], ops[|ops| - 1];
      TwoTierSimulation(front);
      assert ops == front + [last];
      var t := ApplyAll(front);
      if AcceptedPut(last) {
        MergeAcceptable(t.hot, last.body);
        MergeAcceptable(t.permanent, last.body);
      }
    }
  }

  /** A read gives the hot record, and after an eviction the permanent one, which has the same fields at its own version. */
  lemma ReadAfterEviction(ops: seq<Op>)
    ensures var t := ApplyAll(ops);
            && (t.hot.Some? ==> Read(t) == t.hot)
            && Read(Apply(t, EvictOp)) == t.permanent
            && (t.hot.Some? ==> t.permanent.Some? && forall k :: k in t.hot.value && k != "version" ==>
                  k in Read(Apply(t, EvictOp)).value && Read(Apply(t, EvictOp)).value[k] == t.hot.value[k])
  {
    TwoTierSimulation(ops);
  }

  /** A body asks for a merge by any hint that is not null, zero or empty. */
  lemma HintRead(body: Dict)
    ensures MergeHint(body) <==>
            "_merge_domain" in body
            && body["_merge_domain"] !in {Null, Num(0.0), Str(""), Arr([]), Obj(map[])}
  {
  }

  /** What one tier holds after an accepted body: the fields of the body over those that were there, if it asks for a
      merge, and else its own alone; never the hint; and the next version. */
  lemma StoredExactly(existing: Option<Dict>, body: Dict)
    requires existing.Some? ==> Versioned(existing.value)
    ensures var stored, kept := Stored(existing, body), MergeHint(body) && existing.Some?;
            && stored.Keys == (if kept then existing.value.Keys else {}) + (body.Keys - {"_merge_domain"}) + {"version"}
            && (forall k :: k in body && k != "_merge_domain" && k != "version" ==> stored[k] == body[k])
            && (forall k :: kept && k in existing.value && k != "version" && (k !in body || k == "_merge_domain") ==> stored[k] == existing.value[k])
            && stored["version"] == Num(if existing.Some? then existing.value["version"].n + 1.0 else 1.0)
  {
  }
}
