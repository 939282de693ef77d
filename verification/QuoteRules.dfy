/** Which rules come out differently for a proposal and for the charge. */
module QuoteRules {
  import opened Json
  import opened Seqs
  import opened Rules
  import opened RulesExact
  import opened EvaluationAgreement
  import opened Billing
  import opened Cdc
  import opened Pipeline
  import opened OfferQuotes

  // ---------------------------------------------------------------- rules over what both sides hold

  /** The held lines have the field alike. */
  predicate SameField(field: string, held: seq<Dict>, charged: seq<Dict>) {
    && |held| == |charged|
    && forall i :: 0 <= i < |held| ==>
         && (field in held[i] <==> field in charged[i])
         && (field in held[i] ==> held[i][field] == charged[i][field])
  }

  function FieldsOf(q: Policy): set<string> {
    match q.rule
    case PerProduct(field, _, _) => {field}
    case Portfolio(_, field, _, _) => {field}
    case SkuCombination(requirements, _) => set r | r in requirements :: r.field
  }

  /** The rule reads nothing that tells the held lines apart, and of the new ones at most the list price, as a number. */
  predicate SharedRule(q: Policy, held: seq<Dict>, charged: seq<Dict>) {
    forall field :: field in FieldsOf(q) ==>
      && SameField(field, held, charged)
      && (field !in PRICES + {"product_type"} || (field == "list_price_gbp" && !q.rule.SkuCombination?))
  }

  /** The new line's list price carries what the rule watches across its threshold. */
  predicate Crossed(q: Policy, held: seq<Dict>, price: real) {
    match q.rule
    case PerProduct(field, op, threshold) =>
      field == "list_price_gbp" && Compare(0.0, op, threshold) != Compare(price, op, threshold)
    case Portfolio(aggregate, field, op, threshold) =>
      var total, n := SumBy(held, FieldReader(field)), |held| + 1;
      field == "list_price_gbp" &&
      Compare(Share(aggregate, total, n), op, threshold) != Compare(Share(aggregate, total + price, n), op, threshold)
    case SkuCombination(_, _) => false
  }

  /** The proposed line and the added one. */
  ghost predicate NewPair(proposed: Dict, added: Dict, price: real) {
    && (forall field :: field !in PRICES + {"product_type"} ==>
          (field in proposed <==> field in added) && (field in added ==> proposed[field] == added[field]))
    && "list_price_gbp" !in proposed && "list_price_gbp" in added && added["list_price_gbp"] == Num(price)
  }

  lemma NewPairOf(l: SubLine, kind: Json)
    requires l.stat == "A" && l.listPrice.Some? && l.term.Some?
    ensures NewPair(Proposed(l, kind), EvalLine(l), l.listPrice.value)
  {
    forall field | field !in PRICES + {"product_type"}
      ensures field in Proposed(l, kind) <==> field in EvalLine(l)
      ensures field in EvalLine(l) ==> Proposed(l, kind)[field] == EvalLine(l)[field]
    {
      NewLinesAgree(l, kind, field);
    }
  }

  lemma SameReading(p: Dict, x: Dict, field: string)
    requires (field in p <==> field in x) && (field in p ==> p[field] == x[field])
    ensures forall d :: Get(p, field, d) == Get(x, field, d)
    ensures FieldOk(p, field) == FieldOk(x, field) && Field(p, field) == Field(x, field)
  {
  }

  lemma NewReading(proposed: Dict, added: Dict, price: real, field: string)
    requires NewPair(proposed, added, price) && (field !in PRICES + {"product_type"} || field == "list_price_gbp")
    ensures FieldOk(proposed, field) == FieldOk(added, field)
    ensures field != "list_price_gbp" ==> Field(proposed, field) == Field(added, field)
    ensures field == "list_price_gbp" ==> Field(proposed, field) == 0.0 && Field(added, field) == price
  {
    if field != "list_price_gbp" {
      SameReading(proposed, added, field);
    }
  }

  lemma {:induction false} SameSum(field: string, held: seq<Dict>, charged: seq<Dict>)
    requires SameField(field, held, charged)
    ensures SumBy(held, FieldReader(field)) == SumBy(charged, FieldReader(field))
  {
    if held != [] {
      SameReading(held[0], charged[0], field);
      SameSum(field, held[1..], charged[1..]);
    }
  }

  lemma SameReadable(field: string, held: seq<Dict>, charged: seq<Dict>)
    requires SameField(field, held, charged)
    ensures (forall p :: p in held ==> FieldOk(p, field)) <==> (forall p :: p in charged ==> FieldOk(p, field))
    ensures forall i :: 0 <= i < |held| ==> Field(held[i], field) == Field(charged[i], field)
  {
    forall i | 0 <= i < |held|
      ensures FieldOk(held[i], field) == FieldOk(charged[i], field) && Field(held[i], field) == Field(charged[i], field)
    {
      SameReading(held[i], charged[i], field);
    }
  }

  lemma SameJudgement(p: Dict, x: Dict, r: Requirement)
    requires (r.field in p <==> r.field in x) && (r.field in p ==> p[r.field] == x[r.field])
    ensures Judge(p, r) == Judge(x, r)
  {
    SameReading(p, x, r.field);
  }

  lemma SameRequirement(r: Requirement, held: seq<Dict>, charged: seq<Dict>)
    requires SameField(r.field, held, charged)
    ensures forall i :: 0 <= i < |held| ==> Judge(held[i], r) == Judge(charged[i], r)
    ensures Met(r, held) <==> Met(r, charged)
    ensures (forall p :: p in held ==> Comparable(p, r)) <==> (forall p :: p in charged ==> Comparable(p, r))
  {
    forall i | 0 <= i < |held|
      ensures Judge(held[i], r) == Judge(charged[i], r)
    {
      SameJudgement(held[i], charged[i], r);
    }
    SameVerdicts(r, held, charged);
  }

  lemma SameVerdicts(r: Requirement, held: seq<Dict>, charged: seq<Dict>)
    requires |held| == |charged| && forall i :: 0 <= i < |held| ==> Judge(held[i], r) == Judge(charged[i], r)
    ensures Met(r, held) <==> Met(r, charged)
    ensures (forall p :: p in held ==> Comparable(p, r)) <==> (forall p :: p in charged ==> Comparable(p, r))
  {
    if Met(r, held) {
      var p :| p in held && Satisfies(p, r);
      var i :| 0 <= i < |held| && held[i] == p;
      assert charged[i] in charged && Satisfies(charged[i], r);
    }
    if Met(r, charged) {
      var p :| p in charged && Satisfies(p, r);
      var i :| 0 <= i < |charged| && charged[i] == p;
      assert held[i] in held && Satisfies(held[i], r);
    }
    assert forall i :: 0 <= i < |held| ==> (Comparable(held[i], r) <==> Comparable(charged[i], r));
  }

  lemma SharedPerProduct(q: Policy, held: seq<Dict>, proposed: Dict, charged: seq<Dict>, added: Dict, price: real)
    requires q.rule.PerProduct? && |held| == |charged| && SharedRule(q, held, charged) && NewPair(proposed, added, price)
    ensures ReachesAlike(q, held, proposed, charged, added) <==> !Crossed(q, held, price)
    ensures ReadableWith(q, held, proposed) <==> ReadableWith(q, charged, added)
  {
    assert q.rule.field in FieldsOf(q);
    SameReadable(q.rule.field, held, charged);
    NewReading(proposed, added, price, q.rule.field);
  }

  lemma PortfolioAlike(q: Policy, held: seq<Dict>, proposed: Dict, charged: seq<Dict>, added: Dict)
    requires q.rule.Portfolio? && |held| == |charged|
    ensures ReachesAlike(q, held, proposed, charged, added) <==>
            (Compare(WatchedWith(q.rule, held, proposed), q.rule.op, q.rule.threshold) <==>
             Compare(WatchedWith(q.rule, charged, added), q.rule.op, q.rule.threshold))
  {
  }

  lemma SharedPortfolio(q: Policy, held: seq<Dict>, proposed: Dict, charged: seq<Dict>, added: Dict, price: real)
    requires q.rule.Portfolio? && |held| == |charged| && SharedRule(q, held, charged) && NewPair(proposed, added, price)
    ensures ReachesAlike(q, held, proposed, charged, added) <==> !Crossed(q, held, price)
    ensures ReadableWith(q, held, proposed) <==> ReadableWith(q, charged, added)
  {
    assert q.rule.field in FieldsOf(q);
    SameReadable(q.rule.field, held, charged);
    SameSum(q.rule.field, held, charged);
    NewReading(proposed, added, price, q.rule.field);
    PortfolioAlike(q, held, proposed, charged, added);
  }

  /** Each requirement is judged alike on both sides. */
  predicate JudgedAlike(requirements: seq<Requirement>, held: seq<Dict>, proposed: Dict, charged: seq<Dict>, added: Dict) {
    forall r :: r in requirements ==>
      && Judge(proposed, r) == Judge(added, r)
      && (Met(r, held) <==> Met(r, charged))
      && ((forall p :: p in held ==> Comparable(p, r)) <==> (forall p :: p in charged ==> Comparable(p, r)))
  }

  lemma SameCompletion(requirements: seq<Requirement>, held: seq<Dict>, proposed: Dict, charged: seq<Dict>, added: Dict)
    requires JudgedAlike(requirements, held, proposed, charged, added)
    ensures CompleteWith(requirements, held, proposed) <==> CompleteWith(requirements, charged, added)
  {
  }

  lemma SameSome(requirements: seq<Requirement>, p: Dict, x: Dict)
    requires forall r :: r in requirements ==> Judge(p, r) == Judge(x, r)
    ensures SatisfiesSome(p, requirements) <==> SatisfiesSome(x, requirements)
  {
  }

  lemma CombinationReadable(q: Policy, held: seq<Dict>, proposed: Dict, charged: seq<Dict>, added: Dict)
    requires q.rule.SkuCombination? && JudgedAlike(q.rule.requirements, held, proposed, charged, added)
    ensures ReadableWith(q, held, proposed) <==> ReadableWith(q, charged, added)
  {
    var requirements := q.rule.requirements;
    forall k | 0 <= k < |requirements|
      ensures CompleteWith(requirements[..k], held, proposed) <==> CompleteWith(requirements[..k], charged, added)
      ensures Comparable(proposed, requirements[k]) <==> Comparable(added, requirements[k])
      ensures (forall p :: p in held ==> Comparable(p, requirements[k])) <==> (forall p :: p in charged ==> Comparable(p, requirements[k]))
    {
      assert requirements[k] in requirements && forall r :: r in requirements[..k] ==> r in requirements;
      SameCompletion(requirements[..k], held, proposed, charged, added);
    }
  }

  lemma CombinationReachesAlike(q: Policy, held: seq<Dict>, proposed: Dict, charged: seq<Dict>, added: Dict)
    requires q.rule.SkuCombination? && |held| == |charged|
    requires CompleteWith(q.rule.requirements, held, proposed) <==> CompleteWith(q.rule.requirements, charged, added)
    requires SatisfiesSome(proposed, q.rule.requirements) <==> SatisfiesSome(added, q.rule.requirements)
    requires forall i :: 0 <= i < |held| ==> (SatisfiesSome(held[i], q.rule.requirements) <==> SatisfiesSome(charged[i], q.rule.requirements))
    ensures ReachesAlike(q, held, proposed, charged, added)
  {
  }

  lemma SharedCombination(q: Policy, held: seq<Dict>, proposed: Dict, charged: seq<Dict>, added: Dict, price: real)
    requires q.rule.SkuCombination? && |held| == |charged| && SharedRule(q, held, charged) && NewPair(proposed, added, price)
    ensures ReachesAlike(q, held, proposed, charged, added)
    ensures ReadableWith(q, held, proposed) <==> ReadableWith(q, charged, added)
  {
    var requirements := q.rule.requirements;
    forall r | r in requirements
      ensures SameField(r.field, held, charged) && Judge(proposed, r) == Judge(added, r)
    {
      assert r.field in FieldsOf(q);
      SameJudgement(proposed, added, r);
    }
    SharedRequirements(requirements, held, proposed, charged, added);
    SameCompletion(requirements, held, proposed, charged, added);
    SameSome(requirements, proposed, added);
    CombinationReadable(q, held, proposed, charged, added);
    CombinationReachesAlike(q, held, proposed, charged, added);
  }

  lemma SharedRequirements(requirements: seq<Requirement>, held: seq<Dict>, proposed: Dict, charged: seq<Dict>, added: Dict)
    requires |held| == |charged|
    requires forall r :: r in requirements ==> SameField(r.field, held, charged) && Judge(proposed, r) == Judge(added, r)
    ensures JudgedAlike(requirements, held, proposed, charged, added)
    ensures forall i :: 0 <= i < |held| ==> (SatisfiesSome(held[i], requirements) <==> SatisfiesSome(charged[i], requirements))
  {
    forall r | r in requirements
      ensures Met(r, held) <==> Met(r, charged)
      ensures (forall p :: p in held ==> Comparable(p, r)) <==> (forall p :: p in charged ==> Comparable(p, r))
    {
      SameRequirement(r, held, charged);
    }
    forall i | 0 <= i < |held|
      ensures SatisfiesSome(held[i], requirements) <==> SatisfiesSome(charged[i], requirements)
    {
      forall r | r in requirements
        ensures Judge(held[i], r) == Judge(charged[i], r)
      {
        SameRequirement(r, held, charged);
      }
      SameSome(requirements, held[i], charged[i]);
    }
  }

  lemma SharedDecides(q: Policy, held: seq<Dict>, proposed: Dict, charged: seq<Dict>, added: Dict, price: real)
    requires |held| == |charged| && SharedRule(q, held, charged) && NewPair(proposed, added, price)
    ensures ReachesAlike(q, held, proposed, charged, added) <==> !Crossed(q, held, price)
    ensures ReadableWith(q, held, proposed) <==> ReadableWith(q, charged, added)
  {
    match q.rule
    case PerProduct(_, _, _) => SharedPerProduct(q, held, proposed, charged, added, price);
    case Portfolio(_, _, _, _) => SharedPortfolio(q, held, proposed, charged, added, price);
    case SkuCombination(_, _) => SharedCombination(q, held, proposed, charged, added, price);
  }

  lemma SettledPrices(held: seq<Dict>, lines: seq<SubLine>)
    requires SameField("list_price_gbp", held, Active(Context(lines)))
    ensures SamePrices(held, Active(Context(lines)))
    ensures forall p :: p in held + Active(Context(lines)) ==> PriceJson(p).Num?
  {
    var charged := Active(Context(lines));
    forall i | 0 <= i < |held|
      ensures Price(held[i]) == Price(charged[i]) && PriceJson(held[i]).Num? && PriceJson(charged[i]).Num?
    {
      BillingFields(lines, charged[i]);
    }
  }

  /**
   * Where the cached list prices are billing's and the policies read nothing else that differs, proposal and charge
   * raise alike, and come to the same exactly when the price carries no watched list price across its threshold.
   */
  lemma SettledProposalMatchesExactly(policies: seq<Policy>, rec: Dict, e: Event, cid: string, lines: seq<SubLine>,
                                      l: SubLine, kind: Json)
    requires Caches(rec, e, cid, lines) && Addition(lines, l) && NoDuplicates(Ids(policies))
    requires SameField("list_price_gbp", Active(SubsOf(rec)), Active(Context(lines)))
    requires forall q :: q in policies ==> SharedRule(q, Active(SubsOf(rec)), Active(Context(lines)))
    ensures var quoted, billed := Evaluate(policies, SubsOf(rec) + [Proposed(l, kind)]), Evaluate(policies, Context(lines + [l]));
            && quoted.Ok? == billed.Ok?
            && (quoted.Ok? ==>
                  (quoted == billed <==> forall q :: q in policies ==> !Crossed(q, Active(SubsOf(rec)), l.listPrice.value)))
  {
    var held, charged, price := Active(SubsOf(rec)), Active(Context(lines)), l.listPrice.value;
    ProposalMatchesBillingExactly(policies, rec, e, cid, lines, l, kind);
    SettledPrices(held, lines);
    NewPairOf(l, kind);
    forall q | q in policies
      ensures ReachesAlike(q, held, Proposed(l, kind), charged, EvalLine(l)) <==> !Crossed(q, held, price)
      ensures ReadableWith(q, held, Proposed(l, kind)) <==> ReadableWith(q, charged, EvalLine(l))
    {
      SharedDecides(q, held, Proposed(l, kind), charged, EvalLine(l), price);
    }
  }

  // ---------------------------------------------------------------- bundles of product types

  /** A combination that asks for product types, as in README.md's bundle example. */
  predicate TypeBundle(q: Policy) {
    && q.rule.SkuCombination? && q.rule.requirements != []
    && forall r :: r in q.rule.requirements ==>
         r.field == "product_type" && r.op == Eq && r.value.Some? && r.value.value != Null
  }

  /** The types the lines show. */
  function TypesOf(active: seq<Dict>): set<Json> {
    set p | p in active :: Get(p, "product_type", Null)
  }

  lemma TypeMet(r: Requirement, active: seq<Dict>)
    requires r.field == "product_type" && r.op == Eq && r.value.Some?
    ensures Met(r, active) <==> r.value.value in TypesOf(active)
    ensures forall p :: Comparable(p, r) && (Satisfies(p, r) <==> Get(p, "product_type", Null) == r.value.value)
  {
    if Met(r, active) {
      var p :| p in active && Satisfies(p, r);
      assert Get(p, "product_type", Null) == r.value.value;
    }
    if r.value.value in TypesOf(active) {
      var p :| p in active && Get(p, "product_type", Null) == r.value.value;
      assert Satisfies(p, r);
    }
  }

  /** With a line of type `kind` a bundle is complete exactly when each type it asks for is among those held or is `kind`;
      it never raises. */
  lemma BundleWith(q: Policy, active: seq<Dict>, x: Dict)
    requires TypeBundle(q)
    ensures ReadableWith(q, active, x)
    ensures CompleteWith(q.rule.requirements, active, x) <==>
            forall r :: r in q.rule.requirements ==> r.value.value in TypesOf(active) + {Get(x, "product_type", Null)}
  {
    forall r | r in q.rule.requirements
      ensures Met(r, active) <==> r.value.value in TypesOf(active)
      ensures forall p :: Comparable(p, r) && (Satisfies(p, r) <==> Get(p, "product_type", Null) == r.value.value)
    {
      TypeMet(r, active);
    }
  }

  lemma UntypedLines(lines: seq<SubLine>)
    ensures TypesOf(Active(Context(lines))) <= {Null}
  {
    forall p | p in Active(Context(lines))
      ensures Get(p, "product_type", Null) == Null
    {
      BillingFields(lines, p);
    }
  }

  /** Billing never gives a bundle discount: its lines show no product type. */
  lemma BundleIsNeverCharged(q: Policy, lines: seq<SubLine>)
    requires TypeBundle(q)
    ensures PolicyOk(q, Active(Context(lines))) && !Fires(q, Active(Context(lines)))
    ensures forall p :: !AppliesTo(q, Active(Context(lines)), p)
  {
    var active, requirements := Active(Context(lines)), q.rule.requirements;
    UntypedLines(lines);
    assert requirements[0] in requirements;
    TypeMet(requirements[0], active);
    CombinationRaisesExactly(requirements, active);
    forall k | 0 <= k < |requirements|
      ensures forall p :: p in active ==> Comparable(p, requirements[k])
    {
      TypeMet(requirements[k], active);
    }
  }

  /** A complete bundle reaches some line that shows a type it asks for. */
  lemma CompleteBundleReaches(q: Policy, active: seq<Dict>, x: Dict)
    requires TypeBundle(q) && CompleteWith(q.rule.requirements, active, x)
    ensures Reaches(q, active, x, x) || exists i :: 0 <= i < |active| && Reaches(q, active, x, active[i])
  {
    var r := q.rule.requirements[0];
    assert r in q.rule.requirements;
    if Satisfies(x, r) {
      assert Reaches(q, active, x, x);
    } else {
      var p :| p in active && Satisfies(p, r);
      var i :| 0 <= i < |active| && active[i] == p;
      assert Reaches(q, active, x, active[i]);
    }
  }

  lemma BundleAlike(q: Policy, held: seq<Dict>, proposed: Dict, charged: seq<Dict>, added: Dict)
    requires TypeBundle(q) && |held| == |charged| && !CompleteWith(q.rule.requirements, charged, added)
    ensures ReachesAlike(q, held, proposed, charged, added) <==> !CompleteWith(q.rule.requirements, held, proposed)
  {
    if CompleteWith(q.rule.requirements, held, proposed) {
      CompleteBundleReaches(q, held, proposed);
    }
  }

  /**
   * A bundle of product types is quoted exactly when each type is among the cached ones or is the proposed product's,
   * and is never charged; so it comes out alike exactly when a type is missing.
   */
  lemma BundleIsQuotedExactly(q: Policy, rec: Dict, e: Event, cid: string, lines: seq<SubLine>, l: SubLine, kind: Json)
    requires Caches(rec, e, cid, lines) && Addition(lines, l) && TypeBundle(q)
    ensures var held, charged := Active(SubsOf(rec)), Active(Context(lines));
            && |held| == |charged|
            && ReadableWith(q, held, Proposed(l, kind)) && ReadableWith(q, charged, EvalLine(l))
            && !Fires(q, Active(Context(lines + [l])))
            && (Fires(q, Active(SubsOf(rec) + [Proposed(l, kind)])) <==>
                forall r :: r in q.rule.requirements ==> r.value.value in TypesOf(held) + {kind})
            && (ReachesAlike(q, held, Proposed(l, kind), charged, EvalLine(l)) <==>
                exists r :: r in q.rule.requirements && r.value.value !in TypesOf(held) + {kind})
  {
    var held, charged, proposed, added := Active(SubsOf(rec)), Active(Context(lines)), Proposed(l, kind), EvalLine(l);
    BothInputs(rec, e, cid, lines, l, kind);
    BundleIsNeverCharged(q, lines + [l]);
    BundleWith(q, held, proposed);
    BundleWith(q, charged, added);
    CompletionWith(q.rule.requirements, held, proposed);
    CompletionWith(q.rule.requirements, charged, added);
    assert Get(proposed, "product_type", Null) == kind;
    BundleAlike(q, held, proposed, charged, added);
  }

  // ---------------------------------------------------------------- portfolio rules over the product type

  /** A portfolio rule over the product type, as in README.md's triple-play example. */
  predicate TypeAggregate(q: Policy) {
    q.rule.Portfolio? && q.rule.field == "product_type"
  }

  lemma {:induction false} UntypedSum(active: seq<Dict>)
    requires forall p: Dict :: p in active ==> "product_type" !in p
    ensures SumBy(active, FieldReader("product_type")) == 0.0
  {
    if active != [] {
      UntypedSum(active[1..]);
    }
  }

  /** Billing never raises on such a rule, and counts lines, of whatever type: all others come to zero. */
  lemma TypesAreCountedAsLines(q: Policy, lines: seq<SubLine>)
    requires TypeAggregate(q)
    ensures PolicyOk(q, Active(Context(lines)))
    ensures Fires(q, Active(Context(lines))) <==>
            Compare(if q.rule.aggregate == Count then |Active(Context(lines))| as real else 0.0, q.rule.op, q.rule.threshold)
  {
    var active := Active(Context(lines));
    forall p: Dict | p in active
      ensures "product_type" !in p
    {
      BillingFields(lines, p);
    }
    UntypedSum(active);
  }

  lemma TypeAggregateWith(q: Policy, active: seq<Dict>, l: SubLine, kind: Json)
    requires TypeAggregate(q) && l.listPrice.Some? && l.term.Some?
    ensures ReadableWith(q, active, Proposed(l, kind)) <==>
            NumberIn(kind).Some? && forall p: Dict :: p in active && "product_type" in p ==> NumberIn(p["product_type"]).Some?
  {
    assert Get(Proposed(l, kind), "product_type", Num(0.0)) == kind;
    assert FieldOk(Proposed(l, kind), "product_type") <==> NumberIn(kind).Some?;
    forall p: Dict | p in active
      ensures FieldOk(p, "product_type") <==> ("product_type" in p ==> NumberIn(p["product_type"]).Some?)
    {
    }
  }

  /** The engine raises on it exactly when a cached type, or that of the proposed product, spells no number; billing
      does not. */
  lemma TypeAggregateRaisesExactly(q: Policy, rec: Dict, e: Event, cid: string, lines: seq<SubLine>, l: SubLine, kind: Json)
    requires Caches(rec, e, cid, lines) && Addition(lines, l) && TypeAggregate(q)
    ensures PolicyOk(q, Active(Context(lines + [l])))
    ensures PolicyOk(q, Active(SubsOf(rec) + [Proposed(l, kind)])) <==>
            NumberIn(kind).Some? && forall p: Dict :: p in Active(SubsOf(rec)) && "product_type" in p ==> NumberIn(p["product_type"]).Some?
  {
    BothInputs(rec, e, cid, lines, l, kind);
    TypesAreCountedAsLines(q, lines + [l]);
    ReadableExactly(q, Active(SubsOf(rec)), Proposed(l, kind));
    TypeAggregateWith(q, Active(SubsOf(rec)), l, kind);
  }
}
