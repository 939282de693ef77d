/**
 * The commercial rules engine: policies are evaluated one by one against the active
 * lines and record themselves in a per-SKU accumulator; prices follow from it.
 */
module Rules {
  import opened Json
  import opened Money
  import opened Numerals
  import opened Seqs

  datatype Operator = Gt | Gte | Lt | Lte | Eq

  datatype Aggregate = Sum | Avg | Count

  /** A requirement of a combination; reading an absent value raises. */
  datatype Requirement = Requirement(field: string, op: Operator, value: Option<Json>)

  datatype Rule =
    | PerProduct(field: string, op: Operator, threshold: real)
    | Portfolio(aggregate: Aggregate, field: string, op: Operator, threshold: real)
    | SkuCombination(requirements: seq<Requirement>, toAll: bool)

  datatype Policy = Policy(id: string, pct: real, reason: string, rule: Rule)

  datatype ProductResult = ProductResult(
    sku: Json, listPrice: real, applied: seq<string>, totalPct: real, discounted: real)

  datatype Summary = Summary(
    loaded: seq<string>, applied: seq<string>, products: seq<ProductResult>,
    totalList: real, totalDiscounted: real, totalSaving: real)

  // ---------------------------------------------------------------- operators

  predicate Compare(a: real, op: Operator, b: real) {
    match op
    case Gt => a > b
    case Gte => a >= b
    case Lt => a < b
    case Lte => a <= b
    case Eq => a == b
  }

  predicate TextLess(a: string, b: string) {
    b != [] && (a == [] || a[0] < b[0] || (a[0] == b[0] && TextLess(a[1..], b[1..])))
  }

  predicate CompareText(a: string, op: Operator, b: string) {
    match op
    case Gt => TextLess(b, a)
    case Gte => !TextLess(a, b)
    case Lt => TextLess(a, b)
    case Lte => !TextLess(b, a)
    case Eq => a == b
  }

  /** Equality is total; ordering raises unless both sides are numbers or both are text. */
  function ApplyOperator(a: Json, op: Operator, b: Json): Outcome<bool> {
    if op == Eq then Ok(a == b)
    else if a.Num? && b.Num? then Ok(Compare(a.n, op, b.n))
    else if a.Str? && b.Str? then Ok(CompareText(a.s, op, b.s))
    else Raised
  }

  // ---------------------------------------------------------------- lines

  predicate IsActive(p: Dict) {
    Get(p, "status", Null) == Str("active")
  }

  function Active(lines: seq<Dict>): seq<Dict> {
    if lines == [] then []
    else (if IsActive(lines[0]) then [lines[0]] else []) + Active(lines[1..])
  }

  function Key(p: Dict): Json {
    Get(p, "product_id", Str(""))
  }

  function Keys(active: seq<Dict>): set<Json> {
    set p | p in active && "product_id" in p :: p["product_id"]
  }

  /** `float(j)`, `None` where it raises: a number, or text that spells one. */
  function NumberIn(j: Json): Option<real> {
    match j
    case Num(n) => Some(n)
    case Str(s) => Numeral(s)
    case _ => None
  }

  /** `float(p.get(field, 0))` does not raise. */
  predicate FieldOk(p: Dict, field: string) {
    NumberIn(Get(p, field, Num(0.0))).Some?
  }

  function Field(p: Dict, field: string): real {
    var number := NumberIn(Get(p, field, Num(0.0)));
    if number.Some? then number.value else 0.0
  }

  function PriceJson(p: Dict): Json {
    Get(p, "list_price_gbp", Get(p, "monthly_charge_gbp", Num(0.0)))
  }

  function Price(p: Dict): real {
    if PriceJson(p).Num? then PriceJson(p).n else 0.0
  }

  // ---------------------------------------------------------------- what a policy does

  function FieldReader(field: string): Dict -> real {
    p => Field(p, field)
  }

  function PricePlain(): Dict -> real {
    p => Price(p)
  }

  function AggregateOf(aggregate: Aggregate, field: string, active: seq<Dict>): real {
    match aggregate
    case Sum => SumBy(active, FieldReader(field))
    case Avg => if active == [] then 0.0 else SumBy(active, FieldReader(field)) / |active| as real
    case Count => |active| as real
  }

  function Judge(p: Dict, r: Requirement): Outcome<bool> {
    if r.value.None? then Raised else ApplyOperator(Get(p, r.field, Null), r.op, r.value.value)
  }

  predicate Satisfies(p: Dict, r: Requirement) {
    Judge(p, r) == Ok(true)
  }

  predicate Comparable(p: Dict, r: Requirement) {
    Judge(p, r).Ok?
  }

  predicate Met(r: Requirement, active: seq<Dict>) {
    exists p :: p in active && Satisfies(p, r)
  }

  /** The requirements are tried in order, and the first one not met ends the evaluation. */
  predicate CombinationOk(requirements: seq<Requirement>, active: seq<Dict>) {
    requirements != [] ==>
      && (forall p :: p in active ==> Comparable(p, requirements[0]))
      && (Met(requirements[0], active) ==> CombinationOk(requirements[1..], active))
  }

  /** Whether evaluating the policy returns, rather than raising. */
  predicate PolicyOk(policy: Policy, active: seq<Dict>) {
    match policy.rule
    case PerProduct(field, _, _) => forall p :: p in active ==> FieldOk(p, field)
    case Portfolio(_, field, _, _) => forall p :: p in active ==> FieldOk(p, field)
    case SkuCombination(requirements, _) => CombinationOk(requirements, active)
  }

  predicate CombinationComplete(requirements: seq<Requirement>, active: seq<Dict>) {
    forall r :: r in requirements ==> Met(r, active)
  }

  predicate SatisfiesSome(p: Dict, requirements: seq<Requirement>) {
    exists r :: r in requirements && Satisfies(p, r)
  }

  /** The declarative meaning of a rule for one active line. */
  predicate AppliesTo(policy: Policy, active: seq<Dict>, p: Dict) {
    match policy.rule
    case PerProduct(field, op, threshold) =>
      Compare(Field(p, field), op, threshold)
    case Portfolio(aggregate, field, op, threshold) =>
      Compare(AggregateOf(aggregate, field, active), op, threshold)
    case SkuCombination(requirements, toAll) =>
      CombinationComplete(requirements, active) && (toAll || SatisfiesSome(p, requirements))
  }

  predicate Matched(active: seq<Dict>, keys: set<Json>, field: string, op: Operator, threshold: real) {
    exists p :: p in active && Key(p) in keys && Compare(Field(p, field), op, threshold)
  }

  /** Whether the policy counts as fired for the customer. */
  predicate Fires(policy: Policy, active: seq<Dict>) {
    match policy.rule
    case PerProduct(field, op, threshold) =>
      Matched(active, Keys(active), field, op, threshold)
    case Portfolio(aggregate, field, op, threshold) =>
      Compare(AggregateOf(aggregate, field, active), op, threshold)
    case SkuCombination(requirements, _) =>
      CombinationComplete(requirements, active)
  }

  function MatchesKey(key: Json, field: string, op: Operator, threshold: real): Dict -> bool {
    p => Key(p) == key && Compare(Field(p, field), op, threshold)
  }

  /** How often the policy records itself under `key`: once per matching line for a
      per-product rule, at most once for the others. */
  function Hits(policy: Policy, active: seq<Dict>, key: Json): nat {
    match policy.rule
    case PerProduct(field, op, threshold) =>
      CountBy(active, MatchesKey(key, field, op, threshold))
    case Portfolio(aggregate, field, op, threshold) =>
      if Compare(AggregateOf(aggregate, field, active), op, threshold) then 1 else 0
    case SkuCombination(requirements, toAll) =>
      if CombinationComplete(requirements, active) &&
         (toAll || exists p :: p in active && Key(p) == key && SatisfiesSome(p, requirements))
      then 1 else 0
  }

  /** The accumulator entry of `key` after all the policies. */
  function Recorded(policies: seq<Policy>, active: seq<Dict>, key: Json): seq<string> {
    if policies == [] then []
    else
      var last := policies[|policies| - 1];
      Recorded(policies[..|policies| - 1], active, key) + Repeat(last.id, Hits(last, active, key))
  }

  function FiredIds(policies: seq<Policy>, active: seq<Dict>): seq<string> {
    if policies == [] then []
    else
      var last := policies[|policies| - 1];
      FiredIds(policies[..|policies| - 1], active) + (if Fires(last, active) then [last.id] else [])
  }

  // ---------------------------------------------------------------- the summary

  /** `policy_lookup`: a later policy with the same id replaces an earlier one. */
  function Lookup(policies: seq<Policy>, id: string): Option<Policy> {
    if policies == [] then None
    else if policies[|policies| - 1].id == id then Some(policies[|policies| - 1])
    else Lookup(policies[..|policies| - 1], id)
  }

  function PctOf(policies: seq<Policy>, id: string): real {
    match Lookup(policies, id)
    case None => 0.0
    case Some(policy) => policy.pct
  }

  function PctReader(policies: seq<Policy>): string -> real {
    id => PctOf(policies, id)
  }

  function TotalPct(policies: seq<Policy>, ids: seq<string>): real {
    SumBy(ids, PctReader(policies))
  }

  function ExactPrice(listPrice: real, pct: real): real {
    listPrice * (1.0 - pct / 100.0)
  }

  function DiscountedPrice(listPrice: real, pct: real): real {
    Round2(ExactPrice(listPrice, pct))
  }

  function Row(policies: seq<Policy>, p: Dict, applied: seq<string>): ProductResult {
    var pct := TotalPct(policies, applied);
    ProductResult(Key(p), Price(p), applied, pct, DiscountedPrice(Price(p), pct))
  }

  function ResultFor(policies: seq<Policy>, active: seq<Dict>, p: Dict): ProductResult {
    Row(policies, p, if Key(p) in Keys(active) then Recorded(policies, active, Key(p)) else [])
  }

  function Results(policies: seq<Policy>, active: seq<Dict>): seq<ProductResult> {
    seq(|active|, i requires 0 <= i < |active| => ResultFor(policies, active, active[i]))
  }

  function DiscountedReader(): ProductResult -> real {
    (r: ProductResult) => r.discounted
  }

  function Ids(policies: seq<Policy>): seq<string> {
    seq(|policies|, i requires 0 <= i < |policies| => policies[i].id)
  }

  /** Whether evaluation returns: prices are numbers, SKUs can be dictionary keys and no policy raises. */
  predicate Evaluable(policies: seq<Policy>, active: seq<Dict>) {
    && (forall p :: p in active ==> PriceJson(p).Num? && ("product_id" in p ==> Hashable(p["product_id"])))
    && (forall q :: q in policies ==> PolicyOk(q, active))
  }

  function SummaryOf(loaded: seq<string>, fired: seq<string>, results: seq<ProductResult>, listSum: real): Summary {
    var totalList := Round2(listSum);
    var totalDiscounted := Round2(SumBy(results, DiscountedReader()));
    Summary(loaded, fired, results, totalList, totalDiscounted, Round2(totalList - totalDiscounted))
  }

  function Summarise(policies: seq<Policy>, active: seq<Dict>): Summary {
    SummaryOf(Ids(policies), FiredIds(policies, active), Results(policies, active), SumBy(active, PricePlain()))
  }

  function Evaluate(policies: seq<Policy>, lines: seq<Dict>): Outcome<Summary> {
    var active := Active(lines);
    if Evaluable(policies, active) then Ok(Summarise(policies, active)) else Raised
  }

  // ---------------------------------------------------------------- the engine

  /** `product_policy_map`, shared by `evaluate_discounts` and `_evaluate_policy` and updated in place. */
  class PolicyMap {
    var entries: map<Json, seq<string>>

    constructor (keys: set<Json>)
      ensures entries == map k | k in keys :: []
    {
      entries := map k | k in keys :: [];
    }

    method Append(key: Json, id: string)
      requires key in entries
      modifies this
      ensures entries == old(entries)[key := old(entries)[key] + [id]]
    {
      entries := entries[key := entries[key] + [id]];
    }
  }

  /** `before` with `id` appended to each entry as often as the policy hits it. */
  ghost predicate AppendedHits(before: map<Json, seq<string>>, after: map<Json, seq<string>>,
                               policy: Policy, active: seq<Dict>)
  {
    && after.Keys == before.Keys
    && forall k :: k in before ==> after[k] == before[k] + Repeat(policy.id, Hits(policy, active, k))
  }

  /** The entries after the lines `active` of a per-product rule. */
  ghost predicate PerProductHits(before: map<Json, seq<string>>, after: map<Json, seq<string>>, id: string,
                                 active: seq<Dict>, field: string, op: Operator, threshold: real)
  {
    && after.Keys == before.Keys
    && forall k :: k in before ==>
         after[k] == before[k] + Repeat(id, CountBy(active, MatchesKey(k, field, op, threshold)))
  }

  lemma PerProductStep(before: map<Json, seq<string>>, now: map<Json, seq<string>>, id: string,
                       active: seq<Dict>, i: nat, field: string, op: Operator, threshold: real)
    requires i < |active|
    requires PerProductHits(before, now, id, active[..i], field, op, threshold)
    ensures var sku := Key(active[i]);
            var after := if Compare(Field(active[i], field), op, threshold) && sku in now
                         then now[sku := now[sku] + [id]] else now;
            PerProductHits(before, after, id, active[..i + 1], field, op, threshold)
  {
    var sku, hit := Key(active[i]), Compare(Field(active[i], field), op, threshold);
    var after := if hit && sku in now then now[sku := now[sku] + [id]] else now;
    forall k | k in before
      ensures after[k] == before[k] + Repeat(id, CountBy(active[..i + 1], MatchesKey(k, field, op, threshold)))
    {
      PerProductCount(id, active, i, k, field, op, threshold);
      assert after[k] == now[k] + if sku == k && hit then [id] else [];
      assert now[k] == before[k] + Repeat(id, CountBy(active[..i], MatchesKey(k, field, op, threshold)));
    }
  }

  lemma PerProductCount(id: string, active: seq<Dict>, i: nat, key: Json, field: string, op: Operator, threshold: real)
    requires i < |active|
    ensures var f := MatchesKey(key, field, op, threshold);
            Repeat(id, CountBy(active[..i + 1], f)) ==
            Repeat(id, CountBy(active[..i], f)) + if f(active[i]) then [id] else []
  {
    CountBySnoc(active, i, MatchesKey(key, field, op, threshold));
  }

  lemma MatchedStep(active: seq<Dict>, i: nat, keys: set<Json>, field: string, op: Operator, threshold: real)
    requires i < |active|
    ensures Matched(active[..i + 1], keys, field, op, threshold) <==>
            Matched(active[..i], keys, field, op, threshold)
            || (Key(active[i]) in keys && Compare(Field(active[i], field), op, threshold))
  {
  }

  /** One line of a per-product rule. */
  method RecordIfMatching(id: string, p: Dict, field: string, op: Operator, threshold: real, acc: PolicyMap)
    returns (hit: bool)
    modifies acc
    ensures hit == (Compare(Field(p, field), op, threshold) && Key(p) in old(acc.entries))
    ensures acc.entries == if hit then old(acc.entries)[Key(p) := old(acc.entries)[Key(p)] + [id]] else old(acc.entries)
  {
    hit := false;
    if Compare(Field(p, field), op, threshold) {
      var sku := Key(p);
      if sku in acc.entries {
        acc.Append(sku, id);
        hit := true;
      }
    }
  }

  /** What the loop of a per-product rule has done after the lines `active`. */
  ghost predicate PerProductDone(before: map<Json, seq<string>>, now: map<Json, seq<string>>, matched: bool,
                                 policy: Policy, keys: set<Json>, active: seq<Dict>)
    requires policy.rule.PerProduct?
  {
    var PerProduct(field, op, threshold) := policy.rule;
    && (forall p :: p in active ==> FieldOk(p, field))
    && PerProductHits(before, now, policy.id, active, field, op, threshold)
    && matched == Matched(active, keys, field, op, threshold)
  }

  lemma PerProductStart(before: map<Json, seq<string>>, policy: Policy, keys: set<Json>, active: seq<Dict>)
    requires policy.rule.PerProduct?
    ensures PerProductDone(before, before, false, policy, keys, active[..0])
  {
  }

  lemma PerProductNext(before: map<Json, seq<string>>, now: map<Json, seq<string>>, matched: bool, policy: Policy,
                       keys: set<Json>, active: seq<Dict>, i: nat, after: map<Json, seq<string>>, hit: bool)
    requires policy.rule.PerProduct? && i < |active| && now.Keys == keys && FieldOk(active[i], policy.rule.field)
    requires PerProductDone(before, now, matched, policy, keys, active[..i])
    requires hit == (Compare(Field(active[i], policy.rule.field), policy.rule.op, policy.rule.threshold) && Key(active[i]) in now)
    requires after == if hit then now[Key(active[i]) := now[Key(active[i])] + [policy.id]] else now
    ensures PerProductDone(before, after, matched || hit, policy, keys, active[..i + 1])
  {
    var PerProduct(field, op, threshold) := policy.rule;
    PerProductStep(before, now, policy.id, active, i, field, op, threshold);
    MatchedStep(active, i, keys, field, op, threshold);
    assert active[..i + 1] == active[..i] + [active[i]];
  }

  lemma PerProductEnd(before: map<Json, seq<string>>, now: map<Json, seq<string>>, matched: bool, policy: Policy, active: seq<Dict>)
    requires policy.rule.PerProduct? && PerProductDone(before, now, matched, policy, Keys(active), active[..|active|])
    ensures PolicyOk(policy, active) && matched == Fires(policy, active) && AppendedHits(before, now, policy, active)
  {
    assert active[..|active|] == active;
  }

  method EvaluatePerProduct(policy: Policy, active: seq<Dict>, acc: PolicyMap) returns (fired: Outcome<bool>)
    requires policy.rule.PerProduct?
    requires acc.entries.Keys == Keys(active)
    modifies acc
    ensures fired == if PolicyOk(policy, active) then Ok(Fires(policy, active)) else Raised
    ensures fired.Ok? ==> AppendedHits(old(acc.entries), acc.entries, policy, active)
  {
    ghost var before := acc.entries;
    var matched := false;
    PerProductStart(before, policy, Keys(active), active);
    for i := 0 to |active|
      invariant acc.entries.Keys == before.Keys
      invariant PerProductDone(before, acc.entries, matched, policy, Keys(active), active[..i])
    {
      var p := active[i];
      if !FieldOk(p, policy.rule.field) {
        return Raised;
      }
      ghost var now := acc.entries;
      var hit := RecordIfMatching(policy.id, p, policy.rule.field, policy.rule.op, policy.rule.threshold, acc);
      PerProductNext(before, now, matched, policy, Keys(active), active, i, acc.entries, hit);
      matched := matched || hit;
    }
    PerProductEnd(before, acc.entries, matched, policy, active);
    return Ok(matched);
  }

  lemma CountBySnoc<T>(xs: seq<T>, i: nat, f: T -> bool)
    requires i < |xs|
    ensures CountBy(xs[..i + 1], f) == CountBy(xs[..i], f) + if f(xs[i]) then 1 else 0
  {
    CountByConcat(xs[..i], [xs[i]], f);
    assert xs[..i + 1] == xs[..i] + [xs[i]];
  }

  method AppendToAll(keys: set<Json>, id: string, acc: PolicyMap)
    requires keys <= acc.entries.Keys
    modifies acc
    ensures acc.entries.Keys == old(acc.entries).Keys
    ensures forall k :: k in old(acc.entries) ==>
              acc.entries[k] == old(acc.entries)[k] + if k in keys then [id] else []
  {
    ghost var before := acc.entries;
    var todo := keys;
    while todo != {}
      invariant todo <= keys
      invariant acc.entries.Keys == before.Keys
      invariant forall k :: k in before ==> acc.entries[k] == before[k] + if k in keys - todo then [id] else []
    {
      var k :| k in todo;
      acc.Append(k, id);
      todo := todo - {k};
    }
  }

  method EvaluatePortfolio(policy: Policy, active: seq<Dict>, acc: PolicyMap) returns (fired: Outcome<bool>)
    requires policy.rule.Portfolio?
    requires acc.entries.Keys == Keys(active)
    modifies acc
    ensures fired == if PolicyOk(policy, active) then Ok(Fires(policy, active)) else Raised
    ensures fired.Ok? ==> AppendedHits(old(acc.entries), acc.entries, policy, active)
  {
    var Portfolio(aggregate, field, op, threshold) := policy.rule;
    if exists p :: p in active && !FieldOk(p, field) {
      return Raised;
    }
    if !Compare(AggregateOf(aggregate, field, active), op, threshold) {
      return Ok(false);
    }
    AppendToAll(acc.entries.Keys, policy.id, acc);
    return Ok(true);
  }

  /** `matched_skus` after the given requirements. */
  function MatchedKeys(active: seq<Dict>, keys: set<Json>, requirements: seq<Requirement>): set<Json> {
    set p | p in active && Key(p) in keys && SatisfiesSome(p, requirements) :: Key(p)
  }

  function SatisfyingKeys(active: seq<Dict>, keys: set<Json>, r: Requirement): set<Json> {
    set p | p in active && Key(p) in keys && Satisfies(p, r) :: Key(p)
  }

  lemma MatchedKeysStep(active: seq<Dict>, keys: set<Json>, requirements: seq<Requirement>, i: nat)
    requires i < |requirements|
    ensures MatchedKeys(active, keys, requirements[..i + 1]) ==
            MatchedKeys(active, keys, requirements[..i]) + SatisfyingKeys(active, keys, requirements[i])
  {
  }

  /** The inner loop of a combination rule: the keys of the lines that satisfy one requirement. */
  method CollectSatisfying(active: seq<Dict>, r: Requirement, keys: set<Json>) returns (found: set<Json>)
    ensures found == SatisfyingKeys(active, keys, r)
  {
    found := {};
    for j := 0 to |active|
      invariant found == SatisfyingKeys(active[..j], keys, r)
    {
      assert active[..j + 1] == active[..j] + [active[j]];
      var sku := Key(active[j]);
      if Satisfies(active[j], r) && sku in keys {
        found := found + {sku};
      }
    }
    assert active[..|active|] == active;
  }

  lemma CombinationStep(requirements: seq<Requirement>, active: seq<Dict>, i: nat)
    requires i < |requirements|
    ensures CombinationOk(requirements[i..], active) <==>
            && (forall p :: p in active ==> Comparable(p, requirements[i]))
            && (Met(requirements[i], active) ==> CombinationOk(requirements[i + 1..], active))
    ensures CombinationComplete(requirements[..i + 1], active) <==>
            CombinationComplete(requirements[..i], active) && Met(requirements[i], active)
  {
  }

  /** What the loop of a combination rule knows after `i` requirements, all of them met. */
  predicate CombinationSoFar(requirements: seq<Requirement>, active: seq<Dict>, i: nat, matched: set<Json>) {
    && i <= |requirements|
    && CombinationComplete(requirements[..i], active)
    && (CombinationOk(requirements, active) <==> CombinationOk(requirements[i..], active))
    && matched == MatchedKeys(active, Keys(active), requirements[..i])
  }

  lemma CombinationStart(requirements: seq<Requirement>, active: seq<Dict>)
    ensures CombinationSoFar(requirements, active, 0, {})
  {
    assert requirements[0..] == requirements;
  }

  lemma CombinationNext(requirements: seq<Requirement>, active: seq<Dict>, i: nat, matched: set<Json>)
    requires i < |requirements| && CombinationSoFar(requirements, active, i, matched)
    ensures CombinationOk(requirements, active) ==> forall p :: p in active ==> Comparable(p, requirements[i])
    ensures !Met(requirements[i], active) ==> !CombinationComplete(requirements, active)
    ensures (forall p :: p in active ==> Comparable(p, requirements[i])) && !Met(requirements[i], active) ==>
              CombinationOk(requirements, active)
    ensures (forall p :: p in active ==> Comparable(p, requirements[i])) && Met(requirements[i], active) ==>
              CombinationSoFar(requirements, active, i + 1, matched + SatisfyingKeys(active, Keys(active), requirements[i]))
  {
    CombinationStep(requirements, active, i);
    MatchedKeysStep(active, Keys(active), requirements, i);
    assert requirements[i] in requirements;
  }

  lemma CombinationEnd(requirements: seq<Requirement>, active: seq<Dict>, matched: set<Json>)
    requires CombinationSoFar(requirements, active, |requirements|, matched)
    ensures CombinationOk(requirements, active) && CombinationComplete(requirements, active)
    ensures matched == MatchedKeys(active, Keys(active), requirements)
  {
    assert requirements[..|requirements|] == requirements;
  }

  lemma CombinationHits(before: map<Json, seq<string>>, after: map<Json, seq<string>>, policy: Policy, active: seq<Dict>,
                        targets: set<Json>)
    requires policy.rule.SkuCombination? && CombinationComplete(policy.rule.requirements, active)
    requires before.Keys == after.Keys == Keys(active)
    requires targets == if policy.rule.toAll then Keys(active) else MatchedKeys(active, Keys(active), policy.rule.requirements)
    requires forall k :: k in before ==> after[k] == before[k] + if k in targets then [policy.id] else []
    ensures AppendedHits(before, after, policy, active)
  {
    forall k | k in before
      ensures after[k] == before[k] + Repeat(policy.id, Hits(policy, active, k))
    {
      assert Hits(policy, active, k) == if k in targets then 1 else 0;
      assert Repeat(policy.id, 1) == [] + [policy.id];
    }
  }

  method EvaluateCombination(policy: Policy, active: seq<Dict>, acc: PolicyMap) returns (fired: Outcome<bool>)
    requires policy.rule.SkuCombination?
    requires acc.entries.Keys == Keys(active)
    modifies acc
    ensures fired == if PolicyOk(policy, active) then Ok(Fires(policy, active)) else Raised
    ensures fired.Ok? ==> AppendedHits(old(acc.entries), acc.entries, policy, active)
  {
    var requirements := policy.rule.requirements;
    var matched: set<Json> := {};
    CombinationStart(requirements, active);
    for i := 0 to |requirements|
      invariant acc.entries == old(acc.entries)
      invariant CombinationSoFar(requirements, active, i, matched)
    {
      var r := requirements[i];
      CombinationNext(requirements, active, i, matched);
      if exists p :: p in active && !Comparable(p, r) {
        return Raised;
      }
      if !Met(r, active) {
        return Ok(false);
      }
      var found := CollectSatisfying(active, r, acc.entries.Keys);
      matched := matched + found;
    }
    CombinationEnd(requirements, active, matched);
    var targets := if policy.rule.toAll then acc.entries.Keys else matched;
    AppendToAll(targets, policy.id, acc);
    CombinationHits(old(acc.entries), acc.entries, policy, active, targets);
    return Ok(true);
  }

  method EvaluatePolicy(policy: Policy, active: seq<Dict>, acc: PolicyMap) returns (fired: Outcome<bool>)
    requires acc.entries.Keys == Keys(active)
    modifies acc
    ensures fired == if PolicyOk(policy, active) then Ok(Fires(policy, active)) else Raised
    ensures fired.Ok? ==> AppendedHits(old(acc.entries), acc.entries, policy, active)
  {
    match policy.rule
    case PerProduct(_, _, _) => fired := EvaluatePerProduct(policy, active, acc);
    case Portfolio(_, _, _, _) => fired := EvaluatePortfolio(policy, active, acc);
    case SkuCombination(_, _) => fired := EvaluateCombination(policy, active, acc);
  }

  /** The whole accumulator after `policies`. */
  function RecordedMap(policies: seq<Policy>, active: seq<Dict>): map<Json, seq<string>> {
    map k | k in Keys(active) :: Recorded(policies, active, k)
  }

  lemma RecordedMapStep(policies: seq<Policy>, active: seq<Dict>, i: nat, after: map<Json, seq<string>>)
    requires i < |policies|
    requires AppendedHits(RecordedMap(policies[..i], active), after, policies[i], active)
    ensures after == RecordedMap(policies[..i + 1], active)
  {
    assert policies[..i + 1][..i] == policies[..i];
    forall k | k in Keys(active)
      ensures after[k] == Recorded(policies[..i + 1], active, k)
    {
      assert after[k] == RecordedMap(policies[..i], active)[k] + Repeat(policies[i].id, Hits(policies[i], active, k));
    }
  }

  lemma FiredIdsStep(policies: seq<Policy>, active: seq<Dict>, i: nat)
    requires i < |policies|
    ensures FiredIds(policies[..i + 1], active) ==
            FiredIds(policies[..i], active) + if Fires(policies[i], active) then [policies[i].id] else []
  {
    assert policies[..i + 1][..i] == policies[..i];
  }

  /** The policy loop of `evaluate_discounts`. */
  method ApplyPolicies(policies: seq<Policy>, active: seq<Dict>, acc: PolicyMap) returns (applied: Outcome<seq<string>>)
    requires acc.entries == map k | k in Keys(active) :: []
    modifies acc
    ensures applied.Ok? <==> forall q :: q in policies ==> PolicyOk(q, active)
    ensures applied.Ok? ==> applied.value == FiredIds(policies, active)
    ensures applied.Ok? ==> acc.entries == RecordedMap(policies, active)
  {
    var ids: seq<string> := [];
    for i := 0 to |policies|
      invariant forall q :: q in policies[..i] ==> PolicyOk(q, active)
      invariant ids == FiredIds(policies[..i], active)
      invariant acc.entries == RecordedMap(policies[..i], active)
    {
      assert policies[..i + 1] == policies[..i] + [policies[i]];
      var fired := EvaluatePolicy(policies[i], active, acc);
      if fired == Raised {
        return Raised;
      }
      RecordedMapStep(policies, active, i, acc.entries);
      FiredIdsStep(policies, active, i);
      if fired.value {
        ids := ids + [policies[i].id];
      }
    }
    assert policies[..|policies|] == policies;
    return Ok(ids);
  }

  /** The result loop of `evaluate_discounts`. */
  method BuildResults(policies: seq<Policy>, active: seq<Dict>, acc: PolicyMap) returns (results: seq<ProductResult>)
    requires acc.entries == RecordedMap(policies, active)
    ensures results == Results(policies, active)
  {
    results := [];
    for i := 0 to |active|
      invariant |results| == i
      invariant forall j :: 0 <= j < i ==> results[j] == ResultFor(policies, active, active[j])
    {
      var sku := Key(active[i]);
      var ids := if sku in acc.entries then acc.entries[sku] else [];
      results := results + [Row(policies, active[i], ids)];
    }
  }

  method EvaluateDiscounts(policies: seq<Policy>, lines: seq<Dict>) returns (r: Outcome<Summary>)
    ensures r == Evaluate(policies, lines)
  {
    var active := Active(lines);
    if exists p :: p in active && !PriceJson(p).Num? {
      return Raised;
    }
    var totalList := SumBy(active, PricePlain());
    if exists p :: p in active && "product_id" in p && !Hashable(p["product_id"]) {
      return Raised;
    }
    var acc := new PolicyMap(Keys(active));
    var applied := ApplyPolicies(policies, active, acc);
    if applied == Raised {
      return Raised;
    }
    var results := BuildResults(policies, active, acc);
    return Ok(SummaryOf(Ids(policies), applied.value, results, totalList));
  }
}
