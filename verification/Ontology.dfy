/** The ontology: how raw events become canonical domain partials, how partials merge, what the cache accepts. */
module Ontology {
  import opened Json
  import opened Numerals
  import opened Seqs

  /** The required domains; each event type of the assembly specification feeds one. */
  datatype Domain = Customer | Billing

  datatype Mapping = Mapping(sor: string, canonical: string, decode: bool)

  const CUSTOMER_MAPPINGS: seq<Mapping> := [
    Mapping("cust_ref", "customer_id", false),
    Mapping("first_nm", "first_name", false),
    Mapping("last_nm", "last_name", false),
    Mapping("email", "email", false),
    Mapping("phone", "phone", false)]

  const LINE_MAPPINGS: seq<Mapping> := [
    Mapping("sku", "product_id", false),
    Mapping("stat", "status", true),
    Mapping("eff_from", "effective_date", false),
    Mapping("list_price_gbp", "list_price_gbp", false),
    Mapping("monthly_charge", "monthly_charge_gbp", false),
    Mapping("total_discount_pct", "total_discount_pct", false),
    Mapping("applied_discounts", "applied_discounts", false),
    Mapping("discount_code", "discount_code", false),
    Mapping("contract_term_months", "contract_term_months", false),
    Mapping("reason_code", "reason_code", false),
    Mapping("reason_detail", "reason_detail", false)]

  function DomainName(d: Domain): string {
    if d == Customer then "customer" else "billing"
  }

  function GroupName(d: Domain): string {
    if d == Customer then "profile" else "commercial_state"
  }

  function SourceSystem(d: Domain): string {
    if d == Customer then "crm-sor" else "billing-sor"
  }

  function Other(d: Domain): Domain {
    if d == Customer then Billing else Customer
  }

  // ---------------------------------------------------------------- assembling one domain

  /** `decode_status` */
  function DecodeStatus(j: Json): Json {
    if j == Str("A") then Str("active")
    else if j == Str("S") then Str("suspended")
    else if j == Str("C") then Str("cancelled")
    else j
  }

  function Mapped(m: Mapping, raw: Dict): Json
    requires m.sor in raw
  {
    if m.decode then DecodeStatus(raw[m.sor]) else raw[m.sor]
  }

  function ApplyMappings(ms: seq<Mapping>, raw: Dict): Dict {
    if ms == [] then map[]
    else
      var last := ms[|ms| - 1];
      var rest := ApplyMappings(ms[..|ms| - 1], raw);
      if last.sor in raw then rest[last.canonical := Mapped(last, raw)] else rest
  }

  function CountApplied(ms: seq<Mapping>, raw: Dict): nat {
    CountBy(ms, (m: Mapping) => m.sor in raw)
  }

  /** How a name shows in the full name: an absent one as nothing, a null as its word. */
  function TextOf(d: Dict, k: string): string {
    match Get(d, k, Str(""))
    case Str(s) => s
    case Null => "None"
    case _ => ""
  }

  function FullName(fields: Dict): string {
    Strip(TextOf(fields, "first_name") + " " + TextOf(fields, "last_name"))
  }

  function RawLines(raw: Dict): seq<Json> {
    if "sub_lines" in raw && raw["sub_lines"].Arr? then raw["sub_lines"].items else []
  }

  function MappedLine(line: Json): Json {
    Obj(ApplyMappings(LINE_MAPPINGS, if line.Obj? then line.fields else map[]))
  }

  function MappedLines(raw: Dict): seq<Json> {
    seq(|RawLines(raw)|, i requires 0 <= i < |RawLines(raw)| => MappedLine(RawLines(raw)[i]))
  }

  /** The raw record has the shape its system of record gives it: a textual reference and names that are text
      or null, and lines that are records with a SKU that is text or null and a scalar status. */
  predicate WellTyped(d: Domain, raw: Dict) {
    && ("cust_ref" in raw ==> raw["cust_ref"].Str? || raw["cust_ref"].Null?)
    && (d == Customer ==>
          && ("first_nm" in raw ==> raw["first_nm"].Str? || raw["first_nm"].Null?)
          && ("last_nm" in raw ==> raw["last_nm"].Str? || raw["last_nm"].Null?))
    && (d == Billing && "sub_lines" in raw ==>
          raw["sub_lines"].Arr? && forall i :: 0 <= i < |raw["sub_lines"].items| ==> WellTypedLine(raw["sub_lines"].items[i]))
  }

  predicate WellTypedLine(line: Json) {
    && line.Obj?
    && ("sku" in line.fields ==> line.fields["sku"].Str? || line.fields["sku"].Null?)
    && ("stat" in line.fields ==> Hashable(line.fields["stat"]))
  }

  function Meta(d: Domain, now: int): Dict {
    map["assembled_at" := Time(now),
        "source_system" := Str(SourceSystem(d)),
        "ttl_seconds" := Num(if d == Customer then 3600.0 else 300.0),
        "consistency_class" := Str(if d == Customer then "eventual" else "strong")]
  }

  function GroupFields(d: Domain, raw: Dict): Dict {
    match d
    case Customer =>
      var fields := ApplyMappings(CUSTOMER_MAPPINGS, raw);
      fields["full_name" := Str(FullName(fields))]
    case Billing => map["subscriptions" := Arr(MappedLines(raw))]
  }

  function Group(d: Domain, raw: Dict, now: int): Dict {
    GroupFields(d, raw)["_meta" := Obj(Meta(d, now))]
  }

  function Provenance(d: Domain, raw: Dict, eventId: string): Json {
    Obj(map["domain" := Str(DomainName(d)),
            "source_system" := Str(SourceSystem(d)),
            "event_id" := Str(eventId),
            "mapping_count" := Num(if d == Customer then (CountApplied(CUSTOMER_MAPPINGS, raw) + 1) as real else 1.0)])
  }

  /** The canonical partial of one event. */
  function Partial(d: Domain, raw: Dict, eventId: string, now: int): Dict {
    (if "cust_ref" in raw then map["customer_id" := raw["cust_ref"]] else map[])
    + map[GroupName(d) := Obj(Group(d, raw, now)),
          "assembled_at" := Time(now),
          "provenance" := Provenance(d, raw, eventId)]
  }

  predicate DistinctNames(ms: seq<Mapping>) {
    forall i, j :: 0 <= i < j < |ms| ==> ms[i].canonical != ms[j].canonical
  }

  /** A mapping gives no field but the declared ones. */
  lemma {:induction false} MappingKeys(ms: seq<Mapping>, raw: Dict)
    ensures ApplyMappings(ms, raw).Keys <= CanonicalNames(ms)
  {
    if ms != [] {
      MappingKeys(ms[..|ms| - 1], raw);
      assert forall m :: m in ms[..|ms| - 1] ==> m in ms;
      assert ms[|ms| - 1] in ms;
    }
  }

  /** With distinct canonical names a mapping is exact: a canonical field is there exactly if its raw field is, and
      carries that field's value, decoded where declared. */
  lemma {:induction false} MappingExact(ms: seq<Mapping>, raw: Dict)
    requires DistinctNames(ms)
    ensures forall i :: 0 <= i < |ms| ==> (ms[i].canonical in ApplyMappings(ms, raw) <==> ms[i].sor in raw)
    ensures forall i :: 0 <= i < |ms| && ms[i].sor in raw ==> ApplyMappings(ms, raw)[ms[i].canonical] == Mapped(ms[i], raw)
  {
    if ms != [] {
      var front, last := ms[..|ms| - 1], ms[|ms| - 1];
      MappingExact(front, raw);
      forall i | 0 <= i < |ms|
        ensures ms[i].canonical in ApplyMappings(ms, raw) <==> ms[i].sor in raw
        ensures ms[i].sor in raw ==> ApplyMappings(ms, raw)[ms[i].canonical] == Mapped(ms[i], raw)
      {
        if i < |front| {
          assert front[i] == ms[i] && ms[i].canonical != last.canonical;
        } else {
          NotMappedBefore(front, raw, last.canonical);
        }
      }
    }
  }

  lemma NotMappedBefore(ms: seq<Mapping>, raw: Dict, name: string)
    requires forall m :: m in ms ==> m.canonical != name
    ensures name !in ApplyMappings(ms, raw)
  {
    MappingKeys(ms, raw);
  }

  lemma MappedField(ms: seq<Mapping>, i: nat, raw: Dict)
    requires DistinctNames(ms) && i < |ms| && ms[i].sor in raw
    ensures ms[i].canonical in ApplyMappings(ms, raw) && ApplyMappings(ms, raw)[ms[i].canonical] == Mapped(ms[i], raw)
  {
    MappingExact(ms, raw);
  }

  /** Both declared mapping lists have distinct canonical names. */
  lemma DeclaredNamesDistinct()
    ensures DistinctNames(CUSTOMER_MAPPINGS) && DistinctNames(LINE_MAPPINGS)
  {
    forall i, j | 0 <= i < j < |CUSTOMER_MAPPINGS|
      ensures CUSTOMER_MAPPINGS[i].canonical != CUSTOMER_MAPPINGS[j].canonical
    {
      var a, b := CUSTOMER_MAPPINGS[i].canonical, CUSTOMER_MAPPINGS[j].canonical;
      assert |a| != |b| || a[0] != b[0];
    }
    forall i, j | 0 <= i < j < |LINE_MAPPINGS|
      ensures LINE_MAPPINGS[i].canonical != LINE_MAPPINGS[j].canonical
    {
      var a, b := LINE_MAPPINGS[i].canonical, LINE_MAPPINGS[j].canonical;
      assert |a| != |b| || a[0] != b[0];
    }
  }

  method MapFields(ms: seq<Mapping>, raw: Dict) returns (fields: Dict, applied: nat)
    ensures fields == ApplyMappings(ms, raw)
    ensures applied == CountApplied(ms, raw)
  {
    fields, applied := map[], 0;
    for i := 0 to |ms|
      invariant fields == ApplyMappings(ms[..i], raw)
      invariant applied == CountApplied(ms[..i], raw)
    {
      assert ms[..i + 1][..i] == ms[..i];
      assert ms[..i + 1] == ms[..i] + [ms[i]];
      CountByConcat(ms[..i], [ms[i]], (m: Mapping) => m.sor in raw);
      if ms[i].sor in raw {
        fields := fields[ms[i].canonical := Mapped(ms[i], raw)];
        applied := applied + 1;
      }
    }
    assert ms[..|ms|] == ms;
  }

  method MapLines(lines: seq<Json>) returns (subscriptions: seq<Json>)
    requires forall i :: 0 <= i < |lines| ==> lines[i].Obj?
    ensures |subscriptions| == |lines|
    ensures forall j :: 0 <= j < |lines| ==> subscriptions[j] == MappedLine(lines[j])
  {
    subscriptions := [];
    for i := 0 to |lines|
      invariant |subscriptions| == i && forall j :: 0 <= j < i ==> subscriptions[j] == MappedLine(lines[j])
    {
      var canonical, _ := MapFields(LINE_MAPPINGS, lines[i].fields);
      subscriptions := subscriptions + [Obj(canonical)];
    }
  }

  /** The domain-specific part of `assemble_domain`: the group's fields and the number of applied mappings. */
  method AssembleFields(d: Domain, raw: Dict) returns (fields: Dict, applied: nat)
    requires WellTyped(d, raw)
    ensures fields == GroupFields(d, raw)
    ensures applied == if d == Customer then CountApplied(CUSTOMER_MAPPINGS, raw) + 1 else 1
  {
    match d
    case Customer =>
      fields, applied := MapFields(CUSTOMER_MAPPINGS, raw);
      fields, applied := fields["full_name" := Str(FullName(fields))], applied + 1;
    case Billing =>
      var subscriptions := MapLines(RawLines(raw));
      assert subscriptions == MappedLines(raw);
      fields, applied := map["subscriptions" := Arr(subscriptions)], 1;
  }

  method AssembleDomain(d: Domain, raw: Dict, eventId: string, now: int) returns (partial: Dict)
    requires WellTyped(d, raw)
    ensures partial == Partial(d, raw, eventId, now)
  {
    var fields, applied := AssembleFields(d, raw);
    fields := fields["_meta" := Obj(Meta(d, now))];
    var provenance := Obj(map["domain" := Str(DomainName(d)),
                              "source_system" := Str(SourceSystem(d)),
                              "event_id" := Str(eventId),
                              "mapping_count" := Num(applied as real)]);
    assert provenance == Provenance(d, raw, eventId);
    partial := if "cust_ref" in raw then map["customer_id" := raw["cust_ref"]] else map[];
    partial := partial + map[GroupName(d) := Obj(fields), "assembled_at" := Time(now), "provenance" := provenance];
  }

  // ---------------------------------------------------------------- merging domains

  /** An insertion-ordered dictionary of domain partials. */
  type Domains = seq<(Domain, Dict)>

  function PutDomain(ds: Domains, d: Domain, partial: Dict): Domains {
    if ds == [] then [(d, partial)]
    else if ds[0].0 == d then [(d, partial)] + ds[1..]
    else [ds[0]] + PutDomain(ds[1..], d, partial)
  }

  predicate HasDomain(ds: Domains, d: Domain) {
    exists i :: 0 <= i < |ds| && ds[i].0 == d
  }

  function ProvenanceOf(partial: Dict): Json {
    Get(partial, "provenance", Obj(map[]))
  }

  function SourceOf(partial: Dict): Json {
    if ProvenanceOf(partial).Obj? then Get(ProvenanceOf(partial).fields, "source_system", Null) else Null
  }

  function MergedFields(ds: Domains): Dict {
    if ds == [] then map[]
    else MergedFields(ds[..|ds| - 1]) + (ds[|ds| - 1].1 - {"provenance", "assembled_at"})
  }

  function MergedSources(ds: Domains): seq<Json> {
    if ds == [] then []
    else
      var rest, source := MergedSources(ds[..|ds| - 1]), SourceOf(ds[|ds| - 1].1);
      if Truthy(source) && source !in rest then rest + [source] else rest
  }

  function MergedProvenance(ds: Domains): Dict {
    if ds == [] then map[]
    else MergedProvenance(ds[..|ds| - 1])[DomainName(ds[|ds| - 1].0) := ProvenanceOf(ds[|ds| - 1].1)]
  }

  /** The latest `assembled_at` of the partials that have one. */
  function LatestTime(ds: Domains): Option<int> {
    if ds == [] then None
    else
      var rest, at := LatestTime(ds[..|ds| - 1]), Get(ds[|ds| - 1].1, "assembled_at", Null);
      if !at.Time? then rest
      else if rest.Some? && rest.value >= at.t then rest
      else Some(at.t)
  }

  function Merged(ds: Domains, now: int): Dict {
    MergedFields(ds)
    ["assembled_at" := Time(if LatestTime(ds).Some? then LatestTime(ds).value else now)]
    ["provenance" := Obj(map["source_systems" := Arr(MergedSources(ds)), "domains" := Obj(MergedProvenance(ds))])]
  }

  method MergeDomains(ds: Domains, now: int) returns (merged: Dict)
    ensures merged == Merged(ds, now)
  {
    merged := map[];
    var provenance: Dict := map[];
    var sources: seq<Json> := [];
    var latest: Option<int> := None;
    for i := 0 to |ds|
      invariant merged == MergedFields(ds[..i])
      invariant provenance == MergedProvenance(ds[..i])
      invariant sources == MergedSources(ds[..i])
      invariant latest == LatestTime(ds[..i])
    {
      assert ds[..i + 1][..i] == ds[..i];
      var (name, partial) := ds[i];
      provenance := provenance[DomainName(name) := ProvenanceOf(partial)];
      var source := SourceOf(partial);
      if Truthy(source) && source !in sources {
        sources := sources + [source];
      }
      merged := merged + (partial - {"provenance", "assembled_at"});
      var at := Get(partial, "assembled_at", Null);
      if at.Time? && !(latest.Some? && latest.value >= at.t) {
        latest := Some(at.t);
      }
    }
    assert ds[..|ds|] == ds;
    merged := merged["assembled_at" := Time(if latest.Some? then latest.value else now)];
    merged := merged["provenance" := Obj(map["source_systems" := Arr(sources), "domains" := Obj(provenance)])];
  }

  // ---------------------------------------------------------------- schema

  const CONTROL_FIELDS: set<string> :=
    {"customer_id", "assembled_at", "assembly_state", "missing_domains", "provenance"}

  const GROUPS: seq<string> := ["profile", "commercial_state"]

  const ASSEMBLY_STATES: set<string> :=
    {"complete", "partial_timed_out", "awaiting_customer", "awaiting_billing"}

  function CanonicalNames(ms: seq<Mapping>): set<string> {
    set m | m in ms :: m.canonical
  }

  /** `_field_group_allowed_keys` */
  function AllowedKeys(group: string): set<string> {
    if group == "profile" then CanonicalNames(CUSTOMER_MAPPINGS) + {"full_name", "_meta"}
    else if group == "commercial_state" then {"subscriptions", "discount_summary", "_meta"}
    else {}
  }

  predicate GroupOk(group: string, value: Json) {
    value.Null? || (value.Obj? && "_meta" in value.fields && value.fields.Keys <= AllowedKeys(group))
  }

  predicate StateOk(state: Json) {
    state.Null? || (state.Str? && state.s in ASSEMBLY_STATES)
  }

  /** What the cache accepts. */
  predicate Accepts(body: Dict) {
    && body.Keys <= CONTROL_FIELDS + SetOf(GROUPS)
    && (forall group :: group in GROUPS && group in body ==> GroupOk(group, body[group]))
    && ("assembly_state" in body ==> StateOk(body["assembly_state"]))
  }

  datatype SchemaViolation =
    | UnknownTop(keys: set<string>)
    | NotADict(group: string)
    | NoMeta(group: string)
    | UnknownInGroup(group: string, keys: set<string>)
    | BadState(state: Json)

  predicate GroupViolation(body: Dict, group: string, v: SchemaViolation) {
    && group in body && !body[group].Null?
    && if !body[group].Obj? then v == NotADict(group)
       else
         || (v == NoMeta(group) && "_meta" !in body[group].fields)
         || (v == UnknownInGroup(group, body[group].fields.Keys - AllowedKeys(group))
             && !(body[group].fields.Keys <= AllowedKeys(group)))
  }

  predicate SchemaViolationOf(body: Dict, v: SchemaViolation) {
    || (v == UnknownTop(body.Keys - (CONTROL_FIELDS + SetOf(GROUPS))) && !(body.Keys <= CONTROL_FIELDS + SetOf(GROUPS)))
    || (exists group :: group in GROUPS && GroupViolation(body, group, v))
    || ("assembly_state" in body && v == BadState(body["assembly_state"]) && !StateOk(body["assembly_state"]))
  }

  lemma GroupOkExact(body: Dict, group: string)
    requires group in body
    ensures GroupOk(group, body[group]) <==> forall v :: !GroupViolation(body, group, v)
  {
    if !GroupOk(group, body[group]) {
      if !body[group].Obj? {
        assert GroupViolation(body, group, NotADict(group));
      } else if "_meta" !in body[group].fields {
        assert GroupViolation(body, group, NoMeta(group));
      } else {
        assert GroupViolation(body, group, UnknownInGroup(group, body[group].fields.Keys - AllowedKeys(group)));
      }
    }
  }

  lemma AcceptsExact(body: Dict)
    ensures Accepts(body) <==> forall v :: !SchemaViolationOf(body, v)
  {
    forall group | group in GROUPS && group in body
      ensures GroupOk(group, body[group]) <==> forall v :: !GroupViolation(body, group, v)
    {
      GroupOkExact(body, group);
    }
    if !Accepts(body) {
      if !(body.Keys <= CONTROL_FIELDS + SetOf(GROUPS)) {
        assert SchemaViolationOf(body, UnknownTop(body.Keys - (CONTROL_FIELDS + SetOf(GROUPS))));
      } else if group :| group in GROUPS && group in body && !GroupOk(group, body[group]) {
        var v :| GroupViolation(body, group, v);
        assert SchemaViolationOf(body, v);
      } else {
        assert SchemaViolationOf(body, BadState(body["assembly_state"]));
      }
    }
  }

  method ValidateGroup(body: Dict, group: string, sofar: seq<SchemaViolation>) returns (violations: seq<SchemaViolation>)
    ensures forall v :: v in violations <==> v in sofar || GroupViolation(body, group, v)
  {
    violations := sofar;
    var value := Get(body, group, Null);
    if value.Null? {
      return;
    }
    if !value.Obj? {
      return violations + [NotADict(group)];
    }
    if "_meta" !in value.fields {
      violations := violations + [NoMeta(group)];
    }
    var unknown := value.fields.Keys - AllowedKeys(group);
    if unknown != {} {
      violations := violations + [UnknownInGroup(group, unknown)];
    }
    assert unknown != {} <==> !(value.fields.Keys <= AllowedKeys(group));
  }

  method ValidateCacheRecord(body: Dict) returns (violations: seq<SchemaViolation>)
    ensures (violations == []) == Accepts(body)
    ensures forall v :: v in violations <==> SchemaViolationOf(body, v)
  {
    violations := [];
    var unknown := body.Keys - (CONTROL_FIELDS + SetOf(GROUPS));
    assert unknown != {} <==> !(body.Keys <= CONTROL_FIELDS + SetOf(GROUPS));
    if unknown != {} {
      violations := violations + [UnknownTop(unknown)];
    }
    ghost var top := violations;
    for i := 0 to |GROUPS|
      invariant forall v :: v in violations <==> v in top || exists group :: group in GROUPS[..i] && GroupViolation(body, group, v)
    {
      assert GROUPS[..i + 1] == GROUPS[..i] + [GROUPS[i]];
      violations := ValidateGroup(body, GROUPS[i], violations);
    }
    assert GROUPS[..|GROUPS|] == GROUPS;
    var state := Get(body, "assembly_state", Null);
    if !StateOk(state) {
      violations := violations + [BadState(state)];
    }
    AcceptsExact(body);
    if violations == [] {
      forall v
        ensures !SchemaViolationOf(body, v)
      {
        assert v !in violations;
      }
    } else {
      assert violations[0] in violations;
    }
  }
}
