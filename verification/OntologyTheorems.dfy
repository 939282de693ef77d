/** What an assembled partial shows, field by field, and what the cache accepts, name by name. */
module OntologyTheorems {
  import opened Json
  import opened Numerals
  import opened Seqs
  import opened Ontology

  /** The field `to` is there exactly if the raw field is, with its value. */
  predicate Carried(raw: Dict, from: string, fields: Dict, to: string) {
    (to in fields <==> from in raw) && (from in raw ==> fields[to] == raw[from])
  }

  /** The status code in words; anything else as it is. */
  predicate StatusCarried(raw: Dict, fields: Dict) {
    && ("status" in fields <==> "stat" in raw)
    && ("stat" in raw ==>
          && (raw["stat"] == Str("A") ==> fields["status"] == Str("active"))
          && (raw["stat"] == Str("S") ==> fields["status"] == Str("suspended"))
          && (raw["stat"] == Str("C") ==> fields["status"] == Str("cancelled"))
          && (raw["stat"] !in {Str("A"), Str("S"), Str("C")} ==> fields["status"] == raw["stat"]))
  }

  /** A line shows what the raw line says, save for the list price. */
  predicate LineCarried(raw: Dict, line: Dict) {
    && Carried(raw, "sku", line, "product_id") && StatusCarried(raw, line)
    && Carried(raw, "eff_from", line, "effective_date")
    && Carried(raw, "monthly_charge", line, "monthly_charge_gbp")
    && Carried(raw, "total_discount_pct", line, "total_discount_pct")
    && Carried(raw, "applied_discounts", line, "applied_discounts")
    && Carried(raw, "discount_code", line, "discount_code")
    && Carried(raw, "contract_term_months", line, "contract_term_months")
    && Carried(raw, "reason_code", line, "reason_code") && Carried(raw, "reason_detail", line, "reason_detail")
  }

  const LINE_FIELDS: set<string> :=
    {"product_id", "status", "effective_date", "list_price_gbp", "monthly_charge_gbp", "total_discount_pct",
     "applied_discounts", "discount_code", "contract_term_months", "reason_code", "reason_detail"}

  // ---------------------------------------------------------------- lines

  lemma LineField(raw: Dict, i: nat, from: string, to: string)
    requires i < |LINE_MAPPINGS| && LINE_MAPPINGS[i] == Mapping(from, to, false)
    ensures Carried(raw, from, ApplyMappings(LINE_MAPPINGS, raw), to)
  {
    DeclaredNamesDistinct();
    MappingExact(LINE_MAPPINGS, raw);
  }

  lemma LineStatus(raw: Dict)
    ensures StatusCarried(raw, ApplyMappings(LINE_MAPPINGS, raw))
  {
    DeclaredNamesDistinct();
    MappingExact(LINE_MAPPINGS, raw);
    assert LINE_MAPPINGS[1] == Mapping("stat", "status", true);
  }

  lemma LineNames()
    ensures CanonicalNames(LINE_MAPPINGS) <= LINE_FIELDS
  {
    forall m | m in LINE_MAPPINGS
      ensures m.canonical in LINE_FIELDS
    {
    }
  }

  lemma MappedLineShows(raw: Dict)
    ensures var line := MappedLine(Obj(raw)).fields;
            LineCarried(raw, line) && Carried(raw, "list_price_gbp", line, "list_price_gbp") && line.Keys <= LINE_FIELDS
  {
    LineField(raw, 0, "sku", "product_id");
    LineStatus(raw);
    LineField(raw, 2, "eff_from", "effective_date");
    LineField(raw, 3, "list_price_gbp", "list_price_gbp");
    LineField(raw, 4, "monthly_charge", "monthly_charge_gbp");
    LineField(raw, 5, "total_discount_pct", "total_discount_pct");
    LineField(raw, 6, "applied_discounts", "applied_discounts");
    LineField(raw, 7, "discount_code", "discount_code");
    LineField(raw, 8, "contract_term_months", "contract_term_months");
    LineField(raw, 9, "reason_code", "reason_code");
    LineField(raw, 10, "reason_detail", "reason_detail");
    MappingKeys(LINE_MAPPINGS, raw);
    LineNames();
  }

  // ---------------------------------------------------------------- the billing partial

  /** What a billing event assembles to: its lines, one for one, and its freshness and origin. */
  lemma BillingPartialShows(raw: Dict, id: string, now: int)
    requires WellTyped(Billing, raw)
    ensures var p := Partial(Billing, raw, id, now);
            && p.Keys == {"commercial_state", "assembled_at", "provenance"} + (if "cust_ref" in raw then {"customer_id"} else {})
            && ("cust_ref" in raw ==> p["customer_id"] == raw["cust_ref"])
            && p["assembled_at"] == Time(now)
            && p["provenance"] == Obj(map["domain" := Str("billing"), "source_system" := Str("billing-sor"),
                                          "event_id" := Str(id), "mapping_count" := Num(1.0)])
            && p["commercial_state"].Obj?
    ensures var g := Partial(Billing, raw, id, now)["commercial_state"].fields;
            && g.Keys == {"subscriptions", "_meta"}
            && g["_meta"] == Obj(map["assembled_at" := Time(now), "source_system" := Str("billing-sor"),
                                     "ttl_seconds" := Num(300.0), "consistency_class" := Str("strong")])
            && g["subscriptions"].Arr?
            && |g["subscriptions"].items| == (if "sub_lines" in raw then |raw["sub_lines"].items| else 0)
            && forall i :: 0 <= i < |g["subscriptions"].items| ==>
                 var from, line := raw["sub_lines"].items[i], g["subscriptions"].items[i];
                 && from.Obj? && line.Obj? && LineCarried(from.fields, line.fields)
                 && Carried(from.fields, "list_price_gbp", line.fields, "list_price_gbp") && line.fields.Keys <= LINE_FIELDS
  {
    forall i | 0 <= i < |RawLines(raw)|
      ensures RawLines(raw)[i].Obj? && MappedLines(raw)[i].Obj?
      ensures var from, line := RawLines(raw)[i].fields, MappedLines(raw)[i].fields;
              LineCarried(from, line) && Carried(from, "list_price_gbp", line, "list_price_gbp") && line.Keys <= LINE_FIELDS
    {
      assert WellTypedLine(raw["sub_lines"].items[i]);
      MappedLineShows(RawLines(raw)[i].fields);
    }
    BillingPartialParts(raw, id, now);
  }

  lemma BillingPartialParts(raw: Dict, id: string, now: int)
    ensures var p := Partial(Billing, raw, id, now);
            && p.Keys == {"commercial_state", "assembled_at", "provenance"} + (if "cust_ref" in raw then {"customer_id"} else {})
            && ("cust_ref" in raw ==> p["customer_id"] == raw["cust_ref"])
            && p["assembled_at"] == Time(now)
            && p["provenance"] == Obj(map["domain" := Str("billing"), "source_system" := Str("billing-sor"),
                                          "event_id" := Str(id), "mapping_count" := Num(1.0)])
            && p["commercial_state"] == Obj(Group(Billing, raw, now))
    ensures var g := Group(Billing, raw, now);
            && g.Keys == {"subscriptions", "_meta"} && g["subscriptions"] == Arr(MappedLines(raw))
            && g["_meta"] == Obj(map["assembled_at" := Time(now), "source_system" := Str("billing-sor"),
                                     "ttl_seconds" := Num(300.0), "consistency_class" := Str("strong")])
  {
  }

  // ---------------------------------------------------------------- the customer partial

  lemma CustomerField(raw: Dict, i: nat, from: string, to: string)
    requires i < |CUSTOMER_MAPPINGS| && CUSTOMER_MAPPINGS[i] == Mapping(from, to, false)
    ensures Carried(raw, from, ApplyMappings(CUSTOMER_MAPPINGS, raw), to)
  {
    DeclaredNamesDistinct();
    MappingExact(CUSTOMER_MAPPINGS, raw);
  }

  /** The profile carries the five fields of the raw record. */
  predicate ProfileCarried(raw: Dict, fields: Dict) {
    && Carried(raw, "cust_ref", fields, "customer_id")
    && Carried(raw, "first_nm", fields, "first_name") && Carried(raw, "last_nm", fields, "last_name")
    && Carried(raw, "email", fields, "email") && Carried(raw, "phone", fields, "phone")
  }

  const PROFILE_FIELDS: set<string> := {"customer_id", "first_name", "last_name", "email", "phone"}

  lemma ProfileNames()
    ensures CanonicalNames(CUSTOMER_MAPPINGS) == PROFILE_FIELDS
  {
    forall m | m in CUSTOMER_MAPPINGS
      ensures m.canonical in PROFILE_FIELDS
    {
    }
    forall i | 0 <= i < |CUSTOMER_MAPPINGS|
      ensures CUSTOMER_MAPPINGS[i].canonical in CanonicalNames(CUSTOMER_MAPPINGS)
    {
      assert CUSTOMER_MAPPINGS[i] in CUSTOMER_MAPPINGS;
    }
    assert CUSTOMER_MAPPINGS[0].canonical == "customer_id" && CUSTOMER_MAPPINGS[1].canonical == "first_name"
           && CUSTOMER_MAPPINGS[2].canonical == "last_name" && CUSTOMER_MAPPINGS[3].canonical == "email"
           && CUSTOMER_MAPPINGS[4].canonical == "phone";
  }

  lemma MappedProfileShows(raw: Dict)
    ensures var fields := ApplyMappings(CUSTOMER_MAPPINGS, raw); ProfileCarried(raw, fields) && fields.Keys <= PROFILE_FIELDS
  {
    CustomerField(raw, 0, "cust_ref", "customer_id");
    CustomerField(raw, 1, "first_nm", "first_name");
    CustomerField(raw, 2, "last_nm", "last_name");
    CustomerField(raw, 3, "email", "email");
    CustomerField(raw, 4, "phone", "phone");
    MappingKeys(CUSTOMER_MAPPINGS, raw);
    ProfileNames();
  }

  /** ASCII white space. */
  predicate White(c: char) {
    c as int in {9, 10, 11, 12, 13, 28, 29, 30, 31, 32}
  }

  /** `t` is `s` without the white space around it. */
  ghost predicate Trimmed(s: string, t: string) {
    && (t != "" ==> !White(t[0]) && !White(t[|t| - 1]))
    && exists l, r :: s == l + t + r && (forall c :: c in l ==> White(c)) && (forall c :: c in r ==> White(c))
  }

  lemma BlankIsWhite(c: char)
    ensures Blank(c) <==> White(c)
  {
  }

  lemma {:induction false} StripLeftExact(s: string) returns (l: string)
    ensures s == l + StripLeft(s) && forall c :: c in l ==> White(c)
    ensures StripLeft(s) != "" ==> !White(StripLeft(s)[0])
  {
    l := "";
    if s != "" {
      BlankIsWhite(s[0]);
      if Blank(s[0]) {
        var rest := StripLeftExact(s[1..]);
        l := [s[0]] + rest;
        assert s == [s[0]] + s[1..];
      }
    }
  }

  lemma {:induction false} StripRightExact(s: string) returns (r: string)
    ensures s == StripRight(s) + r && forall c :: c in r ==> White(c)
    ensures StripRight(s) != "" ==> !White(StripRight(s)[|StripRight(s)| - 1])
  {
    r := "";
    if s != "" {
      BlankIsWhite(s[|s| - 1]);
      if Blank(s[|s| - 1]) {
        var rest := StripRightExact(s[..|s| - 1]);
        r := rest + [s[|s| - 1]];
        assert s == s[..|s| - 1] + [s[|s| - 1]];
      }
    }
  }

  /** Stripping takes the white space off both ends, and nothing else. */
  lemma StripExact(s: string)
    ensures Trimmed(s, Strip(s))
  {
    var l := StripLeftExact(s);
    var r := StripRightExact(StripLeft(s));
    var t := Strip(s);
    assert s == l + t + r;
    if t != "" {
      assert t[0] == StripLeft(s)[0];
    }
  }

  /** How a name enters the full name: an absent one as nothing, a null as its word. */
  function NamePart(raw: Dict, name: string): string {
    if name !in raw then "" else if raw[name].Null? then "None" else if raw[name].Str? then raw[name].s else ""
  }

  /** What a CRM event assembles to: its fields, the full name, and its freshness and origin. */
  lemma CustomerPartialShows(raw: Dict, id: string, now: int)
    ensures var p := Partial(Customer, raw, id, now);
            && p.Keys == {"profile", "assembled_at", "provenance"} + (if "cust_ref" in raw then {"customer_id"} else {})
            && ("cust_ref" in raw ==> p["customer_id"] == raw["cust_ref"])
            && p["assembled_at"] == Time(now) && p["profile"].Obj?
            && p["provenance"] == Obj(map["domain" := Str("customer"), "source_system" := Str("crm-sor"), "event_id" := Str(id),
                                          "mapping_count" := Num((Present(raw, "cust_ref") + Present(raw, "first_nm") + Present(raw, "last_nm")
                                                                + Present(raw, "email") + Present(raw, "phone") + 1) as real)])
    ensures var g := Partial(Customer, raw, id, now)["profile"].fields;
            && ProfileCarried(raw, g)
            && "full_name" in g && g["full_name"].Str?
            && Trimmed(NamePart(raw, "first_nm") + " " + NamePart(raw, "last_nm"), g["full_name"].s)
            && "_meta" in g
            && g["_meta"] == Obj(map["assembled_at" := Time(now), "source_system" := Str("crm-sor"),
                                     "ttl_seconds" := Num(3600.0), "consistency_class" := Str("eventual")])
            && g.Keys <= PROFILE_FIELDS + {"full_name", "_meta"}
  {
    MappedProfileShows(raw);
    FullNameShows(raw);
    MappingsCounted(raw);
    CustomerPartialParts(raw, id, now);
    ProfileKept(raw, now);
  }

  lemma FullNameShows(raw: Dict)
    ensures Trimmed(NamePart(raw, "first_nm") + " " + NamePart(raw, "last_nm"), FullName(ApplyMappings(CUSTOMER_MAPPINGS, raw)))
  {
    MappedProfileShows(raw);
    var fields := ApplyMappings(CUSTOMER_MAPPINGS, raw);
    assert TextOf(fields, "first_name") == NamePart(raw, "first_nm") && TextOf(fields, "last_name") == NamePart(raw, "last_nm");
    StripExact(TextOf(fields, "first_name") + " " + TextOf(fields, "last_name"));
  }

  lemma CustomerPartialParts(raw: Dict, id: string, now: int)
    ensures var p := Partial(Customer, raw, id, now);
            && p.Keys == {"profile", "assembled_at", "provenance"} + (if "cust_ref" in raw then {"customer_id"} else {})
            && ("cust_ref" in raw ==> p["customer_id"] == raw["cust_ref"])
            && p["assembled_at"] == Time(now) && p["profile"] == Obj(Group(Customer, raw, now))
            && p["provenance"] == Obj(map["domain" := Str("customer"), "source_system" := Str("crm-sor"), "event_id" := Str(id),
                                          "mapping_count" := Num((CountApplied(CUSTOMER_MAPPINGS, raw) + 1) as real)])
  {
  }

  lemma ProfileKept(raw: Dict, now: int)
    requires var fields := ApplyMappings(CUSTOMER_MAPPINGS, raw); ProfileCarried(raw, fields) && fields.Keys <= PROFILE_FIELDS
    ensures var g := Group(Customer, raw, now);
            && ProfileCarried(raw, g) && g.Keys <= PROFILE_FIELDS + {"full_name", "_meta"}
            && "full_name" in g && g["full_name"] == Str(FullName(ApplyMappings(CUSTOMER_MAPPINGS, raw)))
            && "_meta" in g
            && g["_meta"] == Obj(map["assembled_at" := Time(now), "source_system" := Str("crm-sor"),
                                     "ttl_seconds" := Num(3600.0), "consistency_class" := Str("eventual")])
  {
    var fields := ApplyMappings(CUSTOMER_MAPPINGS, raw);
    var g := Group(Customer, raw, now);
    assert g == fields["full_name" := Str(FullName(fields))]["_meta" := Obj(Meta(Customer, now))];
    assert "full_name" !in PROFILE_FIELDS && "_meta" !in PROFILE_FIELDS;
    assert forall k :: k in PROFILE_FIELDS ==> (k in g <==> k in fields) && (k in g ==> g[k] == fields[k]);
  }

  function Present(raw: Dict, name: string): nat {
    if name in raw then 1 else 0
  }

  lemma CountOne(m: Mapping, rest: seq<Mapping>, raw: Dict)
    ensures CountApplied([m] + rest, raw) == Present(raw, m.sor) + CountApplied(rest, raw)
  {
    assert ([m] + rest)[1..] == rest;
  }

  /** The applied mappings are counted. */
  lemma MappingsCounted(raw: Dict)
    ensures CountApplied(CUSTOMER_MAPPINGS, raw) ==
            Present(raw, "cust_ref") + Present(raw, "first_nm") + Present(raw, "last_nm") + Present(raw, "email") + Present(raw, "phone")
  {
    var ms := CUSTOMER_MAPPINGS;
    assert ms == [ms[0]] + ([ms[1]] + ([ms[2]] + ([ms[3]] + ([ms[4]] + []))));
    CountOne(ms[4], [], raw);
    CountOne(ms[3], [ms[4]] + [], raw);
    CountOne(ms[2], [ms[3]] + ([ms[4]] + []), raw);
    CountOne(ms[1], [ms[2]] + ([ms[3]] + ([ms[4]] + [])), raw);
    CountOne(ms[0], [ms[1]] + ([ms[2]] + ([ms[3]] + ([ms[4]] + []))), raw);
  }

  // ---------------------------------------------------------------- the cache schema

  /** What the cache accepts, name by name. */
  lemma AcceptedNames(body: Dict)
    ensures Accepts(body) <==>
            && body.Keys <= {"customer_id", "assembled_at", "assembly_state", "missing_domains", "provenance", "profile", "commercial_state"}
            && ("profile" in body && body["profile"] != Null ==>
                  && body["profile"].Obj? && "_meta" in body["profile"].fields
                  && body["profile"].fields.Keys <=
                     {"customer_id", "first_name", "last_name", "email", "phone", "full_name", "_meta"})
            && ("commercial_state" in body && body["commercial_state"] != Null ==>
                  && body["commercial_state"].Obj? && "_meta" in body["commercial_state"].fields
                  && body["commercial_state"].fields.Keys <= {"subscriptions", "discount_summary", "_meta"})
            && ("assembly_state" in body && body["assembly_state"] != Null ==>
                  body["assembly_state"] in
                    {Str("complete"), Str("partial_timed_out"), Str("awaiting_customer"), Str("awaiting_billing")})
  {
    ProfileNames();
    assert SetOf(GROUPS) == {"profile", "commercial_state"} by {
      assert GROUPS[0] in GROUPS && GROUPS[1] in GROUPS;
    }
    assert |"profile"| != |"commercial_state"|;
  }
}
