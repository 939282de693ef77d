/** The action broker: the governance chain in front of the systems of record, and its audit log. */
module Broker {
  import opened Json
  import opened Seqs
  import opened Rules
  import opened Products
  import opened Graphs
  import opened Billing
  import opened OfferTheorems
  import Cat = CatalogueService

  datatype PayloadValue = PText(s: string) | PInt(i: int) | PFloat(r: real) | PBool(b: bool) | POther

  type Payload = map<string, PayloadValue>

  datatype FieldType = TText | TInt | TFloat | TNumber

  datatype Schema = Schema(required: seq<string>, properties: seq<(string, FieldType)>)

  /** Instance check; a boolean is an integer. */
  predicate HasType(v: PayloadValue, t: FieldType) {
    match t
    case TText => v.PText?
    case TInt => v.PInt? || v.PBool?
    case TFloat => v.PFloat?
    case TNumber => v.PInt? || v.PBool? || v.PFloat?
  }

  function PropertyNames(schema: Schema): set<string> {
    set p | p in schema.properties :: p.0
  }

  datatype PayloadViolation = MissingField(name: string) | WrongType(name: string) | Unexpected(names: set<string>)

  predicate ViolatesSchema(payload: Payload, schema: Schema, v: PayloadViolation) {
    match v
    case MissingField(name) => name in schema.required && name !in payload
    case WrongType(name) => name in payload && exists p :: p in schema.properties && p.0 == name && !HasType(payload[name], p.1)
    case Unexpected(names) => names == payload.Keys - PropertyNames(schema) && names != {}
  }

  /** Every required field is there, every declared field is of its type, and nothing else is there. */
  predicate PayloadOk(payload: Payload, schema: Schema) {
    && (forall name :: name in schema.required ==> name in payload)
    && (forall p :: p in schema.properties && p.0 in payload ==> HasType(payload[p.0], p.1))
    && payload.Keys <= PropertyNames(schema)
  }

  /** Declared write routes. */
  function Route(intent: string): Option<Schema> {
    if intent == "add_subscription" then
      Some(Schema(["sku"], [("sku", TText), ("contract_term_months", TInt), ("stat", TText)]))
    else if intent == "cancel_subscription" then
      Some(Schema(["product_sku", "reason_code"], [("product_sku", TText), ("reason_code", TText), ("reason_detail", TText)]))
    else if intent == "update_product_price" then
      Some(Schema(["sku", "new_list_price_gbp"], [("sku", TText), ("new_list_price_gbp", TNumber)]))
    else if intent == "recalculate_billing" then
      Some(Schema(["product_sku"], [("product_sku", TText)]))
    else None
  }

  method ValidatePayload(payload: Payload, schema: Schema) returns (violations: seq<PayloadViolation>)
    ensures (violations == []) == PayloadOk(payload, schema)
    ensures forall v :: v in violations <==> ViolatesSchema(payload, schema, v)
  {
    violations := [];
    for i := 0 to |schema.required|
      invariant forall v :: v in violations <==> v.MissingField? && v.name in schema.required[..i] && v.name !in payload
    {
      assert schema.required[..i + 1] == schema.required[..i] + [schema.required[i]];
      if schema.required[i] !in payload {
        violations := violations + [MissingField(schema.required[i])];
      }
    }
    assert schema.required[..|schema.required|] == schema.required;
    ghost var missing := violations;
    for i := 0 to |schema.properties|
      invariant forall v :: v in violations <==>
                  v in missing || (v.WrongType? && v.name in payload &&
                                   exists p :: p in schema.properties[..i] && p.0 == v.name && !HasType(payload[v.name], p.1))
    {
      assert schema.properties[..i + 1] == schema.properties[..i] + [schema.properties[i]];
      var (name, t) := schema.properties[i];
      if name !in payload {
        continue;
      }
      if !HasType(payload[name], t) {
        violations := violations + [WrongType(name)];
      }
    }
    assert schema.properties[..|schema.properties|] == schema.properties;
    var unknown := payload.Keys - PropertyNames(schema);
    if unknown != {} {
      violations := violations + [Unexpected(unknown)];
    }
    SchemaViolations(payload, schema);
    if violations != [] {
      assert violations[0] in violations;
    }
  }

  lemma SchemaViolations(payload: Payload, schema: Schema)
    ensures PayloadOk(payload, schema) <==> forall v :: !ViolatesSchema(payload, schema, v)
  {
    if !PayloadOk(payload, schema) {
      if name :| name in schema.required && name !in payload {
        assert ViolatesSchema(payload, schema, MissingField(name));
      } else if p :| p in schema.properties && p.0 in payload && !HasType(payload[p.0], p.1) {
        assert ViolatesSchema(payload, schema, WrongType(p.0));
      } else {
        var name :| name in payload.Keys && name !in PropertyNames(schema);
        assert name in payload.Keys - PropertyNames(schema);
        assert ViolatesSchema(payload, schema, Unexpected(payload.Keys - PropertyNames(schema)));
      }
    }
  }

  // ---------------------------------------------------------------- what a write does

  datatype Opa = Allow | Deny | Unreachable

  datatype Intent = Intent(
    caller: string, opa: Opa, name: string, customer: Option<string>, payload: Payload, auditId: string, today: string)

  datatype AuditOutcome = Permitted | Denied | Errored

  datatype Entry = Entry(auditId: string, caller: string, intent: string, customer: Option<string>,
                         payload: Payload, outcome: AuditOutcome)

  /** What does not change while the broker serves intents. */
  datatype Fixed = Fixed(graph: Graph, order: seq<string>, policies: seq<Policy>)

  /** What the systems of record hold. */
  datatype World = World(data: map<string, seq<SubLine>>, products: Catalogue)

  function ParseReason(s: string): Option<ReasonCode> {
    if s == "non_payment" then Some(NonPayment)
    else if s == "customer_request" then Some(CustomerRequest)
    else if s == "fraud_hold" then Some(FraudHold)
    else if s == "technical_issue" then Some(TechnicalIssue)
    else if s == "network_fault" then Some(NetworkFault)
    else if s == "other" then Some(Other)
    else None
  }

  function IntOf(v: PayloadValue): int {
    match v
    case PInt(i) => i
    case PBool(b) => if b then 1 else 0
    case _ => 0
  }

  function RealOf(v: PayloadValue): real {
    match v
    case PFloat(r) => r
    case _ => IntOf(v) as real
  }

  function TextAt(payload: Payload, name: string): string {
    if name in payload && payload[name].PText? then payload[name].s else ""
  }

  function AddPatch(payload: Payload): Patch {
    Patch(None, Some(NewSubscription(
      TextAt(payload, "sku"),
      if "stat" in payload then TextAt(payload, "stat") else "A",
      if "contract_term_months" in payload then IntOf(payload["contract_term_months"]) else 1,
      None)))
  }

  function CancelPatch(payload: Payload, reason: ReasonCode): Patch {
    Patch(Some(Update(TextAt(payload, "product_sku"), Some("C"), Some(reason),
                      if "reason_detail" in payload then Some(TextAt(payload, "reason_detail")) else None, None)), None)
  }

  predicate CustomerGiven(customer: Option<string>) {
    customer.Some? && customer.value != ""
  }

  /** A PATCH on a billing customer: the new world and the status. */
  function PatchWorld(fx: Fixed, w: World, cid: string, patch: Patch, today: string): (World, int) {
    if cid !in w.data then (w, 404)
    else
      match ApplyPatch(fx.policies, w.products, w.data[cid], Some(patch), today)
      case Failed(status) => (w, status)
      case Written(lines) => (w.(data := w.data[cid := lines]), 200)
  }

  /** The combination check of an add; customers billing does not know are not checked. */
  predicate CombinationAccepted(fx: Fixed, w: World, cid: string, sku: string) {
    cid in w.data ==> ValidCombination(fx.graph, ActiveSkus(w.data[cid]) + {sku})
  }

  function Execute(fx: Fixed, w: World, i: Intent): (World, int)
    requires forall c :: c in fx.order ==> c in w.data
  {
    if i.name == "add_subscription" then
      if !CustomerGiven(i.customer) then (w, 422)
      else if !CombinationAccepted(fx, w, i.customer.value, TextAt(i.payload, "sku")) then (w, 422)
      else PatchWorld(fx, w, i.customer.value, AddPatch(i.payload), i.today)
    else if i.name == "cancel_subscription" then
      if !CustomerGiven(i.customer) then (w, 422)
      else
        match ParseReason(TextAt(i.payload, "reason_code"))
        case None => (w, 422)
        case Some(reason) => PatchWorld(fx, w, i.customer.value, CancelPatch(i.payload, reason), i.today)
    else if i.name == "update_product_price" then
      var sku, price := TextAt(i.payload, "sku"),
                        if "new_list_price_gbp" in i.payload then RealOf(i.payload["new_list_price_gbp"]) else 0.0;
      var status := Cat.PatchStatus(w.products, sku, Some(price), None);
      (if status == 200 then w.(products := Cat.PatchProduct(w.products, sku, Some(price), None)) else w, status)
    else if i.name == "recalculate_billing" then
      var (data, status) := Recalculate(fx.policies, w.products, w.data, fx.order, TextAt(i.payload, "product_sku"));
      (w.(data := data), status)
    else (w, 500)
  }

  /** The last `n` entries. */
  function LastN<T>(xs: seq<T>, n: nat): seq<T> {
    if |xs| <= n then xs else xs[|xs| - n..]
  }

  const AUDIT_CAPACITY: nat := 200

  /** Intents that get as far as an audit entry: refused by or for want of the policy engine, or forwarded. */
  predicate Audited(i: Intent) {
    i.opa == Allow ==> Route(i.name).Some? && PayloadOk(i.payload, Route(i.name).value)
  }

  predicate Forwarded(i: Intent) {
    i.opa == Allow && Route(i.name).Some? && PayloadOk(i.payload, Route(i.name).value)
  }

  function Submit(fx: Fixed, w: World, i: Intent): (World, int)
    requires forall c :: c in fx.order ==> c in w.data
  {
    if i.opa == Unreachable then (w, 503)
    else if i.opa == Deny then (w, 403)
    else if !Forwarded(i) then (w, 422)
    else Execute(fx, w, i)
  }

  function EntryFor(i: Intent, status: int): Entry {
    Entry(i.auditId, i.caller, i.name, i.customer, i.payload,
          if i.opa == Deny then Denied else if status < 400 then Permitted else Errored)
  }

  // ---------------------------------------------------------------- the service

  class ActionBroker {
    const billing: BillingSor
    const catalogue: Cat.ProductCatalogue
    /** `_audit_log`: a bounded deque. */
    var auditLog: seq<Entry>

    ghost predicate Valid()
      reads this, billing, catalogue
    {
      billing.Valid() && catalogue.Valid() && |auditLog| <= AUDIT_CAPACITY
    }

    ghost function FixedPart(): Fixed
      reads this, billing, catalogue
    {
      Fixed(catalogue.graph, billing.order, billing.policies)
    }

    ghost function State(): World
      reads this, billing, catalogue
    {
      World(billing.data, catalogue.products)
    }

    constructor (billing: BillingSor, catalogue: Cat.ProductCatalogue)
      requires billing.Valid() && catalogue.Valid()
      ensures Valid() && auditLog == [] && this.billing == billing && this.catalogue == catalogue
    {
      this.billing, this.catalogue, auditLog := billing, catalogue, [];
    }

    method WriteAudit(e: Entry)
      modifies this`auditLog
      ensures auditLog == LastN(old(auditLog) + [e], AUDIT_CAPACITY)
    {
      auditLog := auditLog + [e];
      if |auditLog| > AUDIT_CAPACITY {
        auditLog := auditLog[|auditLog| - AUDIT_CAPACITY..];
      }
    }

    /** The active SKUs of a record, in line order. */
    method CurrentActiveSkus(lines: seq<SubLine>) returns (skus: seq<string>)
      ensures SetOf(skus) == ActiveSkus(lines)
    {
      skus := [];
      for k := 0 to |lines|
        invariant SetOf(skus) == ActiveSkus(lines[..k])
      {
        assert lines[..k + 1] == lines[..k] + [lines[k]];
        if lines[k].stat == "A" {
          assert SetOf(skus + [lines[k].sku]) == SetOf(skus) + {lines[k].sku};
          skus := skus + [lines[k].sku];
        }
      }
      assert lines[..|lines|] == lines;
    }

    method CheckCombination(cid: string, sku: string) returns (accepted: bool)
      requires Valid()
      ensures accepted == CombinationAccepted(FixedPart(), State(), cid, sku)
    {
      if cid !in billing.data {
        return true;
      }
      var current := CurrentActiveSkus(billing.data[cid]);
      var valid, _ := catalogue.IsCombinationValid(current + [sku]);
      assert SetOf(current + [sku]) == SetOf(current) + {sku};
      return valid;
    }

    method PatchBilling(cid: string, patch: Patch, today: string) returns (status: int)
      requires Valid()
      modifies billing`data
      ensures Valid()
      ensures (State(), status) == PatchWorld(FixedPart(), old(State()), cid, patch, today)
    {
      var reply, _ := billing.UpdateCustomer(cid, Some(patch), catalogue.products, today);
      match reply
      case Written(_) => status := 200;
      case Failed(s) => status := s;
    }

    method ExecuteWrite(i: Intent) returns (status: int)
      requires Valid()
      modifies billing`data, catalogue`products
      ensures Valid()
      ensures (State(), status) == Execute(FixedPart(), old(State()), i)
    {
      if i.name == "add_subscription" {
        if !CustomerGiven(i.customer) {
          return 422;
        }
        var accepted := CheckCombination(i.customer.value, TextAt(i.payload, "sku"));
        if !accepted {
          return 422;
        }
        status := PatchBilling(i.customer.value, AddPatch(i.payload), i.today);
      } else if i.name == "cancel_subscription" {
        if !CustomerGiven(i.customer) {
          return 422;
        }
        var reason := ParseReason(TextAt(i.payload, "reason_code"));
        if reason == None {
          return 422;
        }
        status := PatchBilling(i.customer.value, CancelPatch(i.payload, reason.value), i.today);
      } else if i.name == "update_product_price" {
        var price := if "new_list_price_gbp" in i.payload then RealOf(i.payload["new_list_price_gbp"]) else 0.0;
        status := catalogue.UpdateProduct(TextAt(i.payload, "sku"), Some(price), None);
      } else if i.name == "recalculate_billing" {
        var answered, _ := billing.RecalculateFromProduct(TextAt(i.payload, "product_sku"), catalogue.products);
        status := answered;
      } else {
        return 500;
      }
    }

    method SubmitIntent(i: Intent) returns (status: int)
      requires Valid()
      modifies this`auditLog, billing`data, catalogue`products
      ensures Valid()
      ensures (State(), status) == Submit(FixedPart(), old(State()), i)
      ensures auditLog == if Audited(i) then LastN(old(auditLog) + [EntryFor(i, status)], AUDIT_CAPACITY) else old(auditLog)
      ensures FixedPart() == old(FixedPart())
    {
      if i.opa == Unreachable {
        WriteAudit(EntryFor(i, 503));
        return 503;
      }
      if i.opa == Deny {
        WriteAudit(EntryFor(i, 403));
        return 403;
      }
      var route := Route(i.name);
      if route == None {
        return 422;
      }
      var violations := ValidatePayload(i.payload, route.value);
      if violations != [] {
        return 422;
      }
      status := ExecuteWrite(i);
      WriteAudit(EntryFor(i, status));
    }
  }
}
