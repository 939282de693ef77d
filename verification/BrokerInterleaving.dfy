/**
 * Adds cut at their awaits. The broker reads the record and checks the combination, billing copies the record and asks the
 * catalogue, and then writes the copy with the new line; anything may happen in between. Cancellations and rounds of a
 * recalculation have no await between reading a record and writing it.
 */
module BrokerInterleaving {
  import opened Json
  import opened Rules
  import opened Products
  import opened Graphs
  import opened Billing
  import opened BillingTheorems
  import opened OfferTheorems
  import opened Broker
  import opened BrokerTheorems
  import opened DecodedActive

  /** An add in progress, with the record that was checked and the one that was copied. */
  datatype Add =
    | Checked(cid: string, sub: NewSubscription, today: string, seen: seq<SubLine>)
    | Copied(cid: string, sub: NewSubscription, today: string, seen: seq<SubLine>, copy: seq<SubLine>)

  datatype Sys = Sys(w: World, adds: map<nat, Add>)

  datatype Action =
    | Check(t: nat, cid: string, sub: NewSubscription, today: string)
    | Copy(t: nat)
    | Write(t: nat)
    | Cancel(cid: string, upd: Update)
    | Round(cid: string, sku: string, price: real)

  function Put(s: Sys, cid: string, lines: seq<SubLine>): Sys {
    s.(w := s.w.(data := s.w.data[cid := lines]))
  }

  function Drop(s: Sys, t: nat): Sys {
    s.(adds := s.adds - {t})
  }

  /** A refused check or copy ends the add; a customer that billing does not know has nothing to add to. */
  function CheckStep(fx: Fixed, s: Sys, t: nat, cid: string, sub: NewSubscription, today: string): Sys {
    if cid !in s.w.data || !ValidCombination(fx.graph, ActiveSkus(s.w.data[cid]) + {sub.sku}) then s
    else s.(adds := s.adds[t := Checked(cid, sub, today, s.w.data[cid])])
  }

  function CopyStep(s: Sys, t: nat): Sys
    requires t in s.adds && s.adds[t].Checked?
  {
    var Checked(cid, sub, today, seen) := s.adds[t];
    if cid !in s.w.data || HasSku(s.w.data[cid], sub.sku) then Drop(s, t)
    else s.(adds := s.adds[t := Copied(cid, sub, today, seen, s.w.data[cid])])
  }

  function WriteStep(fx: Fixed, s: Sys, t: nat): Sys
    requires t in s.adds && s.adds[t].Copied?
  {
    var Copied(cid, sub, today, _, copy) := s.adds[t];
    match ApplyAdd(fx.policies, s.w.products, copy, sub, today)
    case Failed(_) => Drop(s, t)
    case Written(out) => Drop(Put(s, cid, out), t)
  }

  /** `None` where the action is not possible. */
  function Do(fx: Fixed, s: Sys, a: Action): Option<Sys> {
    match a
    case Check(t, cid, sub, today) => if t in s.adds then None else Some(CheckStep(fx, s, t, cid, sub, today))
    case Copy(t) => if t in s.adds && s.adds[t].Checked? then Some(CopyStep(s, t)) else None
    case Write(t) => if t in s.adds && s.adds[t].Copied? then Some(WriteStep(fx, s, t)) else None
    case Cancel(cid, upd) =>
      if upd.newStat != Some("C") then None
      else if cid in s.w.data && ApplyUpdate(s.w.data[cid], upd).Written? then Some(Put(s, cid, ApplyUpdate(s.w.data[cid], upd).lines))
      else Some(s)
    case Round(cid, sku, price) =>
      if cid in s.w.data && Recalculated(fx.policies, s.w.data[cid], sku, price).Ok? then
        Some(Put(s, cid, Recalculated(fx.policies, s.w.data[cid], sku, price).value))
      else Some(s)
  }

  function Exec(fx: Fixed, s: Sys, actions: seq<Action>): Option<Sys>
    decreases |actions|
  {
    if actions == [] then Some(s)
    else
      match Do(fx, s, actions[0])
      case None => None
      case Some(s1) => Exec(fx, s1, actions[1..])
  }

  // ---------------------------------------------------------------- what a late write does

  /**
   * Lost lines: after the write of an add the record has exactly the SKUs of the copy and the new one. So a line that
   * has come in since the copy is lost.
   */
  lemma LineLostExactly(fx: Fixed, s: Sys, t: nat, sku: string)
    requires t in s.adds && s.adds[t].Copied? && s.adds[t].cid in s.w.data
    requires ApplyAdd(fx.policies, s.w.products, s.adds[t].copy, s.adds[t].sub, s.adds[t].today).Written?
    ensures var cid := s.adds[t].cid;
            && Do(fx, s, Write(t)).Some? && cid in Do(fx, s, Write(t)).value.w.data
            && (HasSku(s.w.data[cid], sku) && !HasSku(Do(fx, s, Write(t)).value.w.data[cid], sku) <==>
                HasSku(s.w.data[cid], sku) && !HasSku(s.adds[t].copy, sku) && sku != s.adds[t].sub.sku)
  {
    var Copied(cid, sub, today, _, copy) := s.adds[t];
    AddedSkus(fx.policies, s.w.products, copy, sub, today, ApplyAdd(fx.policies, s.w.products, copy, sub, today).lines, sku);
  }

  lemma AddedSkus(policies: seq<Policy>, catalogue: Catalogue, lines: seq<SubLine>, sub: NewSubscription, today: string,
                  out: seq<SubLine>, sku: string)
    requires ApplyAdd(policies, catalogue, lines, sub, today) == Written(out)
    ensures HasSku(out, sku) <==> HasSku(lines, sku) || sku == sub.sku
  {
    var added := NewLine(sub, catalogue[sub.sku].listPrice.value, today);
    var grown := lines + [added];
    RepriceFrame(policies, grown, out);
    SameSkuLines(grown, out, sku);
    assert forall l :: l in grown <==> l in lines || l == added;
  }

  lemma SameSkuLines(a: seq<SubLine>, b: seq<SubLine>, sku: string)
    requires |a| == |b| && forall i :: 0 <= i < |a| ==> a[i].sku == b[i].sku
    ensures HasSku(a, sku) <==> HasSku(b, sku)
  {
    if HasSku(a, sku) {
      var i :| 0 <= i < |a| && a[i].sku == sku;
      assert b[i] in b;
    }
    if HasSku(b, sku) {
      var i :| 0 <= i < |b| && b[i].sku == sku;
      assert a[i] in a;
    }
  }

  /** An exclusive edge joins the SKU to an active one of `now` that `seen` did not have. */
  predicate ClashesUnseen(g: Graph, now: seq<SubLine>, seen: seq<SubLine>, sku: string) {
    exists e :: e in g.edges && Exclusive(e.relation)
                && ((e.source == sku && e.target in ActiveSkus(now) - ActiveSkus(seen))
                    || (e.target == sku && e.source in ActiveSkus(now) - ActiveSkus(seen)))
  }

  lemma UnseenClashExactly(g: Graph, copy: seq<SubLine>, seen: seq<SubLine>, sku: string)
    requires ConflictFree(g, ActiveSkus(copy)) && ConflictFree(g, ActiveSkus(seen) + {sku})
    ensures ConflictFree(g, ActiveSkus(copy) + {sku}) <==> !ClashesUnseen(g, copy, seen, sku)
  {
    var all := ActiveSkus(copy) + {sku};
    if !ConflictFree(g, all) {
      var e :| e in g.edges && e.source in all && e.target in all && Exclusive(e.relation);
      assert !(e.source in ActiveSkus(seen) + {sku} && e.target in ActiveSkus(seen) + {sku});
      assert !(e.source in ActiveSkus(copy) && e.target in ActiveSkus(copy));
    }
  }

  // ---------------------------------------------------------------- over whole schedules

  /** Records and copies are free of exclusive pairs, and what was checked is so with the product. */
  predicate Safe(fx: Fixed, s: Sys) {
    && (forall c :: c in s.w.data ==> ConflictFree(fx.graph, ActiveSkus(s.w.data[c])))
    && (forall t :: t in s.adds ==> AddSafe(fx, s, s.adds[t]))
  }

  predicate AddSafe(fx: Fixed, s: Sys, add: Add) {
    && add.cid in s.w.data
    && ConflictFree(fx.graph, ActiveSkus(add.seen) + {add.sub.sku})
    && (add.Copied? ==> ConflictFree(fx.graph, ActiveSkus(add.copy)))
  }

  /** The write joins the product to an incompatible one that came in between check and copy. */
  predicate JoinsUnseen(fx: Fixed, s: Sys, a: Action) {
    && a.Write? && a.t in s.adds && s.adds[a.t].Copied?
    && var Copied(_, sub, today, seen, copy) := s.adds[a.t];
       && sub.stat == "A" && ApplyAdd(fx.policies, s.w.products, copy, sub, today).Written?
       && ClashesUnseen(fx.graph, copy, seen, sub.sku)
  }

  lemma PutSafe(fx: Fixed, s: Sys, cid: string, lines: seq<SubLine>)
    requires Safe(fx, s) && cid in s.w.data && ConflictFree(fx.graph, ActiveSkus(lines))
    ensures Safe(fx, Put(s, cid, lines))
  {
    forall t | t in s.adds
      ensures AddSafe(fx, Put(s, cid, lines), s.adds[t])
    {
      assert AddSafe(fx, s, s.adds[t]);
    }
  }

  lemma DropSafe(fx: Fixed, s: Sys, t: nat)
    requires Safe(fx, s)
    ensures Safe(fx, Drop(s, t))
  {
    forall x | x in s.adds - {t}
      ensures AddSafe(fx, Drop(s, t), s.adds[x])
    {
      assert AddSafe(fx, s, s.adds[x]);
    }
  }

  lemma HandlerSafe(fx: Fixed, s: Sys, t: nat, add: Add)
    requires Safe(fx, s) && AddSafe(fx, s, add)
    ensures Safe(fx, s.(adds := s.adds[t := add]))
  {
    var s' := s.(adds := s.adds[t := add]);
    forall x | x in s'.adds
      ensures AddSafe(fx, s', s'.adds[x])
    {
      assert x != t ==> AddSafe(fx, s, s.adds[x]);
    }
  }

  /** What the copy becomes is free of exclusive pairs exactly when the product does not clash unseen. */
  lemma WrittenSafeExactly(fx: Fixed, products: Catalogue, seen: seq<SubLine>, copy: seq<SubLine>, sub: NewSubscription,
                           today: string, out: seq<SubLine>)
    requires ConflictFree(fx.graph, ActiveSkus(seen) + {sub.sku}) && ConflictFree(fx.graph, ActiveSkus(copy))
    requires ApplyAdd(fx.policies, products, copy, sub, today) == Written(out)
    ensures ConflictFree(fx.graph, ActiveSkus(out)) <==> !(sub.stat == "A" && ClashesUnseen(fx.graph, copy, seen, sub.sku))
  {
    AddedActiveSkus(fx.policies, products, copy, sub, today, out);
    UnseenClashExactly(fx.graph, copy, seen, sub.sku);
    assert ActiveSkus(copy) + {} == ActiveSkus(copy);
  }

  lemma PutDropSafeExactly(fx: Fixed, s: Sys, t: nat, cid: string, lines: seq<SubLine>)
    requires Safe(fx, s) && cid in s.w.data
    ensures Safe(fx, Drop(Put(s, cid, lines), t)) <==> ConflictFree(fx.graph, ActiveSkus(lines))
  {
    if ConflictFree(fx.graph, ActiveSkus(lines)) {
      PutSafe(fx, s, cid, lines);
      DropSafe(fx, Put(s, cid, lines), t);
    } else {
      assert Drop(Put(s, cid, lines), t).w.data[cid] == lines;
    }
  }

  lemma WriteSafeExactly(fx: Fixed, s: Sys, t: nat)
    requires Safe(fx, s) && t in s.adds && s.adds[t].Copied?
    ensures Safe(fx, WriteStep(fx, s, t)) <==> !JoinsUnseen(fx, s, Write(t))
  {
    var Copied(cid, sub, today, seen, copy) := s.adds[t];
    assert AddSafe(fx, s, s.adds[t]);
    match ApplyAdd(fx.policies, s.w.products, copy, sub, today)
    case Failed(_) => DropSafe(fx, s, t);
    case Written(out) =>
      WrittenSafeExactly(fx, s.w.products, seen, copy, sub, today, out);
      PutDropSafeExactly(fx, s, t, cid, out);
  }

  /**
   * At any interleaving a step joins exclusive products exactly when it is the write of an active product that clashes
   * with one that became active between its check and its copy.
   */
  lemma StepSafeExactly(fx: Fixed, s: Sys, a: Action)
    requires Safe(fx, s) && Do(fx, s, a).Some?
    ensures Safe(fx, Do(fx, s, a).value) <==> !JoinsUnseen(fx, s, a)
  {
    match a
    case Check(t, cid, sub, today) =>
      if Do(fx, s, a).value != s {
        HandlerSafe(fx, s, t, Checked(cid, sub, today, s.w.data[cid]));
      }
    case Copy(t) =>
      assert AddSafe(fx, s, s.adds[t]);
      var Checked(cid, sub, today, seen) := s.adds[t];
      if HasSku(s.w.data[cid], sub.sku) {
        DropSafe(fx, s, t);
      } else {
        HandlerSafe(fx, s, t, Copied(cid, sub, today, seen, s.w.data[cid]));
      }
    case Write(t) => WriteSafeExactly(fx, s, t);
    case Cancel(cid, upd) => CancelStepSafe(fx, s, cid, upd);
    case Round(cid, sku, price) =>
      if Do(fx, s, a).value != s {
        var out := Recalculated(fx.policies, s.w.data[cid], sku, price).value;
        RecalculatedActive(fx.policies, s.w.data[cid], sku, price, out);
        PutSafe(fx, s, cid, out);
      }
  }

  lemma CancelStepSafe(fx: Fixed, s: Sys, cid: string, upd: Update)
    requires Safe(fx, s) && Do(fx, s, Cancel(cid, upd)).Some?
    ensures Safe(fx, Do(fx, s, Cancel(cid, upd)).value)
  {
    if Do(fx, s, Cancel(cid, upd)).value != s {
      CancelledActiveSkus(s.w.data[cid], upd);
      ConflictFreeSubset(fx.graph, ActiveSkus(s.w.data[cid]), ActiveSkus(PatchFirst(s.w.data[cid], upd)));
      PutSafe(fx, s, cid, PatchFirst(s.w.data[cid], upd));
    }
  }

  // ---------------------------------------------------------------- undisturbed adds

  /** The action writes the customer's record. */
  predicate Writes(s: Sys, a: Action, cid: string) {
    match a
    case Check(_, _, _, _) => false
    case Copy(_) => false
    case Write(t) => t in s.adds && s.adds[t].cid == cid
    case Cancel(c, _) => c == cid
    case Round(c, _, _) => c == cid
  }

  /** No action of the schedule does. */
  predicate Undisturbed(fx: Fixed, s: Sys, actions: seq<Action>, cid: string)
    decreases |actions|
  {
    actions != [] ==>
      && !Writes(s, actions[0], cid)
      && (Do(fx, s, actions[0]).Some? ==> Undisturbed(fx, Do(fx, s, actions[0]).value, actions[1..], cid))
  }

  /** The add is still under way, and the record is as it was checked and, if it was, copied. */
  predicate Fresh(s: Sys, t: nat, add: Add) {
    && t in s.adds && s.adds[t].cid == add.cid && s.adds[t].sub == add.sub && s.adds[t].today == add.today
    && s.adds[t].seen == add.seen && (s.adds[t].Copied? ==> s.adds[t].copy == add.seen)
    && add.cid in s.w.data && s.w.data[add.cid] == add.seen
  }

  lemma FreshStep(fx: Fixed, s: Sys, t: nat, add: Add, a: Action)
    requires Fresh(s, t, add) && Do(fx, s, a).Some? && !Writes(s, a, add.cid) && t in Do(fx, s, a).value.adds
    ensures Fresh(Do(fx, s, a).value, t, add)
  {
  }

  /** An add that nothing disturbs stays fresh. */
  lemma {:induction false} StaysFresh(fx: Fixed, s: Sys, t: nat, add: Add, actions: seq<Action>)
    requires Fresh(s, t, add) && Exec(fx, s, actions).Some? && Undisturbed(fx, s, actions, add.cid)
    requires Throughout(fx, s, actions, t)
    ensures Fresh(Exec(fx, s, actions).value, t, add)
    decreases |actions|
  {
    if actions != [] {
      FreshStep(fx, s, t, add, actions[0]);
      StaysFresh(fx, Do(fx, s, actions[0]).value, t, add, actions[1..]);
    }
  }

  /** The add is under way all along. */
  predicate Throughout(fx: Fixed, s: Sys, actions: seq<Action>, t: nat)
    decreases |actions|
  {
    t in s.adds && (actions != [] && Do(fx, s, actions[0]).Some? ==> Throughout(fx, Do(fx, s, actions[0]).value, actions[1..], t))
  }

  /**
   * Nothing else writes the customer's record between the check and the write of an add, whatever else happens: then
   * the write does to billing what the whole request does as one step, on the record as it stands, and the check it
   * passed holds of that record.
   */
  lemma UndisturbedAddIsAtomic(fx: Fixed, s: Sys, t: nat, cid: string, sub: NewSubscription, today: string, between: seq<Action>)
    requires t !in s.adds && cid in s.w.data && ValidCombination(fx.graph, ActiveSkus(s.w.data[cid]) + {sub.sku})
    requires var checked := CheckStep(fx, s, t, cid, sub, today);
             && Exec(fx, checked, between).Some?
             && Undisturbed(fx, checked, between, cid) && Throughout(fx, checked, between, t)
             && Do(fx, Exec(fx, checked, between).value, Write(t)).Some?
    ensures var now := Exec(fx, CheckStep(fx, s, t, cid, sub, today), between).value;
            && CombinationAccepted(fx, now.w, cid, sub.sku)
            && Do(fx, now, Write(t)).value.w == PatchWorld(fx, now.w, cid, Patch(None, Some(sub)), today).0
            && !JoinsUnseen(fx, now, Write(t))
  {
    var checked, add := CheckStep(fx, s, t, cid, sub, today), Checked(cid, sub, today, s.w.data[cid]);
    StaysFresh(fx, checked, t, add, between);
  }

  /** No step of the schedule joins unseen. */
  predicate NeverJoinsUnseen(fx: Fixed, s: Sys, actions: seq<Action>)
    decreases |actions|
  {
    actions != [] ==>
      && !JoinsUnseen(fx, s, actions[0])
      && (Do(fx, s, actions[0]).Some? ==> NeverJoinsUnseen(fx, Do(fx, s, actions[0]).value, actions[1..]))
  }

  /** Such schedules never join exclusive products, however checks, copies and writes interleave. */
  lemma {:induction false} SchedulesStaySafe(fx: Fixed, s: Sys, actions: seq<Action>)
    requires Safe(fx, s) && Exec(fx, s, actions).Some? && NeverJoinsUnseen(fx, s, actions)
    ensures Safe(fx, Exec(fx, s, actions).value)
    decreases |actions|
  {
    if actions != [] {
      StepSafeExactly(fx, s, actions[0]);
      SchedulesStaySafe(fx, Do(fx, s, actions[0]).value, actions[1..]);
    }
  }

  // ---------------------------------------------------------------- two schedules that go wrong

  predicate Leads(fx: Fixed, s: Sys, actions: seq<Action>, s': Sys) {
    Exec(fx, s, actions) == Some(s')
  }

  lemma LeadsOne(fx: Fixed, s: Sys, a: Action, s': Sys)
    requires Do(fx, s, a) == Some(s')
    ensures Leads(fx, s, [a], s')
  {
    assert [a][1..] == [];
  }

  lemma {:induction false} LeadsOn(fx: Fixed, s: Sys, xs: seq<Action>, s1: Sys, ys: seq<Action>, s2: Sys)
    requires Leads(fx, s, xs, s1) && Leads(fx, s1, ys, s2)
    ensures Leads(fx, s, xs + ys, s2)
    decreases |xs|
  {
    if xs == [] {
      assert xs + ys == ys;
    } else {
      LeadsOn(fx, Do(fx, s, xs[0]).value, xs[1..], s1, ys, s2);
      assert (xs + ys)[1..] == xs[1..] + ys;
    }
  }

  function Joining(sku: string): NewSubscription {
    NewSubscription(sku, "A", 1, None)
  }

  /** The record of a customer without lines after an add, when no policy is loaded. */
  function OneLine(products: Catalogue, sku: string): seq<SubLine> {
    var reply := ApplyAdd([], products, [], Joining(sku), "today");
    if reply.Written? then reply.lines else []
  }

  lemma OneLineIs(products: Catalogue, sku: string)
    requires sku in products && products[sku].listPrice.Some?
    ensures ApplyAdd([], products, [], Joining(sku), "today") == Written(OneLine(products, sku))
    ensures forall x :: HasSku(OneLine(products, sku), x) <==> x == sku
    ensures ActiveSkus(OneLine(products, sku)) == {sku}
  {
    AddWritten(products, [], Joining(sku));
    var lines := OneLine(products, sku);
    assert lines == [lines[0]];
  }

  /** Two adds, so far as they are under way. */
  function Adding(w: World, first: Option<Add>, second: Option<Add>): Sys {
    Sys(w, (if first.Some? then map[0 := first.value] else map[]) + (if second.Some? then map[1 := second.value] else map[]))
  }

  function With(w: World, cid: string, lines: seq<SubLine>): World {
    w.(data := w.data[cid := lines])
  }

  function CheckedOn(cid: string, sku: string, seen: seq<SubLine>): Add {
    Checked(cid, Joining(sku), "today", seen)
  }

  function CopiedOn(cid: string, sku: string, seen: seq<SubLine>, copy: seq<SubLine>): Add {
    Copied(cid, Joining(sku), "today", seen, copy)
  }

  function BothChecks(cid: string, x: string, y: string): seq<Action> {
    [Check(0, cid, Joining(x), "today")] + [Check(1, cid, Joining(y), "today")]
  }

  lemma CheckFirst(fx: Fixed, w: World, cid: string, x: string)
    requires cid in w.data && ValidCombination(fx.graph, ActiveSkus(w.data[cid]) + {x})
    ensures Leads(fx, Sys(w, map[]), [Check(0, cid, Joining(x), "today")], Adding(w, Some(CheckedOn(cid, x, w.data[cid])), None))
  {
    var s := Sys(w, map[]);
    var s' := Adding(w, Some(CheckedOn(cid, x, w.data[cid])), None);
    assert s.adds[0 := CheckedOn(cid, x, w.data[cid])] == s'.adds;
    LeadsOne(fx, s, Check(0, cid, Joining(x), "today"), s');
  }

  lemma CheckSecond(fx: Fixed, w: World, first: Option<Add>, cid: string, y: string)
    requires cid in w.data && ValidCombination(fx.graph, ActiveSkus(w.data[cid]) + {y})
    ensures Leads(fx, Adding(w, first, None), [Check(1, cid, Joining(y), "today")], Adding(w, first, Some(CheckedOn(cid, y, w.data[cid]))))
  {
    var s, s' := Adding(w, first, None), Adding(w, first, Some(CheckedOn(cid, y, w.data[cid])));
    assert s.adds[1 := CheckedOn(cid, y, w.data[cid])] == s'.adds;
    LeadsOne(fx, s, Check(1, cid, Joining(y), "today"), s');
  }

  lemma CopyFirst(fx: Fixed, w: World, cid: string, x: string, seen: seq<SubLine>, second: Option<Add>)
    requires cid in w.data && !HasSku(w.data[cid], x)
    ensures Leads(fx, Adding(w, Some(CheckedOn(cid, x, seen)), second), [Copy(0)],
                  Adding(w, Some(CopiedOn(cid, x, seen, w.data[cid])), second))
  {
    var s, s' := Adding(w, Some(CheckedOn(cid, x, seen)), second), Adding(w, Some(CopiedOn(cid, x, seen, w.data[cid])), second);
    assert s.adds[0 := CopiedOn(cid, x, seen, w.data[cid])] == s'.adds;
    LeadsOne(fx, s, Copy(0), s');
  }

  lemma CopySecond(fx: Fixed, w: World, cid: string, y: string, seen: seq<SubLine>, first: Option<Add>)
    requires cid in w.data && !HasSku(w.data[cid], y)
    ensures Leads(fx, Adding(w, first, Some(CheckedOn(cid, y, seen))), [Copy(1)],
                  Adding(w, first, Some(CopiedOn(cid, y, seen, w.data[cid]))))
  {
    var s, s' := Adding(w, first, Some(CheckedOn(cid, y, seen))), Adding(w, first, Some(CopiedOn(cid, y, seen, w.data[cid])));
    assert s.adds[1 := CopiedOn(cid, y, seen, w.data[cid])] == s'.adds;
    LeadsOne(fx, s, Copy(1), s');
  }

  lemma FirstGone(w: World, w': World, a: Add, second: Option<Add>)
    ensures Adding(w, Some(a), second).adds - {0} == Adding(w', None, second).adds
  {
  }

  lemma SecondGone(w: World, w': World, first: Option<Add>, b: Add)
    ensures Adding(w, first, Some(b)).adds - {1} == Adding(w', first, None).adds
  {
  }

  lemma WriteDone(fx: Fixed, s: Sys, t: nat, out: seq<SubLine>, s': Sys)
    requires t in s.adds && s.adds[t].Copied? && s' == Drop(Put(s, s.adds[t].cid, out), t)
    requires ApplyAdd(fx.policies, s.w.products, s.adds[t].copy, s.adds[t].sub, s.adds[t].today) == Written(out)
    ensures Leads(fx, s, [Write(t)], s')
  {
    LeadsOne(fx, s, Write(t), s');
  }

  lemma WriteFirst(fx: Fixed, w: World, cid: string, x: string, seen: seq<SubLine>, copy: seq<SubLine>, second: Option<Add>, out: seq<SubLine>)
    requires ApplyAdd(fx.policies, w.products, copy, Joining(x), "today") == Written(out)
    ensures Leads(fx, Adding(w, Some(CopiedOn(cid, x, seen, copy)), second), [Write(0)], Adding(With(w, cid, out), None, second))
  {
    var s, s' := Adding(w, Some(CopiedOn(cid, x, seen, copy)), second), Adding(With(w, cid, out), None, second);
    FirstGone(w, With(w, cid, out), CopiedOn(cid, x, seen, copy), second);
    WriteDone(fx, s, 0, out, s');
  }

  lemma WriteSecond(fx: Fixed, w: World, cid: string, y: string, seen: seq<SubLine>, copy: seq<SubLine>, first: Option<Add>, out: seq<SubLine>)
    requires ApplyAdd(fx.policies, w.products, copy, Joining(y), "today") == Written(out)
    ensures Leads(fx, Adding(w, first, Some(CopiedOn(cid, y, seen, copy))), [Write(1)], Adding(With(w, cid, out), first, None))
  {
    var s, s' := Adding(w, first, Some(CopiedOn(cid, y, seen, copy))), Adding(With(w, cid, out), first, None);
    SecondGone(w, With(w, cid, out), first, CopiedOn(cid, y, seen, copy));
    WriteDone(fx, s, 1, out, s');
  }

  /** A customer without lines, two products on sale, each fine alone, and no policies. */
  predicate TwoOnSale(fx: Fixed, w: World, cid: string, x: string, y: string) {
    && fx.policies == [] && cid in w.data && w.data[cid] == [] && x != y
    && x in w.products && y in w.products && w.products[x].listPrice.Some? && w.products[y].listPrice.Some?
    && ValidCombination(fx.graph, {x}) && ValidCombination(fx.graph, {y})
  }

  lemma BothChecked(fx: Fixed, w: World, cid: string, x: string, y: string)
    requires TwoOnSale(fx, w, cid, x, y)
    ensures Leads(fx, Sys(w, map[]), BothChecks(cid, x, y), Adding(w, Some(CheckedOn(cid, x, [])), Some(CheckedOn(cid, y, []))))
  {
    var none: seq<SubLine> := [];
    assert ActiveSkus(none) + {x} == {x} && ActiveSkus(none) + {y} == {y};
    CheckFirst(fx, w, cid, x);
    CheckSecond(fx, w, Some(CheckedOn(cid, x, [])), cid, y);
    LeadsOn(fx, Sys(w, map[]), [Check(0, cid, Joining(x), "today")], Adding(w, Some(CheckedOn(cid, x, [])), None),
            [Check(1, cid, Joining(y), "today")], Adding(w, Some(CheckedOn(cid, x, [])), Some(CheckedOn(cid, y, []))));
  }

  lemma FourOn(fx: Fixed, s: Sys, xs: seq<Action>, s0: Sys, a: Action, s1: Sys, b: Action, s2: Sys, c: Action, s3: Sys, d: Action, s4: Sys)
    requires Leads(fx, s, xs, s0) && Leads(fx, s0, [a], s1) && Leads(fx, s1, [b], s2) && Leads(fx, s2, [c], s3) && Leads(fx, s3, [d], s4)
    ensures Leads(fx, s, xs + [a, b, c, d], s4)
  {
    LeadsOn(fx, s, xs, s0, [a], s1);
    LeadsOn(fx, s, xs + [a], s1, [b], s2);
    LeadsOn(fx, s, xs + [a] + [b], s2, [c], s3);
    LeadsOn(fx, s, xs + [a] + [b] + [c], s3, [d], s4);
    assert xs + [a] + [b] + [c] + [d] == xs + [a, b, c, d];
  }

  lemma LostSchedule(fx: Fixed, w: World, cid: string, x: string, y: string, one: seq<SubLine>, other: seq<SubLine>)
    requires TwoOnSale(fx, w, cid, x, y)
    requires ApplyAdd(fx.policies, w.products, [], Joining(x), "today") == Written(one)
    requires ApplyAdd(fx.policies, w.products, [], Joining(y), "today") == Written(other)
    ensures Leads(fx, Sys(w, map[]), BothChecks(cid, x, y) + [Copy(0), Copy(1), Write(0), Write(1)],
                  Adding(With(With(w, cid, one), cid, other), None, None))
  {
    var a, b, a', b' := CheckedOn(cid, x, []), CheckedOn(cid, y, []), CopiedOn(cid, x, [], []), CopiedOn(cid, y, [], []);
    BothChecked(fx, w, cid, x, y);
    CopyFirst(fx, w, cid, x, [], Some(b));
    CopySecond(fx, w, cid, y, [], Some(a'));
    WriteFirst(fx, w, cid, x, [], [], Some(b'), one);
    WriteSecond(fx, With(w, cid, one), cid, y, [], [], None, other);
    FourOn(fx, Sys(w, map[]), BothChecks(cid, x, y), Adding(w, Some(a), Some(b)), Copy(0), Adding(w, Some(a'), Some(b)),
           Copy(1), Adding(w, Some(a'), Some(b')), Write(0), Adding(With(w, cid, one), None, Some(b')),
           Write(1), Adding(With(With(w, cid, one), cid, other), None, None));
  }

  /** Two adds copy the same empty record: the one written first is lost. */
  lemma AddIsLost(fx: Fixed, w: World, cid: string, x: string, y: string) returns (end: Sys)
    requires TwoOnSale(fx, w, cid, x, y)
    ensures Exec(fx, Sys(w, map[]), BothChecks(cid, x, y) + [Copy(0), Copy(1), Write(0), Write(1)]) == Some(end)
    ensures cid in end.w.data && HasSku(end.w.data[cid], y) && !HasSku(end.w.data[cid], x)
  {
    OneLineIs(w.products, x);
    OneLineIs(w.products, y);
    var one, other := OneLine(w.products, x), OneLine(w.products, y);
    LostSchedule(fx, w, cid, x, y, one, other);
    end := Adding(With(With(w, cid, one), cid, other), None, None);
  }

  lemma JoiningSchedule(fx: Fixed, w: World, cid: string, x: string, y: string, one: seq<SubLine>, two: seq<SubLine>)
    requires TwoOnSale(fx, w, cid, x, y) && !HasSku(one, y)
    requires ApplyAdd(fx.policies, w.products, [], Joining(x), "today") == Written(one)
    requires ApplyAdd(fx.policies, w.products, one, Joining(y), "today") == Written(two)
    ensures Leads(fx, Sys(w, map[]), BothChecks(cid, x, y) + [Copy(0), Write(0), Copy(1), Write(1)],
                  Adding(With(With(w, cid, one), cid, two), None, None))
  {
    var a, b, a', b' := CheckedOn(cid, x, []), CheckedOn(cid, y, []), CopiedOn(cid, x, [], []), CopiedOn(cid, y, [], one);
    var w1 := With(w, cid, one);
    BothChecked(fx, w, cid, x, y);
    CopyFirst(fx, w, cid, x, [], Some(b));
    WriteFirst(fx, w, cid, x, [], [], Some(b), one);
    CopySecond(fx, w1, cid, y, [], None);
    WriteSecond(fx, w1, cid, y, [], one, None, two);
    FourOn(fx, Sys(w, map[]), BothChecks(cid, x, y), Adding(w, Some(a), Some(b)), Copy(0), Adding(w, Some(a'), Some(b)),
           Write(0), Adding(w1, None, Some(b)), Copy(1), Adding(w1, None, Some(b')), Write(1), Adding(With(w1, cid, two), None, None));
  }

  /** Both adds are checked before either is written: incompatible products are joined. */
  lemma AddsJoinIncompatible(fx: Fixed, w: World, cid: string, x: string, y: string) returns (end: Sys)
    requires TwoOnSale(fx, w, cid, x, y) && Edge(y, x, IncompatibleWith) in fx.graph.edges
    ensures Exec(fx, Sys(w, map[]), BothChecks(cid, x, y) + [Copy(0), Write(0), Copy(1), Write(1)]) == Some(end)
    ensures cid in end.w.data && ActiveSkus(end.w.data[cid]) == {x, y} && !ConflictFree(fx.graph, ActiveSkus(end.w.data[cid]))
  {
    OneLineIs(w.products, x);
    var one := OneLine(w.products, x);
    AddWritten(w.products, one, Joining(y));
    var two := ApplyAdd([], w.products, one, Joining(y), "today").lines;
    AddedActiveSkus([], w.products, one, Joining(y), "today", two);
    JoiningSchedule(fx, w, cid, x, y, one, two);
    end := Adding(With(With(w, cid, one), cid, two), None, None);
  }
}
