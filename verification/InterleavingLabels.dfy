/** When, at an arbitrary interleaving, a record's assembly state stops telling which groups it holds. */
module InterleavingLabels {
  import opened Json
  import opened Ontology
  import opened Cache
  import opened Cdc
  import CdcInvariant
  import opened CdcSteps
  import opened Interleaving
  import opened InterleavingFacts
  import opened InterleavingWrites

  function StateAt(s: Sys, cid: string): Json {
    if TiersAt(s, cid).hot.Some? then Get(TiersAt(s, cid).hot.value, "assembly_state", Null) else Null
  }

  predicate HoldsBoth(s: Sys, cid: string) {
    HoldsGroup(s, cid, Customer) && HoldsGroup(s, cid, Billing)
  }

  /** The record, if there is one, says `complete` exactly if it holds both groups. */
  predicate Labelled(s: Sys, cid: string) {
    TiersAt(s, cid).hot.Some? ==> (StateAt(s, cid) == Str("complete") <==> HoldsBoth(s, cid))
  }

  predicate InBody(body: Dict, d: Domain) {
    GroupName(d) in DataOf(body)
  }

  /** With the groups of the body the record comes to hold both. */
  predicate Completes(s: Sys, cid: string, body: Dict) {
    && !HoldsBoth(s, cid)
    && (HoldsGroup(s, cid, Customer) || InBody(body, Customer)) && (HoldsGroup(s, cid, Billing) || InBody(body, Billing))
  }

  /** The upsert goes by a snapshot that no longer tells whether the other domain's group is there. */
  predicate StaleSnapshot(s: Sys, cid: string, task: Task) {
    task.Looked? && task.existing.Some? && CustomerRef(task.e.raw) == Some(cid)
    && (GroupName(Other(task.e.domain)) in task.existing.value) != HoldsGroup(s, cid, Other(task.e.domain))
  }

  // ---------------------------------------------------------------- what one PUT leaves

  lemma PutFields(s: Sys, cid: string, body: Dict, k: string)
    requires Accepts(DataOf(body)) && k != "version"
    ensures var before, after := TiersAt(s, cid).hot, TiersAt(PutAt(s, cid, body), cid).hot;
            && after.Some?
            && (k in after.value <==> k in DataOf(body) || (MergeHint(body) && before.Some? && k in before.value))
            && (k in DataOf(body) ==> after.value[k] == DataOf(body)[k])
            && (k !in DataOf(body) && k in after.value ==> after.value[k] == before.value[k])
  {
  }

  lemma PutGroups(s: Sys, cid: string, body: Dict, d: Domain)
    requires Accepts(DataOf(body))
    ensures HoldsGroup(PutAt(s, cid, body), cid, d) <==> InBody(body, d) || (MergeHint(body) && HoldsGroup(s, cid, d))
  {
    GroupIsNotVersion(d);
    PutFields(s, cid, body, GroupName(d));
  }

  lemma PutState(s: Sys, cid: string, body: Dict)
    requires Accepts(DataOf(body))
    ensures TiersAt(PutAt(s, cid, body), cid).hot.Some?
    ensures StateAt(PutAt(s, cid, body), cid) ==
            if "assembly_state" in DataOf(body) then DataOf(body)["assembly_state"]
            else if MergeHint(body) then StateAt(s, cid) else Null
  {
    assert |"assembly_state"| != |"version"|;
    PutFields(s, cid, body, "assembly_state");
  }

  lemma FullWriteLabels(s: Sys, cid: string, body: Dict)
    requires JoinReady(body) || TimeoutReady(body)
    ensures Labelled(PutAt(s, cid, body), cid)
  {
    PutGroups(s, cid, body, Customer);
    PutGroups(s, cid, body, Billing);
    PutState(s, cid, body);
    CompleteIsNotTimedOut();
  }

  lemma CompleteIsNotTimedOut()
    ensures Str("complete") != Str("partial_timed_out")
  {
    assert |"complete"| != |"partial_timed_out"|;
  }

  lemma MergeLabels(s: Sys, cid: string, body: Dict)
    requires MergeHint(body) && "assembly_state" !in DataOf(body) && Labelled(s, cid)
    ensures !Labelled(PutAt(s, cid, body), cid) <==> Accepts(DataOf(body)) && Completes(s, cid, body)
  {
    if Accepts(DataOf(body)) {
      PutGroups(s, cid, body, Customer);
      PutGroups(s, cid, body, Billing);
      PutState(s, cid, body);
    }
  }

  lemma UpsertGroups(rec: Dict, e: Event)
    requires Accepted(e)
    ensures InBody(UpsertBody(rec, e), e.domain) && !InBody(UpsertBody(rec, e), Other(e.domain))
  {
    UpsertBodyShape(rec, e);
    CdcInvariant.PartialShape(e);
    CdcInvariant.GroupNames();
  }

  lemma NewStateIsComplete(rec: Dict, d: Domain)
    ensures NewState(rec, d) == "complete" <==> GroupName(Other(d)) in rec
  {
    assert |"complete"| == 8 && |"awaiting_billing"| == 16 && |"awaiting_customer"| == 17;
  }

  lemma UpsertLabels(s: Sys, cid: string, rec: Dict, e: Event)
    requires Accepted(e) && CustomerRef(e.raw) == Some(cid)
    ensures !Labelled(PutAt(s, cid, UpsertBody(rec, e)), cid) <==>
            (GroupName(Other(e.domain)) in rec) != HoldsGroup(s, cid, Other(e.domain))
  {
    var body := UpsertBody(rec, e);
    UpsertBodyShape(rec, e);
    UpsertGroups(rec, e);
    NewStateIsComplete(rec, e.domain);
    PutGroups(s, cid, body, e.domain);
    PutGroups(s, cid, body, Other(e.domain));
    PutState(s, cid, body);
  }

  lemma SameTiers(s: Sys, s': Sys, cid: string)
    requires TiersAt(s', cid) == TiersAt(s, cid)
    ensures Labelled(s', cid) <==> Labelled(s, cid)
  {
  }

  lemma LabelsElsewhere(s: Sys, body: Dict, cid: string, other: string)
    requires other != cid
    ensures TiersAt(PutAt(s, other, body), cid) == TiersAt(s, cid)
  {
  }

  // ---------------------------------------------------------------- one step

  /** The step is a merge that completes the groups without restating the label, or a stale upsert. */
  predicate Mislabels(s: Sys, a: Action, cid: string)
    requires Do(s, a).Some?
  {
    || (a.UpsertPut? && StaleSnapshot(s, cid, s.tasks[a.t]))
    || (a.MergePut? && a.cid == cid && Accepts(DataOf(a.body)) && Completes(s, cid, a.body))
  }

  lemma StepLabels(s: Sys, a: Action, cid: string)
    requires WritesReady(s) && Do(s, a).Some? && Labelled(s, cid)
    requires a.MergePut? ==> "assembly_state" !in DataOf(a.body)
    ensures !Labelled(Do(s, a).value, cid) <==> Mislabels(s, a, cid)
  {
    match a
    case UpsertPut(t) => UpsertStepLabels(s, t, cid);
    case MergePut(other, body) => MergeStepLabels(s, other, body, cid);
    case JoinPut(t) => FullStepLabels(Finish(s, t), Do(s, a).value, s.tasks[t].cid, s.tasks[t].body, cid);
    case TimeoutPut(t) => FullStepLabels(s, Do(s, a).value, s.tasks[t].cid, s.tasks[t].body, cid);
    case _ => QuietStepLabels(s, a, cid);
  }

  lemma QuietStepLabels(s: Sys, a: Action, cid: string)
    requires Do(s, a).Some? && !a.UpsertPut? && !a.MergePut? && !a.JoinPut? && !a.TimeoutPut?
    ensures Labelled(Do(s, a).value, cid) <==> Labelled(s, cid)
  {
    SameTiers(s, Do(s, a).value, cid);
  }

  lemma MergeStepLabels(s: Sys, other: string, body: Dict, cid: string)
    requires Do(s, MergePut(other, body)).Some? && Labelled(s, cid) && "assembly_state" !in DataOf(body)
    ensures !Labelled(Do(s, MergePut(other, body)).value, cid) <==>
            other == cid && Accepts(DataOf(body)) && Completes(s, cid, body)
  {
    if other == cid {
      MergeLabels(s, cid, body);
    } else {
      LabelsElsewhere(s, body, cid, other);
      SameTiers(s, PutAt(s, other, body), cid);
    }
  }

  lemma FullStepLabels(p: Sys, s': Sys, other: string, body: Dict, cid: string)
    requires (JoinReady(body) || TimeoutReady(body)) && s'.cache == PutAt(p, other, body).cache && Labelled(p, cid)
    ensures Labelled(s', cid)
  {
    SameTiers(PutAt(p, other, body), s', cid);
    if other == cid {
      FullWriteLabels(p, cid, body);
    } else {
      LabelsElsewhere(p, body, cid, other);
      SameTiers(p, PutAt(p, other, body), cid);
    }
  }

  lemma UpsertStepLabels(s: Sys, t: nat, cid: string)
    requires Do(s, UpsertPut(t)).Some? && Labelled(s, cid)
    ensures !Labelled(Do(s, UpsertPut(t)).value, cid) <==> StaleSnapshot(s, cid, s.tasks[t])
  {
    var e, rec, p := s.tasks[t].e, s.tasks[t].existing.value, Finish(s, t);
    var other := CustomerRef(e.raw).value;
    assert TiersAt(p, cid) == TiersAt(s, cid);
    if other == cid {
      UpsertLabels(p, cid, rec, e);
    } else {
      LabelsElsewhere(p, UpsertBody(rec, e), cid, other);
      SameTiers(s, PutAt(p, other, UpsertBody(rec, e)), cid);
    }
  }

  /**
   * Which step makes the label wrong. In every reachable state, from a record that is labelled rightly, the next step
   * leaves it labelled wrongly exactly if it is an upsert whose snapshot has gone stale on the other domain's group, or
   * a merge that brings the missing group without restating the state, as an enrichment after a timeout may.
   * Joins and timeouts always label rightly.
   */
  lemma LabelLostExactly(actions: seq<Action>, a: Action, cid: string)
    requires Exec(INITIAL, actions).Some? && Do(Exec(INITIAL, actions).value, a).Some?
    requires Labelled(Exec(INITIAL, actions).value, cid)
    requires a.MergePut? ==> "assembly_state" !in DataOf(a.body)
    ensures var s := Exec(INITIAL, actions).value;
            !Labelled(Do(s, a).value, cid) <==> Mislabels(s, a, cid)
  {
    ExecReady(INITIAL, actions);
    StepLabels(Exec(INITIAL, actions).value, a, cid);
  }

  // ---------------------------------------------------------------- a run that loses completeness

  lemma RunLookup(actions: seq<Action>, s: Sys, t: nat, e: Event, cid: string) returns (s': Sys)
    requires Reaches(actions, s) && Accepted(e) && CustomerRef(e.raw) == Some(cid) && t !in s.tasks
    ensures Reaches(actions + [Lookup(t, e)], s')
    ensures s' == s.(tasks := s.tasks[t := Looked(e, TiersAt(s, cid).hot)])
  {
    s' := s.(tasks := s.tasks[t := Looked(e, TiersAt(s, cid).hot)]);
    Extend(actions, s, Lookup(t, e), s');
  }

  lemma RunUpsert(actions: seq<Action>, s: Sys, t: nat, e: Event, rec: Dict, cid: string) returns (s': Sys)
    requires Reaches(actions, s) && Accepted(e) && CustomerRef(e.raw) == Some(cid)
    requires t in s.tasks && s.tasks[t] == Looked(e, Some(rec))
    ensures Reaches(actions + [UpsertPut(t)], s') && s'.tasks == s.tasks - {t}
    ensures HoldsGroup(s', cid, e.domain) && (HoldsGroup(s', cid, Other(e.domain)) <==> HoldsGroup(s, cid, Other(e.domain)))
    ensures StateAt(s', cid) == Str("complete") <==> GroupName(Other(e.domain)) in rec
  {
    var p, body := Finish(s, t), UpsertBody(rec, e);
    s' := PutAt(p, cid, body);
    Extend(actions, s, UpsertPut(t), s');
    UpsertBodyShape(rec, e);
    UpsertGroups(rec, e);
    NewStateIsComplete(rec, e.domain);
    PutGroups(p, cid, body, e.domain);
    PutGroups(p, cid, body, Other(e.domain));
    PutState(p, cid, body);
    PutFrame(p, cid, body);
  }

  lemma TimedOutAlone(first: Event, cid: string, now: int) returns (actions: seq<Action>, s: Sys)
    requires Accepted(first) && CustomerRef(first.raw) == Some(cid) && now >= first.now + TIMEOUT_SECONDS
    ensures Reaches(actions, s) && s.tasks.Keys == {3}
    ensures TiersAt(s, cid).hot.Some? && HoldsGroup(s, cid, first.domain) && !HoldsGroup(s, cid, Other(first.domain))
  {
    assert Reaches([], INITIAL);
    var s1 := RunMissedLookup([], INITIAL, 0, first, cid);
    var s2 := RunWaitsAlone([] + [Lookup(0, first)], s1, 0, first, cid);
    actions := [] + [Lookup(0, first)] + [Locked(0)];
    s := RunSweep(actions, s2, 3, cid, first, now);
    actions := actions + [SweepStart(3, [cid], now), SweepPop(3), TimeoutPut(3)];
  }

  /**
   * Completeness is lost. After a timeout two events are looked up before either is written: the other domain's
   * upsert completes the record, and the repeated one, by its stale snapshot, labels it as waiting again, although
   * both groups are there.
   */
  lemma CompletenessIsLost(first: Event, second: Event, again: Event, cid: string, now: int)
    returns (actions: seq<Action>, before: Sys, after: Sys)
    requires Accepted(first) && Accepted(second) && Accepted(again)
    requires second.domain == Other(first.domain) && again.domain == first.domain
    requires CustomerRef(first.raw) == CustomerRef(second.raw) == CustomerRef(again.raw) == Some(cid)
    requires now >= first.now + TIMEOUT_SECONDS
    ensures Reaches(actions, before) && Reaches(actions + [UpsertPut(1)], after)
    ensures HoldsBoth(before, cid) && StateAt(before, cid) == Str("complete")
    ensures HoldsBoth(after, cid) && StateAt(after, cid) != Str("complete")
  {
    var partial, s1, s2;
    actions, partial := TimedOutAlone(first, cid, now);
    var rec := TiersAt(partial, cid).hot.value;
    s1 := RunLookup(actions, partial, 1, again, cid);
    actions := actions + [Lookup(1, again)];
    s2 := RunLookup(actions, s1, 2, second, cid);
    actions := actions + [Lookup(2, second)];
    before := RunUpsert(actions, s2, 2, second, rec, cid);
    actions := actions + [UpsertPut(2)];
    after := RunUpsert(actions, before, 1, again, rec, cid);
  }
}
