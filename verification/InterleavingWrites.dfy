/** What every full write carries under arbitrary interleaving, and which step alone can lose a group. */
module InterleavingWrites {
  import opened Json
  import opened Ontology
  import opened Cache
  import opened Cdc
  import opened CdcInvariant
  import opened CdcSteps
  import opened Interleaving
  import opened InterleavingFacts

  /** An entry holds the partial of one accepted event of the customer. */
  ghost predicate HoldsOne(domains: Domains, cid: string) {
    exists e :: Accepted(e) && CustomerRef(e.raw) == Some(cid) && domains == [(e.domain, PartialOf(e))]
  }

  /** A body the cache stores as it is. */
  predicate FullBody(body: Dict) {
    !MergeHint(body) && Accepts(DataOf(body))
  }

  predicate States(body: Dict, state: string) {
    "assembly_state" in DataOf(body) && DataOf(body)["assembly_state"] == Str(state)
  }

  predicate JoinReady(body: Dict) {
    FullBody(body) && GroupName(Customer) in DataOf(body) && GroupName(Billing) in DataOf(body) && States(body, "complete")
  }

  predicate TimeoutReady(body: Dict) {
    FullBody(body) && (GroupName(Customer) in DataOf(body) <==> GroupName(Billing) !in DataOf(body))
    && States(body, "partial_timed_out")
  }

  predicate TaskReady(task: Task) {
    (task.Joining? ==> JoinReady(task.body)) && (task.TimingOut? ==> TimeoutReady(task.body))
  }

  ghost predicate WritesReady(s: Sys) {
    && (forall c :: c in s.pending ==> HoldsOne(s.pending[c].pa.domains, c))
    && (forall t :: t in s.tasks ==> TaskReady(s.tasks[t]))
  }

  lemma OneHeld(domains: Domains, cid: string, e: Event)
    requires Accepted(e) && CustomerRef(e.raw) == Some(cid) && domains == [(e.domain, PartialOf(e))]
    ensures HoldsOne(domains, cid)
  {
  }

  lemma CreateReady(s: Sys, t: nat, cid: string, pa: Pending)
    requires WritesReady(s) && HoldsOne(pa.domains, cid)
    ensures WritesReady(CreateEntry(s, t, cid, pa))
  {
  }

  lemma UpdateReady(s: Sys, t: nat, cid: string, pa: Pending)
    requires WritesReady(s) && cid in s.pending && HoldsOne(pa.domains, cid)
    ensures WritesReady(UpdateEntry(s, t, cid, pa))
  {
  }

  lemma JoinEntryReady(s: Sys, t: nat, cid: string, body: Dict)
    requires WritesReady(s) && cid in s.pending && JoinReady(body)
    ensures WritesReady(JoinEntry(s, t, cid, body))
  {
  }

  lemma JoinedReady(first: Event, second: Event, cid: string)
    requires Accepted(first) && Accepted(second) && second.domain == Other(first.domain)
    requires CustomerRef(first.raw) == CustomerRef(second.raw) == Some(cid)
    ensures JoinReady(JoinBody([(first.domain, PartialOf(first)), (second.domain, PartialOf(second))], second.now))
  {
    JoinBodyShape(first, second, second.now);
  }

  lemma TimeoutBodyReady(e: Event, now: int)
    requires Accepted(e)
    ensures TimeoutReady(TimeoutBody([(e.domain, PartialOf(e))], now))
  {
    var body := TimeoutBody([(e.domain, PartialOf(e))], now);
    TimeoutBodyShape(e, now);
    TimeoutGroups(PartialOf(e), e, body);
  }

  lemma TimeoutGroups(p: Dict, e: Event, body: Dict)
    requires Accepted(e) && p == PartialOf(e) && body.Keys == p.Keys + {"assembly_state", "missing_domains"}
    ensures GroupName(Customer) in body <==> GroupName(Billing) !in body
  {
    PartialShape(e);
    GroupNames();
  }

  lemma TimedOutReady(domains: Domains, cid: string, now: int)
    requires HoldsOne(domains, cid)
    ensures TimeoutReady(TimeoutBody(domains, now))
  {
    var e :| Accepted(e) && CustomerRef(e.raw) == Some(cid) && domains == [(e.domain, PartialOf(e))];
    TimeoutBodyReady(e, now);
  }

  /** The pending entry of the customer, if any, and the arriving event: both domains, or one again. */
  lemma LockedReady(s: Sys, t: nat, e: Event)
    requires WritesReady(s) && Accepted(e)
    ensures WritesReady(LockedSection(s, t, e))
  {
    var cid := CustomerRef(e.raw).value;
    if cid in s.pending {
      var first :| Accepted(first) && CustomerRef(first.raw) == Some(cid)
                   && s.pending[cid].pa.domains == [(first.domain, PartialOf(first))];
      LockedBeside(s, t, first, e, cid);
    } else {
      LockedAlone(s, t, e, cid);
    }
  }

  lemma LockedAlone(s: Sys, t: nat, e: Event, cid: string)
    requires WritesReady(s) && Accepted(e) && CustomerRef(e.raw) == Some(cid) && cid !in s.pending
    ensures WritesReady(LockedSection(s, t, e))
  {
    var pa := Pending(e.corr, [(e.domain, PartialOf(e))], [e.domain], e.now, e.now + TIMEOUT_SECONDS);
    OneHeld(pa.domains, cid, e);
    CreateReady(s, t, cid, pa);
    AsReady(CreateEntry(s, t, cid, pa), LockedSection(s, t, e));
  }

  lemma AsReady(s: Sys, s': Sys)
    requires WritesReady(s) && s' == s
    ensures WritesReady(s')
  {
  }

  lemma LockedBeside(s: Sys, t: nat, first: Event, e: Event, cid: string)
    requires WritesReady(s) && Accepted(e) && Accepted(first)
    requires CustomerRef(e.raw) == CustomerRef(first.raw) == Some(cid)
    requires cid in s.pending && s.pending[cid].pa.domains == [(first.domain, PartialOf(first))]
    ensures WritesReady(LockedSection(s, t, e))
  {
    var pa, domains := s.pending[cid].pa, PutDomain([(first.domain, PartialOf(first))], e.domain, PartialOf(e));
    PutDomainPair(first.domain, PartialOf(first), e);
    if e.domain == first.domain {
      var updated := pa.(domains := domains, received := pa.received + [e.domain]);
      OneHeld(updated.domains, cid, e);
      UpdateReady(s, t, cid, updated);
    } else {
      JoinedReady(first, e, cid);
      JoinEntryReady(s, t, cid, JoinBody(domains, e.now));
    }
  }

  lemma StepReady(s: Sys, a: Action)
    requires WritesReady(s) && Do(s, a).Some?
    ensures WritesReady(Do(s, a).value)
  {
    if a.Locked? {
      LockedReady(s, a.t, s.tasks[a.t].e);
    } else if a.SweepPop? {
      PopReady(s, a.t);
    } else {
      OtherStepReady(s, a);
    }
  }

  lemma PopReady(s: Sys, t: nat)
    requires WritesReady(s) && Do(s, SweepPop(t)).Some?
    ensures WritesReady(Do(s, SweepPop(t)).value)
  {
    var s', task := Do(s, SweepPop(t)).value, s.tasks[t];
    if task.todo[0] in s.pending {
      TimedOutReady(s.pending[task.todo[0]].pa.domains, task.todo[0], task.now);
      PoppedReady(s, s', t);
    } else {
      QuietReady(s, s');
    }
  }

  lemma PoppedReady(s: Sys, s': Sys, t: nat)
    requires WritesReady(s) && t in s'.tasks && s'.tasks == s.tasks[t := s'.tasks[t]] && TaskReady(s'.tasks[t])
    requires forall c :: c in s'.pending ==> c in s.pending && s'.pending[c] == s.pending[c]
    ensures WritesReady(s')
  {
  }

  lemma QuietReady(s: Sys, s': Sys)
    requires WritesReady(s) && s'.pending == s.pending
    requires forall t :: t in s'.tasks ==> (t in s.tasks && s'.tasks[t] == s.tasks[t]) || s'.tasks[t].Looked? || s'.tasks[t].Sweeping?
    ensures WritesReady(s')
  {
  }

  lemma OtherStepReady(s: Sys, a: Action)
    requires WritesReady(s) && Do(s, a).Some? && !a.Locked? && !a.SweepPop?
    ensures WritesReady(Do(s, a).value)
  {
    match a {
    case UpsertPut(t) =>
      PutFrame(Finish(s, t), CustomerRef(s.tasks[t].e.raw).value, UpsertBody(s.tasks[t].existing.value, s.tasks[t].e));
    case JoinPut(t) => PutFrame(Finish(s, t), s.tasks[t].cid, s.tasks[t].body);
    case MergePut(cid, body) => PutFrame(s, cid, body);
    case TimeoutPut(t) => PutFrame(s, s.tasks[t].cid, s.tasks[t].body);
    case _ =>
    }
    QuietReady(s, Do(s, a).value);
  }

  lemma {:induction false} ExecReady(s: Sys, actions: seq<Action>)
    requires WritesReady(s) && Exec(s, actions).Some?
    ensures WritesReady(Exec(s, actions).value)
    decreases |actions|
  {
    if actions != [] {
      StepReady(s, actions[0]);
      ExecReady(Do(s, actions[0]).value, actions[1..]);
    }
  }

  /**
   * However the handlers interleave, no join, timeout or domain upsert is ever rejected by the cache: in every
   * reachable state each of the PUTs that a suspended handler is about to make is accepted.
   */
  lemma NoHandlerPutIsRejected(actions: seq<Action>, t: nat)
    requires Exec(INITIAL, actions).Some? && t in Exec(INITIAL, actions).value.tasks
    ensures var s := Exec(INITIAL, actions).value;
            var task := s.tasks[t];
            && (task.Joining? || task.TimingOut? ==> Put(TiersAt(s, task.cid), task.body).Ok?)
            && (task.Looked? && task.existing.Some? && Accepted(task.e) ==>
                  Put(TiersAt(s, CustomerRef(task.e.raw).value), UpsertBody(task.existing.value, task.e)).Ok?)
  {
    ExecReady(INITIAL, actions);
    var task := Exec(INITIAL, actions).value.tasks[t];
    if task.Looked? && task.existing.Some? && Accepted(task.e) {
      UpsertBodyShape(task.existing.value, task.e);
    }
  }

  /** A merge keeps every group. */
  lemma MergeKeepsGroups(s: Sys, body: Dict, cid: string, other: string, d: Domain)
    requires MergeHint(body) && HoldsGroup(s, cid, d)
    ensures HoldsGroup(PutAt(s, other, body), cid, d)
  {
  }

  /** A full write leaves the groups of its body and no others. */
  lemma FullWriteGroups(s: Sys, body: Dict, cid: string, d: Domain)
    requires FullBody(body)
    ensures HoldsGroup(PutAt(s, cid, body), cid, d) <==> GroupName(d) in DataOf(body)
  {
    GroupIsNotVersion(d);
  }

  lemma ElsewhereUntouched(s: Sys, body: Dict, cid: string, other: string, d: Domain)
    requires other != cid
    ensures HoldsGroup(PutAt(s, other, body), cid, d) <==> HoldsGroup(s, cid, d)
  {
  }

  /**
   * Which step loses a group. In every reachable state, whatever step comes next, a group that a customer's
   * cached record holds is gone after it exactly if the step is that customer's timeout PUT and the
   * timed-out partial lacks the group. Joins and merges lose nothing.
   */
  lemma GroupLostExactly(actions: seq<Action>, a: Action, cid: string, d: Domain)
    requires Exec(INITIAL, actions).Some? && Do(Exec(INITIAL, actions).value, a).Some?
    requires HoldsGroup(Exec(INITIAL, actions).value, cid, d)
    ensures var s := Exec(INITIAL, actions).value;
            !HoldsGroup(Do(s, a).value, cid, d) <==>
            a.TimeoutPut? && s.tasks[a.t].cid == cid && GroupName(d) !in DataOf(s.tasks[a.t].body)
  {
    ExecReady(INITIAL, actions);
    StepGroups(Exec(INITIAL, actions).value, a, cid, d);
  }

  lemma StepGroups(s: Sys, a: Action, cid: string, d: Domain)
    requires WritesReady(s) && Do(s, a).Some? && HoldsGroup(s, cid, d)
    ensures !HoldsGroup(Do(s, a).value, cid, d) <==>
            a.TimeoutPut? && s.tasks[a.t].cid == cid && GroupName(d) !in DataOf(s.tasks[a.t].body)
  {
    match a
    case UpsertPut(t) =>
      UpsertBodyShape(s.tasks[t].existing.value, s.tasks[t].e);
      MergeKeepsGroups(Finish(s, t), UpsertBody(s.tasks[t].existing.value, s.tasks[t].e), cid,
                       CustomerRef(s.tasks[t].e.raw).value, d);
    case MergePut(other, body) => MergeKeepsGroups(s, body, cid, other, d);
    case JoinPut(t) =>
      var task := s.tasks[t];
      if task.cid == cid {
        FullWriteGroups(Finish(s, t), task.body, cid, d);
      } else {
        ElsewhereUntouched(Finish(s, t), task.body, cid, task.cid, d);
      }
    case TimeoutPut(t) =>
      var task := s.tasks[t];
      if task.cid == cid {
        FullWriteGroups(s, task.body, cid, d);
      } else {
        ElsewhereUntouched(s, task.body, cid, task.cid, d);
      }
    case _ =>
  }
}
