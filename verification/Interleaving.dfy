/**
 * The assembly service at the granularity of its awaits. A handler looks the customer up, then works on `pending`
 * under the lock, then PUTs; the timeout checker collects the expired customers under the lock, then pops and
 * PUTs them one by one. Between any two of these steps any other handler may run.
 */
module Interleaving {
  import opened Json
  import opened Seqs
  import opened Products
  import opened Ontology
  import opened Cache
  import opened Cdc

  /** A pending assembly with the number of its correlation id; ids are fresh, so they are numbered. */
  datatype Entry = Entry(corr: nat, pa: Pending)

  /** What a suspended handler remembers. */
  datatype Task =
    | Looked(e: Event, existing: Option<Dict>)
    | Joining(cid: string, corr: nat, body: Dict)
    | Sweeping(todo: seq<string>, now: int)
    | TimingOut(cid: string, corr: nat, body: Dict, todo: seq<string>, now: int)

  datatype Sys = Sys(
    pending: map<string, Entry>, cache: map<string, Tiers>, tasks: map<nat, Task>,
    created: nat, joined: seq<nat>, timedOut: seq<nat>, written: seq<nat>)

  const INITIAL: Sys := Sys(map[], map[], map[], 0, [], [], [])

  datatype Action =
    | Lookup(t: nat, e: Event)
    | Locked(t: nat)
    | UpsertPut(t: nat)
    | JoinPut(t: nat)
    | MergePut(cid: string, body: Dict)
    | SweepStart(t: nat, todo: seq<string>, now: int)
    | SweepPop(t: nat)
    | TimeoutPut(t: nat)
    | SweepEnd(t: nat)

  function TiersAt(s: Sys, cid: string): Tiers {
    if cid in s.cache then s.cache[cid] else EMPTY
  }

  function ViewAt(s: Sys, cid: string): View {
    View(if cid in s.pending then Some(s.pending[cid].pa) else None, TiersAt(s, cid))
  }

  /** A PUT that the cache may reject. */
  function PutAt(s: Sys, cid: string, body: Dict): Sys {
    match Put(TiersAt(s, cid), body)
    case Raised => s
    case Ok(t) => s.(cache := s.cache[cid := t])
  }

  function Finish(s: Sys, t: nat): Sys {
    s.(tasks := s.tasks - {t})
  }

  /** The entry leaves `pending` and its full write is owed by handler `t`. */
  function JoinEntry(s: Sys, t: nat, cid: string, body: Dict): Sys
    requires cid in s.pending
  {
    var corr := s.pending[cid].corr;
    s.(pending := s.pending - {cid}, tasks := s.tasks[t := Joining(cid, corr, body)], joined := s.joined + [corr])
  }

  function UpdateEntry(s: Sys, t: nat, cid: string, pa: Pending): Sys
    requires cid in s.pending
  {
    Finish(s, t).(pending := s.pending[cid := s.pending[cid].(pa := pa)])
  }

  function CreateEntry(s: Sys, t: nat, cid: string, pa: Pending): Sys {
    Finish(s, t).(pending := s.pending[cid := Entry(s.created, pa)], created := s.created + 1)
  }

  /** The locked section of `process_event` after a cache miss. */
  function LockedSection(s: Sys, t: nat, e: Event): Sys
    requires Accepted(e)
  {
    var cid := CustomerRef(e.raw).value;
    if cid in s.pending then
      var pa := s.pending[cid].pa;
      var domains := PutDomain(pa.domains, e.domain, PartialOf(e));
      if AllDomains(domains) then JoinEntry(s, t, cid, JoinBody(domains, e.now))
      else UpdateEntry(s, t, cid, pa.(domains := domains, received := pa.received + [e.domain]))
    else
      CreateEntry(s, t, cid, Pending(e.corr, [(e.domain, PartialOf(e))], [e.domain], e.now, e.now + TIMEOUT_SECONDS))
  }

  predicate WouldJoin(v: View, e: Event) {
    v.pending.Some? && AllDomains(PutDomain(v.pending.value.domains, e.domain, PartialOf(e)))
  }

  /** One step, or `None` when it is not enabled. */
  function Do(s: Sys, a: Action): Option<Sys> {
    match a
    case Lookup(t, e) =>
      if t in s.tasks || !Accepted(e) then None
      else Some(s.(tasks := s.tasks[t := Looked(e, TiersAt(s, CustomerRef(e.raw).value).hot)]))
    case Locked(t) =>
      if t !in s.tasks || !s.tasks[t].Looked? || s.tasks[t].existing.Some? || !Accepted(s.tasks[t].e) then None
      else Some(LockedSection(s, t, s.tasks[t].e))
    case UpsertPut(t) =>
      if t !in s.tasks || !s.tasks[t].Looked? || s.tasks[t].existing.None? || !Accepted(s.tasks[t].e) then None
      else
        var e := s.tasks[t].e;
        Some(PutAt(Finish(s, t), CustomerRef(e.raw).value, UpsertBody(s.tasks[t].existing.value, e)))
    case JoinPut(t) =>
      if t !in s.tasks || !s.tasks[t].Joining? then None
      else
        var task := s.tasks[t];
        Some(PutAt(Finish(s, t), task.cid, task.body).(written := s.written + [task.corr]))
    case MergePut(cid, body) =>
      if !MergeHint(body) then None else Some(PutAt(s, cid, body))
    case SweepStart(t, todo, now) =>
      if t in s.tasks || !NoDuplicates(todo)
         || exists c :: c in todo && (c !in s.pending || now < s.pending[c].pa.timeoutAt) then None
      else Some(s.(tasks := s.tasks[t := Sweeping(todo, now)]))
    case SweepPop(t) =>
      if t !in s.tasks || !s.tasks[t].Sweeping? || s.tasks[t].todo == [] then None
      else
        var task := s.tasks[t];
        var cid := task.todo[0];
        if cid in s.pending then
          var entry := s.pending[cid];
          Some(s.(pending := s.pending - {cid},
                  tasks := s.tasks[t := TimingOut(cid, entry.corr, TimeoutBody(entry.pa.domains, task.now), task.todo[1..], task.now)],
                  timedOut := s.timedOut + [entry.corr]))
        else Some(s.(tasks := s.tasks[t := Sweeping(task.todo[1..], task.now)]))
    case TimeoutPut(t) =>
      if t !in s.tasks || !s.tasks[t].TimingOut? then None
      else
        var task := s.tasks[t];
        Some(PutAt(s, task.cid, task.body).(tasks := s.tasks[t := Sweeping(task.todo, task.now)],
                                            written := s.written + [task.corr]))
    case SweepEnd(t) =>
      if t !in s.tasks || !s.tasks[t].Sweeping? || s.tasks[t].todo != [] then None else Some(Finish(s, t))
  }

  function Exec(s: Sys, actions: seq<Action>): Option<Sys>
    decreases |actions|
  {
    if actions == [] then Some(s)
    else
      match Do(s, actions[0])
      case None => None
      case Some(next) => Exec(next, actions[1..])
  }

  // ---------------------------------------------------------------- accounting

  predicate Live(s: Sys, id: nat) {
    exists c :: c in s.pending && s.pending[c].corr == id
  }

  /** The suspended handler that still owes the full write of an id. */
  predicate Owes(task: Task, id: nat) {
    (task.Joining? || task.TimingOut?) && task.corr == id
  }

  /** Every created id is in exactly one of three places, and in each at most once. */
  ghost predicate Partitioned(s: Sys) {
    && (forall c, d :: c in s.pending && d in s.pending && s.pending[c].corr == s.pending[d].corr ==> c == d)
    && NoDuplicates(s.joined) && NoDuplicates(s.timedOut)
    && (forall id :: id in s.joined ==> id !in s.timedOut)
    && (forall c :: c in s.pending ==> s.pending[c].corr !in s.joined && s.pending[c].corr !in s.timedOut)
    && (forall id: nat :: id < s.created <==> Live(s, id) || id in s.joined || id in s.timedOut)
  }

  /** Every id that left `pending` is full-written once or still owed by exactly one handler. */
  ghost predicate WritesTracked(s: Sys) {
    && NoDuplicates(s.written)
    && (forall id :: id in s.written ==> id in s.joined || id in s.timedOut)
    && (forall t, id :: t in s.tasks && Owes(s.tasks[t], id) ==> (id in s.joined || id in s.timedOut) && id !in s.written)
    && (forall t, u, id :: t in s.tasks && u in s.tasks && Owes(s.tasks[t], id) && Owes(s.tasks[u], id) ==> t == u)
    && (forall id :: id in s.joined || id in s.timedOut ==>
          id in s.written || exists t :: t in s.tasks && Owes(s.tasks[t], id))
  }

  ghost predicate Accounted(s: Sys) {
    Partitioned(s) && WritesTracked(s) && |s.pending| + |s.joined| + |s.timedOut| == s.created
  }

  lemma RemoveKey<T>(m: map<string, T>, k: string)
    requires k in m
    ensures |m - {k}| == |m| - 1
  {
  }

  lemma AddKey<T>(m: map<string, T>, k: string, v: T)
    ensures |m[k := v]| == if k in m then |m| else |m| + 1
  {
  }

  /** Only the cache and the tasks that owe nothing changed. */
  lemma UnrelatedStep(s: Sys, s': Sys)
    requires Accounted(s)
    requires s'.pending == s.pending && s'.created == s.created
    requires s'.joined == s.joined && s'.timedOut == s.timedOut && s'.written == s.written
    requires forall t, id :: (t in s'.tasks && Owes(s'.tasks[t], id)) <==> (t in s.tasks && Owes(s.tasks[t], id))
    ensures Accounted(s')
  {
  }

  lemma CreateStep(s: Sys, s': Sys, cid: string, pa: Pending)
    requires Accounted(s) && cid !in s.pending
    requires s'.pending == s.pending[cid := Entry(s.created, pa)] && s'.created == s.created + 1
    requires s'.joined == s.joined && s'.timedOut == s.timedOut && s'.written == s.written
    requires forall t, id :: (t in s'.tasks && Owes(s'.tasks[t], id)) <==> (t in s.tasks && Owes(s.tasks[t], id))
    ensures Accounted(s')
  {
    AddKey(s.pending, cid, Entry(s.created, pa));
    forall c | c in s.pending
      ensures s.pending[c].corr < s.created
    {
      assert Live(s, s.pending[c].corr);
    }
    forall id: nat
      ensures Live(s', id) <==> Live(s, id) || id == s.created
    {
      if Live(s, id) {
        var c :| c in s.pending && s.pending[c].corr == id;
        assert c in s'.pending && s'.pending[c].corr == id;
      }
      if id == s.created {
        assert s'.pending[cid].corr == id;
      }
    }
  }

  lemma UpdateStep(s: Sys, s': Sys, cid: string, pa: Pending)
    requires Accounted(s) && cid in s.pending
    requires s'.pending == s.pending[cid := s.pending[cid].(pa := pa)] && s'.created == s.created
    requires s'.joined == s.joined && s'.timedOut == s.timedOut && s'.written == s.written
    requires forall t, id :: (t in s'.tasks && Owes(s'.tasks[t], id)) <==> (t in s.tasks && Owes(s.tasks[t], id))
    ensures Accounted(s')
  {
    AddKey(s.pending, cid, s.pending[cid].(pa := pa));
    assert forall c :: c in s'.pending <==> c in s.pending;
    assert forall c :: c in s.pending ==> s'.pending[c].corr == s.pending[c].corr;
    assert forall id :: Live(s', id) <==> Live(s, id);
  }

  /** An id leaves `pending`, joined or timed out, and its full write becomes owed by handler `t`. */
  lemma LeaveStep(s: Sys, s': Sys, cid: string, t: nat)
    requires Accounted(s) && cid in s.pending
    requires s'.pending == s.pending - {cid} && s'.created == s.created && s'.written == s.written
    requires var corr := s.pending[cid].corr;
             || (s'.joined == s.joined + [corr] && s'.timedOut == s.timedOut)
             || (s'.joined == s.joined && s'.timedOut == s.timedOut + [corr])
    requires t in s'.tasks && s'.tasks == s.tasks[t := s'.tasks[t]] && Owes(s'.tasks[t], s.pending[cid].corr)
    requires t in s.tasks && !s.tasks[t].Joining? && !s.tasks[t].TimingOut?
    ensures Accounted(s')
  {
    var corr := s.pending[cid].corr;
    RemoveKey(s.pending, cid);
    forall id: nat
      ensures Live(s, id) <==> Live(s', id) || id == corr
      ensures !(Live(s', id) && id == corr)
    {
      if Live(s, id) {
        var c :| c in s.pending && s.pending[c].corr == id;
        if c != cid {
          assert c in s'.pending && s'.pending[c].corr == id;
        }
      }
    }
    assert forall id :: id in s'.joined || id in s'.timedOut <==> id in s.joined || id in s.timedOut || id == corr;
    LeavePartition(s, s', cid);
    LeaveWrites(s, s', cid, t);
  }

  lemma LeavePartition(s: Sys, s': Sys, cid: string)
    requires Partitioned(s) && cid in s.pending
    requires s'.pending == s.pending - {cid} && s'.created == s.created
    requires var corr := s.pending[cid].corr;
             || (s'.joined == s.joined + [corr] && s'.timedOut == s.timedOut)
             || (s'.joined == s.joined && s'.timedOut == s.timedOut + [corr])
    requires forall id: nat :: Live(s, id) <==> Live(s', id) || id == s.pending[cid].corr
    ensures Partitioned(s')
  {
  }

  lemma LeaveWrites(s: Sys, s': Sys, cid: string, t: nat)
    requires Accounted(s) && cid in s.pending && s'.written == s.written
    requires var corr := s.pending[cid].corr;
             forall id :: id in s'.joined || id in s'.timedOut <==> id in s.joined || id in s.timedOut || id == corr
    requires t in s'.tasks && s'.tasks == s.tasks[t := s'.tasks[t]] && Owes(s'.tasks[t], s.pending[cid].corr)
    requires t in s.tasks && !s.tasks[t].Joining? && !s.tasks[t].TimingOut?
    ensures WritesTracked(s')
  {
    var corr := s.pending[cid].corr;
    assert corr !in s.written;
    assert forall u :: u in s.tasks ==> !Owes(s.tasks[u], corr);
    forall id | id in s'.joined || id in s'.timedOut
      ensures id in s'.written || exists u :: u in s'.tasks && Owes(s'.tasks[u], id)
    {
      if id == corr {
        assert Owes(s'.tasks[t], id);
      } else if id !in s.written {
        var u :| u in s.tasks && Owes(s.tasks[u], id);
        assert u != t && u in s'.tasks && Owes(s'.tasks[u], id);
      }
    }
  }

  /** An owed full write is done. */
  lemma WriteStep(s: Sys, s': Sys, t: nat, corr: nat)
    requires Accounted(s) && t in s.tasks && Owes(s.tasks[t], corr)
    requires s'.pending == s.pending && s'.created == s.created
    requires s'.joined == s.joined && s'.timedOut == s.timedOut && s'.written == s.written + [corr]
    requires forall u, id :: (u in s'.tasks && Owes(s'.tasks[u], id)) <==> (u in s.tasks && Owes(s.tasks[u], id) && u != t)
    ensures Accounted(s')
  {
    assert forall id :: Live(s', id) <==> Live(s, id);
    assert corr !in s.written;
    assert forall i :: 0 <= i < |s.written| ==> s.written[i] in s.written;
    forall id | id in s'.joined || id in s'.timedOut
      ensures id in s'.written || exists u :: u in s'.tasks && Owes(s'.tasks[u], id)
    {
      if id !in s'.written {
        var u :| u in s.tasks && Owes(s.tasks[u], id);
        assert u in s'.tasks && Owes(s'.tasks[u], id);
      }
    }
  }

  /** `s'` comes from one of the three outcomes of the locked section. */
  predicate EntryStep(s: Sys, s': Sys, t: nat, cid: string, body: Dict, pa: Pending) {
    if cid in s.pending then s' == JoinEntry(s, t, cid, body) || s' == UpdateEntry(s, t, cid, pa)
    else s' == CreateEntry(s, t, cid, pa)
  }

  lemma LockedIsEntryStep(s: Sys, t: nat, e: Event) returns (cid: string, body: Dict, pa: Pending)
    requires Accepted(e)
    ensures EntryStep(s, LockedSection(s, t, e), t, cid, body, pa)
  {
    cid := CustomerRef(e.raw).value;
    var domains := if cid in s.pending then PutDomain(s.pending[cid].pa.domains, e.domain, PartialOf(e)) else [];
    body := JoinBody(domains, e.now);
    pa := if cid in s.pending then s.pending[cid].pa.(domains := domains, received := s.pending[cid].pa.received + [e.domain])
          else Pending(e.corr, [(e.domain, PartialOf(e))], [e.domain], e.now, e.now + TIMEOUT_SECONDS);
  }

  lemma EntryStepAccounted(s: Sys, s': Sys, t: nat, cid: string, body: Dict, pa: Pending)
    requires Accounted(s) && t in s.tasks && s.tasks[t].Looked? && EntryStep(s, s', t, cid, body, pa)
    ensures Accounted(s')
  {
    if cid !in s.pending {
      CreateEntryAccounted(s, t, cid, pa);
    } else if s' == JoinEntry(s, t, cid, body) {
      JoinEntryAccounted(s, t, cid, body);
    } else {
      UpdateEntryAccounted(s, t, cid, pa);
    }
  }

  lemma LockedAccounted(s: Sys, t: nat, e: Event)
    requires Accounted(s) && t in s.tasks && s.tasks[t].Looked? && Accepted(e)
    ensures Accounted(LockedSection(s, t, e))
  {
    var cid, body, pa := LockedIsEntryStep(s, t, e);
    EntryStepAccounted(s, LockedSection(s, t, e), t, cid, body, pa);
  }

  lemma JoinEntryAccounted(s: Sys, t: nat, cid: string, body: Dict)
    requires Accounted(s) && t in s.tasks && s.tasks[t].Looked? && cid in s.pending
    ensures Accounted(JoinEntry(s, t, cid, body))
  {
    LeaveStep(s, JoinEntry(s, t, cid, body), cid, t);
  }

  lemma UpdateEntryAccounted(s: Sys, t: nat, cid: string, pa: Pending)
    requires Accounted(s) && t in s.tasks && s.tasks[t].Looked? && cid in s.pending
    ensures Accounted(UpdateEntry(s, t, cid, pa))
  {
    UpdateStep(s, UpdateEntry(s, t, cid, pa), cid, pa);
  }

  lemma CreateEntryAccounted(s: Sys, t: nat, cid: string, pa: Pending)
    requires Accounted(s) && t in s.tasks && s.tasks[t].Looked? && cid !in s.pending
    ensures Accounted(CreateEntry(s, t, cid, pa))
  {
    CreateStep(s, CreateEntry(s, t, cid, pa), cid, pa);
  }

  lemma PutFrame(s: Sys, cid: string, body: Dict)
    ensures PutAt(s, cid, body) == s.(cache := PutAt(s, cid, body).cache)
  {
  }

  lemma UpsertPutAccounted(s: Sys, t: nat)
    requires Accounted(s) && Do(s, UpsertPut(t)).Some?
    ensures Accounted(Do(s, UpsertPut(t)).value)
  {
    var e := s.tasks[t].e;
    QuietPut(s, Finish(s, t), CustomerRef(e.raw).value, UpsertBody(s.tasks[t].existing.value, e));
  }

  /** A PUT by a handler that owes no full write. */
  lemma QuietPut(s: Sys, p: Sys, cid: string, body: Dict)
    requires Accounted(s) && p == s.(tasks := p.tasks)
    requires forall t, id :: (t in p.tasks && Owes(p.tasks[t], id)) <==> (t in s.tasks && Owes(s.tasks[t], id))
    ensures Accounted(PutAt(p, cid, body))
  {
    PutFrame(p, cid, body);
    UnrelatedStep(s, PutAt(p, cid, body));
  }

  lemma JoinPutAccounted(s: Sys, t: nat)
    requires Accounted(s) && Do(s, JoinPut(t)).Some?
    ensures Accounted(Do(s, JoinPut(t)).value)
  {
    PutFrame(Finish(s, t), s.tasks[t].cid, s.tasks[t].body);
    var s' := Do(s, JoinPut(t)).value;
    assert s'.tasks == s.tasks - {t};
    WriteStep(s, s', t, s.tasks[t].corr);
  }

  lemma SweepStepAccounted(s: Sys, a: Action)
    requires Accounted(s) && Do(s, a).Some? && (a.SweepStart? || a.SweepPop? || a.TimeoutPut? || a.SweepEnd?)
    ensures Accounted(Do(s, a).value)
  {
    var s' := Do(s, a).value;
    match a
    case SweepStart(_, _, _) => UnrelatedStep(s, s');
    case SweepPop(t) => PopAccounted(s, t);
    case TimeoutPut(t) =>
      PutFrame(s, s.tasks[t].cid, s.tasks[t].body);
      WriteStep(s, s', t, s.tasks[t].corr);
    case SweepEnd(_) => UnrelatedStep(s, s');
  }

  lemma PopAccounted(s: Sys, t: nat)
    requires Accounted(s) && Do(s, SweepPop(t)).Some?
    ensures Accounted(Do(s, SweepPop(t)).value)
  {
    var s' := Do(s, SweepPop(t)).value;
    if s.tasks[t].todo[0] in s.pending {
      LeaveStep(s, s', s.tasks[t].todo[0], t);
    } else {
      UnrelatedStep(s, s');
    }
  }

  lemma StepAccounted(s: Sys, a: Action)
    requires Accounted(s) && Do(s, a).Some?
    ensures Accounted(Do(s, a).value)
  {
    if a.Locked? {
      LockedAccounted(s, a.t, s.tasks[a.t].e);
    } else if a.MergePut? {
      PutFrame(s, a.cid, a.body);
      UnrelatedStep(s, Do(s, a).value);
    } else if a.Lookup? {
      UnrelatedStep(s, Do(s, a).value);
    } else if a.UpsertPut? {
      UpsertPutAccounted(s, a.t);
    } else if a.JoinPut? {
      JoinPutAccounted(s, a.t);
    } else {
      SweepStepAccounted(s, a);
    }
  }

  lemma {:induction false} ExecAccounted(s: Sys, actions: seq<Action>)
    requires Accounted(s) && Exec(s, actions).Some?
    ensures Accounted(Exec(s, actions).value)
    decreases |actions|
  {
    if actions != [] {
      StepAccounted(s, actions[0]);
      ExecAccounted(Do(s, actions[0]).value, actions[1..]);
    }
  }

  /**
   * Pending accounting under arbitrary interleaving: each customer has at most one live entry, each correlation
   * id leaves `pending` exactly once, joined or timed out and never both, so the created ones are the live, the
   * joined and the timed-out ones; and no id is full-written twice, nor left unwritten once nothing is in flight.
   */
  lemma PendingAccounting(actions: seq<Action>)
    requires Exec(INITIAL, actions).Some?
    ensures var s := Exec(INITIAL, actions).value;
            && s.created == |s.pending| + |s.joined| + |s.timedOut|
            && Partitioned(s)
            && NoDuplicates(s.written)
            && (s.tasks == map[] ==> forall id :: id in s.written <==> id in s.joined || id in s.timedOut)
  {
    assert Accounted(INITIAL);
    ExecAccounted(INITIAL, actions);
  }

  // ---------------------------------------------------------------- back to atomic steps

  /** The enrichment that follows a write: a merge PUT of what the record enriches to. */
  function Enriched(s: Sys, cid: string, products: Catalogue, now: int): Sys {
    if TiersAt(s, cid).hot.None? then s
    else
      match EnrichBody(TiersAt(s, cid).hot.value, products, now)
      case None => s
      case Some(body) => if Do(s, MergePut(cid, body)).Some? then Do(s, MergePut(cid, body)).value else s
  }

  lemma EnrichedIsEnrich(s: Sys, cid: string, products: Catalogue, now: int, c: string)
    ensures ViewAt(Enriched(s, cid, products, now), c) ==
            if c == cid then ViewAt(s, c).(tiers := Enrich(TiersAt(s, cid), products, now)) else ViewAt(s, c)
    ensures Enriched(s, cid, products, now).tasks == s.tasks
  {
  }

  lemma PutView(s: Sys, cid: string, body: Dict, c: string)
    ensures ViewAt(PutAt(s, cid, body), c) ==
            if c == cid && Put(TiersAt(s, cid), body).Ok? then ViewAt(s, c).(tiers := Put(TiersAt(s, cid), body).value)
            else ViewAt(s, c)
    ensures PutAt(s, cid, body).tasks == s.tasks
  {
  }

  /** A view after a PUT that, if accepted, is followed by an enrichment when `complete`. */
  function Written(v: View, body: Dict, complete: bool, products: Catalogue, now: int): View {
    match Put(v.tiers, body)
    case Raised => v
    case Ok(t) => v.(tiers := if complete then Enrich(t, products, now) else t)
  }

  lemma WriteThenEnrich(p: Sys, put: Sys, cid: string, body: Dict, complete: bool, products: Catalogue, now: int, c: string)
    requires put.pending == p.pending && put.tasks == p.tasks && put.cache == PutAt(p, cid, body).cache
    ensures var done := if Put(TiersAt(p, cid), body).Ok? && complete then Enriched(put, cid, products, now) else put;
            && ViewAt(done, c) == (if c == cid then Written(ViewAt(p, c), body, complete, products, now) else ViewAt(p, c))
            && done.tasks == p.tasks
  {
    PutView(p, cid, body, c);
    PutView(p, cid, body, cid);
    assert forall x :: ViewAt(put, x) == ViewAt(PutAt(p, cid, body), x);
    EnrichedIsEnrich(put, cid, products, now, c);
  }

  lemma HitWritten(v: View, cid: string, e: Event, products: Catalogue)
    requires Accepted(e) && CustomerRef(e.raw) == Some(cid) && v.tiers.hot.Some?
    ensures OnEvent(v, cid, e, products) ==
            Written(v, UpsertBody(v.tiers.hot.value, e), NewState(v.tiers.hot.value, e.domain) == "complete", products, e.now)
  {
  }

  lemma JoinWritten(v: View, cid: string, e: Event, products: Catalogue)
    requires Accepted(e) && CustomerRef(e.raw) == Some(cid) && v.tiers.hot.None? && v.pending.Some?
    requires AllDomains(PutDomain(v.pending.value.domains, e.domain, PartialOf(e)))
    ensures OnEvent(v, cid, e, products) ==
            Written(v.(pending := None), JoinBody(PutDomain(v.pending.value.domains, e.domain, PartialOf(e)), e.now), true, products, e.now)
  {
  }

  lemma LookedUp(s: Sys, t: nat, e: Event)
    requires t !in s.tasks && Accepted(e)
    ensures Do(s, Lookup(t, e)) == Some(s.(tasks := s.tasks[t := Looked(e, TiersAt(s, CustomerRef(e.raw).value).hot)]))
  {
  }

  lemma UpsertsFrom(s: Sys, t: nat, e: Event, rec: Dict)
    requires t in s.tasks && s.tasks[t] == Looked(e, Some(rec)) && Accepted(e)
    ensures Do(s, UpsertPut(t)) == Some(PutAt(Finish(s, t), CustomerRef(e.raw).value, UpsertBody(rec, e)))
  {
  }

  /** The schedule of a cache hit: lookup and upsert, with nothing in between. */
  lemma LookupThenUpsert(s: Sys, t: nat, e: Event)
    requires t !in s.tasks && Accepted(e) && TiersAt(s, CustomerRef(e.raw).value).hot.Some?
    ensures var looked := Do(s, Lookup(t, e));
            && looked.Some? && Do(looked.value, UpsertPut(t)).Some?
            && UpsertOutcome(s, Do(looked.value, UpsertPut(t)).value, CustomerRef(e.raw).value,
                             UpsertBody(TiersAt(s, CustomerRef(e.raw).value).hot.value, e))
  {
    var cid := CustomerRef(e.raw).value;
    var rec := TiersAt(s, cid).hot.value;
    var looked := s.(tasks := s.tasks[t := Looked(e, Some(rec))]);
    LookedUp(s, t, e);
    UpsertsFrom(looked, t, e, rec);
    assert looked.tasks - {t} == s.tasks;
    UpsertFrom(s, looked, t, cid, UpsertBody(rec, e));
  }

  /** Nothing changed but the customer's tiers, by one PUT. */
  predicate UpsertOutcome(s: Sys, put: Sys, cid: string, body: Dict) {
    put.pending == s.pending && put.tasks == s.tasks && put.cache == PutAt(s, cid, body).cache
  }

  lemma UpsertFrom(s: Sys, looked: Sys, t: nat, cid: string, body: Dict)
    requires looked.pending == s.pending && looked.cache == s.cache && looked.tasks - {t} == s.tasks
    ensures UpsertOutcome(s, PutAt(Finish(looked, t), cid, body), cid, body)
  {
  }

  /** An uninterrupted cache hit, enriched if it completed the record, is the atomic step, for the event's
      customer and for every other. */
  lemma UninterruptedHitIsAtomic(s: Sys, t: nat, e: Event, products: Catalogue, c: string)
    requires t !in s.tasks && Accepted(e) && TiersAt(s, CustomerRef(e.raw).value).hot.Some?
    ensures Do(s, Lookup(t, e)).Some? && Do(Do(s, Lookup(t, e)).value, UpsertPut(t)).Some?
    ensures var cid := CustomerRef(e.raw).value;
            var put := Do(Do(s, Lookup(t, e)).value, UpsertPut(t)).value;
            var existing := TiersAt(s, cid).hot.value;
            var done := if Put(TiersAt(s, cid), UpsertBody(existing, e)).Ok? && NewState(existing, e.domain) == "complete"
                        then Enriched(put, cid, products, e.now) else put;
            ViewAt(done, c) == OnEvent(ViewAt(s, c), c, e, products) && done.tasks == s.tasks
  {
    var cid := CustomerRef(e.raw).value;
    var existing := TiersAt(s, cid).hot.value;
    LookupThenUpsert(s, t, e);
    var put := Do(Do(s, Lookup(t, e)).value, UpsertPut(t)).value;
    WriteThenEnrich(s, put, cid, UpsertBody(existing, e), NewState(existing, e.domain) == "complete", products, e.now, c);
    HitWritten(ViewAt(s, cid), cid, e, products);
  }

  /** The pending entry of an event that has to wait. */
  function Waiting(v: View, e: Event): Pending {
    match v.pending
    case None => Pending(e.corr, [(e.domain, PartialOf(e))], [e.domain], e.now, e.now + TIMEOUT_SECONDS)
    case Some(pa) => pa.(domains := PutDomain(pa.domains, e.domain, PartialOf(e)), received := pa.received + [e.domain])
  }

  lemma MissWaits(v: View, cid: string, e: Event, products: Catalogue)
    requires Accepted(e) && CustomerRef(e.raw) == Some(cid) && v.tiers.hot.None? && !WouldJoin(v, e)
    ensures OnEvent(v, cid, e, products) == v.(pending := Some(Waiting(v, e)))
  {
  }

  /** The locked section without a join: the event waits, alone or in place of an earlier one. */
  lemma LockedWaits(s: Sys, looked: Sys, t: nat, e: Event, c: string)
    requires Accepted(e) && !WouldJoin(ViewAt(s, CustomerRef(e.raw).value), e)
    requires looked.pending == s.pending && looked.cache == s.cache && looked.tasks - {t} == s.tasks
    ensures var cid := CustomerRef(e.raw).value;
            && LockedSection(looked, t, e).tasks == s.tasks
            && ViewAt(LockedSection(looked, t, e), c) ==
               if c == cid then ViewAt(s, c).(pending := Some(Waiting(ViewAt(s, cid), e))) else ViewAt(s, c)
  {
  }

  /** The locked section with a join: the entry is gone and the PUT is owed. */
  lemma LockedJoins(s: Sys, looked: Sys, t: nat, e: Event)
    requires Accepted(e) && t in looked.tasks
    requires looked.pending == s.pending && looked.cache == s.cache && looked.tasks - {t} == s.tasks
    requires WouldJoin(ViewAt(s, CustomerRef(e.raw).value), e)
    ensures var cid := CustomerRef(e.raw).value;
            var locked := LockedSection(looked, t, e);
            && t in locked.tasks && locked.tasks[t].Joining? && locked.tasks[t].cid == cid
            && locked.tasks[t].body == JoinBody(PutDomain(s.pending[cid].pa.domains, e.domain, PartialOf(e)), e.now)
            && locked.tasks - {t} == s.tasks && locked.cache == s.cache && locked.pending == s.pending - {cid}
  {
  }

  /** The handler is done and the customer is where the atomic step leaves it; or it still owes the join's PUT, after
      which, with the enrichment if it was accepted, the customer is there. */
  predicate AtomicOutcome(s: Sys, locked: Sys, t: nat, e: Event, products: Catalogue, c: string) {
    if t !in locked.tasks then
      ViewAt(locked, c) == OnEvent(ViewAt(s, c), c, e, products) && locked.tasks == s.tasks
    else
      Do(locked, JoinPut(t)).Some? &&
      var task, put := locked.tasks[t], Do(locked, JoinPut(t)).value;
      var done := if Put(TiersAt(s, task.cid), task.body).Ok? then Enriched(put, task.cid, products, e.now) else put;
      ViewAt(done, c) == OnEvent(ViewAt(s, c), c, e, products) && done.tasks == s.tasks
  }

  /** An uninterrupted cache miss is the atomic step as well: either the event waits once the lock is released,
      or it joins, and after the PUT and the enrichment the customer is where the atomic step leaves it. */
  lemma UninterruptedMissIsAtomic(s: Sys, t: nat, e: Event, products: Catalogue, c: string)
    requires t !in s.tasks && Accepted(e) && TiersAt(s, CustomerRef(e.raw).value).hot.None?
    ensures Do(s, Lookup(t, e)).Some? && Do(Do(s, Lookup(t, e)).value, Locked(t)).Some?
    ensures AtomicOutcome(s, Do(Do(s, Lookup(t, e)).value, Locked(t)).value, t, e, products, c)
  {
    var looked := s.(tasks := s.tasks[t := Looked(e, None)]);
    LookedUp(s, t, e);
    LocksMissed(looked, t, e);
    assert looked.tasks - {t} == s.tasks;
    if WouldJoin(ViewAt(s, CustomerRef(e.raw).value), e) {
      MissJoinsAtomically(s, looked, t, e, products, c);
    } else {
      MissWaitsAtomically(s, looked, t, e, products, c);
    }
  }

  lemma LocksMissed(s: Sys, t: nat, e: Event)
    requires t in s.tasks && s.tasks[t] == Looked(e, None) && Accepted(e)
    ensures Do(s, Locked(t)) == Some(LockedSection(s, t, e))
  {
  }

  lemma MissJoinsAtomically(s: Sys, looked: Sys, t: nat, e: Event, products: Catalogue, c: string)
    requires Accepted(e) && TiersAt(s, CustomerRef(e.raw).value).hot.None? && t in looked.tasks
    requires looked.pending == s.pending && looked.cache == s.cache && looked.tasks - {t} == s.tasks
    requires WouldJoin(ViewAt(s, CustomerRef(e.raw).value), e)
    ensures AtomicOutcome(s, LockedSection(looked, t, e), t, e, products, c)
  {
    var cid, locked := CustomerRef(e.raw).value, LockedSection(looked, t, e);
    LockedJoins(s, looked, t, e);
    JoinWritten(ViewAt(s, cid), cid, e, products);
    if c != cid {
      OthersUntouched(ViewAt(s, c), c, e, products);
    }
    JoinFinishes(s, locked, t, cid, locked.tasks[t].body, e, products, c);
  }

  lemma MissWaitsAtomically(s: Sys, looked: Sys, t: nat, e: Event, products: Catalogue, c: string)
    requires Accepted(e) && TiersAt(s, CustomerRef(e.raw).value).hot.None? && t !in s.tasks
    requires looked.pending == s.pending && looked.cache == s.cache && looked.tasks - {t} == s.tasks
    requires !WouldJoin(ViewAt(s, CustomerRef(e.raw).value), e)
    ensures AtomicOutcome(s, LockedSection(looked, t, e), t, e, products, c)
  {
    var cid := CustomerRef(e.raw).value;
    MissWaits(ViewAt(s, cid), cid, e, products);
    if c != cid {
      OthersUntouched(ViewAt(s, c), c, e, products);
    }
    LockedWaits(s, looked, t, e, c);
  }

  lemma JoinFinishes(s: Sys, locked: Sys, t: nat, cid: string, body: Dict, e: Event, products: Catalogue, c: string)
    requires t in locked.tasks && locked.tasks[t].Joining? && locked.tasks[t].cid == cid && locked.tasks[t].body == body
    requires locked.tasks - {t} == s.tasks && locked.cache == s.cache && locked.pending == s.pending - {cid}
    ensures Do(locked, JoinPut(t)).Some?
    ensures var put := Do(locked, JoinPut(t)).value;
            var done := if Put(TiersAt(s, cid), body).Ok? then Enriched(put, cid, products, e.now) else put;
            && ViewAt(done, c) == (if c == cid then Written(ViewAt(s, c).(pending := None), body, true, products, e.now) else ViewAt(s, c))
            && done.tasks == s.tasks
  {
    var p := Finish(locked, t);
    assert ViewAt(p, c) == if c == cid then ViewAt(s, c).(pending := None) else ViewAt(s, c);
    assert TiersAt(p, cid) == TiersAt(s, cid);
    WriteThenEnrich(p, Do(locked, JoinPut(t)).value, cid, body, true, products, e.now, c);
  }

  lemma OthersUntouched(v: View, c: string, e: Event, products: Catalogue)
    requires CustomerRef(e.raw) != Some(c)
    ensures OnEvent(v, c, e, products) == v
  {
  }
}
