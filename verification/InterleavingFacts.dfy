/** What arbitrary interleaving does not keep. */
module InterleavingFacts {
  import opened Json
  import opened Seqs
  import opened Ontology
  import opened Cache
  import opened Cdc
  import opened CdcInvariant
  import opened CdcSteps
  import opened Interleaving

  lemma {:induction false} ExecAppend(s: Sys, actions: seq<Action>, a: Action)
    requires Exec(s, actions).Some?
    ensures Exec(s, actions + [a]) == Do(Exec(s, actions).value, a)
    decreases |actions|
  {
    if actions == [] {
      assert [] + [a] == [a];
      assert [a][1..] == [];
      match Do(s, a)
      case None =>
      case Some(next) => assert Exec(next, []) == Some(next);
    } else {
      assert (actions + [a])[0] == actions[0] && (actions + [a])[1..] == actions[1..] + [a];
      ExecAppend(Do(s, actions[0]).value, actions[1..], a);
    }
  }

  /** The actions lead from the initial state to `s`. */
  predicate Reaches(actions: seq<Action>, s: Sys) {
    Exec(INITIAL, actions) == Some(s)
  }

  lemma Extend(actions: seq<Action>, s: Sys, a: Action, s': Sys)
    requires Reaches(actions, s) && Do(s, a) == Some(s')
    ensures Reaches(actions + [a], s')
  {
    ExecAppend(INITIAL, actions, a);
  }

  /** The customer has a pending entry for one event only. */
  predicate PendingOne(s: Sys, cid: string, e: Event) {
    cid in s.pending && s.pending[cid].pa.domains == [(e.domain, PartialOf(e))]
    && s.pending[cid].pa.timeoutAt == e.now + TIMEOUT_SECONDS
  }

  predicate OwesJoin(s: Sys, t: nat, cid: string, first: Event, second: Event) {
    t in s.tasks && s.tasks[t].Joining? && s.tasks[t].cid == cid
    && s.tasks[t].body == JoinBody([(first.domain, PartialOf(first)), (second.domain, PartialOf(second))], second.now)
  }

  lemma MissedLookup(s: Sys, t: nat, e: Event, cid: string) returns (s': Sys)
    requires Accepted(e) && CustomerRef(e.raw) == Some(cid) && t !in s.tasks && s.cache == map[]
    ensures Do(s, Lookup(t, e)) == Some(s') && s' == s.(tasks := s.tasks[t := Looked(e, None)])
  {
    s' := s.(tasks := s.tasks[t := Looked(e, None)]);
  }

  lemma WaitsAlone(s: Sys, t: nat, e: Event, cid: string) returns (s': Sys)
    requires Accepted(e) && CustomerRef(e.raw) == Some(cid)
    requires t in s.tasks && s.tasks[t] == Looked(e, None) && cid !in s.pending
    ensures Do(s, Locked(t)) == Some(s') && PendingOne(s', cid, e) && s'.tasks == s.tasks - {t} && s'.cache == s.cache
  {
    s' := LockedSection(s, t, e);
  }

  lemma JoinsWaiting(s: Sys, t: nat, first: Event, second: Event, cid: string) returns (s': Sys)
    requires Accepted(second) && CustomerRef(second.raw) == Some(cid) && second.domain == Other(first.domain)
    requires t in s.tasks && s.tasks[t] == Looked(second, None) && PendingOne(s, cid, first)
    ensures Do(s, Locked(t)) == Some(s') && OwesJoin(s', t, cid, first, second)
    ensures cid !in s'.pending && s'.tasks == s.tasks[t := s'.tasks[t]] && s'.cache == s.cache
  {
    PutDomainPair(first.domain, PartialOf(first), second);
    LockedJoins(s.(tasks := s.tasks - {t}), s, t, second);
    s' := LockedSection(s, t, second);
    LocksMissed(s, t, second);
  }

  lemma RunMissedLookup(actions: seq<Action>, s: Sys, t: nat, e: Event, cid: string) returns (s': Sys)
    requires Reaches(actions, s)
    requires Accepted(e) && CustomerRef(e.raw) == Some(cid) && t !in s.tasks && s.cache == map[]
    ensures Reaches(actions + [Lookup(t, e)], s') && s' == s.(tasks := s.tasks[t := Looked(e, None)])
  {
    s' := MissedLookup(s, t, e, cid);
    Extend(actions, s, Lookup(t, e), s');
  }

  lemma RunWaitsAlone(actions: seq<Action>, s: Sys, t: nat, e: Event, cid: string) returns (s': Sys)
    requires Reaches(actions, s)
    requires Accepted(e) && CustomerRef(e.raw) == Some(cid)
    requires t in s.tasks && s.tasks[t] == Looked(e, None) && cid !in s.pending
    ensures Reaches(actions + [Locked(t)], s')
    ensures PendingOne(s', cid, e) && s'.tasks == s.tasks - {t} && s'.cache == s.cache
  {
    s' := WaitsAlone(s, t, e, cid);
    Extend(actions, s, Locked(t), s');
  }

  lemma RunJoinsWaiting(actions: seq<Action>, s: Sys, t: nat, first: Event, second: Event, cid: string) returns (s': Sys)
    requires Reaches(actions, s)
    requires Accepted(second) && CustomerRef(second.raw) == Some(cid) && second.domain == Other(first.domain)
    requires t in s.tasks && s.tasks[t] == Looked(second, None) && PendingOne(s, cid, first)
    ensures Reaches(actions + [Locked(t)], s')
    ensures OwesJoin(s', t, cid, first, second)
    ensures cid !in s'.pending && s'.tasks == s.tasks[t := s'.tasks[t]] && s'.cache == s.cache
  {
    s' := JoinsWaiting(s, t, first, second, cid);
    Extend(actions, s, Locked(t), s');
  }

  /** The first event waits alone, and the joining and the repeated one have both missed the cache. */
  lemma BothMissed(first: Event, second: Event, again: Event, cid: string) returns (actions: seq<Action>, s: Sys)
    requires Accepted(first) && Accepted(second) && Accepted(again)
    requires CustomerRef(first.raw) == CustomerRef(second.raw) == CustomerRef(again.raw) == Some(cid)
    ensures Reaches(actions, s) && PendingOne(s, cid, first)
    ensures s.tasks == map[1 := Looked(second, None), 2 := Looked(again, None)] && s.cache == map[]
  {
    assert Reaches([], INITIAL);
    var s1 := RunMissedLookup([], INITIAL, 0, first, cid);
    var s2 := RunWaitsAlone([] + [Lookup(0, first)], s1, 0, first, cid);
    actions := [] + [Lookup(0, first)] + [Locked(0)];
    var s3 := RunMissedLookup(actions, s2, 1, second, cid);
    s := RunMissedLookup(actions + [Lookup(1, second)], s3, 2, again, cid);
    actions := actions + [Lookup(1, second)] + [Lookup(2, again)];
  }

  /** The joining event joins the first, and its full write is owed while the repeated one still waits for the lock. */
  lemma LateJoined(first: Event, second: Event, again: Event, cid: string) returns (actions: seq<Action>, s: Sys)
    requires Accepted(first) && Accepted(second) && Accepted(again) && second.domain == Other(first.domain)
    requires CustomerRef(first.raw) == CustomerRef(second.raw) == CustomerRef(again.raw) == Some(cid)
    ensures Reaches(actions, s) && OwesJoin(s, 1, cid, first, second) && cid !in s.pending && s.cache == map[]
    ensures s.tasks.Keys == {1, 2} && s.tasks[2] == Looked(again, None)
  {
    var missed;
    actions, missed := BothMissed(first, second, again, cid);
    s := RunJoinsWaiting(actions, missed, 1, first, second, cid);
    actions := actions + [Locked(1)];
  }

  /** Two late lookups: the joining event and the repeated one both missed the cache before the join was written. */
  lemma LateLookup(first: Event, second: Event, again: Event, cid: string) returns (actions: seq<Action>, s: Sys)
    requires Accepted(first) && Accepted(second) && Accepted(again) && second.domain == Other(first.domain)
    requires CustomerRef(first.raw) == CustomerRef(second.raw) == CustomerRef(again.raw) == Some(cid)
    ensures Reaches(actions, s)
    ensures PendingOne(s, cid, again) && OwesJoin(s, 1, cid, first, second) && s.tasks.Keys == {1} && s.cache == map[]
  {
    var joined;
    actions, joined := LateJoined(first, second, again, cid);
    s := RunWaitsAlone(actions, joined, 2, again, cid);
    OwesKept(joined, s, 1, 2, cid, first, second);
    actions := actions + [Locked(2)];
  }

  lemma OwesKept(s: Sys, s': Sys, t: nat, u: nat, cid: string, first: Event, second: Event)
    requires OwesJoin(s, t, cid, first, second) && u != t && s'.tasks == s.tasks - {u}
    ensures OwesJoin(s', t, cid, first, second)
  {
  }

  predicate HoldsGroup(s: Sys, cid: string, d: Domain) {
    TiersAt(s, cid).hot.Some? && GroupName(d) in TiersAt(s, cid).hot.value
  }

  lemma GroupIsNotVersion(d: Domain)
    ensures GroupName(d) != "version"
  {
  }

  lemma JoinWrites(s: Sys, first: Event, second: Event, cid: string) returns (s': Sys)
    requires Accepted(first) && Accepted(second) && second.domain == Other(first.domain)
    requires CustomerRef(first.raw) == CustomerRef(second.raw) == Some(cid)
    requires OwesJoin(s, 1, cid, first, second) && s.cache == map[]
    ensures Do(s, JoinPut(1)) == Some(s') && s'.pending == s.pending && s'.tasks == s.tasks - {1}
    ensures HoldsGroup(s', cid, second.domain)
  {
    var body := JoinBody([(first.domain, PartialOf(first)), (second.domain, PartialOf(second))], second.now);
    JoinBodyShape(first, second, second.now);
    GroupIsNotVersion(second.domain);
    StoredFirstAt(body, GroupName(second.domain));
    s' := FullPut(s, 1, cid, body);
  }

  lemma FullPut(s: Sys, t: nat, cid: string, body: Dict) returns (s': Sys)
    requires t in s.tasks && s.tasks[t].Joining? && s.tasks[t].cid == cid && s.tasks[t].body == body
    requires Accepts(DataOf(body)) && s.cache == map[]
    ensures Do(s, JoinPut(t)) == Some(s') && s'.pending == s.pending && s'.tasks == s.tasks - {t}
    ensures TiersAt(s', cid).hot == Some(Stored(None, body))
  {
    s' := PutAt(Finish(s, t), cid, body).(written := s.written + [s.tasks[t].corr]);
  }

  lemma PopsExpired(s: Sys, t: nat, cid: string, now: int) returns (s1: Sys, s2: Sys)
    requires t !in s.tasks && cid in s.pending && now >= s.pending[cid].pa.timeoutAt
    ensures Do(s, SweepStart(t, [cid], now)) == Some(s1) && Do(s1, SweepPop(t)) == Some(s2)
    ensures t in s2.tasks && s2.tasks[t].TimingOut? && s2.tasks[t].cid == cid
    ensures s2.tasks[t].body == TimeoutBody(s.pending[cid].pa.domains, now)
    ensures cid !in s2.pending && s2.cache == s.cache && s2.tasks.Keys == s.tasks.Keys + {t}
  {
    assert NoDuplicates([cid]);
    s1 := s.(tasks := s.tasks[t := Sweeping([cid], now)]);
    s2 := Do(s1, SweepPop(t)).value;
  }

  lemma TimeoutWrites(s: Sys, t: nat, cid: string, e: Event, now: int) returns (s': Sys)
    requires Accepted(e) && t in s.tasks && s.tasks[t].TimingOut? && s.tasks[t].cid == cid
    requires s.tasks[t].body == TimeoutBody([(e.domain, PartialOf(e))], now)
    ensures Do(s, TimeoutPut(t)) == Some(s') && s'.pending == s.pending && s'.tasks.Keys == s.tasks.Keys
    ensures TiersAt(s', cid).hot.Some? && HoldsGroup(s', cid, e.domain) && !HoldsGroup(s', cid, Other(e.domain))
  {
    var body := TimeoutBody([(e.domain, PartialOf(e))], now);
    TimeoutBodyShape(e, now);
    PartialShape(e);
    GroupNames();
    GroupIsNotVersion(Other(e.domain));
    GroupIsNotVersion(e.domain);
    assert GroupName(Other(e.domain)) !in body && GroupName(e.domain) in body;
    s' := TimeoutFullPut(s, t, cid, body);
  }

  /** A full write stores the body alone, whatever was there. */
  lemma TimeoutFullPut(s: Sys, t: nat, cid: string, body: Dict) returns (s': Sys)
    requires t in s.tasks && s.tasks[t].TimingOut? && s.tasks[t].cid == cid && s.tasks[t].body == body
    requires Accepts(DataOf(body)) && !MergeHint(body)
    ensures Do(s, TimeoutPut(t)) == Some(s') && s'.pending == s.pending && s'.tasks.Keys == s.tasks.Keys
    ensures TiersAt(s', cid).hot.Some?
    ensures forall k :: k != "version" ==> (k in TiersAt(s', cid).hot.value <==> k in DataOf(body))
  {
    var task := s.tasks[t];
    s' := PutAt(s, cid, body).(tasks := s.tasks[t := Sweeping(task.todo, task.now)], written := s.written + [task.corr]);
  }

  lemma JoinedBesideEntry(first: Event, second: Event, again: Event, cid: string) returns (actions: seq<Action>, s: Sys)
    requires Accepted(first) && Accepted(second) && Accepted(again)
    requires second.domain == Other(first.domain) && again.domain == first.domain
    requires CustomerRef(first.raw) == CustomerRef(second.raw) == CustomerRef(again.raw) == Some(cid)
    ensures Reaches(actions, s) && s.tasks == map[]
    ensures PendingOne(s, cid, again) && HoldsGroup(s, cid, second.domain)
  {
    var late;
    actions, late := LateLookup(first, second, again, cid);
    s := JoinWrites(late, first, second, cid);
    Extend(actions, late, JoinPut(1), s);
    actions := actions + [JoinPut(1)];
  }

  lemma RunSweep(actions: seq<Action>, s: Sys, t: nat, cid: string, e: Event, now: int) returns (s': Sys)
    requires Reaches(actions, s) && t !in s.tasks && PendingOne(s, cid, e)
    requires Accepted(e) && now >= e.now + TIMEOUT_SECONDS
    ensures Reaches(actions + [SweepStart(t, [cid], now), SweepPop(t), TimeoutPut(t)], s')
    ensures cid !in s'.pending && s'.tasks.Keys == s.tasks.Keys + {t}
    ensures TiersAt(s', cid).hot.Some? && HoldsGroup(s', cid, e.domain) && !HoldsGroup(s', cid, Other(e.domain))
  {
    var s1, s2 := PopsExpired(s, t, cid, now);
    s' := TimeoutWrites(s2, t, cid, e, now);
    Extend(actions, s, SweepStart(t, [cid], now), s1);
    Extend(actions + [SweepStart(t, [cid], now)], s1, SweepPop(t), s2);
    Extend(actions + [SweepStart(t, [cid], now)] + [SweepPop(t)], s2, TimeoutPut(t), s');
    assert actions + [SweepStart(t, [cid], now)] + [SweepPop(t)] + [TimeoutPut(t)] ==
           actions + [SweepStart(t, [cid], now), SweepPop(t), TimeoutPut(t)];
  }

  /**
   * Pending and hot are not disjoint under interleaving, and a timeout can wipe a group. An event whose lookup
   * missed before the join was written starts a new entry after the join deleted the old one; the join then
   * completes the record, beside the new entry; and when that entry times out, its full write leaves the
   * record without the other domain's group, although that domain's event was accepted and written.
   */
  lemma TimeoutWipesAGroup(first: Event, second: Event, again: Event, cid: string, now: int)
    returns (actions: seq<Action>, before: Sys, sweep: seq<Action>, after: Sys)
    requires Accepted(first) && Accepted(second) && Accepted(again)
    requires second.domain == Other(first.domain) && again.domain == first.domain
    requires CustomerRef(first.raw) == CustomerRef(second.raw) == CustomerRef(again.raw) == Some(cid)
    requires now >= again.now + TIMEOUT_SECONDS
    ensures Reaches(actions, before) && Reaches(actions + sweep, after)
    ensures cid in before.pending && HoldsGroup(before, cid, second.domain)
    ensures cid !in after.pending && TiersAt(after, cid).hot.Some? && !HoldsGroup(after, cid, second.domain)
  {
    actions, before := JoinedBesideEntry(first, second, again, cid);
    after := RunSweep(actions, before, 3, cid, again, now);
    sweep := [SweepStart(3, [cid], now), SweepPop(3), TimeoutPut(3)];
  }
}
