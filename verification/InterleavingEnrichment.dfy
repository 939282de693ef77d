/**
 * Enrichment cut at its awaits. It reads the record, asks the catalogue line by line, and merges back what it made of
 * the read; any handler, and any other enrichment, may run in between.
 */
module InterleavingEnrichment {
  import opened Json
  import opened Products
  import opened Ontology
  import opened Cache
  import opened CacheTheorems
  import opened Cdc
  import opened CdcInvariant
  import opened CdcSteps
  import opened CdcRuns
  import opened Interleaving
  import opened InterleavingFacts

  /** What a suspended enrichment remembers. */
  datatype Reading = Reading(cid: string, record: Dict)

  datatype Full = Full(sys: Sys, readings: map<nat, Reading>)

  const START: Full := Full(INITIAL, map[])

  datatype Move =
    | Handle(a: Action)
    | EnrichRead(t: nat, cid: string)
    | EnrichPut(t: nat, products: Catalogue, now: int)

  function ReadRecord(s: Full, t: nat, cid: string): Full {
    match TiersAt(s.sys, cid).hot
    case None => s
    case Some(record) => s.(readings := s.readings[t := Reading(cid, record)])
  }

  /** The PUT of what was made of an earlier read, if anything was. */
  function PutBack(s: Sys, cid: string, record: Dict, products: Catalogue, now: int): Sys {
    match EnrichBody(record, products, now)
    case None => s
    case Some(body) => PutAt(s, cid, body)
  }

  /** One step, or `None` when it is not enabled; merges come from enrichments only. */
  function Advance(s: Full, m: Move): Option<Full> {
    match m
    case Handle(a) =>
      if a.MergePut? || Do(s.sys, a).None? then None else Some(s.(sys := Do(s.sys, a).value))
    case EnrichRead(t, cid) => if t in s.readings then None else Some(ReadRecord(s, t, cid))
    case EnrichPut(t, products, now) =>
      if t !in s.readings then None
      else Some(Full(PutBack(s.sys, s.readings[t].cid, s.readings[t].record, products, now), s.readings - {t}))
  }

  function Run(s: Full, moves: seq<Move>): Option<Full>
    decreases |moves|
  {
    if moves == [] then Some(s)
    else
      match Advance(s, moves[0])
      case None => None
      case Some(next) => Run(next, moves[1..])
  }

  // ---------------------------------------------------------------- the same system

  lemma EnrichmentMerges(record: Dict, products: Catalogue, now: int)
    requires EnrichBody(record, products, now).Some?
    ensures MergeHint(EnrichBody(record, products, now).value)
    ensures DataOf(EnrichBody(record, products, now).value).Keys == {"commercial_state"}
  {
  }

  /** The handlers see an enrichment's PUT as a merge by somebody. */
  lemma MoveIsStep(s: Full, m: Move)
    requires Advance(s, m).Some?
    ensures Advance(s, m).value.sys == s.sys || exists a :: Do(s.sys, a) == Some(Advance(s, m).value.sys)
  {
    match m
    case Handle(a) => assert Do(s.sys, a) == Some(Advance(s, m).value.sys);
    case EnrichRead(_, _) =>
    case EnrichPut(t, products, now) =>
      PutBackIsStep(s.sys, s.readings[t].cid, s.readings[t].record, products, now);
  }

  lemma PutBackIsStep(s: Sys, cid: string, record: Dict, products: Catalogue, now: int)
    ensures PutBack(s, cid, record, products, now) == s || exists a :: Do(s, a) == Some(PutBack(s, cid, record, products, now))
  {
    var body := EnrichBody(record, products, now);
    if body.Some? {
      EnrichmentMerges(record, products, now);
      assert Do(s, MergePut(cid, body.value)) == Some(PutBack(s, cid, record, products, now));
    }
  }

  /** So whatever holds in every state of the handlers holds here: each run of moves is one of theirs. */
  lemma {:induction false} RunIsExec(s: Full, moves: seq<Move>) returns (actions: seq<Action>)
    requires Run(s, moves).Some?
    ensures Exec(s.sys, actions) == Some(Run(s, moves).value.sys)
    decreases |moves|
  {
    if moves == [] {
      actions := [];
    } else {
      var next := Advance(s, moves[0]).value;
      MoveIsStep(s, moves[0]);
      actions := RunIsExec(next, moves[1..]);
      if next.sys != s.sys {
        var a :| Do(s.sys, a) == Some(next.sys);
        actions := [a] + actions;
      }
    }
  }

  /** With nothing in between, read and PUT are the atomic enrichment. */
  lemma UninterruptedEnrichmentIsAtomic(s: Full, t: nat, cid: string, products: Catalogue, now: int, c: string)
    requires t !in s.readings && TiersAt(s.sys, cid).hot.Some?
    ensures var put := Run(s, [EnrichRead(t, cid), EnrichPut(t, products, now)]);
            && put.Some? && put.value.readings == s.readings
            && ViewAt(put.value.sys, c) ==
               if c == cid then ViewAt(s.sys, c).(tiers := Enrich(TiersAt(s.sys, cid), products, now)) else ViewAt(s.sys, c)
  {
    var read := ReadRecord(s, t, cid);
    var put := Full(PutBack(s.sys, cid, TiersAt(s.sys, cid).hot.value, products, now), s.readings);
    assert read.readings - {t} == s.readings;
    assert Advance(s, EnrichRead(t, cid)) == Some(read) && Advance(read, EnrichPut(t, products, now)) == Some(put);
    RunTwo(s, EnrichRead(t, cid), read, EnrichPut(t, products, now), put);
    PutBackView(s.sys, cid, TiersAt(s.sys, cid).hot.value, products, now, c);
  }

  lemma RunTwo(s: Full, m: Move, s1: Full, n: Move, s2: Full)
    requires Advance(s, m) == Some(s1) && Advance(s1, n) == Some(s2)
    ensures Run(s, [m, n]) == Some(s2)
  {
    assert [m, n][1..] == [n] && [n][1..] == [];
    assert Run(s1, [n]) == Run(s2, []);
  }

  lemma PutBackView(s: Sys, cid: string, record: Dict, products: Catalogue, now: int, c: string)
    requires TiersAt(s, cid).hot == Some(record)
    ensures ViewAt(PutBack(s, cid, record, products, now), c) ==
            if c == cid then ViewAt(s, c).(tiers := Enrich(TiersAt(s, cid), products, now)) else ViewAt(s, c)
  {
    var body := EnrichBody(record, products, now);
    if body.Some? {
      PutView(s, cid, body.value, c);
    }
  }

  // ---------------------------------------------------------------- the billing lines of a record

  /** The lines of a record, without what enrichment writes. */
  function LinesIn(record: Dict): seq<Dict> {
    var group := Get(record, "commercial_state", Null);
    var lines := if group.Obj? then Get(group.fields, "subscriptions", Arr([])) else Arr([]);
    if LinesReadable(lines) then Cores(lines.items) else []
  }

  function Cores(lines: seq<Json>): seq<Dict> {
    seq(|lines|, i requires 0 <= i < |lines| => Core(lines[i]))
  }

  function LinesAt(s: Sys, cid: string): seq<Dict> {
    match TiersAt(s, cid).hot
    case None => []
    case Some(record) => LinesIn(record)
  }

  lemma EnrichedCore(products: Catalogue, line: Dict)
    ensures Core(Obj(EnrichLine(products, line))) == Core(Obj(line))
  {
    if ProductOf(products, line).Some? {
      var overlay := ProductFields(ProductOf(products, line).value);
      assert overlay.Keys == ENRICHED;
      assert (line + overlay) - ENRICHED == line - ENRICHED;
    }
  }

  lemma EnrichedCores(products: Catalogue, lines: seq<Json>)
    requires forall i :: 0 <= i < |lines| ==> lines[i].Obj?
    ensures Cores(EnrichLines(products, lines)) == Cores(lines)
  {
    forall i | 0 <= i < |lines|
      ensures Core(EnrichLines(products, lines)[i]) == Core(lines[i])
    {
      EnrichedCore(products, lines[i].fields);
    }
  }

  /** What an enrichment writes has the lines of what it read, and is accepted if that was. */
  lemma EnrichmentBody(record: Dict, products: Catalogue, now: int)
    requires Acceptable(record) && EnrichBody(record, products, now).Some?
    ensures var body := EnrichBody(record, products, now).value;
            MergeHint(body) && Accepts(DataOf(body)) && LinesIn(DataOf(body)) == LinesIn(record)
  {
    var group := record["commercial_state"].fields;
    var lines := Get(group, "subscriptions", Arr([])).items;
    var enriched := EnrichLines(products, lines);
    EnrichedCores(products, lines);
    assert (record - {"version"})["commercial_state"] == record["commercial_state"];
    EnrichmentMerges(record, products, now);
    var t, meta := Derive(enriched).value, Get(group, "_meta", Obj(map[])).fields;
    EnrichedAccepted(group, enriched, t, meta, now);
    assert DataOf(EnrichBody(record, products, now).value) == map["commercial_state" := Obj(EnrichedGroup(group, enriched, t, meta, now))];
  }

  lemma EnrichedAccepted(group: Dict, lines: seq<Json>, t: Totals, meta: Dict, now: int)
    requires GroupOk("commercial_state", Obj(group)) && forall i :: 0 <= i < |lines| ==> lines[i].Obj?
    ensures var data := map["commercial_state" := Obj(EnrichedGroup(group, lines, t, meta, now))];
            Accepts(data) && LinesIn(data) == Cores(lines)
  {
    assert |"profile"| != |"commercial_state"|;
  }

  /** A merge that carries the commercial group sets the lines; one that does not leaves them. */
  lemma MergeLines(s: Sys, cid: string, body: Dict)
    requires MergeHint(body) && Accepts(DataOf(body))
    ensures "commercial_state" in DataOf(body) ==> LinesAt(PutAt(s, cid, body), cid) == LinesIn(DataOf(body))
    ensures "commercial_state" !in DataOf(body) ==> LinesAt(PutAt(s, cid, body), cid) == LinesAt(s, cid)
  {
    if TiersAt(s, cid).hot.Some? {
      StoredAt(TiersAt(s, cid).hot.value, body, "commercial_state");
    } else {
      StoredFirstAt(body, "commercial_state");
    }
  }

  // ---------------------------------------------------------------- every stored record is acceptable

  ghost predicate SoundCache(s: Sys) {
    forall c :: SoundAt(s, c)
  }

  predicate SoundAt(s: Sys, c: string) {
    TiersAt(s, c).hot.Some? ==> Acceptable(TiersAt(s, c).hot.value)
  }

  ghost predicate Sound(s: Full) {
    SoundCache(s.sys) && forall t :: t in s.readings ==> Acceptable(s.readings[t].record)
  }

  lemma PutSound(s: Sys, cid: string, body: Dict)
    requires SoundCache(s)
    ensures SoundCache(PutAt(s, cid, body))
  {
    assert SoundAt(s, cid);
    if Put(TiersAt(s, cid), body).Ok? {
      MergeAcceptable(TiersAt(s, cid).hot, body);
    }
    forall c
      ensures SoundAt(PutAt(s, cid, body), c)
    {
      assert SoundAt(s, c);
    }
  }

  lemma SameCacheSound(s: Sys, s': Sys)
    requires SoundCache(s) && s'.cache == s.cache
    ensures SoundCache(s')
  {
    forall c
      ensures SoundAt(s', c)
    {
      assert SoundAt(s, c);
    }
  }

  lemma StepSound(s: Sys, a: Action)
    requires SoundCache(s) && Do(s, a).Some?
    ensures SoundCache(Do(s, a).value)
  {
    match a
    case UpsertPut(t) =>
      SameCacheSound(s, Finish(s, t));
      PutSound(Finish(s, t), CustomerRef(s.tasks[t].e.raw).value, UpsertBody(s.tasks[t].existing.value, s.tasks[t].e));
    case JoinPut(t) =>
      SameCacheSound(s, Finish(s, t));
      PutSound(Finish(s, t), s.tasks[t].cid, s.tasks[t].body);
      SameCacheSound(PutAt(Finish(s, t), s.tasks[t].cid, s.tasks[t].body), Do(s, a).value);
    case MergePut(cid, body) => PutSound(s, cid, body);
    case TimeoutPut(t) =>
      PutSound(s, s.tasks[t].cid, s.tasks[t].body);
      SameCacheSound(PutAt(s, s.tasks[t].cid, s.tasks[t].body), Do(s, a).value);
    case _ => SameCacheSound(s, Do(s, a).value);
  }

  lemma MoveSound(s: Full, m: Move)
    requires Sound(s) && Advance(s, m).Some?
    ensures Sound(Advance(s, m).value)
  {
    match m
    case Handle(a) => StepSound(s.sys, a);
    case EnrichRead(_, cid) => assert SoundAt(s.sys, cid);
    case EnrichPut(t, products, now) =>
      var body := EnrichBody(s.readings[t].record, products, now);
      if body.Some? {
        PutSound(s.sys, s.readings[t].cid, body.value);
      }
  }

  lemma {:induction false} RunSound(s: Full, moves: seq<Move>)
    requires Sound(s) && Run(s, moves).Some?
    ensures Sound(Run(s, moves).value)
    decreases |moves|
  {
    if moves != [] {
      MoveSound(s, moves[0]);
      RunSound(Advance(s, moves[0]).value, moves[1..]);
    }
  }

  // ---------------------------------------------------------------- which step changes the lines

  /** The step is a PUT of billing data or of a whole record of the customer. */
  predicate BringsLines(s: Sys, m: Move, cid: string) {
    m.Handle? &&
    match m.a
    case UpsertPut(t) => t in s.tasks && s.tasks[t].Looked? && s.tasks[t].e.domain == Billing && CustomerRef(s.tasks[t].e.raw) == Some(cid)
    case JoinPut(t) => t in s.tasks && s.tasks[t].Joining? && s.tasks[t].cid == cid
    case TimeoutPut(t) => t in s.tasks && s.tasks[t].TimingOut? && s.tasks[t].cid == cid
    case _ => false
  }

  /** The step puts back an enrichment of a read whose lines are no longer the cached ones. */
  predicate PutsBackOldLines(s: Full, m: Move, cid: string) {
    && m.EnrichPut? && m.t in s.readings && s.readings[m.t].cid == cid
    && EnrichBody(s.readings[m.t].record, m.products, m.now).Some?
    && LinesIn(s.readings[m.t].record) != LinesAt(s.sys, cid)
  }

  lemma SameTiersSameLines(s: Sys, s': Sys, cid: string)
    requires TiersAt(s', cid) == TiersAt(s, cid)
    ensures LinesAt(s', cid) == LinesAt(s, cid)
  {
  }

  lemma PutElsewhere(s: Sys, other: string, body: Dict, cid: string)
    requires other != cid
    ensures TiersAt(PutAt(s, other, body), cid) == TiersAt(s, cid)
  {
  }

  lemma UpsertKeepsLines(s: Sys, t: nat, cid: string)
    requires Do(s, UpsertPut(t)).Some? && !BringsLines(s, Handle(UpsertPut(t)), cid)
    ensures LinesAt(Do(s, UpsertPut(t)).value, cid) == LinesAt(s, cid)
  {
    var e, rec, p := s.tasks[t].e, s.tasks[t].existing.value, Finish(s, t);
    var other := CustomerRef(e.raw).value;
    SameTiersSameLines(s, p, cid);
    if other == cid {
      UpsertBodyShape(rec, e);
      PartialShape(e);
      GroupNames();
      MergeLines(p, cid, UpsertBody(rec, e));
    } else {
      PutElsewhere(p, other, UpsertBody(rec, e), cid);
      SameTiersSameLines(p, PutAt(p, other, UpsertBody(rec, e)), cid);
    }
  }

  lemma HandlerKeepsLines(s: Sys, a: Action, cid: string)
    requires Do(s, a).Some? && !a.MergePut? && !BringsLines(s, Handle(a), cid)
    ensures LinesAt(Do(s, a).value, cid) == LinesAt(s, cid)
  {
    match a
    case UpsertPut(t) => UpsertKeepsLines(s, t, cid);
    case JoinPut(t) =>
      PutElsewhere(Finish(s, t), s.tasks[t].cid, s.tasks[t].body, cid);
      SameTiersSameLines(s, Do(s, a).value, cid);
    case TimeoutPut(t) =>
      PutElsewhere(s, s.tasks[t].cid, s.tasks[t].body, cid);
      SameTiersSameLines(s, Do(s, a).value, cid);
    case MergePut(_, _) => assert false;
    case _ => SameTiersSameLines(s, Do(s, a).value, cid);
  }

  lemma PutBackLines(s: Full, t: nat, products: Catalogue, now: int, cid: string)
    requires Sound(s) && t in s.readings
    ensures LinesAt(Advance(s, EnrichPut(t, products, now)).value.sys, cid) ==
            if s.readings[t].cid == cid && EnrichBody(s.readings[t].record, products, now).Some? then LinesIn(s.readings[t].record)
            else LinesAt(s.sys, cid)
  {
    var Reading(other, record) := s.readings[t];
    var body := EnrichBody(record, products, now);
    if body.Some? {
      EnrichmentBody(record, products, now);
      EnrichmentMerges(record, products, now);
      if other == cid {
        MergeLines(s.sys, cid, body.value);
      } else {
        PutElsewhere(s.sys, other, body.value, cid);
        SameTiersSameLines(s.sys, PutAt(s.sys, other, body.value), cid);
      }
    }
  }

  /**
   * Lost updates. After any run, a step that brings no billing data of its own changes the cached lines of a customer
   * exactly if it is an enrichment that puts back a read whose lines are no longer the cached ones; those are then what
   * the cache holds.
   */
  lemma LinesLostExactly(moves: seq<Move>, m: Move, cid: string)
    requires Run(START, moves).Some? && Advance(Run(START, moves).value, m).Some?
    requires !BringsLines(Run(START, moves).value.sys, m, cid)
    ensures var s := Run(START, moves).value;
            var after := Advance(s, m).value;
            && (LinesAt(after.sys, cid) != LinesAt(s.sys, cid) <==> PutsBackOldLines(s, m, cid))
            && (PutsBackOldLines(s, m, cid) ==> LinesAt(after.sys, cid) == LinesIn(s.readings[m.t].record))
  {
    RunSound(START, moves);
    StepLines(Run(START, moves).value, m, cid);
  }

  lemma StepLines(s: Full, m: Move, cid: string)
    requires Sound(s) && Advance(s, m).Some? && !BringsLines(s.sys, m, cid)
    ensures LinesAt(Advance(s, m).value.sys, cid) != LinesAt(s.sys, cid) <==> PutsBackOldLines(s, m, cid)
    ensures PutsBackOldLines(s, m, cid) ==> LinesAt(Advance(s, m).value.sys, cid) == LinesIn(s.readings[m.t].record)
  {
    match m
    case Handle(a) => HandlerKeepsLines(s.sys, a, cid);
    case EnrichRead(_, _) =>
    case EnrichPut(t, products, now) => PutBackLines(s, t, products, now, cid);
  }

  // ---------------------------------------------------------------- enrichments that follow their reads

  /** What suspended enrichments of the customer have read has the cached lines. */
  predicate ReadsCurrent(s: Full, cid: string) {
    forall t :: t in s.readings && s.readings[t].cid == cid ==> LinesIn(s.readings[t].record) == LinesAt(s.sys, cid)
  }

  /** No step brings billing data of the customer. */
  predicate BringsNothing(s: Full, moves: seq<Move>, cid: string)
    decreases |moves|
  {
    moves != [] ==>
      && !BringsLines(s.sys, moves[0], cid)
      && (Advance(s, moves[0]).Some? ==> BringsNothing(Advance(s, moves[0]).value, moves[1..], cid))
  }

  lemma StepReadsCurrent(s: Full, m: Move, cid: string)
    requires Sound(s) && ReadsCurrent(s, cid) && Advance(s, m).Some? && !BringsLines(s.sys, m, cid)
    ensures LinesAt(Advance(s, m).value.sys, cid) == LinesAt(s.sys, cid) && ReadsCurrent(Advance(s, m).value, cid)
  {
    StepLines(s, m, cid);
    assert !PutsBackOldLines(s, m, cid);
  }

  /** From a state in which no suspended read is old, the lines stay as they are until billing data is brought again,
      however many enrichments are read and put back in between. */
  lemma {:induction false} CurrentReadsKeepLines(s: Full, moves: seq<Move>, cid: string)
    requires Sound(s) && ReadsCurrent(s, cid) && Run(s, moves).Some? && BringsNothing(s, moves, cid)
    ensures LinesAt(Run(s, moves).value.sys, cid) == LinesAt(s.sys, cid) && ReadsCurrent(Run(s, moves).value, cid)
    decreases |moves|
  {
    if moves != [] {
      StepReadsCurrent(s, moves[0], cid);
      MoveSound(s, moves[0]);
      CurrentReadsKeepLines(Advance(s, moves[0]).value, moves[1..], cid);
    }
  }

  // ---------------------------------------------------------------- a run that loses an update

  lemma GroupLines(raw: Dict, now: int)
    ensures LinesIn(map["commercial_state" := Obj(Group(Billing, raw, now))]) == Cores(MappedLines(raw))
  {
    assert Group(Billing, raw, now)["subscriptions"] == Arr(MappedLines(raw));
  }

  lemma SameGroupLines(record: Dict, raw: Dict, now: int)
    requires "commercial_state" in record && record["commercial_state"] == Obj(Group(Billing, raw, now))
    ensures LinesIn(record) == Cores(MappedLines(raw))
  {
    GroupLines(raw, now);
    assert LinesIn(record) == LinesIn(map["commercial_state" := Obj(Group(Billing, raw, now))]);
  }

  /** The PUT of a billing upsert brings the lines of its event. */
  lemma UpsertBringsItsLines(s: Sys, t: nat, cid: string)
    requires Do(s, UpsertPut(t)).Some? && BringsLines(s, Handle(UpsertPut(t)), cid)
    ensures LinesAt(Do(s, UpsertPut(t)).value, cid) == Cores(MappedLines(s.tasks[t].e.raw))
  {
    var e, rec, p := s.tasks[t].e, s.tasks[t].existing.value, Finish(s, t);
    UpsertBodyShape(rec, e);
    PartialShape(e);
    GroupNames();
    MergeLines(p, cid, UpsertBody(rec, e));
    SameGroupLines(DataOf(UpsertBody(rec, e)), e.raw, e.now);
  }

  predicate Arrives(moves: seq<Move>, s: Full) {
    Run(START, moves) == Some(s)
  }

  lemma {:induction false} RunAppend(s: Full, moves: seq<Move>, m: Move)
    requires Run(s, moves).Some?
    ensures Run(s, moves + [m]) == Advance(Run(s, moves).value, m)
    decreases |moves|
  {
    if moves == [] {
      assert [] + [m] == [m] && [m][1..] == [];
      match Advance(s, m)
      case None =>
      case Some(next) => assert Run(next, []) == Some(next);
    } else {
      assert (moves + [m])[0] == moves[0] && (moves + [m])[1..] == moves[1..] + [m];
      RunAppend(Advance(s, moves[0]).value, moves[1..], m);
    }
  }

  lemma ExtendRun(moves: seq<Move>, s: Full, m: Move, s': Full)
    requires Arrives(moves, s) && Advance(s, m) == Some(s')
    ensures Arrives(moves + [m], s')
  {
    RunAppend(START, moves, m);
  }

  function Handled(actions: seq<Action>): seq<Move> {
    seq(|actions|, i requires 0 <= i < |actions| => Handle(actions[i]))
  }

  lemma {:induction false} HandledRun(s: Sys, actions: seq<Action>)
    requires Exec(s, actions).Some? && NoMerges(actions)
    ensures Run(Full(s, map[]), Handled(actions)) == Some(Full(Exec(s, actions).value, map[]))
    decreases |actions|
  {
    if actions != [] {
      assert Handled(actions)[0] == Handle(actions[0]) && Handled(actions)[1..] == Handled(actions[1..]);
      assert actions[0] in actions && NoMerges(actions[1..]);
      HandledRun(Do(s, actions[0]).value, actions[1..]);
    }
  }

  predicate NoMerges(actions: seq<Action>) {
    forall a :: a in actions ==> !a.MergePut?
  }

  /** The CRM event waits, and the billing event has missed the cache. */
  lemma OneWaits(crm: Event, earlier: Event, cid: string) returns (actions: seq<Action>, s: Sys)
    requires Accepted(crm) && Accepted(earlier) && CustomerRef(crm.raw) == CustomerRef(earlier.raw) == Some(cid)
    ensures Reaches(actions, s) && NoMerges(actions)
    ensures PendingOne(s, cid, crm) && s.tasks == map[1 := Looked(earlier, None)] && s.cache == map[]
  {
    assert Reaches([], INITIAL);
    var s1 := RunMissedLookup([], INITIAL, 0, crm, cid);
    var s2 := RunWaitsAlone([] + [Lookup(0, crm)], s1, 0, crm, cid);
    actions := [] + [Lookup(0, crm)] + [Locked(0)];
    s := RunMissedLookup(actions, s2, 1, earlier, cid);
    actions := actions + [Lookup(1, earlier)];
  }

  /** The two are joined, and the full write is owed. */
  lemma JoinOwed(crm: Event, earlier: Event, cid: string) returns (actions: seq<Action>, s: Sys)
    requires Accepted(crm) && Accepted(earlier) && crm.domain == Customer && earlier.domain == Billing
    requires CustomerRef(crm.raw) == CustomerRef(earlier.raw) == Some(cid)
    ensures Reaches(actions, s) && NoMerges(actions)
    ensures OwesJoin(s, 1, cid, crm, earlier) && s.tasks.Keys == {1} && s.cache == map[]
  {
    var waiting;
    actions, waiting := OneWaits(crm, earlier, cid);
    s := RunJoinsWaiting(actions, waiting, 1, crm, earlier, cid);
    actions := actions + [Locked(1)];
  }

  /** The two domains of a customer, joined and written. */
  lemma Joined(crm: Event, earlier: Event, cid: string) returns (actions: seq<Action>, s: Sys)
    requires Accepted(crm) && Accepted(earlier) && crm.domain == Customer && earlier.domain == Billing
    requires CustomerRef(crm.raw) == CustomerRef(earlier.raw) == Some(cid)
    ensures Reaches(actions, s) && s.tasks == map[] && NoMerges(actions)
    ensures TiersAt(s, cid).hot == Some(Stored(None, JoinBody([(Customer, PartialOf(crm)), (Billing, PartialOf(earlier))], earlier.now)))
  {
    var owed;
    actions, owed := JoinOwed(crm, earlier, cid);
    s := OwedWritten(owed, crm, earlier, cid);
    Extend(actions, owed, JoinPut(1), s);
    actions := actions + [JoinPut(1)];
  }

  lemma OwedWritten(s: Sys, crm: Event, earlier: Event, cid: string) returns (s': Sys)
    requires Accepted(crm) && Accepted(earlier) && crm.domain == Customer && earlier.domain == Billing
    requires CustomerRef(crm.raw) == CustomerRef(earlier.raw) == Some(cid)
    requires OwesJoin(s, 1, cid, crm, earlier) && s.tasks.Keys == {1} && s.cache == map[]
    ensures Do(s, JoinPut(1)) == Some(s') && s'.tasks == map[]
    ensures TiersAt(s', cid).hot == Some(Stored(None, JoinBody([(Customer, PartialOf(crm)), (Billing, PartialOf(earlier))], earlier.now)))
  {
    JoinBodyShape(crm, earlier, earlier.now);
    s' := FullPut(s, 1, cid, s.tasks[1].body);
  }

  /** The same with the record read by an enrichment that has not put it back yet. */
  lemma JoinedAndRead(crm: Event, earlier: Event, cid: string, products: Catalogue) returns (moves: seq<Move>, s: Full)
    requires Accepted(crm) && Accepted(earlier) && crm.domain == Customer && earlier.domain == Billing
    requires CustomerRef(crm.raw) == CustomerRef(earlier.raw) == Some(cid)
    ensures Arrives(moves, s) && s.sys.tasks == map[]
    ensures TiersAt(s.sys, cid).hot.Some? && s.readings == map[0 := Reading(cid, TiersAt(s.sys, cid).hot.value)]
    ensures LinesAt(s.sys, cid) == Cores(MappedLines(earlier.raw))
    ensures forall now :: EnrichBody(TiersAt(s.sys, cid).hot.value, products, now).Some?
  {
    var actions, joined := Joined(crm, earlier, cid);
    HandledRun(INITIAL, actions);
    s := ReadRecord(Full(joined, map[]), 0, cid);
    ExtendRun(Handled(actions), Full(joined, map[]), EnrichRead(0, cid), s);
    moves := Handled(actions) + [EnrichRead(0, cid)];
    JoinedReading(crm, earlier, cid, products);
  }

  lemma JoinedReading(crm: Event, earlier: Event, cid: string, products: Catalogue)
    requires Accepted(crm) && Accepted(earlier) && crm.domain == Customer && earlier.domain == Billing
    requires CustomerRef(crm.raw) == CustomerRef(earlier.raw) == Some(cid)
    ensures var record := Stored(None, JoinBody([(Customer, PartialOf(crm)), (Billing, PartialOf(earlier))], earlier.now));
            LinesIn(record) == Cores(MappedLines(earlier.raw)) && forall now :: EnrichBody(record, products, now).Some?
  {
    var body := JoinBody([(Customer, PartialOf(crm)), (Billing, PartialOf(earlier))], earlier.now);
    var record := Stored(None, body);
    JoinBodyShape(crm, earlier, earlier.now);
    StoredFirstAt(body, "commercial_state");
    GroupNames();
    SameGroupLines(record, earlier.raw, earlier.now);
    JoinStored(crm, earlier, earlier.now, cid, products);
    forall now
      ensures EnrichBody(record, products, now).Some?
    {
      EnrichBodyShape(record, Lasts(None, None).Put(crm).Put(earlier), cid, products, now);
    }
  }

  /**
   * A newer billing event disappears. An enrichment reads the joined record; before it puts it back, a newer billing
   * event is looked up and merged; the PUT then restores the lines of the older event.
   */
  lemma LateEnrichmentRestoresOldLines(crm: Event, earlier: Event, newer: Event, cid: string, products: Catalogue, now: int)
    returns (moves: seq<Move>, before: Full, after: Full)
    requires Accepted(crm) && Accepted(earlier) && Accepted(newer)
    requires crm.domain == Customer && earlier.domain == newer.domain == Billing
    requires CustomerRef(crm.raw) == CustomerRef(earlier.raw) == CustomerRef(newer.raw) == Some(cid)
    ensures Run(START, moves) == Some(before) && Run(START, moves + [EnrichPut(0, products, now)]) == Some(after)
    ensures LinesAt(before.sys, cid) == Cores(MappedLines(newer.raw))
    ensures LinesAt(after.sys, cid) == Cores(MappedLines(earlier.raw))
  {
    var read;
    moves, read := JoinedAndRead(crm, earlier, cid, products);
    var hit := read.(sys := read.sys.(tasks := map[2 := Looked(newer, TiersAt(read.sys, cid).hot)]));
    ExtendRun(moves, read, Handle(Lookup(2, newer)), hit);
    moves := moves + [Handle(Lookup(2, newer))];
    before := hit.(sys := Do(hit.sys, UpsertPut(2)).value);
    ExtendRun(moves, hit, Handle(UpsertPut(2)), before);
    moves := moves + [Handle(UpsertPut(2))];
    UpsertBringsItsLines(hit.sys, 2, cid);
    after := Advance(before, EnrichPut(0, products, now)).value;
    ExtendRun(moves, before, EnrichPut(0, products, now), after);
    StartSound();
    RunSound(START, moves);
    PutBackLines(before, 0, products, now, cid);
  }

  lemma StartSound()
    ensures Sound(START)
  {
  }
}
