/** The two-tier context cache. */
module Cache {
  import opened Json
  import opened Ontology

  /** One customer's entries in the hot cache and in the permanent store. */
  datatype Tiers = Tiers(hot: Option<Dict>, permanent: Option<Dict>)

  const EMPTY: Tiers := Tiers(None, None)

  /** Whether the body asks for a merge upsert; the hint itself is never stored. */
  predicate MergeHint(body: Dict) {
    Truthy(Get(body, "_merge_domain", Null))
  }

  function DataOf(body: Dict): Dict {
    body - {"_merge_domain"}
  }

  predicate Versioned(record: Dict) {
    "version" in record && record["version"].Num?
  }

  function Version(record: Dict): real {
    if Versioned(record) then record["version"].n else 0.0
  }

  function Composed(existing: Option<Dict>, data: Dict, merge: bool): Dict {
    var version := if existing.Some? then Version(existing.value) + 1.0 else 1.0;
    (if merge && existing.Some? then existing.value + data else data)["version" := Num(version)]
  }

  /** What one tier stores for a body, given what it holds. */
  function Stored(existing: Option<Dict>, body: Dict): Dict {
    Composed(existing, DataOf(body), MergeHint(body))
  }

  /** A PUT: rejected by the schema check, or stored in both tiers. */
  function Put(t: Tiers, body: Dict): Outcome<Tiers> {
    if Accepts(DataOf(body)) then Ok(Tiers(Some(Stored(t.hot, body)), Some(Stored(t.permanent, body)))) else Raised
  }

  /** The gateway's read: the hot cache first, the permanent store on a miss. */
  function Read(t: Tiers): Option<Dict> {
    if t.hot.Some? then t.hot else t.permanent
  }

  class ContextCache {
    var store: map<string, Dict>
    var permanent: map<string, Dict>

    ghost predicate Valid()
      reads this
    {
      && (forall c :: c in store ==> Versioned(store[c]))
      && (forall c :: c in permanent ==> Versioned(permanent[c]))
    }

    function TiersOf(cid: string): Tiers
      reads this
    {
      Tiers(if cid in store then Some(store[cid]) else None, if cid in permanent then Some(permanent[cid]) else None)
    }

    constructor ()
      ensures Valid() && forall c :: TiersOf(c) == EMPTY
    {
      store, permanent := map[], map[];
    }

    method WriteRecord(cid: string, body: Dict) returns (r: Outcome<Dict>)
      requires Valid()
      modifies this
      ensures Valid()
      ensures r.Ok? == Put(old(TiersOf(cid)), body).Ok?
      ensures r.Ok? ==> TiersOf(cid) == Put(old(TiersOf(cid)), body).value && TiersOf(cid).hot == Some(r.value)
      ensures r == Raised ==> store == old(store) && permanent == old(permanent)
      ensures forall c :: c != cid ==> TiersOf(c) == old(TiersOf(c))
    {
      var mergeDomain := Get(body, "_merge_domain", Null);
      var data := body - {"_merge_domain"};
      var violations := ValidateCacheRecord(data);
      if violations != [] {
        return Raised;
      }
      var existing := if cid in store then Some(store[cid]) else None;
      var stored := Compose(existing, data, Truthy(mergeDomain));
      store := store[cid := stored];
      var existingPermanent := if cid in permanent then Some(permanent[cid]) else None;
      var permanentStored := Compose(existingPermanent, data, Truthy(mergeDomain));
      permanent := permanent[cid := permanentStored];
      return Ok(stored);
    }

    /** What one tier stores; each tier counts its own version. */
    static method Compose(existing: Option<Dict>, data: Dict, merge: bool) returns (stored: Dict)
      requires existing.Some? ==> Versioned(existing.value)
      ensures stored == Composed(existing, data, merge)
      ensures Versioned(stored)
    {
      var version := if existing.Some? then existing.value["version"].n + 1.0 else 1.0;
      if merge && existing.Some? {
        stored := (existing.value + data)["version" := Num(version)];
      } else {
        stored := data["version" := Num(version)];
      }
    }

    method ReadRecord(cid: string) returns (r: Option<Dict>)
      ensures r == TiersOf(cid).hot
    {
      r := if cid in store then Some(store[cid]) else None;
    }

    method ReadPermanent(cid: string) returns (r: Option<Dict>)
      ensures r == TiersOf(cid).permanent
    {
      r := if cid in permanent then Some(permanent[cid]) else None;
    }

    /** The gateway's two reads. */
    method ReadThrough(cid: string) returns (r: Option<Dict>)
      ensures r == Read(TiersOf(cid))
    {
      r := ReadRecord(cid);
      if r == None {
        r := ReadPermanent(cid);
      }
    }

    /** The eviction the hot tier is laid out for; the service has no policy that triggers it. */
    method Evict(cid: string)
      requires Valid()
      modifies this`store
      ensures Valid()
      ensures TiersOf(cid) == old(TiersOf(cid)).(hot := None)
      ensures forall c :: c != cid ==> TiersOf(c) == old(TiersOf(c))
    {
      store := store - {cid};
    }
  }
}
