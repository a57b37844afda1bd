/** The in-memory adapters as the mutable maps and lists they are, and the reads served from them. */
module InMemory {
  import opened Text
  import opened Lifecycle
  import opened Catalog
  import opened Announcements
  import opened Paging

  class Repository {
    var requests: map<string, Request>
    var eventIds: map<string, string>

    ghost predicate Valid()
      reads this
    {
      IdsMatch(requests)
    }

    constructor ()
      ensures Valid() && requests == map[] && eventIds == map[]
    {
      requests, eventIds := map[], map[];
    }

    /**
     * Enforces by hand the two unique indexes PostgreSQL has: the key first, then the source. An
     * absent key never collides. Neither rejection stores anything.
     */
    method Save(r: Request) returns (fault: Option<FaultKind>)
      requires Valid()
      modifies this
      ensures Valid() && eventIds == old(eventIds)
      ensures fault == if r.key.Some? && FindByKey(old(requests), r.owner, r.key.value).Some? then Some(DuplicateKey)
                       else if FindBySource(old(requests), r.owner, r.source).Some? then Some(DuplicateSource)
                       else None
      ensures requests == if fault.None? then old(requests)[r.id := r] else old(requests)
    {
      if r.key.Some? {
        var bound := FindByOwnerAndIdempotencyKey(r.owner, r.key.value);
        if bound.Some? { return Some(DuplicateKey); }
      }
      var known := FindByOwnerAndSource(r.owner, r.source);
      if known.Some? { return Some(DuplicateSource); }
      requests := requests[r.id := r];
      return None;
    }

    method Update(r: Request)
      requires Valid()
      modifies this
      ensures Valid() && requests == old(requests)[r.id := r] && eventIds == old(eventIds)
    {
      requests := requests[r.id := r];
    }

    method FindByProcessingRequestId(id: string) returns (found: Option<Request>)
      ensures found == if id in requests then Some(requests[id]) else None
    {
      found := if id in requests then Some(requests[id]) else None;
    }

    /** No lock: nothing else runs beside this adapter. */
    method FindForUpdate(id: string) returns (found: Option<Request>)
      ensures found == if id in requests then Some(requests[id]) else None
    {
      found := FindByProcessingRequestId(id);
    }

    /** An event recorded without a request, that is with the empty id, finds none. */
    method FindByEventId(event: string) returns (found: Option<Request>)
      ensures "" !in requests ==> found == FindByEvent(Tables(requests, eventIds, []), event)
      ensures event in eventIds && eventIds[event] == "" ==> found.None?
    {
      if event !in eventIds || eventIds[event] == "" {
        return None;
      }
      found := FindByProcessingRequestId(eventIds[event]);
    }

    method MarkEventProcessed(event: string, id: Option<string>)
      modifies this
      ensures requests == old(requests)
      ensures eventIds == old(eventIds)[event := if id.Some? then id.value else ""]
    {
      eventIds := eventIds[event := if id.Some? then id.value else ""];
    }

    method HasEventBeenProcessed(event: string) returns (has: bool)
      ensures has <==> event in eventIds
    {
      has := event in eventIds;
    }

    /** An owner's requests, each once, in whatever order the map yields them. */
    method OwnedBy(owner: string) returns (owned: seq<Request>)
      requires Valid()
      ensures DistinctIds(owned)
      ensures forall r :: r in owned <==> Owned(requests, owner, r)
    {
      owned := [];
      var rest := requests.Keys;
      while rest != {}
        invariant rest <= requests.Keys && DistinctIds(owned)
        invariant forall r :: r in owned <==> Owned(requests, owner, r) && r.id !in rest
        decreases rest
      {
        var id :| id in rest;
        if requests[id].owner == owner {
          AppendKeepsDistinct(owned, requests[id]);
          owned := owned + [requests[id]];
        }
        rest := rest - {id};
      }
    }

    /** One page of the owner's listing, the order having only one outcome. */
    method FindPageByOwner(owner: string, offset: nat, limit: nat) returns (page: seq<Request>)
      requires Valid()
      ensures page == Slice(Listing(requests, owner), offset, limit)
    {
      var owned := OwnedBy(owner);
      SortIsListing(requests, owner, owned);
      page := Slice(Sort(owned), offset, limit);
    }

    method CountByOwner(owner: string) returns (count: nat)
      requires Valid()
      ensures count == |Listing(requests, owner)|
    {
      var owned := OwnedBy(owner);
      SortIsListing(requests, owner, owned);
      count := |owned|;
    }

    method FindByIdAndOwner(id: string, owner: string) returns (found: Option<Request>)
      ensures found == Announcements.FindByIdAndOwner(requests, id, owner)
    {
      var r := FindByProcessingRequestId(id);
      found := if r.Some? && r.value.owner == owner then r else None;
    }

    method FindByOwnerAndIdempotencyKey(owner: string, key: string) returns (found: Option<Request>)
      requires Valid()
      ensures found.Some? <==> FindByKey(requests, owner, key).Some?
      ensures found.Some? ==> Owned(requests, owner, found.value) && found.value.key == Some(key)
      ensures UniqueKeys(requests) ==> found == FindByKey(requests, owner, key)
    {
      var owned := OwnedBy(owner);
      ghost var expected := FindByKey(requests, owner, key);
      assert expected.Some? ==> Owned(requests, owner, expected.value);
      found := None;
      for i := 0 to |owned|
        invariant found.None?
        invariant forall j | 0 <= j < i :: owned[j].key != Some(key)
      {
        if owned[i].key == Some(key) {
          assert owned[i] in owned;
          return Some(owned[i]);
        }
      }
    }

    method FindByOwnerAndSource(owner: string, source: string) returns (found: Option<Request>)
      requires Valid()
      ensures found.Some? <==> FindBySource(requests, owner, source).Some?
      ensures found.Some? ==> Owned(requests, owner, found.value) && found.value.source == source
      ensures UniqueSources(requests) ==> found == FindBySource(requests, owner, source)
    {
      var owned := OwnedBy(owner);
      ghost var expected := FindBySource(requests, owner, source);
      assert expected.Some? ==> Owned(requests, owner, expected.value);
      found := None;
      for i := 0 to |owned|
        invariant found.None?
        invariant forall j | 0 <= j < i :: owned[j].source != source
      {
        if owned[i].source == source {
          assert owned[i] in owned;
          return Some(owned[i]);
        }
      }
    }
  }

  lemma AppendKeepsDistinct(rs: seq<Request>, r: Request)
    requires DistinctIds(rs) && forall x | x in rs :: x.id != r.id
    ensures DistinctIds(rs + [r])
    ensures forall x :: x in rs + [r] <==> x in rs || x == r
  {
  }

  /** However the map yields an owner's requests, sorting them gives the listing. */
  lemma {:induction false} SortIsListing(requests: map<string, Request>, owner: string, owned: seq<Request>)
    requires IdsMatch(requests) && DistinctIds(owned)
    requires forall r :: r in owned <==> Owned(requests, owner, r)
    ensures Sort(owned) == Listing(requests, owner) && |owned| == |Listing(requests, owner)|
  {
    hide Sorted, DistinctIds, Sort;
    SortSorts(owned);
    SortedIsUnique(Sort(owned), Listing(requests, owner));
  }

  /** The recorded rows of one kind, in order. */
  function OfKind(rows: seq<OutboxRow>, kind: Kind): (picked: seq<OutboxRow>)
    ensures |picked| == Count(rows, kind)
    ensures forall row :: row in picked <==> row in rows && KindOf(row) == kind
  {
    if rows == [] then []
    else
      var last := rows[|rows| - 1];
      assert rows == rows[..|rows| - 1] + [last];
      OfKind(rows[..|rows| - 1], kind) + if KindOf(last) == kind then [last] else []
  }

  class OutboxWriter {
    var entries: seq<OutboxRow>

    constructor ()
      ensures entries == []
    {
      entries := [];
    }

    method Add(row: OutboxRow)
      modifies this
      ensures entries == old(entries) + [row]
    {
      entries := entries + [row];
    }

    method Clear()
      modifies this
      ensures entries == []
    {
      entries := [];
    }

    /** The recorded payloads of one pattern: one per announced fact of that kind. */
    method PayloadsFor(kind: Kind) returns (picked: seq<OutboxRow>)
      ensures picked == OfKind(entries, kind)
    {
      picked := [];
      for i := 0 to |entries|
        invariant picked == OfKind(entries[..i], kind)
      {
        assert entries[..i + 1][..i] == entries[..i];
        if KindOf(entries[i]) == kind {
          picked := picked + [entries[i]];
        }
      }
      assert entries[..|entries|] == entries;
    }
  }

  /** Runs work directly on the adapters. It has no rollback. */
  class UnitOfWork {
    const requests: Repository
    const outbox: OutboxWriter

    constructor (requests: Repository)
      ensures this.requests == requests && fresh(outbox) && outbox.entries == []
    {
      this.requests := requests;
      outbox := new OutboxWriter();
    }

    /** The three tables these objects stand for. */
    ghost function Contents(): Tables
      reads this, requests, outbox
    {
      Tables(requests.requests, requests.eventIds, outbox.entries)
    }

    ghost predicate Valid()
      reads this, requests, outbox
    {
      Wellformed(Contents()) && "" !in requests.requests
    }
  }

  // ---- Reads on the owner's behalf ----

  datatype OwnedPage = OwnedPage(items: seq<Item>, page: nat, pageSize: nat, total: nat)

  function ItemsOf(rs: seq<Request>): seq<Item> {
    seq(|rs|, i requires 0 <= i < |rs| => ItemOf(rs[i]))
  }

  class ListOwnedProcessingRequestsQuery {
    const repository: Repository

    constructor (repository: Repository)
      ensures this.repository == repository
    {
      this.repository := repository;
    }

    /** Page `page` of the owner's listing, and the size of the whole listing. */
    method Execute(owner: string, page: nat, pageSize: nat) returns (result: OwnedPage)
      requires page >= 1 && repository.Valid()
      ensures var all := Listing(repository.requests, owner);
              result == OwnedPage(ItemsOf(PageOf(all, page, pageSize)), page, pageSize, |all|)
    {
      var offset := (page - 1) * pageSize;
      var rows := repository.FindPageByOwner(owner, offset, pageSize);
      var total := repository.CountByOwner(owner);
      result := OwnedPage(ItemsOf(rows), page, pageSize, total);
    }
  }

  class GetOwnedArchiveQuery {
    const repository: Repository

    constructor (repository: Repository)
      ensures this.repository == repository
    {
      this.repository := repository;
    }

    method Execute(owner: string, id: string) returns (archive: Archive)
      ensures archive == ArchiveFor(repository.requests, owner, id)
    {
      var r := repository.FindByIdAndOwner(id, owner);
      if r.None? {
        return ArchiveNotFound;
      }
      if r.value.status != Completed || r.value.zip.None? || r.value.zip.value == "" {
        return NotCompleted;
      }
      archive := Ready(r.value.zip.value);
    }
  }
}
