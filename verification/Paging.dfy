/** Owner-scoped pages: newest first, ties by id, never a row twice and never one skipped. */
module Paging {
  import opened Numbers
  import opened Text
  import opened Lifecycle

  /** `createdAt` descending, then the id ascending in code-unit order. */
  predicate Before(a: Request, b: Request) {
    a.createdAt > b.createdAt || (a.createdAt == b.createdAt && Less(a.id, b.id))
  }

  /** A strict total order on requests with distinct ids. */
  lemma BeforeIsStrictTotalOrder(a: Request, b: Request, c: Request)
    ensures a.id != b.id ==> Before(a, b) || Before(b, a)
    ensures Before(a, b) ==> !Before(b, a) && a != b
    ensures Before(a, b) && Before(b, c) ==> Before(a, c)
  {
    LessIsTotal(a.id, b.id);
    if Less(a.id, b.id) { LessIsAsymmetric(a.id, b.id); }
    if Less(b.id, a.id) { LessIsAsymmetric(b.id, a.id); }
    if Less(a.id, b.id) && Less(b.id, c.id) { LessIsTransitive(a.id, b.id, c.id); }
  }

  /** Newest first; requests of one moment in the order of their ids. */
  lemma ListingIsNewestFirst(requests: map<string, Request>, owner: string, i: nat, j: nat)
    requires IdsMatch(requests) && i < j < |Listing(requests, owner)|
    ensures var a, b := Listing(requests, owner)[i], Listing(requests, owner)[j];
            a.createdAt > b.createdAt || (a.createdAt == b.createdAt && ComesBefore(a.id, b.id))
  {
    LessIsLexicographic(Listing(requests, owner)[i].id, Listing(requests, owner)[j].id);
  }

  predicate Sorted(rs: seq<Request>) {
    forall i, j | 0 <= i < j < |rs| :: Before(rs[i], rs[j])
  }

  ghost predicate Owned(requests: map<string, Request>, owner: string, r: Request) {
    r.id in requests && requests[r.id] == r && r.owner == owner
  }

  ghost predicate IdsMatch(requests: map<string, Request>) {
    forall id | id in requests :: requests[id].id == id
  }

  /** An owner's requests, each once, in the order of the pages. */
  ghost predicate IsListing(requests: map<string, Request>, owner: string, rs: seq<Request>) {
    Sorted(rs) && forall r :: r in rs <==> Owned(requests, owner, r)
  }

  function Insert(rs: seq<Request>, r: Request): seq<Request> {
    if rs == [] || Before(r, rs[0]) then [r] + rs else [rs[0]] + Insert(rs[1..], r)
  }

  function Sort(rs: seq<Request>): seq<Request> {
    if rs == [] then [] else Insert(Sort(rs[1..]), rs[0])
  }

  lemma {:induction false} InsertKeepsSorted(rs: seq<Request>, r: Request)
    requires Sorted(rs) && forall x | x in rs :: x.id != r.id
    ensures Sorted(Insert(rs, r)) && |Insert(rs, r)| == |rs| + 1
    ensures forall x :: x in Insert(rs, r) <==> x == r || x in rs
  {
    if rs != [] {
      BeforeIsStrictTotalOrder(r, rs[0], r);
      if Before(r, rs[0]) {
        forall j | 0 <= j < |rs| ensures Before(r, rs[j]) { BeforeIsStrictTotalOrder(r, rs[0], rs[j]); }
      } else {
        InsertKeepsSorted(rs[1..], r);
        assert rs == [rs[0]] + rs[1..];
        var tail := Insert(rs[1..], r);
        forall j | 0 <= j < |tail| ensures Before(rs[0], tail[j]) { assert tail[j] in tail; }
      }
    }
  }

  predicate DistinctIds(rs: seq<Request>) {
    forall i, j | 0 <= i < j < |rs| :: rs[i].id != rs[j].id
  }

  lemma {:induction false} SortSorts(rs: seq<Request>)
    requires DistinctIds(rs)
    ensures Sorted(Sort(rs)) && |Sort(rs)| == |rs| && forall x :: x in Sort(rs) <==> x in rs
  {
    if rs != [] {
      SortSorts(rs[1..]);
      assert rs == [rs[0]] + rs[1..];
      InsertKeepsSorted(Sort(rs[1..]), rs[0]);
    }
  }

  /** Two sorted sequences with the same elements are the same. */
  lemma {:induction false} SortedIsUnique(a: seq<Request>, b: seq<Request>)
    requires Sorted(a) && Sorted(b) && forall r :: r in a <==> r in b
    ensures a == b
  {
    assert a != [] ==> a[0] in b;
    assert b != [] ==> b[0] in a;
    if a != [] && b != [] {
      SameFirst(a, b);
      forall r ensures r in a[1..] <==> r in b[1..] {
        TailHasTheRest(a, r);
        TailHasTheRest(b, r);
      }
      SortedIsUnique(a[1..], b[1..]);
      assert a == [a[0]] + a[1..] && b == [b[0]] + b[1..];
    }
  }

  lemma SameFirst(a: seq<Request>, b: seq<Request>)
    requires Sorted(a) && Sorted(b) && a != [] && b != [] && a[0] in b && b[0] in a
    ensures a[0] == b[0]
  {
    if a[0] != b[0] {
      BeforeIsStrictTotalOrder(a[0], b[0], a[0]);
    }
  }

  lemma TailHasTheRest(a: seq<Request>, r: Request)
    requires Sorted(a) && a != []
    ensures r in a[1..] <==> r in a && r != a[0]
  {
    if r in a[1..] {
      var j :| 0 <= j < |a[1..]| && a[1..][j] == r;
      assert a[j + 1] == r;
      BeforeIsStrictTotalOrder(a[0], r, r);
    }
    assert a == [a[0]] + a[1..];
  }

  lemma {:induction false} ListingExists(requests: map<string, Request>, owner: string)
    requires IdsMatch(requests)
    ensures exists rs :: IsListing(requests, owner, rs)
    decreases |requests|
  {
    if requests == map[] {
      assert IsListing(requests, owner, []);
    } else {
      var id :| id in requests;
      var rest := requests - {id};
      ListingExists(rest, owner);
      var rs :| IsListing(rest, owner, rs);
      forall r ensures Owned(requests, owner, r) <==> Owned(rest, owner, r) || (r == requests[id] && r.owner == owner) {
      }
      if requests[id].owner == owner {
        InsertKeepsSorted(rs, requests[id]);
        assert IsListing(requests, owner, Insert(rs, requests[id]));
      } else {
        assert IsListing(requests, owner, rs);
      }
    }
  }

  ghost function Listing(requests: map<string, Request>, owner: string): (rs: seq<Request>)
    requires IdsMatch(requests)
    ensures IsListing(requests, owner, rs)
  {
    ListingExists(requests, owner);
    var rs :| IsListing(requests, owner, rs);
    rs
  }

  // ---- Pages ----

  /** `slice(offset, offset + limit)`, which stops at the end of the list. */
  function Slice(rs: seq<Request>, offset: nat, limit: nat): seq<Request> {
    rs[Min(offset, |rs|)..Min(offset + limit, |rs|)]
  }

  /** Pages are numbered from one. */
  function PageOf(rs: seq<Request>, page: nat, size: nat): seq<Request>
    requires page >= 1
  {
    Slice(rs, (page - 1) * size, size)
  }

  function FirstPages(rs: seq<Request>, pages: nat, size: nat): seq<Request> {
    if pages == 0 then [] else FirstPages(rs, pages - 1, size) + PageOf(rs, pages, size)
  }

  lemma {:induction false} FirstPagesArePrefix(rs: seq<Request>, pages: nat, size: nat)
    ensures FirstPages(rs, pages, size) == rs[..Min(pages * size, |rs|)]
  {
    if pages > 0 {
      FirstPagesArePrefix(rs, pages - 1, size);
      assert pages * size == (pages - 1) * size + size;
    } else {
      assert pages * size == 0;
    }
  }

  lemma PagesCover(all: seq<Request>, size: nat)
    requires size > 0
    ensures FirstPages(all, CeilDiv(|all|, size), size) == all
    ensures forall page | page > CeilDiv(|all|, size) :: PageOf(all, page, size) == []
  {
    var last := CeilDiv(|all|, size);
    CeilDivCovers(|all|, size);
    FirstPagesArePrefix(all, last, size);
    forall page: nat | page > last ensures PageOf(all, page, size) == [] {
      TimesIsMonotonic(last, page - 1, size);
    }
  }

  lemma SortedIdsAreDistinct(requests: map<string, Request>, owner: string, rs: seq<Request>)
    requires IsListing(requests, owner, rs)
    ensures DistinctIds(rs)
  {
    forall i, j | 0 <= i < j < |rs| ensures rs[i].id != rs[j].id {
      assert rs[i] in rs && rs[j] in rs;
      BeforeIsStrictTotalOrder(rs[i], rs[j], rs[i]);
    }
  }

  /**
   * On a fixed store, pages 1 to ceil(total / size) concatenate to the owner's requests, each exactly
   * once and in order, and every later page is empty.
   */
  lemma {:induction false} PagesPartition(requests: map<string, Request>, owner: string, size: nat)
    requires IdsMatch(requests) && size > 0
    ensures var all := Listing(requests, owner);
            var last := CeilDiv(|all|, size);
            && FirstPages(all, last, size) == all
            && DistinctIds(all)
            && (forall page | page > last :: PageOf(all, page, size) == [])
  {
    var all := Listing(requests, owner);
    SortedIdsAreDistinct(requests, owner, all);
    hide Listing, IsListing, DistinctIds;
    PagesCover(all, size);
  }
}
