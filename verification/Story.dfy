/** The outbox of a concurrent run, read in id order, tells every request's state; reads agree. */
module Story {
  import opened Catalog
  import opened Announcements
  import Serializability
  import System
  import R = Relay

  /** The outbox ids of one request's rows, in commit order. */
  ghost function OwnIds(ids: seq<nat>, outbox: map<nat, OutboxRow>, id: string): seq<nat>
    requires forall n | n in ids :: n in outbox
  {
    if ids == [] then []
    else
      var rest, last := OwnIds(ids[..|ids| - 1], outbox, id), ids[|ids| - 1];
      if outbox[last].request == id then rest + [last] else rest
  }

  ghost function RowsAt(ids: seq<nat>, outbox: map<nat, OutboxRow>): seq<OutboxRow>
    requires forall n | n in ids :: n in outbox
  {
    seq(|ids|, k requires 0 <= k < |ids| => outbox[ids[k]])
  }

  lemma RowsAtSnoc(ids: seq<nat>, last: nat, outbox: map<nat, OutboxRow>)
    requires last in outbox && forall n | n in ids :: n in outbox
    ensures RowsAt(ids + [last], outbox) == RowsAt(ids, outbox) + [outbox[last]]
  {
  }

  lemma {:induction false} OwnIdsAreOwn(ids: seq<nat>, outbox: map<nat, OutboxRow>, id: string)
    requires forall n | n in ids :: n in outbox
    ensures forall n :: n in OwnIds(ids, outbox, id) <==> n in ids && outbox[n].request == id
  {
    if ids != [] {
      var init, last := ids[..|ids| - 1], ids[|ids| - 1];
      assert ids == init + [last];
      OwnIdsAreOwn(init, outbox, id);
    }
  }

  lemma {:induction false} OwnIdsHoldOwnRows(ids: seq<nat>, outbox: map<nat, OutboxRow>, id: string)
    requires forall n | n in ids :: n in outbox
    ensures forall n | n in OwnIds(ids, outbox, id) :: n in outbox
    ensures RowsAt(OwnIds(ids, outbox, id), outbox) == RowsOf(RowsAt(ids, outbox), id)
  {
    OwnIdsAreOwn(ids, outbox, id);
    if ids != [] {
      var init, last := ids[..|ids| - 1], ids[|ids| - 1];
      OwnIdsHoldOwnRows(init, outbox, id);
      assert ids == init + [last];
      RowsAtSnoc(init, last, outbox);
      RowsOfSnoc(RowsAt(init, outbox), outbox[last], id);
      RowsAtSnoc(OwnIds(init, outbox, id), last, outbox);
      hide RowsAt, RowsOf;
    }
  }

  lemma {:induction false} OwnIdsIncrease(ids: seq<nat>, outbox: map<nat, OutboxRow>, id: string)
    requires forall n | n in ids :: n in outbox
    requires forall j, k | 0 <= j < k < |ids| && outbox[ids[j]].request == outbox[ids[k]].request :: ids[j] < ids[k]
    ensures R.Increasing(OwnIds(ids, outbox, id))
  {
    if ids != [] {
      var init, last := ids[..|ids| - 1], ids[|ids| - 1];
      OwnIdsIncrease(init, outbox, id);
      if outbox[last].request == id {
        OwnIdsAreOwn(init, outbox, id);
        LastIsGreatest(ids, outbox, id);
        IncreasingSnoc(OwnIds(init, outbox, id), last);
      }
    }
  }

  lemma LastIsGreatest(ids: seq<nat>, outbox: map<nat, OutboxRow>, id: string)
    requires ids != [] && (forall n | n in ids :: n in outbox) && outbox[ids[|ids| - 1]].request == id
    requires forall j, k | 0 <= j < k < |ids| && outbox[ids[j]].request == outbox[ids[k]].request :: ids[j] < ids[k]
    ensures forall n | n in ids[..|ids| - 1] && outbox[n].request == id :: n < ids[|ids| - 1]
  {
  }

  lemma IncreasingSnoc(own: seq<nat>, last: nat)
    requires R.Increasing(own) && forall n | n in own :: n < last
    ensures R.Increasing(own + [last])
  {
    forall i | 0 <= i < |own| ensures own[i] < last { assert own[i] in own; }
  }

  ghost predicate ById(outbox: map<nat, OutboxRow>, id: string, own: seq<nat>) {
    && R.Increasing(own)
    && (forall n :: n in own <==> n in outbox && outbox[n].request == id)
  }

  lemma ConcurrentRunIsTold(steps: seq<System.Step>)
    ensures var db := System.After(EMPTY, steps).db;
            && Serializability.IdsListed(db) && Serializability.IdsOrdered(db)
            && Told(db.requests, Serializability.CommittedRows(db))
            && Wellformed(Tables(db.requests, db.events, Serializability.CommittedRows(db)))
  {
    System.ReachableInv(EMPTY, steps);
    var db := System.After(EMPTY, steps).db;
    assert Serializability.Refines(EMPTY, db) && Serializability.IdsOrdered(db);
    OutboxTellsTheState(Serializability.Deliveries(db.log));
    hide System.After, System.Inv, Told, Wellformed, HandleAll;
  }

  /**
   * The outbox determines the state. In every reachable state of a concurrent run, a request's rows
   * taken in id order announce each fact exactly once, carry its stored data and rebuild its state.
   */
  lemma RowsInIdOrderTellTheState(steps: seq<System.Step>, id: string) returns (own: seq<nat>)
    requires id in System.After(EMPTY, steps).db.requests
    ensures var db := System.After(EMPTY, steps).db;
            ById(db.outbox, id, own) && Tells(RowsAt(own, db.outbox), db.requests[id])
  {
    ConcurrentRunIsTold(steps);
    var db := System.After(EMPTY, steps).db;
    hide System.After, Tells, Wellformed, RowsOf, OwnIds, R.Increasing;
    own := OwnIds(db.ids, db.outbox, id);
    OwnIdsAreOwn(db.ids, db.outbox, id);
    OwnIdsHoldOwnRows(db.ids, db.outbox, id);
    OwnIdsIncrease(db.ids, db.outbox, id);
    assert RowsAt(db.ids, db.outbox) == Serializability.CommittedRows(db);
  }

  /** Owner-scoped reads of a concurrent run answer `ready` exactly for announced archives. */
  lemma ConcurrentArchiveIsAnnounced(steps: seq<System.Step>, owner: string, id: string, zip: string)
    ensures var db := System.After(EMPTY, steps).db;
            Serializability.IdsListed(db)
            && (ArchiveFor(db.requests, owner, id) == Ready(zip)
                <==> AnnouncedArchive(Serializability.CommittedRows(db), owner, id, zip))
  {
    ConcurrentRunIsTold(steps);
    var db := System.After(EMPTY, steps).db;
    hide System.After, Told, AnnouncedArchive, ArchiveFor;
    ArchiveIsAnnounced(db.requests, Serializability.CommittedRows(db), owner, id, zip);
  }
}
