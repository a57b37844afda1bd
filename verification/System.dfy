/** Writers and relay replicas together: delivery guarantees over whole runs. */
module System {
  import opened Catalog
  import Protocol
  import Serializability
  import R = Relay

  datatype State = State(db: Protocol.State, relay: R.RelayState)

  datatype Step = Writer(step: Protocol.Step) | Replica(relayStep: R.RelayStep)

  ghost function Next(s: State, step: Step): State {
    match step
    case Writer(w) => s.(db := Protocol.Next(s.db, w))
    case Replica(r) => s.(relay := R.Next(s.db.outbox, s.relay, r))
  }

  /** Any interleaving of writers' statements and relay steps over tables that were there before. */
  ghost function After(t0: Tables, steps: seq<Step>): State {
    if steps == [] then State(Protocol.Quiet(t0), R.IDLE)
    else Next(After(t0, steps[..|steps| - 1]), steps[|steps| - 1])
  }

  ghost predicate Inv(t0: Tables, s: State) {
    Serializability.Inv(t0, s.db) && R.Inv(s.db.outbox, s.relay)
  }

  /** Ids are drawn at insert time, yet no writer ever commits below a sibling already committed. */
  lemma WritersGrowTheOutbox(t0: Tables, s: Protocol.State, step: Protocol.Step)
    requires Wellformed(t0) && Serializability.Inv(t0, s)
    ensures R.OutboxGrows(s.outbox, Protocol.Next(s, step).outbox)
  {
    if Protocol.Commits(s, step) {
      CommitGrowsTheOutbox(s, step.txn);
    }
  }

  lemma CommitGrowsTheOutbox(s: Protocol.State, t: nat)
    requires Serializability.DrawnApart(s) && t in s.txns && s.txns[t].pc.Committing?
    ensures R.OutboxGrows(s.outbox, Protocol.Commit(s, t).outbox)
  {
    if s.txns[t].buffer.row.Some? {
      assert Serializability.HasDrawn(s.txns[t]);
    }
  }

  lemma {:induction false} ReachableInv(t0: Tables, steps: seq<Step>)
    requires Wellformed(t0)
    ensures Inv(t0, After(t0, steps))
  {
    if steps == [] {
      Serializability.StartIsInv(t0);
    } else {
      var before, step := After(t0, steps[..|steps| - 1]), steps[|steps| - 1];
      ReachableInv(t0, steps[..|steps| - 1]);
      match step
      case Writer(w) =>
        Serializability.NextKeepsInv(t0, before.db, w);
        WritersGrowTheOutbox(t0, before.db, w);
        R.GrowthKeepsInv(before.db.outbox, Protocol.Next(before.db, w).outbox, before.relay);
      case Replica(r) => R.StepKeepsInv(before.db.outbox, before.relay, r);
    }
  }

  // ---- Main results ----

  /**
   * Per-request delivery order. Take any row of a request in the order its events were committed:
   * when it reaches the broker every earlier row of that request has reached it before, and once it
   * is marked so is every earlier one. Replicas, failed sends and crashes change nothing in this.
   */
  lemma DeliveryFollowsTheStory(t0: Tables, steps: seq<Step>, a: nat, b: nat)
    requires Wellformed(t0)
    requires var s := After(t0, steps);
             && a < b < |s.db.ids| && Serializability.IdsListed(s.db)
             && s.db.outbox[s.db.ids[a]].request == s.db.outbox[s.db.ids[b]].request
    ensures var s := After(t0, steps);
            var earlier, later := s.db.ids[a], s.db.ids[b];
            && earlier < later
            && (forall j | 0 <= j < |s.relay.broker| && s.relay.broker[j] == later :: earlier in s.relay.broker[..j])
            && (later in s.relay.marked ==> earlier in s.relay.marked)
  {
    ReachableInv(t0, steps);
    var s := After(t0, steps);
    hide After;
    assert Serializability.IdsOrdered(s.db);
    assert R.SameRequest(s.db.outbox, s.db.ids[a], s.db.ids[b]);
    hide Serializability.Inv;
  }

  /** Nothing is lost: a committed row is pending or delivered; a mark means confirmed and delivered. */
  lemma NothingIsLost(t0: Tables, steps: seq<Step>, n: nat)
    requires Wellformed(t0) && n in After(t0, steps).db.outbox
    ensures var s := After(t0, steps);
            && (n in R.Pending(s.db.outbox, s.relay.marked) || n in s.relay.broker)
            && (n in s.relay.marked ==> n in s.relay.confirmed && n in s.relay.broker)
  {
    ReachableInv(t0, steps);
    hide After, Serializability.Inv;
  }

  /** The broker never sees a row that was not committed. */
  lemma NothingIsInvented(t0: Tables, steps: seq<Step>, n: nat)
    requires Wellformed(t0) && n in After(t0, steps).relay.broker
    ensures n in After(t0, steps).db.outbox
  {
    ReachableInv(t0, steps);
    hide After, Serializability.Inv;
  }

  /** With no crash, failed mark or missing confirm, replicas deliver each row at most once. */
  lemma AtMostOnceWithoutFaults(t0: Tables, steps: seq<Step>)
    requires Wellformed(t0) && After(t0, steps).relay.faults == 0
    ensures R.Distinct(After(t0, steps).relay.broker)
  {
    ReachableInv(t0, steps);
    hide After, Serializability.Inv;
  }
}
