/** The relay's drain loop and the scheduler that ticks it, as the objects they are. */
module OutboxRelay {
  import opened Text
  import opened Catalog
  import R = Relay
  import opened Drains

  const DEFAULT_BATCH := 50

  /** The outbox table, its publication marks and the advisory lock. */
  class Database {
    var outbox: map<nat, OutboxRow>
    var published: set<nat>
    var lockHolder: Option<nat>
    /** The drain transactions that are open, and how often one was cut short. */
    ghost var drains: map<nat, R.Drain>
    ghost var faults: nat

    constructor (outbox: map<nat, OutboxRow>)
      ensures this.outbox == outbox && published == {} && lockHolder.None? && drains == map[] && faults == 0
    {
      this.outbox, published, lockHolder, drains, faults := outbox, {}, None, map[], 0;
    }

    /** The pending rows, oldest first: `ORDER BY id LIMIT limit`. */
    method SelectPending(limit: nat) returns (rows: seq<nat>)
      ensures rows == R.Batch(outbox, published, limit)
    {
      hide R.Ascending, R.IsLeast, R.Batch;
      rows := [];
      var rest := outbox.Keys - published;
      R.NothingTakenYet(outbox, published, limit);
      while |rows| < limit && rest != {}
        invariant |rows| <= limit
        invariant R.Batch(outbox, published, limit) == R.Taken(rows, rest, limit)
        decreases rest
      {
        var first := NextId(rest);
        R.LeastComesNext(rows, rest, first, limit);
        rows, rest := rows + [first], rest - {first};
      }
      R.NothingMoreTaken(rows, rest, limit);
    }

    /** The smallest id of a non-empty set. */
    method NextId(ids: set<nat>) returns (least: nat)
      requires ids != {}
      ensures R.IsLeast(ids, least)
    {
      least :| least in ids;
      var rest := ids - {least};
      while rest != {}
        invariant least in ids && rest <= ids
        invariant forall n | n in ids :: n in rest || least <= n
        decreases rest
      {
        var n :| n in rest;
        if n < least { least := n; }
        rest := rest - {n};
      }
    }
  }

  /** The publish channel; `fate` is what the broker and the network make of this send. */
  class PublishChannel {
    var delivered: seq<nat>
    var confirmed: set<nat>
    /** Sends of drains whose database session was lost, still under way. */
    ghost var strays: map<nat, nat>

    constructor ()
      ensures delivered == [] && confirmed == {} && strays == map[]
    {
      delivered, confirmed, strays := [], {}, map[];
    }

    method SendToQueue(row: nat, fate: Outcome) returns (rejected: bool)
      modifies this
      ensures rejected <==> fate.Refused? || fate.Unconfirmed?
      ensures strays == old(strays)
      ensures delivered == if fate.Refused? then old(delivered) else old(delivered) + [row]
      ensures confirmed == if rejected then old(confirmed) else old(confirmed) + {row}
    {
      rejected := fate.Refused? || fate.Unconfirmed?;
      if !fate.Refused? { delivered := delivered + [row]; }
      if !rejected { confirmed := confirmed + {row}; }
    }
  }

  /** How a drain ends: with a count, or by throwing what went wrong. */
  datatype DrainResult = Sent(count: nat) | Threw

  class Relay {
    const replica: nat
    const database: Database
    const channel: PublishChannel
    var publishFailures: nat

    constructor (replica: nat, database: Database, channel: PublishChannel)
      ensures this.replica == replica && this.database == database && this.channel == channel && publishFailures == 0
    {
      this.replica, this.database, this.channel, publishFailures := replica, database, channel, 0;
    }

    /** The state of the relay protocol that these objects hold. */
    ghost function View(): R.RelayState
      reads this, database, channel
    {
      R.RelayState(database.lockHolder, database.drains, database.published,
                   channel.delivered, channel.confirmed, channel.strays, database.faults)
    }

    /** The open drain has sent and marked `sent` of its rows. */
    ghost predicate At(rows: seq<nat>, sent: nat, phase: R.Phase)
      reads this, database
    {
      database.lockHolder == Some(replica)
      && replica in database.drains && database.drains[replica] == R.Drain(rows, sent, phase)
    }

    /** Takes the lock, unless another replica has it, and reads the batch. */
    method Open(batchSize: nat) returns (locked: bool, rows: seq<nat>)
      requires replica !in database.drains && replica !in channel.strays
      modifies database
      ensures database.outbox == old(database.outbox) && database.published == old(database.published)
      ensures locked <==> old(database.lockHolder).None?
      ensures !locked ==> View() == old(View())
      ensures locked ==> At(rows, 0, R.Sending) && rows == R.Batch(database.outbox, database.published, batchSize)
      ensures locked ==> View() == R.Next(database.outbox, R.Next(database.outbox, old(View()), R.TryLock(replica)),
                                          R.Fetch(replica, batchSize))
    {
      hide R.Batch;
      if database.lockHolder.Some? {
        return false, [];
      }
      database.lockHolder := Some(replica);
      rows := database.SelectPending(batchSize);
      database.drains := database.drains[replica := R.Drain(rows, 0, R.Sending)];
      locked := true;
    }

    /** Publishes one row and then marks it; `fate` says which of the two fails, if any. */
    method PublishAndMark(rows: seq<nat>, sent: nat, fate: Outcome) returns (thrown: bool)
      requires At(rows, sent, R.Sending) && sent < |rows|
      modifies this, database, channel
      ensures View() == SendOne(database.outbox, old(View()), replica, fate)
      ensures database.outbox == old(database.outbox) && database.published == old(database.published)
      ensures thrown <==> fate != Confirmed
      ensures fate.Confirmed? ==> At(rows, sent + 1, R.Sending)
      ensures fate.Refused? || fate.Unconfirmed? ==> At(rows, sent, R.Stopped)
      ensures fate.MarkFails? ==> replica !in database.drains
      ensures publishFailures == old(publishFailures) + if fate.Refused? || fate.Unconfirmed? then 1 else 0
    {
      var rejected := channel.SendToQueue(rows[sent], fate);
      if rejected {
        publishFailures := publishFailures + 1;
        database.drains := database.drains[replica := R.Drain(rows, sent, R.Stopped)];
        if fate.Unconfirmed? { database.faults := database.faults + 1; }
      } else if fate.MarkFails? {
        // The update throws: the transaction rolls back, its marks and its lock included.
        database.drains := database.drains - {replica};
        database.lockHolder := None;
        database.faults := database.faults + 1;
      } else {
        database.drains := database.drains[replica := R.Drain(rows, sent + 1, R.Sending)];
      }
      thrown := fate != Confirmed;
    }

    /** Commits the marks and gives the lock back. */
    method Close(rows: seq<nat>, sent: nat, marks: set<nat>)
      requires At(rows, sent, R.Stopped) || (At(rows, sent, R.Sending) && sent == |rows|)
      requires sent <= |rows| && marks == Firsts(rows, sent)
      modifies database
      ensures View() == R.Next(database.outbox, old(View()), R.CommitMarks(replica))
      ensures database.outbox == old(database.outbox)
    {
      assert marks == R.Marks(database.drains[replica]);
      database.published := database.published + marks;
      database.lockHolder := None;
      database.drains := database.drains - {replica};
    }

    /** `sends` is what becomes of each row in turn. The loop is exactly the protocol's drain. */
    method Drain(batchSize: nat, sends: seq<Outcome>) returns (result: DrainResult)
      requires |sends| >= batchSize && replica !in database.drains && replica !in channel.strays
      modifies this, database, channel
      ensures database.outbox == old(database.outbox)
      ensures View() == DrainOnce(database.outbox, old(View()), replica, batchSize, sends)
      ensures var batch := R.Batch(database.outbox, old(database.published), batchSize);
              var n := Confirms(sends);
              && result == (if old(database.lockHolder).Some? then Sent(0)
                            else if n < |batch| then Threw else Sent(|batch|))
              && publishFailures == old(publishFailures)
                   + if result.Threw? && sends[n] != MarkFails then 1 else 0
    {
      hide R.Batch, R.Next, SendAll, SendOne;
      ghost var outbox, start := database.outbox, View();
      var locked, rows := Open(batchSize);
      if !locked {
        LockedOutDrainDoesNothing(outbox, start, replica, batchSize, sends);
        return Sent(0);
      }
      ghost var fetched := View();
      assert sends[0..] == sends;
      var marks: set<nat>, sent, failed := {}, 0, false;
      while sent < |rows| && !failed
        invariant sent <= |rows| && database.outbox == outbox && database.published == old(database.published)
        invariant At(rows, sent, if failed then R.Stopped else R.Sending)
        invariant marks == Firsts(rows, sent)
        invariant Confirms(sends) >= sent
        invariant failed ==> sent < |rows| && Confirms(sends) == sent && sends[sent] != MarkFails
        invariant publishFailures == old(publishFailures) + if failed then 1 else 0
        invariant SendAll(outbox, fetched, replica, sends)
                  == SendAll(outbox, View(), replica, sends[if failed then sent + 1 else sent..])
        decreases |rows| - sent, !failed
      {
        SendAllStep(outbox, View(), replica, sends, sent);
        ConfirmsStep(sends, sent);
        failed := PublishAndMark(rows, sent, sends[sent]);
        if sends[sent].MarkFails? {
          RolledBack(outbox, View(), replica, sends, sent + 1);
          return Threw;
        }
        if !failed {
          marks := marks + {rows[sent]};
          sent := sent + 1;
        }
      }
      SendAllOutside(outbox, View(), replica, sends[if failed then sent + 1 else sent..]);
      Close(rows, sent, marks);
      return if failed then Threw else Sent(sent);
    }

    static lemma SendAllStep(outbox: R.Outbox, s: R.RelayState, r: nat, sends: seq<Outcome>, i: nat)
      requires i < |sends|
      ensures SendAll(outbox, s, r, sends[i..]) == SendAll(outbox, SendOne(outbox, s, r, sends[i]), r, sends[i + 1..])
    {
      assert sends[i..][0] == sends[i] && sends[i..][1..] == sends[i + 1..];
    }

    static lemma ConfirmsStep(sends: seq<Outcome>, i: nat)
      requires i < |sends| && i <= Confirms(sends)
      ensures if sends[i] == Confirmed then i + 1 <= Confirms(sends) else Confirms(sends) == i
    {
    }

    /** Once its transaction is rolled back, the rest of the drain does nothing. */
    static lemma RolledBack(outbox: R.Outbox, s: R.RelayState, r: nat, sends: seq<Outcome>, i: nat)
      requires i <= |sends| && r !in s.drains
      ensures R.Next(outbox, SendAll(outbox, s, r, sends[i..]), R.CommitMarks(r)) == s
    {
      SendAllOutside(outbox, s, r, sends[i..]);
    }
  }

  /** One replica's poll. A tick during a drain, or without a relay, does nothing. */
  class Scheduler {
    const relay: Relay?
    var draining: bool

    constructor (relay: Relay?)
      ensures this.relay == relay && !draining
    {
      this.relay, draining := relay, false;
    }

    method Tick(sends: seq<Outcome>) returns (published: nat)
      requires |sends| >= DEFAULT_BATCH
      requires relay != null && !draining ==> relay.replica !in relay.database.drains && relay.replica !in relay.channel.strays
      modifies this, relay, if relay != null then {relay.database, relay.channel} else {}
      ensures draining == old(draining)
      ensures relay == null || old(draining) ==> published == 0
      ensures relay != null ==>
                && relay.database.outbox == old(relay.database.outbox)
                && relay.View() == (if old(draining) then old(relay.View())
                                    else DrainOnce(relay.database.outbox, old(relay.View()), relay.replica, DEFAULT_BATCH, sends))
                && (var batch := R.Batch(relay.database.outbox, old(relay.database.published), DEFAULT_BATCH);
                    !old(draining) ==> published == (if old(relay.database.lockHolder).Some? || Confirms(sends) < |batch| then 0
                                                     else |batch|))
    {
      if relay == null || draining {
        return 0;
      }
      hide DrainOnce, R.Batch;
      draining := true;
      var result := relay.Drain(DEFAULT_BATCH, sends);
      draining := false;
      published := match result case Sent(count) => count case Threw => 0;
    }
  }
}
