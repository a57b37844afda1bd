/**
 * The outbox relay: any number of replicas, one advisory lock, three outcomes per send, crashes at
 * any moment. It only reads the committed outbox, which writers keep growing underneath it.
 */
module Relay {
  import opened Numbers
  import opened Text
  import opened Catalog

  type Outbox = map<nat, OutboxRow>

  /** Where a drain is: about to fetch, about to send the next row, about to mark it, or stopped. */
  datatype Phase = Fetching | Sending | Marking | Stopped

  /** One drain's open transaction. Rows `batch[..done]` carry its uncommitted marks. */
  datatype Drain = Drain(batch: seq<nat>, done: nat, phase: Phase)

  /**
   * `marked` is committed; `broker` is everything that ever reached it, in order; `confirmed` is
   * what it acknowledged. `strays` are sends still under way in a replica that has lost its database
   * session, and with it the lock. `faults` counts crashes, lost sessions (a failed mark is one) and
   * deliveries left unconfirmed.
   */
  datatype RelayState = RelayState(
    lock: Option<nat>,
    drains: map<nat, Drain>,
    marked: set<nat>,
    broker: seq<nat>,
    confirmed: set<nat>,
    strays: map<nat, nat>,
    faults: nat)

  const IDLE := RelayState(None, map[], {}, [], {}, map[], 0)

  datatype RelayStep =
    | TryLock(replica: nat)
    | Fetch(replica: nat, limit: nat)
    | SendConfirmed(replica: nat)
    | SendRefused(replica: nat)
    | SendUnconfirmed(replica: nat)
    | Mark(replica: nat)
    | CommitMarks(replica: nat)
    | LoseSession(replica: nat)
    | LandStray(replica: nat, confirm: bool)
    | Crash(replica: nat)

  // ---- Rows in id order ----

  ghost predicate IsLeast(s: set<nat>, m: nat) {
    m in s && forall n | n in s :: m <= n
  }

  ghost function Least(s: set<nat>): (m: nat)
    requires s != {}
    ensures IsLeast(s, m)
  {
    var x :| x in s;
    LeastExists(s, x);
    var m :| IsLeast(s, m);
    m
  }

  lemma {:induction false} LeastExists(s: set<nat>, x: nat)
    requires x in s
    ensures exists m :: IsLeast(s, m)
  {
    if !IsLeast(s, x) {
      var y :| y in s && y < x;
      LeastExists(s, y);
    }
  }

  predicate Increasing(ids: seq<nat>) {
    forall i, j | 0 <= i < j < |ids| :: ids[i] < ids[j]
  }

  ghost function Ascending(s: set<nat>): (ids: seq<nat>)
    ensures |ids| == |s| && Increasing(ids)
    ensures forall n :: n in ids <==> n in s
    decreases |s|
  {
    if s == {} then [] else
      var m := Least(s);
      [m] + Ascending(s - {m})
  }

  ghost function Pending(outbox: Outbox, marked: set<nat>): set<nat> {
    outbox.Keys - marked
  }

  /** The pending rows a drain takes: the first `limit` in id order. */
  ghost function Batch(outbox: Outbox, marked: set<nat>, limit: nat): (batch: seq<nat>)
    ensures |batch| == Min(limit, |Pending(outbox, marked)|)
  {
    var rows := Ascending(Pending(outbox, marked));
    rows[..Min(limit, |rows|)]
  }

  /** The batch that reading on from `rest`, `taken` being read, will end with. */
  ghost function Taken(taken: seq<nat>, rest: set<nat>, limit: nat): seq<nat> {
    var all := taken + Ascending(rest);
    all[..Min(limit, |all|)]
  }

  lemma NothingTakenYet(outbox: Outbox, marked: set<nat>, limit: nat)
    ensures Batch(outbox, marked, limit) == Taken([], outbox.Keys - marked, limit)
  {
    var all := Ascending(outbox.Keys - marked);
    assert [] + all == all;
  }

  lemma LeastComesNext(taken: seq<nat>, rest: set<nat>, m: nat, limit: nat)
    requires rest != {} && IsLeast(rest, m)
    ensures Taken(taken + [m], rest - {m}, limit) == Taken(taken, rest, limit)
  {
    assert Least(rest) == m;
    assert (taken + [m]) + Ascending(rest - {m}) == taken + ([m] + Ascending(rest - {m}));
  }

  lemma NothingMoreTaken(taken: seq<nat>, rest: set<nat>, limit: nat)
    requires |taken| == limit || (|taken| < limit && rest == {})
    ensures Taken(taken, rest, limit) == taken
  {
  }

  // ---- Steps ----

  /** The marks a drain's transaction has made so far. */
  function Marks(d: Drain): set<nat> {
    set k | 0 <= k < Min(d.done, |d.batch|) :: d.batch[k]
  }

  predicate Draining(s: RelayState, r: nat, phase: Phase) {
    r in s.drains && s.drains[r].phase == phase
  }

  /** The row the drain is at, if its batch is not used up. */
  predicate HasRow(d: Drain) {
    d.done < |d.batch|
  }

  function Put(s: RelayState, r: nat, d: Drain): RelayState {
    s.(drains := s.drains[r := d])
  }

  function Release(s: RelayState, r: nat): RelayState {
    s.(drains := s.drains - {r}, lock := if s.lock == Some(r) then None else s.lock)
  }

  /** One step of one replica. A step that is not enabled does nothing. */
  ghost function Next(outbox: Outbox, s: RelayState, step: RelayStep): RelayState {
    var r := step.replica;
    match step
    case TryLock(_) =>
      if s.lock.Some? || r in s.drains || r in s.strays then s
      else Put(s, r, Drain([], 0, Fetching)).(lock := Some(r))
    case Fetch(_, limit) =>
      if !Draining(s, r, Fetching) then s
      else Put(s, r, Drain(Batch(outbox, s.marked, limit), 0, Sending))
    case SendConfirmed(_) =>
      if !Draining(s, r, Sending) || !HasRow(s.drains[r]) then s
      else
        var d := s.drains[r];
        var row := d.batch[d.done];
        Put(s, r, d.(phase := Marking)).(broker := s.broker + [row], confirmed := s.confirmed + {row})
    case SendRefused(_) =>
      if !Draining(s, r, Sending) || !HasRow(s.drains[r]) then s
      else Put(s, r, s.drains[r].(phase := Stopped))
    case SendUnconfirmed(_) =>
      if !Draining(s, r, Sending) || !HasRow(s.drains[r]) then s
      else
        var d := s.drains[r];
        Put(s, r, d.(phase := Stopped)).(broker := s.broker + [d.batch[d.done]], faults := s.faults + 1)
    case Mark(_) =>
      if !Draining(s, r, Marking) then s
      else Put(s, r, s.drains[r].(done := s.drains[r].done + 1, phase := Sending))
    case CommitMarks(_) =>
      if r !in s.drains || !(s.drains[r].phase.Stopped? || (s.drains[r].phase.Sending? && !HasRow(s.drains[r]))) then s
      else
        var d := s.drains[r];
        Release(s, r).(marked := s.marked + Marks(d))
    case LoseSession(_) =>
      // The transaction is rolled back and the lock is free, but a send may still be under way.
      if r !in s.drains then s
      else
        var d := s.drains[r];
        Release(s, r).(faults := s.faults + 1,
                       strays := if d.phase.Sending? && HasRow(d) then s.strays[r := d.batch[d.done]] else s.strays)
    case LandStray(_, confirm) =>
      if r !in s.strays then s
      else s.(broker := s.broker + [s.strays[r]], strays := s.strays - {r},
              confirmed := if confirm then s.confirmed + {s.strays[r]} else s.confirmed)
    case Crash(_) =>
      // The process is gone, and what it was sending with it.
      if r in s.drains then Release(s, r).(faults := s.faults + 1)
      else s.(strays := s.strays - {r})
  }

  // ---- The invariant ----

  /** Later rows of a request always get higher ids than all its earlier ones. */
  ghost predicate OutboxGrows(a: Outbox, b: Outbox) {
    && (forall n | n in a :: n in b && b[n] == a[n])
    && (forall m, n | m in a && n in b && n !in a && b[n].request == a[m].request :: m < n)
  }

  ghost predicate SameRequest(outbox: Outbox, m: nat, n: nat) {
    m in outbox && n in outbox && outbox[m].request == outbox[n].request
  }

  ghost predicate LockKept(s: RelayState) {
    && (s.lock.Some? ==> s.drains.Keys == {s.lock.value})
    && (s.lock.None? ==> s.drains.Keys == {})
  }

  /** Marked implies confirmed implies delivered implies committed to the outbox. */
  ghost predicate NothingInvented(outbox: Outbox, s: RelayState) {
    && (forall n | n in s.marked :: n in s.confirmed)
    && (forall n | n in s.confirmed :: n in s.broker)
    && (forall n | n in s.broker :: n in outbox)
  }

  predicate DrainShaped(d: Drain) {
    && d.done <= |d.batch| && Increasing(d.batch)
    && (d.phase.Fetching? ==> d.batch == [])
    && (d.phase.Marking? || d.phase.Stopped? ==> HasRow(d))
  }

  /** A drain's rows are pending, the handled ones confirmed, and no earlier sibling was skipped. */
  ghost predicate DrainSound(outbox: Outbox, marked: set<nat>, confirmed: set<nat>, d: Drain) {
    && DrainShaped(d)
    && (forall k | 0 <= k < |d.batch| :: d.batch[k] in outbox && d.batch[k] !in marked)
    && (forall k | 0 <= k < |d.batch| && k < d.done + (if d.phase.Marking? then 1 else 0) :: d.batch[k] in confirmed)
    && (forall k, n | 0 <= k < |d.batch| && SameRequest(outbox, n, d.batch[k]) && n < d.batch[k] ::
          n in marked || n in d.batch[..k])
  }

  ghost predicate DrainsSound(outbox: Outbox, s: RelayState) {
    forall r | r in s.drains :: DrainSound(outbox, s.marked, s.confirmed, s.drains[r])
  }

  /** Whenever a row reached the broker, every earlier row of its request had already reached it. */
  ghost predicate DeliveredInOrder(outbox: Outbox, broker: seq<nat>) {
    forall j, n | 0 <= j < |broker| && SameRequest(outbox, n, broker[j]) && n < broker[j] :: n in broker[..j]
  }

  /** A marked row implies all earlier rows of its request are marked. */
  ghost predicate MarkedInOrder(outbox: Outbox, marked: set<nat>) {
    forall m, n | m in marked && SameRequest(outbox, n, m) && n < m :: n in marked
  }

  predicate Distinct(ids: seq<nat>) {
    forall i, j | 0 <= i < j < |ids| :: ids[i] != ids[j]
  }

  /** The rows a drain has sent and confirmed so far, marked or about to be. */
  function InHand(d: Drain): seq<nat> {
    d.batch[..Min(|d.batch|, d.done + if d.phase.Marking? then 1 else 0)]
  }

  /** Whatever a stray row is, every earlier row of its request has reached the broker already. */
  ghost predicate StraysSound(outbox: Outbox, s: RelayState) {
    forall r | r in s.strays :: RowIsNext(outbox, s.broker, s.strays[r])
  }

  ghost predicate RowIsNext(outbox: Outbox, broker: seq<nat>, row: nat) {
    row in outbox && forall n: nat | SameRequest(outbox, n, row) && n < row :: n in broker
  }

  /** Without faults, everything delivered is marked or in the hands of the open drain, once. */
  ghost predicate OnceWithoutFaults(s: RelayState) {
    s.faults == 0 ==>
      && Distinct(s.broker) && s.strays == map[]
      && forall n | n in s.broker :: n in s.marked || exists r :: r in s.drains && n in InHand(s.drains[r])
  }

  ghost predicate Inv(outbox: Outbox, s: RelayState) {
    && LockKept(s) && NothingInvented(outbox, s) && DrainsSound(outbox, s)
    && DeliveredInOrder(outbox, s.broker) && MarkedInOrder(outbox, s.marked)
    && StraysSound(outbox, s) && OnceWithoutFaults(s)
  }

  // ---- Writers keep it ----

  lemma GrowthKeepsInv(a: Outbox, b: Outbox, s: RelayState)
    requires OutboxGrows(a, b) && Inv(a, s)
    ensures Inv(b, s)
  {
    forall r | r in s.drains ensures DrainSound(b, s.marked, s.confirmed, s.drains[r]) {
      GrowthKeepsDrain(a, b, s.marked, s.confirmed, s.drains[r]);
    }
    hide DrainSound, LockKept, OnceWithoutFaults;
    assert forall n, m | m in a && SameRequest(b, n, m) && n < m :: SameRequest(a, n, m);
  }

  lemma GrowthKeepsDrain(a: Outbox, b: Outbox, marked: set<nat>, confirmed: set<nat>, d: Drain)
    requires OutboxGrows(a, b) && DrainSound(a, marked, confirmed, d)
    ensures DrainSound(b, marked, confirmed, d)
  {
    assert forall n, m | m in a && SameRequest(b, n, m) && n < m :: SameRequest(a, n, m);
  }

  // ---- Relay steps keep it ----

  lemma BatchIsFirst(outbox: Outbox, marked: set<nat>, limit: nat)
    ensures var batch := Batch(outbox, marked, limit);
            && Increasing(batch)
            && (forall k | 0 <= k < |batch| :: batch[k] in outbox && batch[k] !in marked)
            && (forall k, n | 0 <= k < |batch| && n in outbox && n !in marked && n < batch[k] :: n in batch[..k])
  {
    var rows := Ascending(Pending(outbox, marked));
    assert forall n :: n in rows <==> n in outbox && n !in marked;
    TakeIsFirst(rows, Min(limit, |rows|));
    hide Increasing, Ascending;
  }

  lemma TakeIsFirst(rows: seq<nat>, m: nat)
    requires Increasing(rows) && m <= |rows|
    ensures Increasing(rows[..m])
    ensures forall k | 0 <= k < m :: rows[..m][k] in rows
    ensures forall k, n | 0 <= k < m && n in rows && n < rows[..m][k] :: n in rows[..m][..k]
  {
    forall k, n | 0 <= k < m && n in rows && n < rows[..m][k] ensures n in rows[..m][..k] {
      FirstsPrecede(rows, n, k);
      assert rows[..k] == rows[..m][..k];
    }
  }

  lemma FirstsPrecede(rows: seq<nat>, n: nat, k: nat)
    requires Increasing(rows) && n in rows && k < |rows| && n < rows[k]
    ensures n in rows[..k]
  {
    var i :| 0 <= i < |rows| && rows[i] == n;
    assert i < k;
    assert rows[..k][i] == n;
  }

  lemma FetchIsSound(outbox: Outbox, s: RelayState, limit: nat)
    requires MarkedInOrder(outbox, s.marked)
    ensures DrainSound(outbox, s.marked, s.confirmed, Drain(Batch(outbox, s.marked, limit), 0, Sending))
  {
    BatchIsFirst(outbox, s.marked, limit);
    hide Batch;
    FirstRowsAreSound(outbox, s, Batch(outbox, s.marked, limit));
  }

  lemma FirstRowsAreSound(outbox: Outbox, s: RelayState, batch: seq<nat>)
    requires Increasing(batch)
    requires forall k | 0 <= k < |batch| :: batch[k] in outbox && batch[k] !in s.marked
    requires forall k, n | 0 <= k < |batch| && n in outbox && n !in s.marked && n < batch[k] :: n in batch[..k]
    ensures DrainSound(outbox, s.marked, s.confirmed, Drain(batch, 0, Sending))
  {
  }

  /** The row a drain is about to send has every earlier sibling delivered already. */
  lemma NextRowIsInOrder(outbox: Outbox, s: RelayState, r: nat)
    requires NothingInvented(outbox, s)
    requires r in s.drains && DrainSound(outbox, s.marked, s.confirmed, s.drains[r])
    requires s.drains[r].phase.Sending? && HasRow(s.drains[r])
    ensures RowIsNext(outbox, s.broker, s.drains[r].batch[s.drains[r].done])
  {
    var d := s.drains[r];
    var row := d.batch[d.done];
    forall n | SameRequest(outbox, n, row) && n < row ensures n in s.broker {
      if n !in s.marked {
        assert n in d.batch[..d.done];
      }
    }
  }

  lemma NextRowKeepsOrder(outbox: Outbox, broker: seq<nat>, row: nat)
    requires DeliveredInOrder(outbox, broker) && RowIsNext(outbox, broker, row)
    ensures DeliveredInOrder(outbox, broker + [row])
  {
    var broker' := broker + [row];
    forall j, n | 0 <= j < |broker'| && SameRequest(outbox, n, broker'[j]) && n < broker'[j]
      ensures n in broker'[..j]
    {
      if j < |broker| {
        assert broker'[..j] == broker[..j];
      } else {
        assert broker'[..j] == broker;
      }
    }
  }

  lemma StepKeepsStrays(outbox: Outbox, s: RelayState, step: RelayStep)
    requires Inv(outbox, s)
    ensures StraysSound(outbox, Next(outbox, s, step))
  {
    var r, s' := step.replica, Next(outbox, s, step);
    if step.LoseSession? && r in s.drains && s.drains[r].phase.Sending? && HasRow(s.drains[r]) {
      NextRowIsInOrder(outbox, s, r);
    }
    assert s.broker <= s'.broker;
    hide LockKept, NothingInvented, DrainsSound, DeliveredInOrder, MarkedInOrder, OnceWithoutFaults, SameRequest;
  }

  /** The rows a drain marks complete the story of their requests up to each of them. */
  lemma CommitKeepsMarkedInOrder(outbox: Outbox, marked: set<nat>, confirmed: set<nat>, d: Drain)
    requires MarkedInOrder(outbox, marked) && DrainSound(outbox, marked, confirmed, d)
    ensures MarkedInOrder(outbox, marked + Marks(d))
  {
    forall m, n | m in Marks(d) && SameRequest(outbox, n, m) && n < m ensures n in marked + Marks(d) {
      var k :| 0 <= k < Min(d.done, |d.batch|) && d.batch[k] == m;
      if n !in marked {
        var i :| 0 <= i < k && d.batch[..k][i] == n;
        assert d.batch[i] == n;
      }
    }
  }

  /** Nothing still in hand has been delivered before, as long as nothing went wrong. */
  lemma NextRowIsNew(outbox: Outbox, s: RelayState, r: nat)
    requires LockKept(s) && OnceWithoutFaults(s) && s.faults == 0
    requires r in s.drains && DrainSound(outbox, s.marked, s.confirmed, s.drains[r])
    requires s.drains[r].phase.Sending? && HasRow(s.drains[r])
    ensures s.drains[r].batch[s.drains[r].done] !in s.broker
  {
    assert s.drains.Keys == {r};
  }

  /** The only drain there can be is the lock holder's. */
  lemma OneDrain(s: RelayState, r: nat)
    requires LockKept(s) && r in s.drains
    ensures s.lock == Some(r) && forall u | u in s.drains :: u == r
  {
  }

  lemma PutKeepsDrains(outbox: Outbox, s: RelayState, s': RelayState, r: nat, d: Drain)
    requires LockKept(s) && (r in s.drains || s.lock.None?)
    requires s'.drains == s.drains[r := d] && s'.lock == Some(r)
    requires DrainSound(outbox, s'.marked, s'.confirmed, d)
    ensures LockKept(s') && DrainsSound(outbox, s')
  {
    hide DrainSound;
    assert s'.drains.Keys == s.drains.Keys + {r};
  }

  /** The statements of a drain keep it sound; `confirmed` may only have grown by the row at hand. */
  lemma DrainMovesOn(outbox: Outbox, marked: set<nat>, confirmed: set<nat>, d: Drain)
    requires DrainSound(outbox, marked, confirmed, d)
    ensures d.phase.Sending? && HasRow(d) ==>
              DrainSound(outbox, marked, confirmed + {d.batch[d.done]}, d.(phase := Marking))
              && DrainSound(outbox, marked, confirmed, d.(phase := Stopped))
    ensures d.phase.Marking? ==> DrainSound(outbox, marked, confirmed, d.(done := d.done + 1, phase := Sending))
  {
    hide SameRequest;
  }

  lemma StepKeepsDrains(outbox: Outbox, s: RelayState, step: RelayStep)
    requires LockKept(s) && DrainsSound(outbox, s) && MarkedInOrder(outbox, s.marked)
    ensures LockKept(Next(outbox, s, step)) && DrainsSound(outbox, Next(outbox, s, step))
  {
    var r, s' := step.replica, Next(outbox, s, step);
    if step.LandStray? {
      hide DrainShaped, SameRequest;
    } else if r in s'.drains && s' != s {
      if r in s.drains {
        OneDrain(s, r);
        DrainMovesOn(outbox, s.marked, s.confirmed, s.drains[r]);
      }
      if step.Fetch? { FetchIsSound(outbox, s, step.limit); }
      hide DrainSound, LockKept, DrainsSound, Batch, MarkedInOrder;
      PutKeepsDrains(outbox, s, s', r, s'.drains[r]);
    } else if s' != s && r in s.drains {
      OneDrain(s, r);
    }
  }

  lemma StepKeepsDelivery(outbox: Outbox, s: RelayState, step: RelayStep)
    requires Inv(outbox, s)
    ensures var s' := Next(outbox, s, step);
            NothingInvented(outbox, s') && DeliveredInOrder(outbox, s'.broker) && MarkedInOrder(outbox, s'.marked)
  {
    var r := step.replica;
    if r in s.drains {
      if s.drains[r].phase.Sending? && HasRow(s.drains[r]) {
        NextRowIsInOrder(outbox, s, r);
        NextRowKeepsOrder(outbox, s.broker, s.drains[r].batch[s.drains[r].done]);
      }
      CommitKeepsMarkedInOrder(outbox, s.marked, s.confirmed, s.drains[r]);
    }
    if r in s.strays {
      NextRowKeepsOrder(outbox, s.broker, s.strays[r]);
    }
  }

  lemma StepKeepsOnce(outbox: Outbox, s: RelayState, step: RelayStep)
    requires LockKept(s) && DrainsSound(outbox, s) && OnceWithoutFaults(s)
    ensures OnceWithoutFaults(Next(outbox, s, step))
  {
    var r, s' := step.replica, Next(outbox, s, step);
    if s'.faults == 0 && s' != s && r in s.drains {
      OneDrain(s, r);
      var d := s.drains[r];
      if step.SendConfirmed? {
        NextRowIsNew(outbox, s, r);
        hide DrainSound;
        assert s'.drains[r].batch[d.done] in InHand(s'.drains[r]);
      }
      forall n | n in s'.broker && n !in s'.marked ensures n in InHand(s'.drains[r]) && r in s'.drains {
        if n in InHand(d) { HandOver(d, n); }
      }
    }
  }

  /** What is in hand stays in hand until the drain's commit marks it. */
  lemma HandOver(d: Drain, n: nat)
    requires DrainShaped(d) && n in InHand(d)
    ensures d.phase.Sending? && HasRow(d) ==> n in InHand(d.(phase := Marking)) && n in InHand(d.(phase := Stopped))
    ensures d.phase.Marking? ==> n in InHand(d.(done := d.done + 1, phase := Sending))
    ensures d.phase.Stopped? || (d.phase.Sending? && !HasRow(d)) ==> n in Marks(d)
    ensures !d.phase.Fetching?
  {
    var k :| 0 <= k < |InHand(d)| && InHand(d)[k] == n;
    assert d.batch[k] == n;
    if d.phase.Sending? && HasRow(d) {
      assert InHand(d.(phase := Marking))[k] == n;
    }
  }

  lemma {:induction false} StepKeepsInv(outbox: Outbox, s: RelayState, step: RelayStep)
    requires Inv(outbox, s)
    ensures Inv(outbox, Next(outbox, s, step))
  {
    StepKeepsDrains(outbox, s, step);
    StepKeepsDelivery(outbox, s, step);
    StepKeepsStrays(outbox, s, step);
    StepKeepsOnce(outbox, s, step);
    hide Next, StraysSound, LockKept, NothingInvented, DrainsSound, DeliveredInOrder, MarkedInOrder, OnceWithoutFaults;
  }
}
