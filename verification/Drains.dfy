/** A whole drain at once: which rows it marks, and how drains empty the outbox. */
module Drains {
  import opened Numbers
  import opened Text
  import opened Relay

  /**
   * What becomes of one row: confirmed and marked, refused, delivered without the confirm arriving,
   * or confirmed but its mark failing, which rolls the whole drain back.
   */
  datatype Outcome = Confirmed | Refused | Unconfirmed | MarkFails

  /** How many sends succeed before the first that does not. */
  function Confirms(sends: seq<Outcome>): (n: nat)
    ensures n <= |sends|
    ensures forall k | 0 <= k < n :: sends[k] == Confirmed
    ensures n < |sends| ==> sends[n] != Confirmed
  {
    if sends == [] || sends[0] != Confirmed then 0 else 1 + Confirms(sends[1..])
  }

  /** Nobody drains, and this replica has no send left over from a lost session. */
  predicate Idle(s: RelayState, r: nat) {
    s.lock.None? && s.drains == map[] && r !in s.strays
  }

  /** One turn of the publish-then-mark loop, if there is a row left to send. */
  ghost function SendOne(outbox: Outbox, s: RelayState, r: nat, outcome: Outcome): RelayState {
    if !Draining(s, r, Sending) || !HasRow(s.drains[r]) then s
    else match outcome
      case Confirmed => Next(outbox, Next(outbox, s, SendConfirmed(r)), Mark(r))
      case Refused => Next(outbox, s, SendRefused(r))
      case Unconfirmed => Next(outbox, s, SendUnconfirmed(r))
      case MarkFails => Next(outbox, Next(outbox, s, SendConfirmed(r)), LoseSession(r))
  }

  ghost function SendAll(outbox: Outbox, s: RelayState, r: nat, sends: seq<Outcome>): RelayState
    decreases |sends|
  {
    if sends == [] then s else SendAll(outbox, SendOne(outbox, s, r, sends[0]), r, sends[1..])
  }

  /** A drain from lock to commit, with the answers its sends get. */
  ghost function DrainOnce(outbox: Outbox, s: RelayState, r: nat, limit: nat, sends: seq<Outcome>): RelayState {
    var fetched := Next(outbox, Next(outbox, s, TryLock(r)), Fetch(r, limit));
    Next(outbox, SendAll(outbox, fetched, r, sends), CommitMarks(r))
  }

  /** Whether the loop, `rest` rows from the end of its batch, is stopped by a given outcome. */
  predicate StopsOn(rest: seq<nat>, sends: seq<Outcome>, outcome: Outcome) {
    var n := Confirms(sends);
    n < |rest| && n < |sends| && sends[n] == outcome
  }

  /** The rows that reach the broker when the loop has `sends` ahead of it for the rest of its batch. */
  function Reaches(rest: seq<nat>, sends: seq<Outcome>): seq<nat> {
    var n := Min(|rest|, Confirms(sends));
    rest[..n] + if StopsOn(rest, sends, Unconfirmed) || StopsOn(rest, sends, MarkFails) then [rest[n]] else []
  }

  lemma SendAllOutside(outbox: Outbox, s: RelayState, r: nat, sends: seq<Outcome>)
    requires r !in s.drains || s.drains[r].phase.Stopped? || (s.drains[r].phase.Sending? && !HasRow(s.drains[r]))
    ensures SendAll(outbox, s, r, sends) == s
  {
  }

  /** What the loop has done to an otherwise idle relay, `n` rows and perhaps a failure later. */
  ghost predicate Delivered(s: RelayState, s': RelayState, r: nat, sends: seq<Outcome>)
    requires r in s.drains && s.drains[r].done <= |s.drains[r].batch|
  {
    var d := s.drains[r];
    var rest := d.batch[d.done..];
    var n := Min(|rest|, Confirms(sends));
    && s'.marked == s.marked && s'.strays == s.strays && s'.broker == s.broker + Reaches(rest, sends)
    && (if StopsOn(rest, sends, MarkFails) then
          s'.drains == s.drains - {r} && s'.lock == if s.lock == Some(r) then None else s.lock
        else
          && s'.lock == s.lock
          && s'.drains == s.drains[r := Drain(d.batch, d.done + n, if n < |rest| && n < |sends| then Stopped else Sending)])
  }

  lemma {:induction false} SendAllDelivers(outbox: Outbox, s: RelayState, r: nat, sends: seq<Outcome>)
    requires r in s.drains && s.drains[r].phase.Sending? && s.drains[r].done <= |s.drains[r].batch|
    ensures Delivered(s, SendAll(outbox, s, r, sends), r, sends)
    decreases |sends|
  {
    var d := s.drains[r];
    if sends == [] || !HasRow(d) || sends[0] != Confirmed {
      NothingMoreConfirmed(outbox, s, r, sends);
    } else {
      var s1 := SendOne(outbox, s, r, Confirmed);
      ConfirmedSendMarks(outbox, s, r);
      hide SendOne, Delivered;
      SendAllDelivers(outbox, s1, r, sends[1..]);
      DeliveredCons(s, s1, SendAll(outbox, s1, r, sends[1..]), r, sends);
    }
  }

  lemma NothingMoreConfirmed(outbox: Outbox, s: RelayState, r: nat, sends: seq<Outcome>)
    requires r in s.drains && s.drains[r].phase.Sending? && s.drains[r].done <= |s.drains[r].batch|
    requires sends == [] || !HasRow(s.drains[r]) || sends[0] != Confirmed
    ensures Delivered(s, SendAll(outbox, s, r, sends), r, sends)
  {
    assert s.broker + [] == s.broker;
    if sends == [] || !HasRow(s.drains[r]) {
      if sends != [] { SendAllOutside(outbox, s, r, sends); }
      hide SendOne;
    } else {
      SendAllOutside(outbox, SendOne(outbox, s, r, sends[0]), r, sends[1..]);
      hide SendAll;
      FailedSendStops(outbox, s, r, sends);
    }
  }

  lemma FailedSendStops(outbox: Outbox, s: RelayState, r: nat, sends: seq<Outcome>)
    requires r in s.drains && s.drains[r].phase.Sending? && HasRow(s.drains[r])
    requires sends != [] && sends[0] != Confirmed
    ensures Delivered(s, SendOne(outbox, s, r, sends[0]), r, sends)
  {
    assert s.broker + [] == s.broker;
    assert s.drains[r := s.drains[r].(phase := Marking)] - {r} == s.drains - {r};
  }

  lemma ConfirmedSendMarks(outbox: Outbox, s: RelayState, r: nat)
    requires r in s.drains && s.drains[r].phase.Sending? && HasRow(s.drains[r])
    ensures var d, s1 := s.drains[r], SendOne(outbox, s, r, Confirmed);
            && s1.drains == s.drains[r := d.(done := d.done + 1)]
            && s1.lock == s.lock && s1.marked == s.marked && s1.strays == s.strays && s1.broker == s.broker + [d.batch[d.done]]
  {
  }

  lemma DeliveredCons(s: RelayState, s1: RelayState, s': RelayState, r: nat, sends: seq<Outcome>)
    requires r in s.drains && s.drains[r].phase.Sending? && HasRow(s.drains[r])
    requires sends != [] && sends[0] == Confirmed
    requires s1.drains == s.drains[r := s.drains[r].(done := s.drains[r].done + 1)]
    requires s1.lock == s.lock && s1.marked == s.marked && s1.strays == s.strays
    requires s1.broker == s.broker + [s.drains[r].batch[s.drains[r].done]]
    requires Delivered(s1, s', r, sends[1..])
    ensures Delivered(s, s', r, sends)
  {
    var d := s.drains[r];
    var rest := d.batch[d.done..];
    assert rest[1..] == d.batch[d.done + 1..];
    ReachesCons(rest, sends);
    var n := Min(|rest|, Confirms(sends));
    LastPutStands(s.drains, r, d.(done := d.done + 1),
                  Drain(d.batch, d.done + n, if n < |rest| && n < |sends| then Stopped else Sending));
    Regroup(s.broker, rest[0], Reaches(rest[1..], sends[1..]));
    assert StopsOn(rest, sends, MarkFails) == StopsOn(rest[1..], sends[1..], MarkFails);
    hide Reaches, StopsOn;
  }

  lemma LastPutStands(drains: map<nat, Drain>, r: nat, d: Drain, e: Drain)
    ensures drains[r := d] - {r} == drains - {r}
    ensures drains[r := d][r := e] == drains[r := e]
  {
  }

  lemma Regroup(a: seq<nat>, x: nat, b: seq<nat>)
    ensures (a + [x]) + b == a + ([x] + b)
  {
  }

  lemma ReachesCons(rest: seq<nat>, sends: seq<Outcome>)
    requires rest != [] && sends != [] && sends[0] == Confirmed
    ensures Reaches(rest, sends) == [rest[0]] + Reaches(rest[1..], sends[1..])
  {
    var n := Min(|rest| - 1, Confirms(sends[1..]));
    assert rest[..n + 1] == [rest[0]] + rest[1..][..n];
  }

  /**
   * A drain that gets the lock marks exactly the first min(pending, limit, f) pending rows in id
   * order, where f counts the sends before the first failure, and delivers those and, if the failure
   * came after delivery, the next one. A failed mark undoes all marks. Then the lock is free.
   */
  lemma {:induction false} DrainMarksTheFirst(outbox: Outbox, s: RelayState, r: nat, limit: nat, sends: seq<Outcome>)
    requires Idle(s, r)
    requires |sends| >= |Batch(outbox, s.marked, limit)|
    ensures var batch, s' := Batch(outbox, s.marked, limit), DrainOnce(outbox, s, r, limit, sends);
            && |batch| == Min(limit, |Pending(outbox, s.marked)|)
            && s'.marked == (if StopsOn(batch, sends, MarkFails) then s.marked
                             else s.marked + Firsts(batch, Min(|batch|, Confirms(sends))))
            && s'.broker == s.broker + Reaches(batch, sends)
            && Idle(s', r)
  {
    var batch := Batch(outbox, s.marked, limit);
    var fetched := Next(outbox, Next(outbox, s, TryLock(r)), Fetch(r, limit));
    FetchedDrain(outbox, s, r, limit);
    SendAllDelivers(outbox, fetched, r, sends);
    hide Batch, SendAll, Next, Delivered;
    DeliveredThenCommitted(outbox, s, r, batch, sends, SendAll(outbox, fetched, r, sends));
  }

  lemma DeliveredThenCommitted(outbox: Outbox, s: RelayState, r: nat, batch: seq<nat>, sends: seq<Outcome>, sent: RelayState)
    requires Idle(s, r) && |sends| >= |batch|
    requires Delivered(s.(lock := Some(r), drains := map[r := Drain(batch, 0, Sending)]), sent, r, sends)
    ensures var s' := Next(outbox, sent, CommitMarks(r));
            && s'.marked == (if StopsOn(batch, sends, MarkFails) then s.marked
                             else s.marked + Firsts(batch, Min(|batch|, Confirms(sends))))
            && s'.broker == s.broker + Reaches(batch, sends)
            && Idle(s', r)
  {
    assert batch[0..] == batch;
    hide Reaches;
    if StopsOn(batch, sends, MarkFails) {
      assert sent.drains == map[];
    } else {
      hide Next;
      CommitMarksFirsts(outbox, sent, r, batch, Min(|batch|, Confirms(sends)));
    }
  }

  lemma FetchedDrain(outbox: Outbox, s: RelayState, r: nat, limit: nat)
    requires Idle(s, r)
    ensures Next(outbox, Next(outbox, s, TryLock(r)), Fetch(r, limit))
            == s.(lock := Some(r), drains := map[r := Drain(Batch(outbox, s.marked, limit), 0, Sending)])
  {
    hide Batch;
    var s1 := Next(outbox, s, TryLock(r));
    assert s1 == s.(lock := Some(r), drains := map[r := Drain([], 0, Fetching)]);
    hide Least;
  }

  lemma CommitMarksFirsts(outbox: Outbox, s: RelayState, r: nat, batch: seq<nat>, n: nat)
    requires s.lock == Some(r) && s.drains.Keys == {r} && n <= |batch|
    requires s.drains[r].batch == batch && s.drains[r].done == n
    requires s.drains[r].phase.Stopped? || (s.drains[r].phase.Sending? && n == |batch|)
    ensures Next(outbox, s, CommitMarks(r)) == s.(lock := None, drains := map[], marked := s.marked + Firsts(batch, n))
  {
    assert Marks(s.drains[r]) == Firsts(batch, n);
    assert s.drains - {r} == map[];
  }

  function Firsts(batch: seq<nat>, n: nat): set<nat>
    requires n <= |batch|
  {
    set k | 0 <= k < n :: batch[k]
  }

  /** While another replica holds the lock a drain does nothing at all. */
  lemma LockedOutDrainDoesNothing(outbox: Outbox, s: RelayState, r: nat, limit: nat, sends: seq<Outcome>)
    requires s.lock.Some? && r !in s.drains
    ensures DrainOnce(outbox, s, r, limit, sends) == s
  {
    SendAllOutside(outbox, s, r, sends);
  }

  // ---- Emptying the outbox ----

  lemma {:induction false} FirstsCount(batch: seq<nat>, n: nat)
    requires n <= |batch| && Increasing(batch)
    ensures |Firsts(batch, n)| == n
  {
    if n > 0 {
      FirstsCount(batch, n - 1);
      FirstsSnoc(batch, n);
      hide Firsts, Increasing;
    }
  }

  lemma FirstsSnoc(batch: seq<nat>, n: nat)
    requires 0 < n <= |batch| && Increasing(batch)
    ensures Firsts(batch, n) == Firsts(batch, n - 1) + {batch[n - 1]} && batch[n - 1] !in Firsts(batch, n - 1)
  {
  }

  /** Drains in a row, every send confirmed. */
  ghost function DrainTimes(outbox: Outbox, s: RelayState, r: nat, limit: nat, times: nat): RelayState {
    if times == 0 then s
    else DrainOnce(outbox, DrainTimes(outbox, s, r, limit, times - 1), r, limit, seq(limit, _ => Confirmed))
  }

  lemma {:induction false} AllConfirmed(n: nat)
    ensures Confirms(seq(n, _ => Confirmed)) == n
  {
  }

  lemma ConfirmedDrainTakesBatch(outbox: Outbox, s: RelayState, r: nat, limit: nat)
    requires Idle(s, r)
    ensures var s' := DrainOnce(outbox, s, r, limit, seq(limit, _ => Confirmed));
            && Idle(s', r)
            && |Pending(outbox, s'.marked)| == |Pending(outbox, s.marked)| - Min(limit, |Pending(outbox, s.marked)|)
  {
    var batch := Batch(outbox, s.marked, limit);
    var sends := seq(limit, _ => Confirmed);
    AllConfirmed(limit);
    DrainMarksTheFirst(outbox, s, r, limit, sends);
    BatchIsFirst(outbox, s.marked, limit);
    FirstsCount(batch, |batch|);
    var taken := Firsts(batch, |batch|);
    hide Batch;
    assert taken <= Pending(outbox, s.marked);
    assert Pending(outbox, s.marked + taken) == Pending(outbox, s.marked) - taken;
  }

  /** What is left of `before` pending rows after so many drains of `limit`. */
  predicate CountedDown(before: nat, after: nat, times: nat, limit: nat) {
    after <= before && (after == 0 || after == before - times * limit)
  }

  lemma CountDownStep(before: nat, after: nat, times: nat, limit: nat)
    requires times > 0 && CountedDown(before, after, times - 1, limit)
    ensures CountedDown(before, after - Min(limit, after), times, limit)
  {
    assert times * limit == (times - 1) * limit + limit;
  }

  lemma {:induction false} DrainsCountDown(outbox: Outbox, s: RelayState, r: nat, limit: nat, times: nat)
    requires Idle(s, r)
    ensures var s' := DrainTimes(outbox, s, r, limit, times);
            && Idle(s', r)
            && CountedDown(|Pending(outbox, s.marked)|, |Pending(outbox, s'.marked)|, times, limit)
  {
    hide DrainOnce, Pending;
    if times > 0 {
      DrainsCountDown(outbox, s, r, limit, times - 1);
      var before := DrainTimes(outbox, s, r, limit, times - 1);
      ConfirmedDrainTakesBatch(outbox, before, r, limit);
      CountDownStep(|Pending(outbox, s.marked)|, |Pending(outbox, before.marked)|, times, limit);
      hide CountedDown;
    }
  }

  lemma CountedToZero(before: nat, after: nat, limit: nat)
    requires limit > 0 && CountedDown(before, after, CeilDiv(before, limit), limit)
    ensures after == 0
  {
    CeilDivCovers(before, limit);
    hide CeilDiv;
  }

  /** Without failures or new rows, ceil(n / limit) drains empty an outbox of n pending rows. */
  lemma DrainsEmptyTheOutbox(outbox: Outbox, s: RelayState, r: nat, limit: nat)
    requires Idle(s, r) && limit > 0
    ensures var n := |Pending(outbox, s.marked)|;
            Pending(outbox, DrainTimes(outbox, s, r, limit, CeilDiv(n, limit)).marked) == {}
  {
    hide DrainTimes, Pending, CountedDown, CeilDiv;
    var n := |Pending(outbox, s.marked)|;
    var times := CeilDiv(n, limit);
    DrainsCountDown(outbox, s, r, limit, times);
    CountedToZero(n, |Pending(outbox, DrainTimes(outbox, s, r, limit, times).marked)|, limit);
  }
}
