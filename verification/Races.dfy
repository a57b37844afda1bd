/** What commits write, and how deliveries of one event that race past the re-check end. */
module Races {
  import opened Lifecycle
  import opened Catalog
  import opened Protocol
  import opened Serializability
  import opened Creation

  /** The tables after these commits' own writes, one commit after the other. */
  function FlushAll(t: Tables, log: seq<Entry>): Tables {
    if log == [] then t
    else Flushed(FlushAll(t, log[..|log| - 1]), log[|log| - 1].d.event, log[|log| - 1].wrote)
  }

  ghost predicate WritesAddUp(t0: Tables, s: State) {
    IdsListed(s) && FlushAll(t0, s.log) == Tables(s.requests, s.events, CommittedRows(s))
  }

  /** A commit records its event or writes nothing, and no event is ever recorded by two commits. */
  ghost predicate MarkedApart(t0: Tables, s: State) {
    && (forall e | e in t0.events :: e in s.events)
    && (forall k | 0 <= k < |s.log| && s.log[k].wrote.mark.None? :: s.log[k].wrote == NOTHING)
    && (forall k | 0 <= k < |s.log| && s.log[k].wrote.mark.Some? ::
          s.log[k].d.event in s.events && s.log[k].d.event !in t0.events)
    && (forall j, k | 0 <= j < k < |s.log| && s.log[j].wrote.mark.Some? && s.log[k].wrote.mark.Some? ::
          s.log[j].d.event != s.log[k].d.event)
  }

  /** The event was recorded by a commit of this run. */
  ghost predicate Won(s: State, event: string) {
    exists k :: 0 <= k < |s.log| && s.log[k].d.event == event && s.log[k].wrote.mark.Some?
  }

  ghost predicate EveryRecordIsWon(t0: Tables, s: State) {
    forall e | e in s.events && e !in t0.events :: Won(s, e)
  }

  /** Past its first check an event was not there from the start, and who loses to it finds it recorded. */
  ghost predicate Contested(t0: Tables, events: map<string, string>, x: Txn) {
    && (!x.pc.Checking? && !x.pc.Finding? && !x.pc.Done? ==> x.d.event !in t0.events)
    && (x.pc == Done(Errored(DuplicateEvent)) ==> x.d.event !in t0.events && x.d.event in events)
  }

  ghost predicate AllContested(t0: Tables, s: State) {
    forall t | t in s.txns :: Contested(t0, s.events, s.txns[t])
  }

  ghost predicate RaceInv(t0: Tables, s: State) {
    CreationInv(t0, s) && WritesAddUp(t0, s) && MarkedApart(t0, s) && EveryRecordIsWon(t0, s) && AllContested(t0, s)
  }

  lemma MovedIsContested(t0: Tables, requests: map<string, Request>, events: map<string, string>, next: nat, x: Txn)
    requires Contested(t0, events, x) && !x.pc.Done? && !x.pc.Committing?
    requires forall e | e in t0.events :: e in events
    requires forall e | e in events :: events[e] in requests
    ensures Contested(t0, events, Moved(requests, events, next, x))
  {
    hide Problem, NewRequest, Decide;
  }

  lemma StepKeepsContested(t0: Tables, s: State, step: Step)
    requires AllContested(t0, s) && MarkedApart(t0, s) && forall e | e in s.events :: s.events[e] in s.requests
    ensures AllContested(t0, Next(s, step))
  {
    if step.Move? && Enabled(s, step) && !Commits(s, step) {
      MovedIsContested(t0, s.requests, s.events, s.next, s.txns[step.txn]);
    }
    hide Moved, MarkedApart;
  }

  lemma CommitKeepsWon(t0: Tables, s: State, t: nat)
    requires EveryRecordIsWon(t0, s) && t in s.txns
    ensures EveryRecordIsWon(t0, Commit(s, t))
  {
    var s' := Commit(s, t);
    forall e | e in s'.events && e !in t0.events ensures Won(s', e) {
      if e in s.events {
        var k :| 0 <= k < |s.log| && s.log[k].d.event == e && s.log[k].wrote.mark.Some?;
        assert s'.log[k] == s.log[k];
      } else {
        assert s'.log[|s.log|].d.event == e && s'.log[|s.log|].wrote.mark.Some?;
      }
    }
  }

  lemma CommitKeepsWritesAddUp(t0: Tables, s: State, t: nat)
    requires WritesAddUp(t0, s) && DrawnApart(s) && t in s.txns && s.txns[t].pc.Committing?
    ensures WritesAddUp(t0, Commit(s, t))
  {
    CommitAppendsRow(s, t);
    var s' := Commit(s, t);
    assert s'.log[..|s'.log| - 1] == s.log;
    hide DrawnApart, IdsListed, CommittedRows;
  }

  lemma CommitKeepsMarkedApart(t0: Tables, s: State, t: nat)
    requires MarkedApart(t0, s) && t in s.txns && s.txns[t].pc.Committing?
    requires Sound(s.requests, s.events, s.txns[t])
    ensures MarkedApart(t0, Commit(s, t))
  {
    var x := s.txns[t];
    assert x.buffer.mark.None? ==> x.buffer == NOTHING;
    assert x.buffer.mark.Some? ==> Holds(x, EventEntry(x.d.event));
    assert x.buffer.mark.Some? ==> x.d.event !in s.events;
    hide Sound;
  }

  lemma OtherStepsWriteNothing(s: State, step: Step)
    requires !Commits(s, step)
    ensures var s' := Next(s, step);
            && s'.requests == s.requests && s'.events == s.events && s'.outbox == s.outbox
            && s'.ids == s.ids && s'.log == s.log && s'.next >= s.next
  {
    hide Moved;
  }

  lemma SameRecord(t0: Tables, s: State, s': State)
    requires WritesAddUp(t0, s) && MarkedApart(t0, s) && EveryRecordIsWon(t0, s)
    requires s'.requests == s.requests && s'.events == s.events && s'.outbox == s.outbox
    requires s'.ids == s.ids && s'.log == s.log && s'.next >= s.next
    ensures WritesAddUp(t0, s') && MarkedApart(t0, s') && EveryRecordIsWon(t0, s')
  {
    hide FlushAll;
    assert CommittedRows(s') == CommittedRows(s);
  }

  lemma StepKeepsRaceInv(t0: Tables, s: State, step: Step)
    requires Wellformed(t0) && RaceInv(t0, s)
    ensures RaceInv(t0, Next(s, step))
  {
    StepKeepsCreationInv(t0, s, step);
    hide AllHonest, LogKept, CreatedApart, WritesAddUp, MarkedApart, AllSound, Exclusive, DrawnApart;
    hide EveryRecordIsWon, AllContested;
    InvIsWellformed(t0, s);
    StepKeepsContested(t0, s, step);
    hide MoveStep, Blocked, Refines, Wellformed;
    if Commits(s, step) {
      InvSoundAt(t0, s, step.txn);
      CommitKeepsWritesAddUp(t0, s, step.txn);
      CommitKeepsMarkedApart(t0, s, step.txn);
      CommitKeepsWon(t0, s, step.txn);
      SameRecord(t0, Commit(s, step.txn), Next(s, step));
    } else {
      OtherStepsWriteNothing(s, step);
      SameRecord(t0, s, Next(s, step));
    }
  }

  lemma {:induction false} ReachableRaceInv(t0: Tables, steps: seq<Step>)
    requires Wellformed(t0)
    ensures RaceInv(t0, After(t0, steps))
  {
    ReachableCreationInv(t0, steps);
    if steps == [] {
      assert CommittedRows(Quiet(t0)) == t0.outbox;
    } else {
      ReachableRaceInv(t0, steps[..|steps| - 1]);
      StepKeepsRaceInv(t0, After(t0, steps[..|steps| - 1]), steps[|steps| - 1]);
    }
  }

  // ---- Racing ----

  /** Found its event unrecorded under its own lock or claims, and has not committed yet. */
  predicate PastRecheck(x: Txn) {
    x.pc.Updating? || x.pc.Adding? || x.pc.Marking? || (x.pc.Committing? && x.buffer.mark.Some?)
  }

  /** The transaction committed, and its commit recorded the event. */
  ghost predicate Recorded(s: State, t: nat) {
    exists k :: 0 <= k < |s.log| && s.log[k].txn == t && s.log[k].wrote.mark.Some?
  }

  predicate LostRace(x: Txn) {
    x.pc == Done(Errored(DuplicateEvent)) || x.pc == Done(Errored(Outage))
  }

  ghost predicate Racing(s: State, t: nat, event: string) {
    t in s.txns && s.txns[t].d.event == event
    && (PastRecheck(s.txns[t]) || LostRace(s.txns[t]) || Recorded(s, t))
  }

  lemma MovedStaysRacing(requests: map<string, Request>, events: map<string, string>, next: nat, x: Txn)
    requires PastRecheck(x) && !x.pc.Committing?
    ensures var y := Moved(requests, events, next, x); y.d == x.d && (PastRecheck(y) || LostRace(y))
  {
    hide Problem, NewRequest, Decide, FindByEvent;
  }

  lemma RacingGoesOn(s: State, step: Step, t: nat, event: string)
    requires Racing(s, t, event)
    requires Recorded(s, t) ==> s.txns[t].pc.Done?
    ensures Racing(Next(s, step), t, event)
  {
    var s' := Next(s, step);
    if step == Move(t) && Enabled(s, step) && PastRecheck(s.txns[t]) && !s.txns[t].pc.Committing? {
      MovedStaysRacing(s.requests, s.events, s.next, s.txns[t]);
    }
    hide Moved, PastRecheck;
    assert s.log <= s'.log;
    if Recorded(s, t) {
      var k :| 0 <= k < |s.log| && s.log[k].txn == t && s.log[k].wrote.mark.Some?;
      assert s'.log[k] == s.log[k];
    } else if Commits(s, step) && step.txn == t {
      assert s'.log[|s.log|].txn == t;
    }
  }

  lemma RecordedIsDone(t0: Tables, s: State, t: nat)
    requires LogKept(t0, s) && Recorded(s, t)
    ensures t in s.txns && Committed(s.txns[t])
  {
  }

  lemma {:induction false} RacingLasts(t0: Tables, steps: seq<Step>, more: seq<Step>, t: nat, event: string)
    requires Wellformed(t0) && Racing(After(t0, steps), t, event)
    ensures Racing(After(t0, steps + more), t, event)
  {
    if more == [] {
      assert steps + more == steps;
    } else {
      var init, last := more[..|more| - 1], more[|more| - 1];
      RacingLasts(t0, steps, init, t, event);
      assert (steps + more)[..|steps + more| - 1] == steps + init;
      var before := After(t0, steps + init);
      ReachableRaceInv(t0, steps + init);
      hide Next, Racing, After;
      if Recorded(before, t) { RecordedIsDone(t0, before, t); }
      RacingGoesOn(before, last, t, event);
    }
  }

  // ---- Main results ----

  /** The tables hold what the commits wrote and nothing else. */
  lemma {:induction false} CommitsWriteTheTables(t0: Tables, steps: seq<Step>, s: State)
    requires Wellformed(t0) && s == After(t0, steps)
    ensures IdsListed(s) && FlushAll(t0, s.log) == Tables(s.requests, s.events, CommittedRows(s))
  {
    ReachableRaceInv(t0, steps);
  }

  /** Two commits that wrote anything at all never carried the same event. */
  lemma {:induction false} EventIsWrittenOnce(t0: Tables, steps: seq<Step>, s: State, j: nat, k: nat)
    requires Wellformed(t0) && s == After(t0, steps)
    requires j < k < |s.log| && s.log[j].d.event == s.log[k].d.event
    ensures s.log[j].wrote == NOTHING || s.log[k].wrote == NOTHING
  {
    ReachableRaceInv(t0, steps);
    hide CreationInv;
  }

  /** Whoever is refused by the primary key lost to a commit of this run that recorded the event. */
  lemma {:induction false} DuplicateEventHasAWinner(t0: Tables, steps: seq<Step>, s: State, t: nat)
    requires Wellformed(t0) && s == After(t0, steps)
    requires t in s.txns && s.txns[t].pc == Done(Errored(DuplicateEvent))
    ensures exists k :: 0 <= k < |s.log| && s.log[k].txn != t
                        && s.log[k].d.event == s.txns[t].d.event && s.log[k].wrote.mark.Some?
  {
    ReachableRaceInv(t0, steps);
    hide After, Inv, AllHonest, CreatedApart, WritesAddUp, MarkedApart;
    LoserHasAWinner(t0, s, t);
  }

  lemma LoserHasAWinner(t0: Tables, s: State, t: nat)
    requires LogKept(t0, s) && EveryRecordIsWon(t0, s) && AllContested(t0, s)
    requires t in s.txns && s.txns[t].pc == Done(Errored(DuplicateEvent))
    ensures exists k :: 0 <= k < |s.log| && s.log[k].txn != t
                        && s.log[k].d.event == s.txns[t].d.event && s.log[k].wrote.mark.Some?
  {
    assert Contested(t0, s.events, s.txns[t]);
    assert Won(s, s.txns[t].d.event);
  }

  /**
   * Let two deliveries of one event, for whatever requests, both be past the re-check. However the
   * run goes on, at most one of them records the event; and one that ends without recording it was
   * refused by the primary key or cut short, and has committed nothing: no request, row or record.
   * The primary key refuses only for the sake of a winner that did record it.
   */
  lemma {:induction false} RacingDeliveriesTakeEffectOnce(t0: Tables, steps: seq<Step>, more: seq<Step>,
                                                          s: State, t: nat, u: nat)
    requires Wellformed(t0) && s == After(t0, steps + more) && t != u
    requires var both := After(t0, steps);
             && t in both.txns && u in both.txns && both.txns[t].d.event == both.txns[u].d.event
             && PastRecheck(both.txns[t]) && PastRecheck(both.txns[u])
    ensures t in s.txns && u in s.txns && !(Recorded(s, t) && Recorded(s, u))
    ensures s.txns[t].pc.Done? && !Recorded(s, t) ==>
              LostRace(s.txns[t]) && forall k | 0 <= k < |s.log| :: s.log[k].txn != t
    ensures s.txns[t].pc == Done(Errored(DuplicateEvent)) ==> Won(s, s.txns[t].d.event)
  {
    var event := After(t0, steps).txns[t].d.event;
    hide After, Won, CreationInv, WritesAddUp, EveryRecordIsWon, AllContested;
    if t in s.txns && s.txns[t].pc == Done(Errored(DuplicateEvent)) {
      DuplicateEventHasAWinner(t0, steps + more, s, t);
    }
    RacingLasts(t0, steps, more, t, event);
    RacingLasts(t0, steps, more, u, event);
    ReachableRaceInv(t0, steps + more);
    hide MarkedApart, PastRecheck, Recorded;
    LogIsKept(t0, s);
    RacersDiffer(t0, s, t, u, event);
  }

  lemma LogIsKept(t0: Tables, s: State)
    requires CreationInv(t0, s)
    ensures LogKept(t0, s)
  {
  }

  lemma RacersDiffer(t0: Tables, s: State, t: nat, u: nat, event: string)
    requires LogKept(t0, s) && MarkedApart(t0, s) && t != u && Racing(s, t, event) && Racing(s, u, event)
    ensures !(Recorded(s, t) && Recorded(s, u))
    ensures LostRace(s.txns[t]) ==> forall k | 0 <= k < |s.log| :: s.log[k].txn != t
  {
  }
}
