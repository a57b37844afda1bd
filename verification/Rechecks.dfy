/** A delivery whose event is recorded for another request between its two checks. */
module Rechecks {
  import opened Text
  import opened Lifecycle
  import opened Catalog
  import opened Protocol
  import opened SoloRuns
  import opened Linearizability
  import opened LifecycleCalls

  /** An acceptance that can succeed at once: its request is waiting and its event is new. */
  ghost predicate Acceptable(s: State, d: Delivery) {
    && d.command.AcceptRequest? && Problem(d).None? && d.event !in s.events
    && d.command.id in s.requests && s.requests[d.command.id].status == Received
    && s.requests[d.command.id].id == d.command.id
  }

  /** Where an acceptance of `r` that runs alone has got to after `n` of its seven statements. */
  function AcceptTxn(d: Delivery, r: Request, id: nat, n: nat): Txn
    requires d.command.AcceptRequest? && r.status == Received
  {
    var next := Decide(r, d).request;
    var updated := Buffer(Some(next), None, None);
    var added := updated.(row := Some(Drawn(id, Announcement(next, d).value)));
    if n == 0 then Txn(d, Checking, None, NOTHING)
    else if n == 1 then Txn(d, Locking, None, NOTHING)
    else if n == 2 then Txn(d, Rechecking, Some(r), NOTHING)
    else if n == 3 then Txn(d, Updating, Some(r), NOTHING)
    else if n == 4 then Txn(d, Adding, Some(r), updated)
    else if n == 5 then Txn(d, Marking, Some(r), added)
    else Txn(d, Committing, Some(r), added.(mark := Some(next.id)))
  }

  function Accepting(s: State, u: nat, d: Delivery, n: nat): State
    requires d.command.AcceptRequest? && d.command.id in s.requests && s.requests[d.command.id].status == Received
  {
    var r := s.requests[d.command.id];
    if n < 7 then s.(txns := s.txns[u := AcceptTxn(d, r, s.next, n)], next := if n < 5 then s.next else s.next + 1)
    else Commit(s.(txns := s.txns[u := AcceptTxn(d, r, s.next, 6)], next := s.next + 1), u)
  }

  lemma AcceptMoved(s: State, d: Delivery, n: nat)
    requires Acceptable(s, d) && n < 6
    ensures var r := s.requests[d.command.id];
            Moved(s.requests, s.events, s.next, AcceptTxn(d, r, s.next, n)) == AcceptTxn(d, r, s.next, n + 1)
  {
    hide Problem;
  }

  lemma AcceptStep(s: State, u: nat, d: Delivery, n: nat)
    requires Unclaimed(s) && u !in s.txns && Acceptable(s, d) && n < 7
    ensures Next(Accepting(s, u, d, n), Move(u)) == Accepting(s, u, d, n + 1)
  {
    AcceptIsNotBlocked(s, u, d, n);
    hide Problem, Moved, AcceptTxn, Enabled, Unclaimed, Commit;
    if n < 6 {
      AcceptMoved(s, d, n);
    }
  }

  lemma AcceptIsNotBlocked(s: State, u: nat, d: Delivery, n: nat)
    requires Unclaimed(s) && Acceptable(s, d) && n < 7
    ensures Enabled(Accepting(s, u, d, n), Move(u))
    ensures var x := AcceptTxn(d, s.requests[d.command.id], s.next, n);
            (x.pc.Adding? <==> n == 4) && (x.pc.Committing? <==> n == 6)
  {
    hide Problem, Holds, Wants, Decide;
  }

  lemma {:induction false} AcceptRun(t0: Tables, steps: seq<Step>, u: nat, d: Delivery, n: nat)
    requires var s := After(t0, steps); Unclaimed(s) && u !in s.txns && Acceptable(s, d)
    requires n <= 7
    ensures After(t0, steps + SoloSteps(u, d, n)) == Accepting(After(t0, steps), u, d, n)
  {
    if n == 0 {
      AfterSnoc(t0, steps, Begin(u, d));
    } else {
      AcceptRun(t0, steps, u, d, n - 1);
      AfterSnoc(t0, steps + SoloSteps(u, d, n - 1), Move(u));
      assert steps + SoloSteps(u, d, n) == steps + SoloSteps(u, d, n - 1) + [Move(u)];
      AcceptStep(After(t0, steps), u, d, n - 1);
    }
  }

  /** Checked alone, the event is not recorded, and nothing is claimed yet. */
  lemma AcceptChecks(s: State, u: nat, d: Delivery)
    requires Unclaimed(s) && Acceptable(s, d)
    ensures Accepting(s, u, d, 1) == s.(txns := s.txns[u := Txn(d, Locking, None, NOTHING)])
    ensures Unclaimed(Accepting(s, u, d, 1))
  {
    hide Problem, Decide;
  }

  lemma AcceptCommits(s: State, u: nat, d: Delivery)
    requires Unclaimed(s) && Acceptable(s, d)
    ensures var s' := Accepting(s, u, d, 7);
            && s'.events == s.events[d.event := d.command.id] && Unclaimed(s')
            && s'.requests.Keys == s.requests.Keys && s'.requests[d.command.id].id == d.command.id
            && (forall id | id in s.requests && id != d.command.id :: s'.requests[id] == s.requests[id])
            && (forall v | v in s.txns && v != u :: v in s'.txns && s'.txns[v] == s.txns[v])
  {
    hide Problem;
  }

  /** Two acceptances with one event, for different requests. */
  predicate SameEvent(slow: Delivery, fast: Delivery) {
    slow.command.AcceptRequest? && fast.command.AcceptRequest? && slow.event == fast.event
    && slow.command.id != fast.command.id
  }

  /** The slow one checks, the fast one runs whole, and the slow one locks and checks again. */
  function LateRecheck(t: nat, slow: Delivery, u: nat, fast: Delivery): seq<Step> {
    SoloSteps(t, slow, 1) + SoloSteps(u, fast, 7) + [Move(t)] + [Move(t)]
  }

  /** The lock is free and the event is found recorded: what is left is to commit nothing. */
  lemma RecheckFindsTheRecord(s: State, t: nat, slow: Delivery)
    requires Unclaimed(s) && t in s.txns && s.txns[t] == Txn(slow, Locking, None, NOTHING)
    requires slow.command.AcceptRequest? && slow.command.id in s.requests && slow.event in s.events
    ensures var s' := Next(Next(s, Move(t)), Move(t));
            && s'.requests == s.requests && s'.events == s.events && Enabled(s', Move(t))
            && s'.txns[t] == Txn(slow, Committing, Some(s.requests[slow.command.id]), NOTHING)
  {
    hide Problem, Decide;
    var s1 := Next(s, Move(t));
    assert Enabled(s, Move(t));
    assert s1 == s.(txns := s.txns[t := Txn(slow, Rechecking, Some(s.requests[slow.command.id]), NOTHING)]);
    assert Enabled(s1, Move(t));
  }

  ghost function Rechecked(s: State, t: nat, slow: Delivery, u: nat, fast: Delivery): State
    requires Acceptable(s, slow) && Acceptable(s, fast)
  {
    AcceptKeepsTables(s, t, slow);
    Next(Next(Accepting(Accepting(s, t, slow, 1), u, fast, 7), Move(t)), Move(t))
  }

  lemma AcceptKeepsTables(s: State, t: nat, slow: Delivery)
    requires Acceptable(s, slow)
    ensures var s' := Accepting(s, t, slow, 1); s'.requests == s.requests && s'.events == s.events
  {
  }

  lemma StillAcceptable(s: State, t: nat, slow: Delivery, fast: Delivery)
    requires Acceptable(s, slow) && Acceptable(s, fast)
    ensures Acceptable(Accepting(s, t, slow, 1), fast)
  {
    hide Problem;
  }

  lemma FastRun(t0: Tables, pre: seq<Step>, t: nat, slow: Delivery, u: nat, fast: Delivery)
    requires var s := After(t0, pre);
             Unclaimed(s) && t !in s.txns && u !in s.txns && Acceptable(s, slow) && Acceptable(s, fast)
    requires t != u
    ensures Acceptable(Accepting(After(t0, pre), t, slow, 1), fast)
    ensures After(t0, (pre + SoloSteps(t, slow, 1)) + SoloSteps(u, fast, 7))
            == Accepting(Accepting(After(t0, pre), t, slow, 1), u, fast, 7)
  {
    AcceptChecks(After(t0, pre), t, slow);
    StillAcceptable(After(t0, pre), t, slow, fast);
    hide After, Accepting, Unclaimed, Acceptable, SoloSteps;
    AcceptRun(t0, pre, t, slow, 1);
    AcceptRun(t0, pre + SoloSteps(t, slow, 1), u, fast, 7);
  }

  lemma LateRecheckRun(t0: Tables, pre: seq<Step>, t: nat, slow: Delivery, u: nat, fast: Delivery)
    requires t != u
    requires var s := After(t0, pre);
             Unclaimed(s) && t !in s.txns && u !in s.txns && Acceptable(s, slow) && Acceptable(s, fast)
    ensures After(t0, pre + LateRecheck(t, slow, u, fast)) == Rechecked(After(t0, pre), t, slow, u, fast)
  {
    hide After, Accepting, Unclaimed, Acceptable, Next, SoloSteps;
    FastRun(t0, pre, t, slow, u, fast);
    var second := (pre + SoloSteps(t, slow, 1)) + SoloSteps(u, fast, 7);
    AfterSnoc(t0, second, Move(t));
    AfterSnoc(t0, second + [Move(t)], Move(t));
    assert second + [Move(t)] + [Move(t)] == pre + LateRecheck(t, slow, u, fast);
  }

  /** The next statement answers with the named request, while the event is recorded for the other. */
  ghost predicate AnswersApart(s: State, t: nat, d: Delivery, recorded: string) {
    && d.command.AcceptRequest? && Enabled(s, Move(t)) && s.txns[t].d == d && s.txns[t].pc.Committing?
    && d.event in s.events && s.events[d.event] == recorded && recorded != d.command.id
    && d.command.id in s.requests && recorded in s.requests
    && s.requests[d.command.id].status == Received
    && Next(s, Move(t)).txns[t].pc == Done(Answered(s.requests[d.command.id]))
    && Serial(Tables(s.requests, s.events, []), d) == Answer(s.requests[recorded])
  }

  lemma RecheckedAnswersApart(s: State, t: nat, slow: Delivery, u: nat, fast: Delivery)
    requires SameEvent(slow, fast) && t != u
    requires Unclaimed(s) && t !in s.txns && u !in s.txns && Acceptable(s, slow) && Acceptable(s, fast)
    ensures AnswersApart(Rechecked(s, t, slow, u, fast), t, slow, fast.command.id)
  {
    FastIsDone(s, t, slow, u, fast);
    var done := Accepting(Accepting(s, t, slow, 1), u, fast, 7);
    hide Accepting, Unclaimed, Decide, Next, Enabled, Acceptable;
    RecheckFindsTheRecord(done, t, slow);
    CommitsNothing(Rechecked(s, t, slow, u, fast), t);
    RecordAnswers(Rechecked(s, t, slow, u, fast), slow, fast.command.id);
  }

  lemma FastIsDone(s: State, t: nat, slow: Delivery, u: nat, fast: Delivery)
    requires SameEvent(slow, fast) && t != u
    requires Unclaimed(s) && t !in s.txns && u !in s.txns && Acceptable(s, slow) && Acceptable(s, fast)
    ensures Acceptable(Accepting(s, t, slow, 1), fast) && Problem(slow).None?
    ensures var s' := Accepting(Accepting(s, t, slow, 1), u, fast, 7);
            && Unclaimed(s') && t in s'.txns && s'.txns[t] == Txn(slow, Locking, None, NOTHING)
            && slow.event in s'.events && s'.events[slow.event] == fast.command.id
            && slow.command.id in s'.requests && fast.command.id in s'.requests
            && s'.requests[slow.command.id].id == slow.command.id
            && s'.requests[fast.command.id].id == fast.command.id
            && s'.requests[slow.command.id] == s.requests[slow.command.id]
  {
    AcceptChecks(s, t, slow);
    StillAcceptable(s, t, slow, fast);
    AcceptCommits(Accepting(s, t, slow, 1), u, fast);
    hide Accepting, Unclaimed, Problem;
  }

  lemma RecordAnswers(s: State, d: Delivery, recorded: string)
    requires Problem(d).None? && d.event in s.events && s.events[d.event] == recorded && recorded in s.requests
    ensures Serial(Tables(s.requests, s.events, []), d) == Answer(s.requests[recorded])
  {
    hide Problem;
  }

  lemma CommitsNothing(s: State, t: nat)
    requires Enabled(s, Move(t)) && s.txns[t].pc.Committing? && s.txns[t].buffer == NOTHING
    requires s.txns[t].seen.Some? && !s.txns[t].d.command.CreateRequest?
    ensures t in Next(s, Move(t)).txns && Next(s, Move(t)).txns[t].pc == Done(Answered(s.txns[t].seen.value))
  {
  }

  /**
   * From any moment at which nobody holds anything and two requests wait to be accepted, there is a
   * run in which the re-check answers a delivery with the request it names, although its event was
   * recorded for the other one, with which the first check would have answered it.
   */
  lemma RecheckAnswersTheNamed(t0: Tables, pre: seq<Step>, t: nat, slow: Delivery, u: nat, fast: Delivery)
    requires SameEvent(slow, fast) && t != u
    requires var s := After(t0, pre);
             Unclaimed(s) && t !in s.txns && u !in s.txns && Acceptable(s, slow) && Acceptable(s, fast)
    ensures AnswersApart(After(t0, pre + LateRecheck(t, slow, u, fast)), t, slow, fast.command.id)
  {
    LateRecheckRun(t0, pre, t, slow, u, fast);
    RecheckedAnswersApart(After(t0, pre), t, slow, u, fast);
  }

  lemma AcceptanceAnswersQueued(s: State, d: Delivery, r: Request)
    requires d.command.AcceptRequest? && r.status == Received
    ensures !DecidesUnrecorded(s, d, Answered(r))
  {
  }

  lemma CallOfSlow(t0: Tables, pre: seq<Step>, t: nat, slow: Delivery, u: nat, fast: Delivery)
    requires t !in After(t0, pre).txns
    ensures var steps := pre + LateRecheck(t, slow, u, fast) + [Move(t)];
            CallBegins(t0, steps, t, |pre| + 1)
  {
    SoloStepsPrefix(t, slow, 1, 0);
    var rest := LateRecheck(t, slow, u, fast);
    assert |SoloSteps(t, slow, 1)| == 2 && rest[0] == SoloSteps(t, slow, 1)[..1][0];
    hide LateRecheck, SoloSteps;
    var steps := pre + rest + [Move(t)];
    assert steps[..|pre|] == pre && steps[..|pre| + 1] == pre + [Begin(t, slow)];
    AfterSnoc(t0, pre, Begin(t, slow));
  }

  /** The late answer fits no moment of the call: before the record it would have been accepted. */
  lemma ApartFitsNoMoment(t0: Tables, init: seq<Step>, t: nat, begin: nat, slow: Delivery, recorded: string)
    requires Wellformed(t0) && AnswersApart(After(t0, init), t, slow, recorded)
    requires CallBegins(t0, init + [Move(t)], t, begin)
    ensures var steps := init + [Move(t)];
            && EndsLifecycle(t0, steps, t) && t in After(t0, steps).txns && After(t0, steps).txns[t].pc.Done?
            && !Linearizable(t0, steps, begin, slow, After(t0, steps).txns[t].pc.reply)
  {
    var steps := init + [Move(t)];
    AfterSnoc(t0, init, Move(t));
    assert steps[..|steps| - 1] == init;
    var s := After(t0, init);
    hide After, Next, Linearizable, DecidesUnrecorded, CallBegins;
    LifecycleIsLinearizableIff(t0, steps, t, begin);
    forall k | begin <= k <= |steps|
      ensures !DecidesUnrecorded(After(t0, steps[..k]), slow, Answered(s.requests[slow.command.id]))
    {
      AcceptanceAnswersQueued(After(t0, steps[..k]), slow, s.requests[slow.command.id]);
    }
  }

  lemma LateAnswerFitsNoMoment(t0: Tables, pre: seq<Step>, t: nat, slow: Delivery, u: nat, fast: Delivery)
    requires Wellformed(t0) && SameEvent(slow, fast) && t != u
    requires var s := After(t0, pre);
             Unclaimed(s) && t !in s.txns && u !in s.txns && Acceptable(s, slow) && Acceptable(s, fast)
    ensures var steps := pre + LateRecheck(t, slow, u, fast) + [Move(t)];
            && CallBegins(t0, steps, t, |pre| + 1) && EndsLifecycle(t0, steps, t)
            && t in After(t0, steps).txns && After(t0, steps).txns[t].pc.Done?
            && !Linearizable(t0, steps, |pre| + 1, slow, After(t0, steps).txns[t].pc.reply)
  {
    hide After, LateRecheck, Unclaimed, Acceptable, Linearizable, CallBegins, EndsLifecycle, AnswersApart;
    CallOfSlow(t0, pre, t, slow, u, fast);
    RecheckAnswersTheNamed(t0, pre, t, slow, u, fast);
    ApartFitsNoMoment(t0, pre + LateRecheck(t, slow, u, fast), t, |pre| + 1, slow, fast.command.id);
  }

  // ---- From an empty database ----

  const FILM := Delivery("e0", CreateRequest("ana", "a@x", "film", "k", Absent), "", 0, "r0", "m0")
  const SONG := Delivery("e1", CreateRequest("ana", "a@x", "song", "j", Absent), "", 0, "r1", "m1")
  const ACCEPT_SONG := Delivery("e2", AcceptRequest("r1"), "", 0, "a1", "m2")
  const ACCEPT_FILM := Delivery("e2", AcceptRequest("r0"), "", 0, "a0", "m3")

  lemma SampleIsValid()
    ensures Problem(FILM).None? && NewRequest(FILM).Changed? && Problem(SONG).None? && NewRequest(SONG).Changed?
    ensures Problem(ACCEPT_FILM).None? && Problem(ACCEPT_SONG).None?
  {
    assert !IsSpace("e0"[0]) && !IsSpace("e1"[0]) && !IsSpace("e2"[0]) && !IsSpace("k"[0]) && !IsSpace("j"[0]);
    assert !IsSpace("ana"[0]) && !IsSpace("a@x"[0]) && !IsSpace("film"[0]) && !IsSpace("song"[0]);
    assert !IsSpace("r0"[0]) && !IsSpace("r1"[0]);
  }

  lemma FilmIsCreated() returns (s: State)
    ensures Unclaimed(Quiet(EMPTY)) && Free(Quiet(EMPTY), FILM) && s == Solo(Quiet(EMPTY), 0, FILM, 9)
    ensures Unclaimed(s) && Free(s, SONG) && s.txns.Keys == {0} && s.events == map["e0" := "r0"]
    ensures s.requests == map["r0" := NewRequest(FILM).request]
  {
    SampleIsValid();
    s := Solo(Quiet(EMPTY), 0, FILM, 9);
    SoloCommit(Quiet(EMPTY), 0, FILM);
    hide Solo, Problem, NewRequest;
  }

  /** Two requests wait to be accepted and everybody is done. */
  lemma BothAreCreated() returns (steps: seq<Step>)
    ensures var s := After(EMPTY, steps);
            && Unclaimed(s) && s.txns.Keys == {0, 1} && Acceptable(s, ACCEPT_FILM) && Acceptable(s, ACCEPT_SONG)
  {
    SampleIsValid();
    var s1 := FilmIsCreated();
    SongIsCreated(s1);
    UnclaimedIsUnhindered(Quiet(EMPTY), FILM);
    UnclaimedIsUnhindered(s1, SONG);
    hide Solo, Unclaimed, Unhindered, Free, Acceptable, Problem, NewRequest, SoloSteps;
    assert After(EMPTY, []) == Quiet(EMPTY);
    SoloRun(EMPTY, [], 0, FILM, 9);
    steps := [] + SoloSteps(0, FILM, 9);
    SoloRun(EMPTY, steps, 1, SONG, 9);
    steps := steps + SoloSteps(1, SONG, 9);
  }

  lemma SongIsCreated(s1: State)
    requires Unclaimed(s1) && Free(s1, SONG) && s1.txns.Keys == {0} && s1.events == map["e0" := "r0"]
    requires Problem(FILM).None? && NewRequest(FILM).Changed? && s1.requests == map["r0" := NewRequest(FILM).request]
    ensures Problem(SONG).None? && NewRequest(SONG).Changed?
    ensures var s := Solo(s1, 1, SONG, 9);
            && Unclaimed(s) && s.txns.Keys == {0, 1} && Acceptable(s, ACCEPT_FILM) && Acceptable(s, ACCEPT_SONG)
  {
    SampleIsValid();
    SoloCommit(s1, 1, SONG);
    hide Solo, Unclaimed, Free, Problem, NewRequest, Acceptable;
    BothWait(Solo(s1, 1, SONG, 9));
  }

  lemma BothWait(s: State)
    requires Problem(FILM).None? && NewRequest(FILM).Changed? && Problem(SONG).None? && NewRequest(SONG).Changed?
    requires "r0" in s.requests && s.requests["r0"] == NewRequest(FILM).request
    requires "r1" in s.requests && s.requests["r1"] == NewRequest(SONG).request
    requires s.events == map["e0" := "r0", "e1" := "r1"]
    ensures Acceptable(s, ACCEPT_FILM) && Acceptable(s, ACCEPT_SONG)
  {
    SampleIsValid();
    hide Problem;
  }

  /** A concrete run of this kind, whose last reply fits no moment of the call. */
  lemma RecheckNeedNotBeSerial() returns (steps: seq<Step>, begin: nat)
    ensures CallBegins(EMPTY, steps, 2, begin) && EndsLifecycle(EMPTY, steps, 2)
    ensures 2 in After(EMPTY, steps).txns && After(EMPTY, steps).txns[2].pc.Done?
    ensures !Linearizable(EMPTY, steps, begin, ACCEPT_SONG, After(EMPTY, steps).txns[2].pc.reply)
  {
    var pre := BothAreCreated();
    hide Unclaimed, Acceptable, LateRecheck, Next, After, CallBegins, EndsLifecycle, Linearizable;
    LateAnswerFitsNoMoment(EMPTY, pre, 2, ACCEPT_SONG, 3, ACCEPT_FILM);
    steps, begin := pre + LateRecheck(2, ACCEPT_SONG, 3, ACCEPT_FILM) + [Move(2)], |pre| + 1;
  }
}
