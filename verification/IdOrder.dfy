/** Outbox ids are drawn before the commit, so across requests they need not follow commit order. */
module IdOrder {
  import opened Text
  import opened Catalog
  import opened Protocol
  import opened Serializability
  import opened Creation
  import opened SoloRuns
  import R = Relay

  /** Nobody has this id, drawn or committed, and it will not be drawn again. */
  ghost predicate Gone(s: State, m: nat) {
    m < s.next && m !in s.outbox && forall u | u in s.txns && HasDrawn(s.txns[u]) :: s.txns[u].buffer.row.value.id != m
  }

  lemma CommitKeepsGone(s: State, t: nat, m: nat)
    requires Gone(s, m) && t in s.txns && s.txns[t].pc.Committing?
    ensures Gone(Commit(s, t), m)
  {
    assert s.txns[t].buffer.row.Some? ==> HasDrawn(s.txns[t]);
  }

  lemma ReplacingKeepsGone(s: State, t: nat, x: Txn, next: nat, m: nat)
    requires Gone(s, m) && next >= s.next && (HasDrawn(x) ==> x.buffer.row.value.id != m)
    ensures Gone(s.(txns := s.txns[t := x], next := next), m)
  {
  }

  lemma GoneStaysGone(t0: Tables, s: State, step: Step, m: nat)
    requires Inv(t0, s) && Gone(s, m)
    ensures Gone(Next(s, step), m)
  {
    if Commits(s, step) {
      CommitKeepsGone(s, step.txn, m);
      if step.LoseAck? {
        var c := Commit(s, step.txn);
        ReplacingKeepsGone(c, step.txn, End(s.txns[step.txn], Errored(AckLost)), c.next, m);
      }
      hide Inv, Gone;
    } else if step.Move? && Enabled(s, step) {
      var x := s.txns[step.txn];
      InvSoundAt(t0, s, step.txn);
      MovedDraws(s.requests, s.events, s.next, x);
      hide Inv, Sound, Moved;
      ReplacingKeepsGone(s, step.txn, Moved(s.requests, s.events, s.next, x),
                         if x.pc.Adding? then s.next + 1 else s.next, m);
    } else {
      hide Inv;
    }
  }

  lemma {:induction false} GoneForever(t0: Tables, steps: seq<Step>, k: nat, j: nat, m: nat)
    requires Wellformed(t0) && k <= j <= |steps| && Gone(After(t0, steps[..k]), m)
    ensures Gone(After(t0, steps[..j]), m)
  {
    if k < j {
      GoneForever(t0, steps, k, j - 1, m);
      ReachableInv(t0, steps[..j - 1]);
      assert steps[..j] == steps[..j - 1] + [steps[j - 1]];
      AfterSnoc(t0, steps[..j - 1], steps[j - 1]);
      hide After, Inv, Gone, Next;
      GoneStaysGone(t0, After(t0, steps[..j - 1]), steps[j - 1], m);
    }
  }

  /** Step `k` commits a transaction that has a row, with this outbox id. */
  ghost predicate CommitsRow(t0: Tables, steps: seq<Step>, k: nat, id: nat) {
    k < |steps| && (steps[k].Move? || steps[k].LoseAck?) && CommitsNow(After(t0, steps[..k]), steps[k].txn, id)
  }

  ghost predicate CommitsNow(s: State, t: nat, id: nat) {
    && Enabled(s, Move(t)) && s.txns[t].pc.Committing?
    && s.txns[t].buffer.row.Some? && s.txns[t].buffer.row.value.id == id
  }

  lemma IdsAfter(t0: Tables, steps: seq<Step>, k: nat)
    requires k < |steps|
    ensures var s, s' := After(t0, steps[..k]), After(t0, steps[..k + 1]);
            s'.ids == s.ids || exists id :: CommitsRow(t0, steps, k, id) && s'.ids == s.ids + [id]
  {
    assert steps[..k + 1] == steps[..k] + [steps[k]];
    AfterSnoc(t0, steps[..k], steps[k]);
    var s, s' := After(t0, steps[..k]), After(t0, steps[..k + 1]);
    hide After, Moved;
    if s'.ids != s.ids {
      assert CommitsRow(t0, steps, k, s.txns[steps[k].txn].buffer.row.value.id);
    }
  }

  /** Every id but those there from the start was appended by one commit of the run. */
  lemma {:induction false} WhenCommitted(t0: Tables, steps: seq<Step>, j: nat, i: nat) returns (k: nat)
    requires j <= |steps| && |t0.outbox| <= i < |After(t0, steps[..j]).ids|
    ensures k < j && CommitsRow(t0, steps, k, After(t0, steps[..j]).ids[i])
    ensures After(t0, steps[..k]).ids == After(t0, steps[..j]).ids[..i]
    decreases j
  {
    if j > 0 {
      IdsAfter(t0, steps, j - 1);
      var s := After(t0, steps[..j - 1]);
      hide After, CommitsRow;
      if i < |s.ids| {
        k := WhenCommitted(t0, steps, j - 1, i);
        assert s.ids[..i] == After(t0, steps[..j]).ids[..i];
      } else {
        k := j - 1;
        assert s.ids == After(t0, steps[..j]).ids[..i];
      }
    }
  }

  lemma {:induction false} IdsAppend(t0: Tables, steps: seq<Step>, j: nat, k: nat)
    requires j <= k <= |steps|
    ensures After(t0, steps[..j]).ids <= After(t0, steps[..k]).ids
  {
    if j < k {
      IdsAppend(t0, steps, j, k - 1);
      IdsAfter(t0, steps, k - 1);
      hide After, CommitsRow;
    }
  }

  lemma CommittingIdIsNew(t0: Tables, s: State, t: nat, id: nat)
    requires Inv(t0, s) && CommitsNow(s, t, id)
    ensures id < s.next && id !in s.outbox && HasDrawn(s.txns[t])
    ensures forall n | n in s.ids :: n in s.outbox
    ensures forall u | u in s.txns && u != t && HasDrawn(s.txns[u]) :: s.txns[u].buffer.row.value.id != id
  {
    assert HasDrawn(s.txns[t]);
  }

  /** An open transaction holds this drawn id. */
  ghost predicate Draws(s: State, u: nat, m: nat) {
    u in s.txns && HasDrawn(s.txns[u]) && s.txns[u].buffer.row.value.id == m
  }

  /** Step `k` commits a row although an open transaction holds a smaller id that is committed later. */
  ghost predicate Overtakes(t0: Tables, steps: seq<Step>, k: nat, n: nat, u: nat, m: nat) {
    && CommitsRow(t0, steps, k, n) && Draws(After(t0, steps[..k]), u, m) && m < n
    && m in After(t0, steps).outbox
  }

  lemma OvertakingBreaksOrder(t0: Tables, steps: seq<Step>, k: nat, n: nat, u: nat, m: nat)
    requires Wellformed(t0) && Overtakes(t0, steps, k, n, u, m)
    ensures !R.Increasing(After(t0, steps).ids)
  {
    var s := After(t0, steps[..k]);
    assert steps[..|steps|] == steps;
    assert steps[..k + 1] == steps[..k] + [steps[k]];
    AfterSnoc(t0, steps[..k], steps[k]);
    IdsAppend(t0, steps, k + 1, |steps|);
    ReachableInv(t0, steps[..k]);
    ReachableInv(t0, steps);
    hide After;
    assert m !in s.ids && s.ids + [n] <= After(t0, steps).ids;
    IdIsListed(After(t0, steps), m);
    hide Inv, CommitsRow, Draws;
    LaterSmallerBreaksOrder(After(t0, steps).ids, s.ids, n, m);
  }

  lemma LaterSmallerBreaksOrder(ids: seq<nat>, first: seq<nat>, n: nat, m: nat)
    requires first + [n] <= ids && m in ids && m !in first && m < n
    ensures !R.Increasing(ids)
  {
    var p :| 0 <= p < |ids| && ids[p] == m;
    assert ids[..|first|] == first && ids[|first|] == n;
    assert p > |first|;
  }

  lemma IdIsListed(s: State, m: nat)
    requires IdsListed(s) && m in s.outbox
    ensures m in s.ids
  {
  }

  /** The ids there from the start come first, in order. */
  lemma OldIdsComeFirst(t0: Tables, steps: seq<Step>)
    ensures |t0.outbox| <= |After(t0, steps).ids|
    ensures forall p: nat | p < |t0.outbox| :: After(t0, steps).ids[p] == p
    ensures forall p: nat | p < |t0.outbox| :: p in After(t0, steps).ids
  {
    IdsAppend(t0, steps, 0, |steps|);
    assert steps[..|steps|] == steps && steps[..0] == [];
    assert After(t0, []) == Quiet(t0);
    hide After;
    forall p: nat | p < |t0.outbox| ensures After(t0, steps).ids[p] == p && p in After(t0, steps).ids {
      assert Quiet(t0).ids[p] == p;
    }
  }

  lemma WhoHolds(t0: Tables, steps: seq<Step>, k: nat, later: nat, m: nat) returns (u: nat)
    requires Wellformed(t0) && k <= later && CommitsRow(t0, steps, later, m)
    requires m < After(t0, steps[..k]).next && m !in After(t0, steps[..k]).outbox
    ensures Draws(After(t0, steps[..k]), u, m)
  {
    var s := After(t0, steps[..k]);
    hide After;
    if v :| Draws(s, v, m) {
      u := v;
    } else {
      assert forall v | v in s.txns && HasDrawn(s.txns[v]) :: Draws(s, v, s.txns[v].buffer.row.value.id);
      GoneForever(t0, steps, k, later, m);
      ReachableInv(t0, steps[..later]);
      CommittingIdIsNew(t0, After(t0, steps[..later]), steps[later].txn, m);
    }
  }

  /** A commit's id was not yet in the outbox. */
  lemma CommittedLater(t0: Tables, steps: seq<Step>, k: nat, id: nat)
    requires Wellformed(t0) && CommitsRow(t0, steps, k, id)
    ensures id < After(t0, steps[..k]).next && id !in After(t0, steps[..k]).ids
    ensures forall n :: n in After(t0, steps[..k]).ids <==> n in After(t0, steps[..k]).outbox
  {
    ReachableInv(t0, steps[..k]);
    hide After;
    CommittingIdIsNew(t0, After(t0, steps[..k]), steps[k].txn, id);
  }

  lemma DisorderIsOvertaking(t0: Tables, steps: seq<Step>, i: nat, j: nat) returns (k: nat, u: nat)
    requires Wellformed(t0) && i < j < |After(t0, steps).ids| && After(t0, steps).ids[i] >= After(t0, steps).ids[j]
    ensures Overtakes(t0, steps, k, After(t0, steps).ids[i], u, After(t0, steps).ids[j])
  {
    var ids := After(t0, steps).ids;
    assert steps[..|steps|] == steps;
    ReachableInv(t0, steps);
    OldIdsComeFirst(t0, steps);
    assert ids[j] in ids;
    hide After, CommitsRow, Draws;
    var later := WhenCommitted(t0, steps, |steps|, j);
    CommittedLater(t0, steps, later, ids[j]);
    OldIdsComeFirst(t0, steps[..later]);
    assert ids[i] == ids[..j][i];
    assert ids[i] in ids[..j];
    assert ids[i] > ids[j] && |t0.outbox| <= i;
    k := WhenCommitted(t0, steps, |steps|, i);
    CommittedLater(t0, steps, k, ids[i]);
    if later < k { IdsAppend(t0, steps, later, k); }
    assert forall n | n in ids[..i] :: n in ids[..j];
    u := WhoHolds(t0, steps, k, later, ids[j]);
  }

  /**
   * Over a whole run the committed outbox ids increase if and only if no commit of a row overtakes an
   * open transaction that holds a smaller id and commits it later.
   */
  lemma {:induction false} IdsFollowCommitsIff(t0: Tables, steps: seq<Step>)
    requires Wellformed(t0)
    ensures R.Increasing(After(t0, steps).ids) <==> !exists k, n, u, m :: Overtakes(t0, steps, k, n, u, m)
  {
    var ids := After(t0, steps).ids;
    hide After, Overtakes;
    if k, n, u, m :| Overtakes(t0, steps, k, n, u, m) {
      OvertakingBreaksOrder(t0, steps, k, n, u, m);
    } else if i, j :| 0 <= i < j < |ids| && ids[i] >= ids[j] {
      var k, u := DisorderIsOvertaking(t0, steps, i, j);
    }
  }

  // ---- It happens ----

  const EARLY := Delivery("e0", CreateRequest("ana", "a@x", "film", "k", Absent), "", 0, "r0", "m0")
  const LATE := Delivery("e1", CreateRequest("ana", "a@x", "song", "j", Absent), "", 0, "r1", "m1")

  lemma SampleIsValid()
    ensures Problem(EARLY).None? && NewRequest(EARLY).Changed? && Problem(LATE).None? && NewRequest(LATE).Changed?
  {
    assert !IsSpace("e0"[0]) && !IsSpace("e1"[0]) && !IsSpace("k"[0]) && !IsSpace("j"[0]);
    assert !IsSpace("ana"[0]) && !IsSpace("a@x"[0]) && !IsSpace("film"[0]) && !IsSpace("song"[0]);
  }

  lemma EarlyHasDrawn()
    ensures Problem(EARLY).None? && NewRequest(EARLY).Changed?
    ensures Unhindered(Quiet(EMPTY), EARLY) && Free(Quiet(EMPTY), EARLY)
    ensures var s := Solo(Quiet(EMPTY), 0, EARLY, 7);
            && s.txns == map[0 := SoloTxn(EARLY, 0, 7)] && s.next == 1 && s.ids == []
            && s.requests == map[] && s.events == map[]
            && Unhindered(s, LATE) && Free(s, LATE)
  {
    SampleIsValid();
    hide Problem, NewRequest;
  }

  lemma MarkAndCommit(s: State)
    requires Problem(EARLY).None? && NewRequest(EARLY).Changed?
    requires 0 in s.txns && s.txns[0] == SoloTxn(EARLY, 0, 7) && EARLY.event !in s.events
    requires forall u | u in s.txns && u != 0 :: s.txns[u].pc.Done?
    ensures Next(Next(s, Move(0)), Move(0)).ids == s.ids + [0]
  {
    hide Problem, NewRequest;
    var s1 := Next(s, Move(0));
    assert Enabled(s, Move(0)) && Enabled(s1, Move(0));
  }

  /** The early one has drawn its id; then the late one has committed. */
  function EarlyDrawn(): State {
    SampleIsValid();
    Solo(Quiet(EMPTY), 0, EARLY, 7)
  }

  function LateCommitted(): State {
    SampleIsValid();
    Solo(EarlyDrawn(), 1, LATE, 9)
  }

  lemma LateIsDone()
    ensures Problem(EARLY).None? && NewRequest(EARLY).Changed?
    ensures var s := LateCommitted();
            && s.ids == [1] && EARLY.event !in s.events && 0 in s.txns && s.txns[0] == SoloTxn(EARLY, 0, 7)
            && forall u | u in s.txns && u != 0 :: s.txns[u].pc.Done?
  {
    SampleIsValid();
    EarlyHasDrawn();
    SoloCommit(EarlyDrawn(), 1, LATE);
    hide Problem, NewRequest, Solo, SoloTxn, Free, Unhindered;
  }

  lemma EarlyRuns()
    ensures After(EMPTY, [] + SoloSteps(0, EARLY, 7)) == EarlyDrawn()
  {
    EarlyHasDrawn();
    assert After(EMPTY, []) == Quiet(EMPTY);
    hide After, Solo, SoloSteps, Free, Unhindered;
    SoloRun(EMPTY, [], 0, EARLY, 7);
  }

  lemma LateRuns(pre: seq<Step>)
    requires After(EMPTY, pre) == EarlyDrawn()
    ensures After(EMPTY, pre + SoloSteps(1, LATE, 9)) == LateCommitted()
  {
    EarlyHasDrawn();
    hide After, SoloSteps, Free, Unhindered, SoloTxn;
    assert 1 !in EarlyDrawn().txns;
    hide Solo;
    SoloRun(EMPTY, pre, 1, LATE, 9);
  }

  lemma EarlyCommitsLast()
    ensures Next(Next(LateCommitted(), Move(0)), Move(0)).ids == [1, 0]
  {
    LateIsDone();
    hide LateCommitted, Next;
    MarkAndCommit(LateCommitted());
  }

  lemma TwoMoves(t0: Tables, pre: seq<Step>, t: nat)
    ensures After(t0, pre + [Move(t)] + [Move(t)]) == Next(Next(After(t0, pre), Move(t)), Move(t))
  {
    AfterSnoc(t0, pre, Move(t));
    AfterSnoc(t0, pre + [Move(t)], Move(t));
  }

  /** In this run the first transaction to draw an id is the last to commit. */
  lemma CommitOrderNeedNotBeIdOrder() returns (steps: seq<Step>)
    ensures After(EMPTY, steps).ids == [1, 0]
  {
    var first := [] + SoloSteps(0, EARLY, 7);
    var pre := first + SoloSteps(1, LATE, 9);
    hide After, Next, SoloSteps, EarlyDrawn, LateCommitted;
    EarlyRuns();
    LateRuns(first);
    EarlyCommitsLast();
    TwoMoves(EMPTY, pre, 0);
    steps := pre + [Move(0)] + [Move(0)];
  }
}
