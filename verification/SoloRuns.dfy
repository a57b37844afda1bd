/** A creation running alone among transactions that do not stand in its way, statement by statement. */
module SoloRuns {
  import opened Text
  import opened Catalog
  import opened Protocol
  import opened Creation

  /** Nobody holds a lock or a unique entry. */
  ghost predicate Unclaimed(s: State) {
    forall u, res | u in s.txns :: !Holds(s.txns[u], res)
  }

  /** What a creation claims on its way, apart from an outbox id. */
  predicate Claims(d: Delivery, res: Resource) {
    d.command.CreateRequest?
    && (res == NewRow(d.drawn) || res == KeyEntry(d.command.owner, d.command.key)
        || res == SourceEntry(d.command.owner, d.command.source) || res == EventEntry(d.event))
  }

  /** Nobody holds anything this creation will claim. */
  ghost predicate Unhindered(s: State, d: Delivery) {
    forall u, res | u in s.txns && Claims(d, res) :: !Holds(s.txns[u], res)
  }

  lemma UnclaimedIsUnhindered(s: State, d: Delivery)
    requires Unclaimed(s)
    ensures Unhindered(s, d)
  {
  }

  /** A creation that can succeed at once: valid input, and everything it claims is free. */
  ghost predicate Free(s: State, d: Delivery) {
    && d.command.CreateRequest? && Problem(d).None? && NewRequest(d).Changed?
    && d.event !in s.events && d.drawn !in s.requests
    && !KeyTaken(s.requests, d.command.owner, d.command.key)
    && !SourceTaken(s.requests, d.command.owner, d.command.source)
  }

  /** Where a creation that runs alone has got to after `n` of its nine statements. */
  function SoloTxn(d: Delivery, id: nat, n: nat): Txn
    requires d.command.CreateRequest? && Problem(d).None? && NewRequest(d).Changed?
  {
    var made := NewRequest(d).request;
    var inserted := Buffer(Some(made), None, None);
    var added := inserted.(row := Some(Drawn(id, Announcement(made, d).value)));
    if n == 0 then Txn(d, Checking, None, NOTHING)
    else if n == 1 then Txn(d, KeyLookup, None, NOTHING)
    else if n == 2 then Txn(d, SourceLookup, None, NOTHING)
    else if n == 3 then Txn(d, InsertingRow, None, NOTHING)
    else if n == 4 then Txn(d, InsertingKey, None, NOTHING)
    else if n == 5 then Txn(d, InsertingSource, None, NOTHING)
    else if n == 6 then Txn(d, Adding, None, inserted)
    else if n == 7 then Txn(d, Marking, None, added)
    else Txn(d, Committing, None, added.(mark := Some(made.id)))
  }

  function Solo(s: State, u: nat, d: Delivery, n: nat): State
    requires d.command.CreateRequest? && Problem(d).None? && NewRequest(d).Changed?
  {
    if n < 9 then s.(txns := s.txns[u := SoloTxn(d, s.next, n)], next := if n < 7 then s.next else s.next + 1)
    else Commit(s.(txns := s.txns[u := SoloTxn(d, s.next, 8)], next := s.next + 1), u)
  }

  lemma SoloMoved(s: State, d: Delivery, n: nat)
    requires Free(s, d) && n < 8
    ensures Moved(s.requests, s.events, s.next, SoloTxn(d, s.next, n)) == SoloTxn(d, s.next, n + 1)
  {
    hide Problem, NewRequest;
  }

  lemma SoloIsNotBlocked(s: State, u: nat, d: Delivery, n: nat)
    requires Unhindered(s, d) && Free(s, d) && n < 9
    ensures Enabled(Solo(s, u, d, n), Move(u))
    ensures SoloTxn(d, s.next, n).pc.Adding? <==> n == 6
    ensures SoloTxn(d, s.next, n).pc.Committing? <==> n == 8
  {
    hide Problem, NewRequest, Holds;
    var x := SoloTxn(d, s.next, n);
    assert Wants(x).Some? ==> Claims(d, Wants(x).value);
  }

  lemma SoloStep(s: State, u: nat, d: Delivery, n: nat)
    requires Unhindered(s, d) && u !in s.txns && Free(s, d) && n < 9
    ensures Next(Solo(s, u, d, n), Move(u)) == Solo(s, u, d, n + 1)
  {
    SoloIsNotBlocked(s, u, d, n);
    hide Problem, NewRequest, Moved, SoloTxn, Enabled, Unhindered, Commit;
    if n < 8 {
      SoloMoved(s, d, n);
    }
  }

  function SoloSteps(u: nat, d: Delivery, n: nat): seq<Step> {
    if n == 0 then [Begin(u, d)] else SoloSteps(u, d, n - 1) + [Move(u)]
  }

  lemma {:induction false} SoloRun(t0: Tables, steps: seq<Step>, u: nat, d: Delivery, n: nat)
    requires var s := After(t0, steps); Unhindered(s, d) && u !in s.txns && Free(s, d)
    requires n <= 9
    ensures After(t0, steps + SoloSteps(u, d, n)) == Solo(After(t0, steps), u, d, n)
  {
    if n == 0 {
      AfterSnoc(t0, steps, Begin(u, d));
    } else {
      SoloRun(t0, steps, u, d, n - 1);
      AfterSnoc(t0, steps + SoloSteps(u, d, n - 1), Move(u));
      assert steps + SoloSteps(u, d, n) == steps + SoloSteps(u, d, n - 1) + [Move(u)];
      SoloStep(After(t0, steps), u, d, n - 1);
    }
  }

  lemma AfterSnoc(t0: Tables, steps: seq<Step>, step: Step)
    ensures After(t0, steps + [step]) == Next(After(t0, steps), step)
  {
    assert (steps + [step])[..|steps|] == steps;
  }

  lemma {:induction false} SoloStepsPrefix(u: nat, d: Delivery, m: nat, n: nat)
    requires n <= m
    ensures |SoloSteps(u, d, m)| == m + 1 && SoloSteps(u, d, m)[..n + 1] == SoloSteps(u, d, n)
  {
    if n < m {
      SoloStepsPrefix(u, d, m - 1, n);
    } else if m > 0 {
      SoloStepsPrefix(u, d, m - 1, m - 1);
    }
  }

  lemma SoloBegins(u: nat, d: Delivery, m: nat)
    ensures |SoloSteps(u, d, m)| > 0 && SoloSteps(u, d, m)[0] == Begin(u, d)
  {
    SoloStepsPrefix(u, d, m, 0);
    assert SoloSteps(u, d, m)[0] == SoloSteps(u, d, m)[..1][0];
  }

  lemma SoloLookup(s: State, u: nat, d: Delivery)
    requires Unclaimed(s) && Free(s, d)
    ensures var s' := Solo(s, u, d, 2);
            && s'.requests == s.requests && s'.events == s.events && Unclaimed(s')
            && s'.txns == s.txns[u := Txn(d, SourceLookup, None, NOTHING)]
  {
  }

  lemma SoloCommit(s: State, u: nat, d: Delivery)
    requires Free(s, d)
    ensures var s', r := Solo(s, u, d, 9), NewRequest(d).request;
            && s'.requests == s.requests[d.drawn := r] && s'.events == s.events[d.event := d.drawn]
            && s'.txns.Keys == s.txns.Keys + {u} && (forall v | v in s.txns && v != u :: s'.txns[v] == s.txns[v])
            && s'.txns[u].pc.Done? && (forall res :: !Holds(s'.txns[u], res)) && (Unclaimed(s) ==> Unclaimed(s'))
            && s'.ids == s.ids + [s.next] && s'.next == s.next + 1
            && r.owner == d.command.owner && r.key == Some(d.command.key) && r.source == d.command.source
  {
    hide Problem;
  }
}
