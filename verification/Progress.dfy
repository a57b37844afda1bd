/** Transactions claim in one order, so they never deadlock and some open one can always step. */
module Progress {
  import opened Lifecycle
  import opened Catalog
  import opened Protocol
  import opened Serializability

  /** Requests first, then the key entry, then the source entry, and the event entry last. */
  function Order(res: Resource): nat {
    match res
    case RowLock(_) => 0
    case NewRow(_) => 0
    case KeyEntry(_, _) => 1
    case SourceEntry(_, _) => 2
    case EventEntry(_) => 3
  }

  lemma WaitingClimbs(s: State, t: nat, u: nat)
    requires WaitsFor(s, t, u) && Wants(s.txns[u]).Some?
    ensures Order(Wants(s.txns[t]).value) < Order(Wants(s.txns[u]).value)
  {
  }

  ghost predicate WaitChain(s: State, chain: seq<nat>) {
    forall i | 0 <= i < |chain| - 1 :: WaitsFor(s, chain[i], chain[i + 1])
  }

  lemma {:induction false} ChainClimbs(s: State, chain: seq<nat>, i: nat, j: nat)
    requires WaitChain(s, chain) && i < j < |chain| && chain[j] in s.txns && Wants(s.txns[chain[j]]).Some?
    ensures chain[i] in s.txns && Wants(s.txns[chain[i]]).Some?
    ensures Order(Wants(s.txns[chain[i]]).value) < Order(Wants(s.txns[chain[j]]).value)
  {
    assert WaitsFor(s, chain[j - 1], chain[j]);
    WaitingClimbs(s, chain[j - 1], chain[j]);
    if i < j - 1 {
      ChainClimbs(s, chain, i, j - 1);
    }
  }

  /** No transaction ever waits, through others, for itself. */
  lemma WaitsAreAcyclic(s: State, chain: seq<nat>)
    requires |chain| > 1 && WaitChain(s, chain)
    ensures chain[0] != chain[|chain| - 1]
  {
    assert WaitsFor(s, chain[0], chain[1]);
    if chain[0] == chain[|chain| - 1] {
      ChainClimbs(s, chain, 0, |chain| - 1);
    }
  }

  /** Following the holder of what is wanted leads, within four waits, to one that can step. */
  lemma {:induction false} SomeoneCanMove(s: State, t: nat) returns (u: nat)
    requires t in s.txns && !s.txns[t].pc.Done?
    ensures Enabled(s, Move(u))
    decreases 4 - if Wants(s.txns[t]).Some? then Order(Wants(s.txns[t]).value) else 4
  {
    if Blocked(s, t) {
      var holder :| WaitsFor(s, t, holder);
      if Wants(s.txns[holder]).Some? { WaitingClimbs(s, t, holder); }
      u := SomeoneCanMove(s, holder);
    } else {
      u := t;
    }
  }

  /** How many statements a transaction may still run. */
  function Remaining(pc: Pc): nat {
    match pc
    case Checking => 10
    case Finding => 9
    case Locking => 8
    case Rechecking => 7
    case KeyLookup => 9
    case SourceLookup => 8
    case InsertingRow => 7
    case InsertingKey => 6
    case InsertingSource => 5
    case Updating => 4
    case Adding => 3
    case RecoveringKey => 1
    case RecoveringSource => 1
    case Marking => 2
    case Committing => 1
    case Done(_) => 0
  }

  lemma MoveShortens(t0: Tables, steps: seq<Step>, t: nat)
    requires Wellformed(t0) && Enabled(After(t0, steps), Move(t))
    ensures var s := After(t0, steps);
            Remaining(Next(s, Move(t)).txns[t].pc) < Remaining(s.txns[t].pc)
  {
    ReachableInv(t0, steps);
    ShapedMoveShortens(After(t0, steps), t);
  }

  lemma ShapedMoveShortens(s: State, t: nat)
    requires t in s.txns && Shaped(s.txns[t]) && Enabled(s, Move(t))
    ensures Remaining(Next(s, Move(t)).txns[t].pc) < Remaining(s.txns[t].pc)
  {
    var x := s.txns[t];
    hide Shaped, MovedCreate, MovedLifecycle;
    if x.pc.Committing? {
    } else if x.pc.Adding? || x.pc.Marking? {
      EndingShortens(s.requests, s.events, s.next, x);
    } else if x.d.command.CreateRequest? {
      CreateShortens(s.requests, s.events, x);
    } else {
      LifecycleShortens(s.requests, s.events, x);
    }
  }

  lemma EndingShortens(requests: map<string, Request>, events: map<string, string>, next: nat, x: Txn)
    requires Shaped(x) && (x.pc.Adding? || x.pc.Marking?)
    ensures Remaining(Moved(requests, events, next, x).pc) < Remaining(x.pc)
  {
    hide Plan;
  }

  lemma CreateShortens(requests: map<string, Request>, events: map<string, string>, x: Txn)
    requires Shaped(x) && x.d.command.CreateRequest?
    requires !x.pc.Adding? && !x.pc.Marking? && !x.pc.Committing? && !x.pc.Done?
    ensures Remaining(MovedCreate(requests, events, x).pc) < Remaining(x.pc)
  {
    hide Problem, NewRequest, FindByEvent;
  }

  lemma LifecycleShortens(requests: map<string, Request>, events: map<string, string>, x: Txn)
    requires Shaped(x) && !x.d.command.CreateRequest?
    requires !x.pc.Adding? && !x.pc.Marking? && !x.pc.Committing? && !x.pc.Done?
    ensures Remaining(MovedLifecycle(requests, events, x).pc) < Remaining(x.pc)
  {
    hide Problem, Decide, FindByEvent;
  }

  /**
   * Deadlock freedom. In every reachable state with an open transaction, one of them can run its
   * next statement, and that brings it nearer its end.
   */
  lemma NeverStuck(t0: Tables, steps: seq<Step>, t: nat) returns (u: nat)
    requires Wellformed(t0)
    requires t in After(t0, steps).txns && !After(t0, steps).txns[t].pc.Done?
    ensures var s := After(t0, steps);
            Enabled(s, Move(u)) && Remaining(Next(s, Move(u)).txns[u].pc) < Remaining(s.txns[u].pc)
  {
    u := SomeoneCanMove(After(t0, steps), t);
    MoveShortens(t0, steps, u);
  }
}
