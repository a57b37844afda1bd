/** A transaction that nobody stands in the way of does, statement by statement, what the serial Catalog does. */
module Alone {
  import opened Catalog
  import opened Protocol
  import opened Serializability
  import opened Creation
  import opened Progress
  import opened SoloRuns

  function ReplyOf(v: Verdict, c: Command): Reply {
    if c.CreateRequest? then CreateReplyTo(v) else ReplyTo(v)
  }

  /** What the transaction has learnt from tables that have not changed since it began. */
  ghost predicate KnowsTables(t: Tables, x: Txn) {
    && (!x.pc.Checking? && !x.pc.Done? ==> Problem(x.d).None?)
    && (!x.pc.Checking? && !x.pc.Finding? && !x.pc.Done? ==> x.d.event !in t.events)
    && (x.pc.Finding? ==> x.d.event in t.events)
    && (x.d.command.CreateRequest? && !x.pc.Checking? && !x.pc.KeyLookup? && !x.pc.Done? ==>
          !KeyTaken(t.requests, x.d.command.owner, x.d.command.key))
    && (x.d.command.CreateRequest? && !x.pc.Checking? && !x.pc.KeyLookup? && !x.pc.SourceLookup? && !x.pc.Done? ==>
          !SourceTaken(t.requests, x.d.command.owner, x.d.command.source))
    && (x.pc.Committing? ==> x.buffer.mark.Some?)
    && !x.pc.RecoveringKey? && !x.pc.RecoveringSource?
  }

  /** Not there yet, or done with the serial reply and nothing written. */
  ghost predicate OnCourse(t: Tables, x: Txn) {
    if x.pc.Done? then x.pc.reply == ReplyOf(Serial(t, x.d), x.d.command) && Handle(t, x.d) == t
    else KnowsTables(t, x)
  }

  lemma MovedCreateOnCourse(t: Tables, x: Txn)
    requires Wellformed(t) && Shaped(x) && KnowsTables(t, x) && x.d.command.CreateRequest?
    requires !x.pc.Done? && !x.pc.Committing? && !x.pc.Adding? && !x.pc.Marking?
    ensures OnCourse(t, MovedCreate(t.requests, t.events, x))
  {
    hide Problem, NewRequest, UniqueKeys, UniqueSources, AllConsistent;
  }

  lemma MovedLifecycleOnCourse(t: Tables, x: Txn)
    requires Wellformed(t) && Sound(t.requests, t.events, x) && KnowsTables(t, x) && !x.d.command.CreateRequest?
    requires !x.pc.Done? && !x.pc.Committing? && !x.pc.Adding? && !x.pc.Marking?
    ensures OnCourse(t, MovedLifecycle(t.requests, t.events, x))
  {
    hide Problem, Decide, UniqueKeys, UniqueSources, AllConsistent;
    assert x.pc.Rechecking? ==> Locked(x);
  }

  lemma EndingOnCourse(t: Tables, next: nat, x: Txn)
    requires Shaped(x) && KnowsTables(t, x) && (x.pc.Adding? || x.pc.Marking?)
    ensures OnCourse(t, Moved(t.requests, t.events, next, x))
  {
    hide Problem, Plan;
  }

  lemma MovedOnCourse(t: Tables, next: nat, x: Txn)
    requires Wellformed(t) && Sound(t.requests, t.events, x) && KnowsTables(t, x)
    requires !x.pc.Done? && !x.pc.Committing?
    ensures OnCourse(t, Moved(t.requests, t.events, next, x))
  {
    if x.pc.Adding? || x.pc.Marking? {
      EndingOnCourse(t, next, x);
    } else if x.d.command.CreateRequest? {
      MovedCreateOnCourse(t, x);
    } else {
      MovedLifecycleOnCourse(t, x);
    }
  }

  lemma CommitReplyIsSerial(t: Tables, x: Txn)
    requires Wellformed(t) && Sound(t.requests, t.events, x) && x.pc.Committing? && x.buffer.mark.Some?
    ensures CommitReply(x) == ReplyOf(Serial(t, x.d), x.d.command)
  {
    PlanIsSerial(t, x);
    if !x.d.command.CreateRequest? {
      CommitReplyIsPlan(x);
    }
    hide Serial, Problem, NewRequest, Decide;
  }

  // ---- Whole runs ----

  ghost function TablesOf(s: State): Tables
    requires IdsListed(s)
  {
    Tables(s.requests, s.events, CommittedRows(s))
  }

  /** From `a` on, only this transaction has moved. */
  ghost predicate OnlyMoved(a: State, b: State, u: nat, d: Delivery) {
    && u in b.txns && b.txns[u].d == d
    && (forall v | v in b.txns && v != u :: v in a.txns && b.txns[v] == a.txns[v])
  }

  ghost predicate Along(t: Tables, b: State, x: Txn) {
    && IdsListed(b)
    && (if x.pc.Done? then TablesOf(b) == Handle(t, x.d) && x.pc.reply == ReplyOf(Serial(t, x.d), x.d.command)
        else TablesOf(b) == t && KnowsTables(t, x))
  }

  lemma AloneIsEnabled(a: State, b: State, u: nat, d: Delivery)
    requires Unclaimed(a) && OnlyMoved(a, b, u, d) && !b.txns[u].pc.Done?
    ensures Enabled(b, Move(u))
  {
    hide Holds, Wants;
  }

  lemma AlongStep(t0: Tables, t: Tables, b: State, u: nat)
    requires Wellformed(t0) && Inv(t0, b) && Wellformed(t) && Enabled(b, Move(u)) && Along(t, b, b.txns[u])
    ensures Along(t, Next(b, Move(u)), Next(b, Move(u)).txns[u])
  {
    var x := b.txns[u];
    InvSoundAt(t0, b, u);
    NextKeepsInv(t0, b, Move(u));
    if x.pc.Committing? {
      CommitAppendsRow(b, u);
      CommitIsHandle(b, u);
      CommitReplyIsSerial(t, x);
      hide Inv, Wellformed, Handle, Serial, Sound, CommitReply, KnowsTables;
    } else {
      MovedOnCourse(t, b.next, x);
      MovedKeepsDelivery(b.requests, b.events, b.next, x);
      hide Inv, Wellformed, Handle, Serial, Sound, Moved, KnowsTables;
      assert CommittedRows(Next(b, Move(u))) == CommittedRows(b);
    }
  }

  lemma OnlyMovedStep(a: State, b: State, u: nat, d: Delivery)
    requires OnlyMoved(a, b, u, d)
    ensures OnlyMoved(a, Next(b, Move(u)), u, d)
  {
    if Enabled(b, Move(u)) && !b.txns[u].pc.Committing? {
      MovedKeepsDelivery(b.requests, b.events, b.next, b.txns[u]);
    }
    hide Moved;
  }

  lemma TablesAreGood(t0: Tables, steps: seq<Step>)
    requires Wellformed(t0)
    ensures IdsListed(After(t0, steps)) && Wellformed(TablesOf(After(t0, steps)))
  {
    ReachableInv(t0, steps);
    InvIsWellformed(t0, After(t0, steps));
    hide After, HandleAll, Wellformed;
  }

  lemma OneMoreStep(u: nat, d: Delivery, n: nat, steps: seq<Step>)
    requires n > 0
    ensures steps + SoloSteps(u, d, n) == steps + SoloSteps(u, d, n - 1) + [Move(u)]
  {
  }

  lemma BeginsOnCourse(a: State, u: nat, d: Delivery)
    requires IdsListed(a) && u !in a.txns
    ensures var b := Next(a, Begin(u, d));
            OnlyMoved(a, b, u, d) && Along(TablesOf(a), b, b.txns[u]) && b.txns[u].pc.Checking?
  {
    assert CommittedRows(Next(a, Begin(u, d))) == CommittedRows(a);
  }

  lemma {:induction false} AloneGoesOn(t0: Tables, steps: seq<Step>, u: nat, d: Delivery, n: nat)
    requires Wellformed(t0) && Unclaimed(After(t0, steps)) && u !in After(t0, steps).txns
    ensures IdsListed(After(t0, steps)) && Wellformed(TablesOf(After(t0, steps)))
    ensures var a, b := After(t0, steps), After(t0, steps + SoloSteps(u, d, n));
            && OnlyMoved(a, b, u, d) && Along(TablesOf(a), b, b.txns[u])
            && (b.txns[u].pc.Done? || Remaining(b.txns[u].pc) + n <= 10)
  {
    var a := After(t0, steps);
    TablesAreGood(t0, steps);
    if n == 0 {
      AfterSnoc(t0, steps, Begin(u, d));
      hide After, Wellformed, Unclaimed, Along, OnlyMoved, TablesOf;
      BeginsOnCourse(a, u, d);
    } else {
      hide After, SoloSteps, Next, Wellformed, Along, OnlyMoved, Inv, TablesOf, Unclaimed;
      AloneGoesOn(t0, steps, u, d, n - 1);
      var pre := steps + SoloSteps(u, d, n - 1);
      var b := After(t0, pre);
      OneMoreStep(u, d, n, steps);
      AfterSnoc(t0, pre, Move(u));
      ReachableInv(t0, pre);
      OneMoreMove(t0, a, b, u, d);
    }
  }

  lemma OneMoreMove(t0: Tables, a: State, b: State, u: nat, d: Delivery)
    requires Wellformed(t0) && Inv(t0, b) && IdsListed(a) && Wellformed(TablesOf(a)) && Unclaimed(a)
    requires OnlyMoved(a, b, u, d) && Along(TablesOf(a), b, b.txns[u])
    ensures var b' := Next(b, Move(u));
            && OnlyMoved(a, b', u, d) && Along(TablesOf(a), b', b'.txns[u])
            && (b.txns[u].pc.Done? ==> b' == b)
            && (!b.txns[u].pc.Done? ==> b'.txns[u].pc.Done? || Remaining(b'.txns[u].pc) < Remaining(b.txns[u].pc))
  {
    OnlyMovedStep(a, b, u, d);
    if !b.txns[u].pc.Done? {
      AloneIsEnabled(a, b, u, d);
      InvSoundAt(t0, b, u);
      AlongStep(t0, TablesOf(a), b, u);
      ShapedMoveShortens(b, u);
    }
    hide Along, OnlyMoved, Inv, Wellformed, Unclaimed, MoveStep;
  }

  /**
   * A use case that runs alone from any moment at which nobody holds anything is done after at most ten
   * statements, has left exactly the tables, and gives exactly the reply, of the serial Catalog.
   */
  lemma {:induction false} AloneIsSerial(t0: Tables, steps: seq<Step>, u: nat, d: Delivery)
    requires Wellformed(t0) && Unclaimed(After(t0, steps)) && u !in After(t0, steps).txns
    ensures var a, b := After(t0, steps), After(t0, steps + SoloSteps(u, d, 10));
            && IdsListed(a) && IdsListed(b) && TablesOf(b) == Handle(TablesOf(a), d)
            && u in b.txns && b.txns[u].pc == Done(ReplyOf(Serial(TablesOf(a), d), d.command))
  {
    hide After, SoloSteps, Wellformed, Handle, Serial, KnowsTables, Unclaimed, ReplyOf;
    AloneGoesOn(t0, steps, u, d, 10);
    ExhaustedIsDone(After(t0, steps + SoloSteps(u, d, 10)).txns[u].pc);
    hide Remaining;
  }

  lemma ExhaustedIsDone(pc: Pc)
    ensures Remaining(pc) == 0 ==> pc.Done?
  {
  }
}
