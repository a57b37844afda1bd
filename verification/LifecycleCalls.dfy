/** When the reply of a whole lifecycle call fits some moment of it. */
module LifecycleCalls {
  import opened Lifecycle
  import opened Catalog
  import opened Protocol
  import opened Serializability
  import opened Creation
  import opened Linearizability
  import opened SoloRuns

  predicate PastChecks(pc: Pc) {
    !pc.Checking? && !pc.Finding? && !pc.Done?
  }

  lemma MovedPastChecks(requests: map<string, Request>, events: map<string, string>, next: nat, x: Txn)
    requires !x.d.command.CreateRequest? && (x.pc.Checking? || x.pc.Finding?)
    requires forall e | e in events :: events[e] in requests
    requires PastChecks(Moved(requests, events, next, x).pc)
    ensures x.d.event !in events
  {
    hide Problem;
  }

  lemma StepPastChecks(s: State, step: Step, t: nat)
    requires t in s.txns && !s.txns[t].d.command.CreateRequest? && !PastChecks(s.txns[t].pc)
    requires forall e | e in s.events :: s.events[e] in s.requests
    requires PastChecks(Next(s, step).txns[t].pc)
    ensures s.txns[t].d.event !in s.events
  {
    if step == Move(t) {
      MovedPastChecks(s.requests, s.events, s.next, s.txns[t]);
    }
    hide Moved;
  }

  lemma StepKeepsDelivery(s: State, step: Step, t: nat)
    requires t in s.txns
    ensures t in Next(s, step).txns && Next(s, step).txns[t].d == s.txns[t].d
  {
    if step.Move? && Enabled(s, step) && !Commits(s, step) {
      MovedKeepsDelivery(s.requests, s.events, s.next, s.txns[step.txn]);
    }
    hide Moved;
  }

  /** A call past its first check had a moment at which its event was not recorded. */
  lemma {:induction false} WhenUnrecorded(t0: Tables, steps: seq<Step>, t: nat, begin: nat, j: nat) returns (k: nat)
    requires Wellformed(t0) && CallBegins(t0, steps, t, begin) && begin <= j <= |steps|
    ensures t in After(t0, steps[..j]).txns
    ensures var x := After(t0, steps[..j]).txns[t];
            !x.d.command.CreateRequest? && PastChecks(x.pc) ==>
              begin <= k <= j && x.d.event !in After(t0, steps[..k]).events
    decreases j
  {
    assert steps[..j] == steps[..j - 1] + [steps[j - 1]];
    AfterSnoc(t0, steps[..j - 1], steps[j - 1]);
    var s := After(t0, steps[..j - 1]);
    if j == begin {
      k := begin;
      hide After, MoveStep;
    } else {
      k := WhenUnrecorded(t0, steps, t, begin, j - 1);
      ReachableTables(t0, steps[..j - 1]);
      hide After, Next;
      StepKeepsDelivery(s, steps[j - 1], t);
      var x := s.txns[t];
      if !x.d.command.CreateRequest? && !PastChecks(x.pc) && PastChecks(Next(s, steps[j - 1]).txns[t].pc) {
        StepPastChecks(s, steps[j - 1], t);
        k := j - 1;
      }
    }
  }

  /** The run ends with the last statement of this lifecycle call. */
  ghost predicate EndsLifecycle(t0: Tables, steps: seq<Step>, t: nat) {
    |steps| > 0 && steps[|steps| - 1] == Move(t)
    && var s := After(t0, steps[..|steps| - 1]);
       Enabled(s, Move(t)) && !s.txns[t].d.command.CreateRequest? && Next(s, Move(t)).txns[t].pc.Done?
  }

  /** What this use case would decide on its own, had the event not been recorded. */
  ghost predicate DecidesUnrecorded(s: State, d: Delivery, reply: Reply)
    requires !d.command.CreateRequest?
  {
    d.event !in s.events && d.command.id in s.requests && ReplyTo(Decide(s.requests[d.command.id], d)) == reply
  }

  /** The re-check found the event recorded for another request than the one named. */
  predicate FoundElsewhere(s: State, x: Txn)
    requires !x.d.command.CreateRequest?
  {
    x.pc.Committing? && x.d.event in s.events && s.events[x.d.event] != x.d.command.id
  }

  /** The insert of the dedup record found the event recorded. */
  predicate FoundAtInsert(s: State, x: Txn) {
    x.pc.Marking? && x.d.event in s.events
  }

  lemma DuplicateIsNeverSerial(s: State, d: Delivery)
    requires !d.command.CreateRequest?
    ensures !ReplyNow(s, d).Errored?
  {
    hide Problem;
  }

  lemma UnrecordedReply(s: State, d: Delivery)
    requires !d.command.CreateRequest? && d.event !in s.events && Problem(d).None?
    ensures ReplyNow(s, d) == if d.command.id in s.requests then ReplyTo(Decide(s.requests[d.command.id], d))
                              else Refused(NotFound)
  {
    hide Problem, Decide;
  }

  lemma RecordedReply(s: State, d: Delivery)
    requires GoodTables(s) && !d.command.CreateRequest? && d.event in s.events && Problem(d).None?
    ensures s.events[d.event] in s.requests && s.requests[s.events[d.event]].id == s.events[d.event]
    ensures ReplyNow(s, d) == Answered(s.requests[s.events[d.event]])
  {
    hide Problem, Decide, UniqueKeys, UniqueSources;
  }

  /** How each late discovery of the record ends the call. */
  lemma LateReply(s: State, t: nat)
    requires Enabled(s, Move(t)) && Sound(s.requests, s.events, s.txns[t]) && GoodTables(s)
    requires !s.txns[t].d.command.CreateRequest? && Next(s, Move(t)).txns[t].pc.Done?
    ensures var x, s' := s.txns[t], Next(s, Move(t));
            && (MissesTheRecord(s, x) ==> Problem(x.d).None? && s'.requests == s.requests && s'.events == s.events)
            && (FoundAtInsert(s, x) ==> s'.txns[t].pc.reply == Errored(DuplicateEvent))
            && (FoundElsewhere(s, x) ==> s'.txns[t].pc.reply.Answered? && s'.txns[t].pc.reply.request.id == x.d.command.id)
            && (MissesTheRecord(s, x) && x.pc.Locking? ==>
                  x.d.command.id !in s.requests && s'.txns[t].pc.reply == Refused(NotFound))
  {
    hide Problem, Decide, UniqueKeys, UniqueSources, Blocked;
    var x := s.txns[t];
    if x.pc.Committing? && x.buffer.mark.Some? {
      assert Holds(x, EventEntry(x.d.event));
    }
  }

  /**
   * Every lifecycle call is linearizable but in two cases. A call refused by the primary key never is.
   * One whose re-check found the event recorded for another request is so exactly if at some moment of
   * the call, before the record, the use case would have decided to answer with that same state.
   */
  lemma {:induction false} LifecycleIsLinearizableIff(t0: Tables, steps: seq<Step>, t: nat, begin: nat)
    requires Wellformed(t0) && CallBegins(t0, steps, t, begin) && EndsLifecycle(t0, steps, t)
    ensures var s, reply := After(t0, steps[..|steps| - 1]), After(t0, steps).txns[t].pc.reply;
            var x := s.txns[t];
            Linearizable(t0, steps, begin, x.d, reply)
            <==> && !FoundAtInsert(s, x)
                 && (FoundElsewhere(s, x) ==>
                       exists k :: begin <= k <= |steps| && DecidesUnrecorded(After(t0, steps[..k]), x.d, reply))
  {
    var last := |steps| - 1;
    var s := After(t0, steps[..last]);
    var x, reply := s.txns[t], After(t0, steps).txns[t].pc.reply;
    assert After(t0, steps) == Next(s, Move(t)) && steps[..|steps|] == steps;
    ReachableTables(t0, steps[..last]);
    ReachableInv(t0, steps[..last]);
    InvSoundAt(t0, s, t);
    LateReply(s, t);
    RepliesAreSerialIff(t0, steps[..last], s, t);
    hide After, Next, Inv, Sound, Decide, Problem, GoodTables;
    if !MissesTheRecord(s, x) {
      SerialIgnoresTheOutbox(Tables(s.requests, s.events, CommittedRows(s)), x.d);
      assert ReplyNow(s, x.d) == reply;
    } else if x.pc.Locking? {
      var k := WhenUnrecorded(t0, steps, t, begin, last);
      NotFoundFits(t0, steps, begin, last, x.d, k);
    } else if x.pc.Marking? {
      forall k | begin <= k <= |steps| ensures ReplyNow(After(t0, steps[..k]), x.d) != reply {
        DuplicateIsNeverSerial(After(t0, steps[..k]), x.d);
      }
    } else {
      ElsewhereIff(t0, steps, begin, x.d, reply);
    }
  }

  lemma SerialIgnoresTheOutbox(t: Tables, d: Delivery)
    ensures Serial(t, d) == Serial(t.(outbox := []), d)
  {
    hide Problem, NewRequest, Decide;
  }

  lemma NotFoundFits(t0: Tables, steps: seq<Step>, begin: nat, last: nat, d: Delivery, k: nat)
    requires Wellformed(t0) && begin <= k <= last < |steps| && !d.command.CreateRequest? && Problem(d).None?
    requires d.event !in After(t0, steps[..k]).events && d.command.id !in After(t0, steps[..last]).requests
    ensures Linearizable(t0, steps, begin, d, Refused(NotFound))
  {
    RunGrows(t0, steps, k, last);
    hide After, ReplyNow, Problem;
    UnrecordedReply(After(t0, steps[..k]), d);
  }

  lemma ElsewhereIff(t0: Tables, steps: seq<Step>, begin: nat, d: Delivery, reply: Reply)
    requires Wellformed(t0) && begin < |steps| && !d.command.CreateRequest? && Problem(d).None?
    requires reply.Answered? && reply.request.id == d.command.id
    requires var s := After(t0, steps); d.event in s.events && s.events[d.event] != d.command.id
    ensures Linearizable(t0, steps, begin, d, reply)
            <==> exists k :: begin <= k <= |steps| && DecidesUnrecorded(After(t0, steps[..k]), d, reply)
  {
    assert steps[..|steps|] == steps;
    forall k | begin <= k <= |steps|
      ensures ReplyNow(After(t0, steps[..k]), d) == reply <==> DecidesUnrecorded(After(t0, steps[..k]), d, reply)
    {
      var now := After(t0, steps[..k]);
      RunGrows(t0, steps, k, |steps|);
      ReachableTables(t0, steps[..k]);
      hide After, ReplyNow, Problem, Decide, GoodTables;
      if d.event in now.events {
        RecordedReply(now, d);
      } else {
        UnrecordedReply(now, d);
      }
    }
    hide After, ReplyNow, DecidesUnrecorded;
  }
}
