/** Creation reads its key and its source apart, so its calls are linearizable except in one case. */
module Linearizability {
  import opened Text
  import opened Lifecycle
  import opened Catalog
  import opened Protocol
  import opened Serializability
  import opened Creation
  import opened SoloRuns

  /** The reply a use case would get if it ran whole on the tables committed now. */
  ghost function ReplyNow(s: State, d: Delivery): Reply {
    var v := Serial(Tables(s.requests, s.events, []), d);
    if d.command.CreateRequest? then CreateReplyTo(v) else ReplyTo(v)
  }

  /**
   * At the moment it is answered: a creation with a fresh event and request id gets the serial reply
   * on the tables committed then, unless it is answered from the source while its key is bound to
   * another source. An earlier moment may still fit; `CreateIsLinearizableIff` considers them all.
   */
  lemma {:induction false} CreateReplyIsSerialIff(t0: Tables, steps: seq<Step>, s: State, t: nat)
    requires Wellformed(t0) && s == After(t0, steps) && Enabled(s, Move(t))
    requires s.txns[t].d.command.CreateRequest? && Next(s, Move(t)).txns[t].pc.Done?
    requires s.txns[t].d.event !in s.events && s.txns[t].d.drawn !in s.requests
    ensures var x, c := s.txns[t], s.txns[t].d.command;
            Next(s, Move(t)).txns[t].pc.reply == ReplyNow(s, x.d)
            <==> !((x.pc.SourceLookup? || x.pc.RecoveringSource?)
                   && KeyBoundElsewhere(s.requests, c.owner, c.key, c.source))
  {
    ReachableCreationInv(t0, steps);
    InvIsWellformed(t0, s);
    InvSoundAt(t0, s, t);
    var rows := CommittedRows(s);
    WellformedWithoutRows(Tables(s.requests, s.events, rows));
    hide After, Inv, CreatedApart, LogKept;
    assert Honest(s.requests, s.events, s.txns[t]);
    hide AllHonest;
    MovedReplyIsSerialIff(s, t);
  }

  lemma WellformedWithoutRows(t: Tables)
    requires Wellformed(t)
    ensures Wellformed(t.(outbox := []))
  {
  }

  lemma MovedReplyIsSerialIff(s: State, t: nat)
    requires t in s.txns && !s.txns[t].pc.Done? && Wellformed(Tables(s.requests, s.events, []))
    requires Sound(s.requests, s.events, s.txns[t]) && Honest(s.requests, s.events, s.txns[t])
    requires s.txns[t].d.command.CreateRequest? && MoveStep(s, t).txns[t].pc.Done?
    requires s.txns[t].d.event !in s.events && s.txns[t].d.drawn !in s.requests
    ensures var x, c := s.txns[t], s.txns[t].d.command;
            MoveStep(s, t).txns[t].pc.reply == ReplyNow(s, x.d)
            <==> !((x.pc.SourceLookup? || x.pc.RecoveringSource?)
                   && KeyBoundElsewhere(s.requests, c.owner, c.key, c.source))
  {
    hide Problem, NewRequest;
    var x := s.txns[t];
    if x.pc.Committing? {
      PlanIsSerial(Tables(s.requests, s.events, []), x);
    } else if x.pc.SourceLookup? || x.pc.RecoveringSource? {
      SourceReplyIsSerialIff(s, x);
    }
  }

  lemma SourceReplyIsSerialIff(s: State, x: Txn)
    requires Wellformed(Tables(s.requests, s.events, [])) && x.d.command.CreateRequest?
    requires Problem(x.d).None? && NewRequest(x.d).Changed? && x.d.event !in s.events
    requires SourceTaken(s.requests, x.d.command.owner, x.d.command.source)
    ensures var c := x.d.command;
            ReplyNow(s, x.d) == Replayed(FindBySource(s.requests, c.owner, c.source).value)
            <==> !KeyBoundElsewhere(s.requests, c.owner, c.key, c.source)
  {
    hide Problem, NewRequest;
    var c := x.d.command;
    var bound, known := FindByKey(s.requests, c.owner, c.key), FindBySource(s.requests, c.owner, c.source);
    if bound.Some? {
      OneRequestPerKey(s.requests, c.owner, c.key, c.source);
      if bound.value.source == c.source {
        assert HasSource(bound.value, known.value.owner, known.value.source);
      }
    }
  }

  lemma OneRequestPerKey(requests: map<string, Request>, owner: string, key: string, source: string)
    requires UniqueKeys(requests) && FindByKey(requests, owner, key).Some?
    ensures KeyBoundElsewhere(requests, owner, key, source) <==> FindByKey(requests, owner, key).value.source != source
  {
    if KeyBoundElsewhere(requests, owner, key, source) {
      var id :| id in requests && HasKey(requests[id], owner, key) && requests[id].source != source;
      var id' :| id' in requests && requests[id'] == FindByKey(requests, owner, key).value;
      assert HasKey(requests[id'], requests[id].owner, requests[id].key.value);
    }
  }

  // ---- Whole calls ----

  /** Committed requests only advance and committed dedup records stay. */
  ghost predicate GrowsTo(a: State, b: State) {
    && (forall id | id in a.requests :: id in b.requests && Advances(a.requests[id], b.requests[id]))
    && (forall e | e in a.events :: e in b.events && b.events[e] == a.events[e])
  }

  lemma NextGrows(t0: Tables, s: State, step: Step)
    requires Wellformed(t0) && Inv(t0, s)
    ensures GrowsTo(s, Next(s, step))
  {
    if Commits(s, step) {
      CommitIsHonest(t0, s, step.txn);
    } else {
      hide Inv, Moved;
    }
  }

  lemma NothingGrowsTo(s: State)
    ensures GrowsTo(s, s)
  {
  }

  lemma {:induction false} RunGrows(t0: Tables, steps: seq<Step>, j: nat, k: nat)
    requires Wellformed(t0) && j <= k <= |steps|
    ensures GrowsTo(After(t0, steps[..j]), After(t0, steps[..k]))
  {
    if j == k {
      NothingGrowsTo(After(t0, steps[..j]));
    } else {
      hide After, Inv, GrowsTo, Next, Wellformed;
      RunGrows(t0, steps, j, k - 1);
      ReachableInv(t0, steps[..k - 1]);
      assert steps[..k] == steps[..k - 1] + [steps[k - 1]];
      AfterSnoc(t0, steps[..k - 1], steps[k - 1]);
      NextGrows(t0, After(t0, steps[..k - 1]), steps[k - 1]);
      GrowsToIsTransitive(After(t0, steps[..j]), After(t0, steps[..k - 1]), After(t0, steps[..k]));
    }
  }

  lemma GrowsToIsTransitive(a: State, b: State, c: State)
    requires GrowsTo(a, b) && GrowsTo(b, c)
    ensures GrowsTo(a, c)
  {
    forall id | id in a.requests ensures id in c.requests && Advances(a.requests[id], c.requests[id]) {
      AdvancesIsTransitive(a.requests[id], b.requests[id], c.requests[id]);
    }
  }

  lemma BoundStaysBound(a: State, b: State, owner: string, key: string, source: string)
    requires GrowsTo(a, b) && KeyBoundElsewhere(a.requests, owner, key, source)
    ensures KeyBoundElsewhere(b.requests, owner, key, source)
  {
    var id :| id in a.requests && HasKey(a.requests[id], owner, key) && a.requests[id].source != source;
    assert HasKey(b.requests[id], owner, key);
  }

  /** The request is stored in exactly this state. */
  predicate Current(s: State, r: Request) {
    r.id in s.requests && s.requests[r.id] == r
  }

  ghost predicate GoodTables(s: State) {
    Wellformed(Tables(s.requests, s.events, []))
  }

  lemma ReachableTables(t0: Tables, steps: seq<Step>)
    requires Wellformed(t0)
    ensures GoodTables(After(t0, steps))
  {
    ReachableInv(t0, steps);
    var s := After(t0, steps);
    InvIsWellformed(t0, s);
    WellformedWithoutRows(Tables(s.requests, s.events, CommittedRows(s)));
  }

  lemma SerialReplyIsCurrent(s: State, d: Delivery, r: Request)
    requires GoodTables(s) && d.command.CreateRequest? && d.event !in s.events && ReplyNow(s, d) == Replayed(r)
    ensures var c := d.command;
            Current(s, r) && HasSource(r, c.owner, c.source) && !KeyBoundElsewhere(s.requests, c.owner, c.key, c.source)
  {
    hide Problem, NewRequest;
    var c := d.command;
    if FindByKey(s.requests, c.owner, c.key).Some? {
      OneRequestPerKey(s.requests, c.owner, c.key, c.source);
    }
  }

  lemma CurrentIsSerialReply(s: State, x: Txn, r: Request)
    requires GoodTables(s) && x.d.command.CreateRequest? && Problem(x.d).None? && NewRequest(x.d).Changed?
    requires x.d.event !in s.events && Current(s, r) && HasSource(r, x.d.command.owner, x.d.command.source)
    requires !KeyBoundElsewhere(s.requests, x.d.command.owner, x.d.command.key, x.d.command.source)
    ensures ReplyNow(s, x.d) == Replayed(r)
  {
    var c := x.d.command;
    hide Problem, NewRequest, ReplyNow;
    assert HasSource(s.requests[r.id], c.owner, c.source);
    SourceReplyIsSerialIff(s, x);
    var known := FindBySource(s.requests, c.owner, c.source).value;
    assert HasSource(r, known.owner, known.source) && s.requests[known.id] == known;
  }

  /** The moments of a call: from its beginning, which comes after `begin - 1` steps, to the end of the run. */
  ghost predicate CallBegins(t0: Tables, steps: seq<Step>, t: nat, begin: nat) {
    0 < begin < |steps| && t !in After(t0, steps[..begin - 1]).txns && t in After(t0, steps[..begin]).txns
  }

  /** At some moment of the call the serial Catalog would have given this very reply. */
  ghost predicate Linearizable(t0: Tables, steps: seq<Step>, begin: nat, d: Delivery, reply: Reply) {
    exists k :: begin <= k <= |steps| && ReplyNow(After(t0, steps[..k]), d) == reply
  }

  ghost predicate FirstCurrent(t0: Tables, steps: seq<Step>, begin: nat, r: Request, first: nat) {
    && begin <= first <= |steps| && Current(After(t0, steps[..first]), r)
    && forall k | begin <= k < first :: !Current(After(t0, steps[..k]), r)
  }

  lemma {:induction false} FindFirst(t0: Tables, steps: seq<Step>, begin: nat, r: Request, k: nat) returns (first: nat)
    requires begin <= k <= |steps| && Current(After(t0, steps[..k]), r)
    ensures first <= k && FirstCurrent(t0, steps, begin, r, first)
    decreases k
  {
    if j :| begin <= j < k && Current(After(t0, steps[..j]), r) {
      first := FindFirst(t0, steps, begin, r, j);
    } else {
      first := k;
    }
  }

  /** Answered with what the lookup by source found, at once or after a lost race. */
  predicate FromSource(x: Txn) {
    x.pc.SourceLookup? || x.pc.RecoveringSource?
  }

  /** The run ends with the last statement of this creation, whose event and request id are fresh. */
  ghost predicate EndsFreshCreation(t0: Tables, steps: seq<Step>, t: nat) {
    |steps| > 0 && steps[|steps| - 1] == Move(t)
    && var s := After(t0, steps[..|steps| - 1]);
       && Enabled(s, Move(t)) && s.txns[t].d.command.CreateRequest? && Next(s, Move(t)).txns[t].pc.Done?
       && s.txns[t].d.event !in s.events && s.txns[t].d.drawn !in s.requests
  }

  /**
   * A creation with a fresh event and request id is linearizable, except exactly when it is answered
   * with what the lookup by source found and, at the first moment of the call at which that request
   * was stored in the state returned, the key was already bound to another source.
   */
  lemma {:induction false} CreateIsLinearizableIff(t0: Tables, steps: seq<Step>, t: nat, begin: nat)
    returns (first: nat)
    requires Wellformed(t0) && CallBegins(t0, steps, t, begin) && EndsFreshCreation(t0, steps, t)
    ensures var x, reply := After(t0, steps[..|steps| - 1]).txns[t], After(t0, steps).txns[t].pc.reply;
            && (FromSource(x) ==> reply.Replayed? && FirstCurrent(t0, steps, begin, reply.request, first))
            && (Linearizable(t0, steps, begin, x.d, reply)
                <==> !(FromSource(x) && KeyBoundElsewhere(After(t0, steps[..first]).requests, x.d.command.owner,
                                                          x.d.command.key, x.d.command.source)))
  {
    var last := |steps| - 1;
    var s := After(t0, steps[..last]);
    var x, reply := s.txns[t], After(t0, steps).txns[t].pc.reply;
    assert After(t0, steps) == Next(s, Move(t));
    assert steps[..|steps|] == steps;
    first := begin;
    CreateReplyIsSerialIff(t0, steps[..last], s, t);
    if FromSource(x) {
      SourceReplyIsStored(t0, steps[..last], s, t);
      hide Next;
      first := FindFirst(t0, steps, begin, reply.request, last);
      FromSourceIff(t0, steps, begin, x, reply.request, first);
    }
  }

  lemma SourceReplyIsStored(t0: Tables, steps: seq<Step>, s: State, t: nat)
    requires Wellformed(t0) && s == After(t0, steps) && Enabled(s, Move(t)) && FromSource(s.txns[t])
    requires s.txns[t].d.command.CreateRequest? && Next(s, Move(t)).txns[t].pc.Done?
    ensures var x, s' := s.txns[t], Next(s, Move(t));
            var c := x.d.command;
            && s'.requests == s.requests && s'.events == s.events && Problem(x.d).None? && NewRequest(x.d).Changed?
            && s'.txns[t].pc.reply.Replayed? && Current(s, s'.txns[t].pc.reply.request)
            && HasSource(s'.txns[t].pc.reply.request, c.owner, c.source)
  {
    ReachableTables(t0, steps);
    ReachableInv(t0, steps);
    hide After, Inv, GoodTables, Next, Problem, NewRequest;
    HonestReply(t0, steps, t);
    InvSoundAt(t0, s, t);
    SourceAnswersWithStored(s, t);
  }

  lemma SourceAnswersWithStored(s: State, t: nat)
    requires Enabled(s, Move(t)) && FromSource(s.txns[t]) && s.txns[t].d.command.CreateRequest?
    requires Sound(s.requests, s.events, s.txns[t]) && Honest(s.requests, s.events, s.txns[t]) && GoodTables(s)
    requires Next(s, Move(t)).txns[t].pc.Done?
    ensures var x, s' := s.txns[t], Next(s, Move(t));
            var c := x.d.command;
            && s'.requests == s.requests && s'.events == s.events && Problem(x.d).None? && NewRequest(x.d).Changed?
            && s'.txns[t].pc.reply.Replayed? && Current(s, s'.txns[t].pc.reply.request)
            && HasSource(s'.txns[t].pc.reply.request, c.owner, c.source)
  {
    hide Problem, NewRequest, UniqueKeys, UniqueSources, AllConsistent, Blocked;
  }

  lemma FromSourceIff(t0: Tables, steps: seq<Step>, begin: nat, x: Txn, r: Request, first: nat)
    requires Wellformed(t0) && begin < |steps| && FirstCurrent(t0, steps, begin, r, first)
    requires x.d.command.CreateRequest? && Problem(x.d).None? && NewRequest(x.d).Changed?
    requires x.d.event !in After(t0, steps).events && HasSource(r, x.d.command.owner, x.d.command.source)
    ensures Linearizable(t0, steps, begin, x.d, Replayed(r))
            <==> !KeyBoundElsewhere(After(t0, steps[..first]).requests, x.d.command.owner,
                                    x.d.command.key, x.d.command.source)
  {
    var c, found := x.d.command, After(t0, steps[..first]);
    assert steps[..|steps|] == steps;
    hide After, ReplyNow, Problem, NewRequest, KeyBoundElsewhere;
    RunGrows(t0, steps, first, |steps|);
    ReachableTables(t0, steps[..first]);
    if !KeyBoundElsewhere(found.requests, c.owner, c.key, c.source) {
      CurrentIsSerialReply(found, x, r);
    } else {
      forall k | begin <= k <= |steps| ensures ReplyNow(After(t0, steps[..k]), x.d) != Replayed(r) {
        if ReplyNow(After(t0, steps[..k]), x.d) == Replayed(r) {
          RunGrows(t0, steps, k, |steps|);
          ReachableTables(t0, steps[..k]);
          SerialReplyIsCurrent(After(t0, steps[..k]), x.d, r);
          RunGrows(t0, steps, first, k);
          BoundStaysBound(found, After(t0, steps[..k]), c.owner, c.key, c.source);
        }
      }
    }
  }

  // ---- The exception happens ----

  const SLOW := Delivery("e0", CreateRequest("ana", "a@x", "film", "k", Absent), "", 0, "r0", "m0")
  const RIVAL := Delivery("e1", CreateRequest("ana", "a@x", "song", "k", Absent), "", 0, "r1", "m1")
  const WINNER := Delivery("e2", CreateRequest("ana", "a@x", "film", "j", Absent), "", 0, "r2", "m2")

  lemma SampleIsValid()
    ensures Problem(SLOW).None? && Problem(RIVAL).None? && Problem(WINNER).None?
    ensures NewRequest(SLOW).Changed? && NewRequest(RIVAL).Changed? && NewRequest(WINNER).Changed?
  {
    assert !IsSpace("e0"[0]) && !IsSpace("e1"[0]) && !IsSpace("e2"[0]) && !IsSpace("k"[0]) && !IsSpace("j"[0]);
    assert !IsSpace("ana"[0]) && !IsSpace("a@x"[0]) && !IsSpace("film"[0]) && !IsSpace("song"[0]);
  }

  /** Nothing committed lets the serial Catalog answer the slow creation with a stored request. */
  ghost predicate Unanswerable(s: State) {
    && SLOW.event !in s.events
    && (forall id | id in s.requests && HasKey(s.requests[id], "ana", "k") :: s.requests[id].source != "film")
    && (SourceTaken(s.requests, "ana", "film") ==> KeyTaken(s.requests, "ana", "k"))
  }

  lemma UnanswerableReply(s: State)
    requires Unanswerable(s)
    ensures !ReplyNow(s, SLOW).Replayed?
  {
    SampleIsValid();
    hide Problem, NewRequest;
  }

  /** While a creation runs alone, what is committed is what was there before or what it leaves. */
  lemma SoloKeepsUnanswerable(s: State, u: nat, d: Delivery, m: nat, n: nat)
    requires Free(s, d) && n <= m <= 9 && Unanswerable(s) && Unanswerable(Solo(s, u, d, m))
    ensures Unanswerable(Solo(s, u, d, n))
  {
    hide Problem, NewRequest;
  }

  ghost predicate NeverAnswerable(t0: Tables, steps: seq<Step>) {
    forall k | 0 <= k <= |steps| :: Unanswerable(After(t0, steps[..k]))
  }

  lemma SoloPrefix(t0: Tables, pre: seq<Step>, u: nat, d: Delivery, m: nat)
    requires var s := After(t0, pre); Unclaimed(s) && u !in s.txns && Free(s, d) && Unanswerable(Solo(s, u, d, m))
    requires m <= 9 && NeverAnswerable(t0, pre)
    ensures NeverAnswerable(t0, pre + SoloSteps(u, d, m))
    ensures After(t0, pre + SoloSteps(u, d, m)) == Solo(After(t0, pre), u, d, m)
  {
    UnclaimedIsUnhindered(After(t0, pre), d);
    hide Unclaimed, Unhindered, Free, Solo, Unanswerable, SoloSteps;
    var steps := pre + SoloSteps(u, d, m);
    SoloRun(t0, pre, u, d, m);
    SoloStepsPrefix(u, d, m, m);
    assert pre[..|pre|] == pre;
    forall k | 0 <= k <= |steps| ensures Unanswerable(After(t0, steps[..k])) {
      if k <= |pre| {
        assert steps[..k] == pre[..k];
      } else {
        var n := k - |pre| - 1;
        SoloStepsPrefix(u, d, m, n);
        assert steps[..k] == pre + SoloSteps(u, d, n);
        SoloRun(t0, pre, u, d, n);
        SoloKeepsUnanswerable(After(t0, pre), u, d, m, n);
      }
    }
  }

  /** After the slow creation found its key free, the rival took that key, and the winner the source. */
  function Overtaken(): (stages: (State, State, State))
    ensures Problem(SLOW).None? && NewRequest(SLOW).Changed?
  {
    SampleIsValid();
    var looked := Solo(Quiet(EMPTY), 0, SLOW, 2);
    var bound := Solo(looked, 1, RIVAL, 9);
    (looked, bound, Solo(bound, 2, WINNER, 9))
  }

  lemma LookedIsFree()
    ensures Unclaimed(Quiet(EMPTY)) && Free(Quiet(EMPTY), SLOW)
    ensures var looked := Overtaken().0;
            && looked.requests == map[] && looked.events == map[] && Unclaimed(looked)
            && looked.txns == map[0 := Txn(SLOW, SourceLookup, None, NOTHING)]
  {
    SampleIsValid();
    SoloLookup(Quiet(EMPTY), 0, SLOW);
    hide Solo;
  }

  lemma BoundIsFree()
    ensures Free(Overtaken().0, RIVAL) && Unanswerable(Overtaken().0)
    ensures var bound, r := Overtaken().1, NewRequest(RIVAL).request;
            && bound.requests == map["r1" := r] && bound.events == map["e1" := "r1"] && Unclaimed(bound)
            && HasKey(r, "ana", "k") && HasSource(r, "ana", "song")
            && bound.txns.Keys == {0, 1} && bound.txns[0] == Txn(SLOW, SourceLookup, None, NOTHING)
  {
    SampleIsValid();
    LookedIsFree();
    hide Problem, NewRequest;
    var looked := Overtaken().0;
    SoloCommit(looked, 1, RIVAL);
    hide Solo, Unclaimed;
  }

  lemma TakenIsTaken()
    ensures Free(Overtaken().1, WINNER) && Unanswerable(Overtaken().1) && Unanswerable(Overtaken().2)
    ensures var taken := Overtaken().2;
            0 in taken.txns && taken.txns[0] == Txn(SLOW, SourceLookup, None, NOTHING)
            && Unclaimed(taken) && SourceTaken(taken.requests, "ana", "film")
  {
    SampleIsValid();
    BoundIsFree();
    hide Problem, NewRequest;
    var bound, taken := Overtaken().1, Overtaken().2;
    SoloCommit(bound, 2, WINNER);
    hide Solo, Unclaimed;
    assert HasKey(taken.requests["r1"], "ana", "k") && HasSource(taken.requests["r2"], "ana", "film");
  }

  /**
   * Creation is not linearizable. In this run the slow creation is answered with a stored request,
   * though at no moment of its call would the serial Catalog have answered it with any.
   */
  lemma CreateIsNotLinearizable() returns (steps: seq<Step>)
    ensures |steps| > 0 && steps[0] == Begin(0, SLOW)
    ensures var s := After(EMPTY, steps); 0 in s.txns && s.txns[0].pc.Done? && s.txns[0].pc.reply.Replayed?
    ensures !Linearizable(EMPTY, steps, 1, SLOW, After(EMPTY, steps).txns[0].pc.reply)
  {
    var third := OvertakenRun();
    TakenIsTaken();
    hide Unclaimed, Unanswerable, Overtaken, Next, ReplyNow;
    steps := third + [Move(0)];
    AfterSnoc(EMPTY, third, Move(0));
    LastLookupReplays(Overtaken().2);
    forall k | 1 <= k <= |steps| ensures !ReplyNow(After(EMPTY, steps[..k]), SLOW).Replayed? {
      if k < |steps| {
        assert steps[..k] == third[..k];
      } else {
        assert steps[..k] == steps;
      }
      UnanswerableReply(After(EMPTY, steps[..k]));
    }
  }

  lemma LastLookupReplays(s: State)
    requires Unclaimed(s) && Unanswerable(s) && SourceTaken(s.requests, "ana", "film")
    requires 0 in s.txns && s.txns[0] == Txn(SLOW, SourceLookup, None, NOTHING)
    ensures var s' := Next(s, Move(0));
            0 in s'.txns && s'.txns[0].pc.Done? && s'.txns[0].pc.reply.Replayed? && Unanswerable(s')
  {
  }

  /** The run up to there, with nothing that would answer the slow creation along the way. */
  lemma OvertakenRun() returns (steps: seq<Step>)
    ensures |steps| > 0 && steps[0] == Begin(0, SLOW)
    ensures After(EMPTY, steps) == Overtaken().2 && NeverAnswerable(EMPTY, steps)
  {
    LookedIsFree();
    BoundIsFree();
    TakenIsTaken();
    hide Unclaimed, Free, Unanswerable, Solo, SoloSteps, NeverAnswerable;
    NothingIsUnanswerable();
    SoloPrefix(EMPTY, [], 0, SLOW, 2);
    var first := [] + SoloSteps(0, SLOW, 2);
    SoloPrefix(EMPTY, first, 1, RIVAL, 9);
    var second := first + SoloSteps(1, RIVAL, 9);
    SoloPrefix(EMPTY, second, 2, WINNER, 9);
    steps := second + SoloSteps(2, WINNER, 9);
    SoloBegins(0, SLOW, 2);
  }

  lemma NothingIsUnanswerable()
    ensures NeverAnswerable(EMPTY, [])
  {
  }
}
