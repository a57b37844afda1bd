/** What callers are told: the creation protocol and the replies of every concurrent use case. */
module Creation {
  import opened Text
  import opened Lifecycle
  import opened Catalog
  import opened Protocol
  import opened Serializability

  ghost predicate Stored(requests: map<string, Request>, r: Request) {
    r.id in requests && Advances(r, requests[r.id])
  }

  ghost predicate KeyTaken(requests: map<string, Request>, owner: string, key: string) {
    exists id :: id in requests && HasKey(requests[id], owner, key)
  }

  ghost predicate SourceTaken(requests: map<string, Request>, owner: string, source: string) {
    exists id :: id in requests && HasSource(requests[id], owner, source)
  }

  ghost predicate KeyBoundElsewhere(requests: map<string, Request>, owner: string, key: string, source: string) {
    exists id :: id in requests && HasKey(requests[id], owner, key) && requests[id].source != source
  }

  /** What a transaction's reply, or its way to one, says of the committed tables. */
  ghost predicate Honest(requests: map<string, Request>, events: map<string, string>, x: Txn) {
    var c := x.d.command;
    match x.pc
    case RecoveringKey => c.CreateRequest? && KeyTaken(requests, c.owner, c.key)
    case RecoveringSource => c.CreateRequest? && SourceTaken(requests, c.owner, c.source)
    case Done(Created(r)) =>
      c.CreateRequest? && r.id == x.d.drawn && HasKey(r, c.owner, c.key) && HasSource(r, c.owner, c.source)
      && Stored(requests, r)
    case Done(Replayed(r)) =>
      c.CreateRequest? && Stored(requests, r)
      && (HasSource(r, c.owner, c.source) || (x.d.event in events && events[x.d.event] == r.id))
    case Done(Conflicted) => c.CreateRequest? && KeyBoundElsewhere(requests, c.owner, c.key, c.source)
    case Done(Answered(r)) => !c.CreateRequest? && Stored(requests, r) && x.d.event in events
    case Done(Errored(kind)) => !kind.DuplicateKey? && !kind.DuplicateSource?
    case _ => true
  }

  ghost predicate AllHonest(s: State) {
    forall t | t in s.txns :: Honest(s.requests, s.events, s.txns[t])
  }

  predicate Succeeded(x: Txn) {
    x.pc.Done? && (x.pc.reply.Created? || x.pc.reply.Answered?)
  }

  /** Committed, whether or not the caller has heard of it. */
  predicate Committed(x: Txn) {
    Succeeded(x) || x.pc == Done(Errored(AckLost))
  }

  /** The log lists each committed transaction once, and every dedup record comes from one of them. */
  ghost predicate LogKept(t0: Tables, s: State) {
    && (forall k | 0 <= k < |s.log| ::
          s.log[k].txn in s.txns && s.txns[s.log[k].txn].d == s.log[k].d && Committed(s.txns[s.log[k].txn]))
    && (forall j, k | 0 <= j < k < |s.log| :: s.log[j].txn != s.log[k].txn)
    && (forall e | e in s.events && e !in t0.events :: exists k :: 0 <= k < |s.log| && s.log[k].d.event == e)
  }

  /** No two creations ever made the same request. */
  ghost predicate CreatedApart(s: State) {
    forall t, u | t in s.txns && u in s.txns && s.txns[t].pc.Done? && s.txns[u].pc.Done?
      && s.txns[t].pc.reply.Created? && s.txns[u].pc.reply.Created?
      && s.txns[t].pc.reply.request.id == s.txns[u].pc.reply.request.id :: t == u
  }

  ghost predicate CreationInv(t0: Tables, s: State) {
    Inv(t0, s) && AllHonest(s) && LogKept(t0, s) && CreatedApart(s)
  }

  // ---- Every step keeps it ----

  lemma HonestyLasts(a: Tables, b: Tables, x: Txn)
    requires Grows(a, b) && Honest(a.requests, a.events, x)
    ensures Honest(b.requests, b.events, x)
  {
    match x.pc
    case Done(Created(r)) => StoredLasts(a, b, r);
    case Done(Replayed(r)) => StoredLasts(a, b, r);
    case Done(Answered(r)) => StoredLasts(a, b, r);
    case Done(Conflicted) =>
      var c := x.d.command;
      var id :| id in a.requests && HasKey(a.requests[id], c.owner, c.key) && a.requests[id].source != c.source;
      assert HasKey(b.requests[id], c.owner, c.key);
    case RecoveringKey =>
      var c := x.d.command;
      var id :| id in a.requests && HasKey(a.requests[id], c.owner, c.key);
      assert HasKey(b.requests[id], c.owner, c.key);
    case RecoveringSource =>
      var c := x.d.command;
      var id :| id in a.requests && HasSource(a.requests[id], c.owner, c.source);
      assert HasSource(b.requests[id], c.owner, c.source);
    case _ =>
  }

  lemma StoredLasts(a: Tables, b: Tables, r: Request)
    requires Grows(a, b) && Stored(a.requests, r)
    ensures Stored(b.requests, r)
  {
    AdvancesIsTransitive(r, a.requests[r.id], b.requests[r.id]);
  }

  /** Every reply given outside a commit is honest when it is given. */
  lemma MovedIsHonest(requests: map<string, Request>, events: map<string, string>, next: nat, x: Txn)
    requires Shaped(x) && Honest(requests, events, x) && !x.pc.Done? && !x.pc.Committing?
    requires forall id | id in requests :: requests[id].id == id
    ensures Honest(requests, events, Moved(requests, events, next, x))
  {
    hide Problem, NewRequest, Decide;
    var y := Moved(requests, events, next, x);
    if x.d.command.CreateRequest? {
      var c := x.d.command;
      var bound, known := FindByKey(requests, c.owner, c.key), FindBySource(requests, c.owner, c.source);
      assert bound.Some? ==> Stored(requests, bound.value);
      assert known.Some? ==> Stored(requests, known.value);
    }
  }

  lemma CommitIsHonest(t0: Tables, s: State, t: nat)
    requires Wellformed(t0) && Inv(t0, s) && t in s.txns && s.txns[t].pc.Committing?
    ensures IdsListed(s) && IdsListed(Commit(s, t))
    ensures Grows(Tables(s.requests, s.events, CommittedRows(s)),
                  Tables(Commit(s, t).requests, Commit(s, t).events, CommittedRows(Commit(s, t))))
    ensures Honest(Commit(s, t).requests, Commit(s, t).events, Commit(s, t).txns[t])
    ensures Succeeded(Commit(s, t).txns[t])
  {
    InvIsWellformed(t0, s);
    CommitAppendsRow(s, t);
    CommitIsHandle(s, t);
    HandleKeepsTables(Tables(s.requests, s.events, CommittedRows(s)), s.txns[t].d);
    CommitReplyIsHonest(s.requests, s.events, s, t);
  }

  lemma CommitReplyIsHonest(requests: map<string, Request>, events: map<string, string>, s: State, t: nat)
    requires t in s.txns && s.txns[t].pc.Committing? && Sound(s.requests, s.events, s.txns[t])
    ensures Honest(Commit(s, t).requests, Commit(s, t).events, Commit(s, t).txns[t])
    ensures Succeeded(Commit(s, t).txns[t])
  {
  }

  /** An open transaction replaced by one that has not committed changes nothing on record. */
  lemma ReplacingKeepsRecord(t0: Tables, s: State, t: nat, x: Txn, next: nat)
    requires AllHonest(s) && LogKept(t0, s) && CreatedApart(s)
    requires t in s.txns ==> !s.txns[t].pc.Done? && s.txns[t].d == x.d
    requires Honest(s.requests, s.events, x) && !(x.pc.Done? && x.pc.reply.Created?)
    ensures var s' := s.(txns := s.txns[t := x], next := next);
            AllHonest(s') && LogKept(t0, s') && CreatedApart(s')
  {
    hide Honest;
    var s' := s.(txns := s.txns[t := x], next := next);
    forall k | 0 <= k < |s'.log| ensures s'.log[k].txn != t { assert s.log[k].txn in s.txns; }
  }

  lemma MoveKeepsRecord(t0: Tables, s: State, t: nat)
    requires AllSound(s) && AllHonest(s) && LogKept(t0, s) && CreatedApart(s) && Readied(s, t)
    requires forall id | id in s.requests :: s.requests[id].id == id
    ensures AllHonest(MoveStep(s, t)) && LogKept(t0, MoveStep(s, t)) && CreatedApart(MoveStep(s, t))
  {
    var x := s.txns[t];
    var y := Moved(s.requests, s.events, s.next, x);
    MovedIsHonest(s.requests, s.events, s.next, x);
    MovedKeepsDelivery(s.requests, s.events, s.next, x);
    hide Moved, Sound, Honest, AllHonest, LogKept, CreatedApart;
    ReplacingKeepsRecord(t0, s, t, y, if x.pc.Adding? then s.next + 1 else s.next);
  }

  lemma MovedKeepsDelivery(requests: map<string, Request>, events: map<string, string>, next: nat, x: Txn)
    requires !x.pc.Done? && !x.pc.Committing?
    ensures var y := Moved(requests, events, next, x);
            y.d == x.d && !(y.pc.Done? && y.pc.reply.Created?)
  {
    hide Problem, NewRequest, Decide, FindByEvent;
  }

  lemma CommitKeepsHonest(s: State, t: nat, rows: seq<OutboxRow>, rows': seq<OutboxRow>)
    requires AllHonest(s) && t in s.txns
    requires Grows(Tables(s.requests, s.events, rows), Tables(Commit(s, t).requests, Commit(s, t).events, rows'))
    requires Honest(Commit(s, t).requests, Commit(s, t).events, Commit(s, t).txns[t])
    ensures AllHonest(Commit(s, t))
  {
    var s' := Commit(s, t);
    var a, b := Tables(s.requests, s.events, rows), Tables(s'.requests, s'.events, rows');
    hide Grows, Honest;
    forall u | u in s'.txns ensures Honest(s'.requests, s'.events, s'.txns[u]) {
      if u != t {
        HonestyLasts(a, b, s.txns[u]);
      }
    }
  }

  lemma CommitKeepsLog(t0: Tables, s: State, t: nat)
    requires LogKept(t0, s) && t in s.txns && s.txns[t].pc.Committing? && Succeeded(Commit(s, t).txns[t])
    ensures LogKept(t0, Commit(s, t))
  {
    var s' := Commit(s, t);
    forall e | e in s'.events && e !in t0.events
      ensures exists k :: 0 <= k < |s'.log| && s'.log[k].d.event == e
    {
      if e in s.events {
        var k :| 0 <= k < |s.log| && s.log[k].d.event == e;
        assert s'.log[k] == s.log[k];
      } else {
        assert s'.log[|s.log|].d.event == e;
      }
    }
  }

  lemma CommitKeepsCreatedApart(s: State, t: nat)
    requires CreatedApart(s) && AllHonest(s) && t in s.txns && s.txns[t].pc.Committing?
    requires Sound(s.requests, s.events, s.txns[t])
    requires Honest(Commit(s, t).requests, Commit(s, t).events, Commit(s, t).txns[t])
    ensures CreatedApart(Commit(s, t))
  {
    CreatedAreStored(s);
    var y := Commit(s, t).txns[t];
    if y.pc.reply.Created? {
      assert y.pc.reply.request.id == y.d.drawn;
      NewRowIsNew(s.requests, s.events, s.txns[t]);
    }
    hide Sound, Honest, AllHonest, CommitReply, CreatedApart;
    EndingKeepsCreatedApart(s, Commit(s, t), t, y);
  }

  lemma EndingKeepsCreatedApart(s: State, s': State, t: nat, y: Txn)
    requires CreatedApart(s) && s'.txns == s.txns[t := y] && y.pc.Done?
    requires y.pc.reply.Created? ==>
               forall u | u in s.txns && s.txns[u].pc.Done? && s.txns[u].pc.reply.Created? ::
                 s.txns[u].pc.reply.request.id != y.pc.reply.request.id
    ensures CreatedApart(s')
  {
  }

  lemma CreatedAreStored(s: State)
    requires AllHonest(s)
    ensures forall u | u in s.txns && s.txns[u].pc.Done? && s.txns[u].pc.reply.Created? ::
              s.txns[u].pc.reply.request.id in s.requests
  {
    forall u | u in s.txns && s.txns[u].pc.Done? && s.txns[u].pc.reply.Created?
      ensures s.txns[u].pc.reply.request.id in s.requests
    {
      assert Honest(s.requests, s.events, s.txns[u]);
    }
  }

  lemma NewRowIsNew(requests: map<string, Request>, events: map<string, string>, x: Txn)
    requires Sound(requests, events, x) && x.pc.Committing? && x.d.command.CreateRequest?
    ensures x.d.drawn !in requests
  {
    assert Holds(x, NewRow(x.d.drawn));
  }

  lemma CommitKeepsCreationInv(t0: Tables, s: State, t: nat)
    requires Wellformed(t0) && CreationInv(t0, s) && t in s.txns && s.txns[t].pc.Committing?
    ensures AllHonest(Commit(s, t)) && LogKept(t0, Commit(s, t)) && CreatedApart(Commit(s, t))
  {
    CommitIsHonest(t0, s, t);
    InvSoundAt(t0, s, t);
    hide Inv, AllHonest, LogKept, CreatedApart, Honest, Grows, Commit;
    CommitKeepsHonest(s, t, CommittedRows(s), CommittedRows(Commit(s, t)));
    CommitKeepsLog(t0, s, t);
    CommitKeepsCreatedApart(s, t);
  }

  lemma InvSoundAt(t0: Tables, s: State, t: nat)
    requires Inv(t0, s) && t in s.txns
    ensures IdsListed(s) && Sound(s.requests, s.events, s.txns[t])
  {
  }

  /** That the caller does not hear of a commit changes nothing on record. */
  lemma LosingAckKeepsRecord(t0: Tables, s: State, t: nat, y: Txn)
    requires AllHonest(s) && LogKept(t0, s) && CreatedApart(s)
    requires t in s.txns && s.txns[t].d == y.d && y.pc == Done(Errored(AckLost))
    ensures AllHonest(WithTxn(s, t, y)) && LogKept(t0, WithTxn(s, t, y)) && CreatedApart(WithTxn(s, t, y))
  {
    assert Honest(s.requests, s.events, y);
    hide Honest;
  }

  lemma StepKeepsCreationInv(t0: Tables, s: State, step: Step)
    requires Wellformed(t0) && CreationInv(t0, s)
    ensures CreationInv(t0, Next(s, step))
  {
    hide AllSound, Exclusive, DrawnApart, IdsOrdered, AllHonest, LogKept, CreatedApart, HandleAll;
    NextKeepsInv(t0, s, step);
    InvIsWellformed(t0, s);
    hide Refines, Blocked;
    if Enabled(s, step) {
      match step
      case Begin(t, d) => ReplacingKeepsRecord(t0, s, t, Txn(d, Checking, None, NOTHING), s.next);
      case Abort(t) => ReplacingKeepsRecord(t0, s, t, End(s.txns[t], Errored(Outage)), s.next);
      case LoseAck(t) =>
        CommitKeepsCreationInv(t0, s, t);
        LosingAckKeepsRecord(t0, Commit(s, t), t, End(s.txns[t], Errored(AckLost)));
      case Move(t) =>
        if s.txns[t].pc.Committing? {
          CommitKeepsCreationInv(t0, s, t);
        } else {
          MoveKeepsRecord(t0, s, t);
        }
    }
  }

  lemma {:induction false} ReachableCreationInv(t0: Tables, steps: seq<Step>)
    requires Wellformed(t0)
    ensures CreationInv(t0, After(t0, steps))
  {
    if steps == [] {
      StartIsInv(t0);
    } else {
      ReachableCreationInv(t0, steps[..|steps| - 1]);
      StepKeepsCreationInv(t0, After(t0, steps[..|steps| - 1]), steps[|steps| - 1]);
    }
  }

  lemma HonestReply(t0: Tables, steps: seq<Step>, t: nat)
    requires Wellformed(t0) && t in After(t0, steps).txns
    ensures Honest(After(t0, steps).requests, After(t0, steps).events, After(t0, steps).txns[t])
  {
    ReachableCreationInv(t0, steps);
    hide After, Honest, Inv, CreatedApart, LogKept;
  }

  // ---- Main results ----

  ghost predicate Made(s: State, t: nat, owner: string) {
    t in s.txns && s.txns[t].pc.Done? && s.txns[t].pc.reply.Created? && s.txns[t].d.command.CreateRequest?
    && s.txns[t].d.command.owner == owner
  }

  /** In any interleaving one owner gets at most one `created` per key, and at most one per source. */
  lemma AtMostOneCreated(t0: Tables, steps: seq<Step>, t: nat, u: nat, owner: string)
    requires Wellformed(t0) && Made(After(t0, steps), t, owner) && Made(After(t0, steps), u, owner)
    requires var ct, cu := After(t0, steps).txns[t].d.command, After(t0, steps).txns[u].d.command;
             ct.key == cu.key || ct.source == cu.source
    ensures t == u
  {
    ReachableCreationInv(t0, steps);
    var s := After(t0, steps);
    InvIsWellformed(t0, s);
    SameKeyOrSourceIsSame(s, t, u, owner);
  }

  lemma SameKeyOrSourceIsSame(s: State, t: nat, u: nat, owner: string)
    requires AllHonest(s) && CreatedApart(s) && UniqueKeys(s.requests) && UniqueSources(s.requests)
    requires Made(s, t, owner) && Made(s, u, owner)
    requires s.txns[t].d.command.key == s.txns[u].d.command.key
             || s.txns[t].d.command.source == s.txns[u].d.command.source
    ensures t == u
  {
    var i, j := s.txns[t].pc.reply.request.id, s.txns[u].pc.reply.request.id;
    assert Honest(s.requests, s.events, s.txns[t]) && Honest(s.requests, s.events, s.txns[u]);
    var ri, rj := s.requests[i], s.requests[j];
    assert HasKey(rj, ri.owner, ri.key.value) || HasSource(rj, ri.owner, ri.source);
  }

  /** The event id was neither there before the run nor carried by any other transaction in it. */
  ghost predicate FreshEvent(t0: Tables, s: State, t: nat) {
    && t in s.txns && s.txns[t].d.event !in t0.events
    && forall u | u in s.txns && u != t :: s.txns[u].d.event != s.txns[t].d.event
  }

  /** A `replayed` answer is a committed request of the caller's own, for the caller's own source. */
  lemma ReplayedIsTheCallers(t0: Tables, steps: seq<Step>, t: nat)
    requires Wellformed(t0) && FreshEvent(t0, After(t0, steps), t)
    requires After(t0, steps).txns[t].pc.Done? && After(t0, steps).txns[t].pc.reply.Replayed?
    ensures var s := After(t0, steps);
            var r, c := s.txns[t].pc.reply.request, s.txns[t].d.command;
            c.CreateRequest? && Stored(s.requests, r) && HasSource(r, c.owner, c.source)
  {
    ReachableCreationInv(t0, steps);
    var s := After(t0, steps);
    hide Inv, CreatedApart;
    assert Honest(s.requests, s.events, s.txns[t]);
  }

  /** A conflict is raised only if the owner's key is bound to another source. */
  lemma ConflictIsReal(t0: Tables, steps: seq<Step>, t: nat)
    requires Wellformed(t0) && t in After(t0, steps).txns
    requires After(t0, steps).txns[t].pc.Done? && After(t0, steps).txns[t].pc.reply.Conflicted?
    ensures var s := After(t0, steps);
            var c := s.txns[t].d.command;
            c.CreateRequest? && KeyBoundElsewhere(s.requests, c.owner, c.key, c.source)
  {
    HonestReply(t0, steps, t);
    hide After;
  }

  /** A lost race always finds its winner, so the duplicate errors never reach the caller. */
  lemma DuplicateErrorsNeverEscape(t0: Tables, steps: seq<Step>, t: nat)
    requires Wellformed(t0) && t in After(t0, steps).txns
    ensures After(t0, steps).txns[t].pc != Done(Errored(DuplicateKey))
    ensures After(t0, steps).txns[t].pc != Done(Errored(DuplicateSource))
  {
    HonestReply(t0, steps, t);
    hide After;
  }

  /** Success is final and stored: what was created, or answered, is in the tables from then on. */
  lemma SuccessIsStored(t0: Tables, steps: seq<Step>, t: nat)
    requires Wellformed(t0) && t in After(t0, steps).txns && Succeeded(After(t0, steps).txns[t])
    ensures Stored(After(t0, steps).requests, After(t0, steps).txns[t].pc.reply.request)
  {
    HonestReply(t0, steps, t);
    hide After;
  }

  /** The reply the serial Catalog would give. */
  function ReplyTo(v: Verdict): Reply {
    match v
    case Refuse(why) => Refused(why)
    case Conflict => Conflicted
    case Fault(kind) => Errored(kind)
    case Answer(r) => Answered(r)
    case Record(r) => Answered(r)
    case Write(r, _) => Answered(r)
  }

  /** The reply a creation gets for what the serial Catalog decides. */
  function CreateReplyTo(v: Verdict): Reply {
    match v
    case Refuse(why) => Refused(why)
    case Conflict => Conflicted
    case Fault(kind) => Errored(kind)
    case Answer(r) => Replayed(r)
    case Record(r) => Replayed(r)
    case Write(r, _) => Created(r)
  }

  /** The statements whose answer disregards the request a recorded event was recorded for. */
  ghost predicate MissesTheRecord(s: State, x: Txn)
    requires !x.d.command.CreateRequest?
  {
    x.d.event in s.events
    && (x.pc.Locking? || x.pc.Marking? || (x.pc.Committing? && s.events[x.d.event] != x.d.command.id))
  }

  /**
   * In any interleaving a lifecycle use case gets the reply the serial Catalog would give it on the
   * tables committed at the moment the reply is given, unless its event was recorded after the first
   * check: then it differs if and only if the named request does not exist, the event was recorded
   * after the second check too, or it was recorded for another request than the one named.
   */
  lemma {:induction false} RepliesAreSerialIff(t0: Tables, steps: seq<Step>, s: State, t: nat)
    requires Wellformed(t0) && s == After(t0, steps) && Enabled(s, Move(t))
    requires !s.txns[t].d.command.CreateRequest? && Next(s, Move(t)).txns[t].pc.Done?
    ensures IdsListed(s)
    ensures Next(s, Move(t)).txns[t].pc.reply
            == ReplyTo(Serial(Tables(s.requests, s.events, CommittedRows(s)), s.txns[t].d))
            <==> !MissesTheRecord(s, s.txns[t])
  {
    ReachableInv(t0, steps);
    InvIsWellformed(t0, s);
    InvSoundAt(t0, s, t);
    hide After, Refines, AllSound, Exclusive, DrawnApart;
    ReplyIsSerialIff(Tables(s.requests, s.events, CommittedRows(s)), s, t);
  }

  lemma ReplyIsSerialIff(tables: Tables, s: State, t: nat)
    requires tables.requests == s.requests && tables.events == s.events && Wellformed(tables)
    requires t in s.txns && Sound(s.requests, s.events, s.txns[t]) && !s.txns[t].pc.Done?
    requires !s.txns[t].d.command.CreateRequest? && MoveStep(s, t).txns[t].pc.Done?
    ensures MoveStep(s, t).txns[t].pc.reply == ReplyTo(Serial(tables, s.txns[t].d)) <==> !MissesTheRecord(s, s.txns[t])
  {
    hide Problem, Decide, UniqueKeys, UniqueSources;
    var x := s.txns[t];
    if x.pc.Committing? {
      PlanIsSerial(tables, x);
      if x.buffer.mark.Some? {
        assert Holds(x, EventEntry(x.d.event));
        CommitReplyIsPlan(x);
      }
    }
  }

  lemma CommitReplyIsPlan(x: Txn)
    requires Shaped(x) && x.pc.Committing? && x.buffer.mark.Some? && !x.d.command.CreateRequest?
    ensures CommitReply(x) == ReplyTo(Plan(x))
  {
  }

  /** A transaction that did not commit, heard of or not, is not in the log: it left no trace in any table. */
  lemma LosersLeaveNothing(t0: Tables, steps: seq<Step>, t: nat)
    requires Wellformed(t0) && t in After(t0, steps).txns && !Committed(After(t0, steps).txns[t])
    ensures forall k | 0 <= k < |After(t0, steps).log| :: After(t0, steps).log[k].txn != t
  {
    ReachableCreationInv(t0, steps);
    hide Inv, CreatedApart, AllHonest;
  }
}
