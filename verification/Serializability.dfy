/** Every interleaving of concurrent transactions is equivalent to running its commits one at a time. */
module Serializability {
  import opened Text
  import opened Lifecycle
  import opened Catalog
  import opened Protocol

  // ---- The invariant, conjunct by conjunct ----

  /** What a held resource promises about the committed tables. */
  ghost predicate Clear(requests: map<string, Request>, events: map<string, string>, res: Resource) {
    match res
    case RowLock(id) => id in requests
    case NewRow(id) => id !in requests
    case KeyEntry(owner, key) => forall id | id in requests :: !HasKey(requests[id], owner, key)
    case SourceEntry(owner, source) => forall id | id in requests :: !HasSource(requests[id], owner, source)
    case EventEntry(event) => event !in events
  }

  predicate Buffers(b: Buffer, v: Verdict) {
    && (v.Write? || v.Record?)
    && b.request == (if v.Write? then Some(v.request) else None)
    && (b.row.Some? <==> v.Write? && v.row.Some?)
    && (b.row.Some? ==> b.row.value.row == v.row.value)
  }

  predicate CreatePc(pc: Pc) {
    && !pc.Finding? && !pc.Locking? && !pc.Rechecking? && !pc.Updating?
  }

  predicate LifecyclePc(pc: Pc) {
    pc.Checking? || pc.Finding? || pc.Locking? || pc.Rechecking? || pc.Updating?
    || pc.Adding? || pc.Marking? || pc.Committing? || pc.Done?
  }

  /** At each statement the buffer holds exactly the part of the plan already written. */
  predicate Shaped(x: Txn) {
    && (if x.d.command.CreateRequest? then CreatePc(x.pc) else LifecyclePc(x.pc))
    && (!x.pc.Checking? && !x.pc.Done? ==> Problem(x.d).None?)
    && (x.d.command.CreateRequest? && !x.pc.Checking? && !x.pc.Done? ==> NewRequest(x.d).Changed?)
    && (Locked(x) ==> x.seen.Some? && x.seen.value.id == x.d.command.id)
    && (match x.pc
        case Updating => x.buffer == NOTHING && Plan(x).Write?
        case Adding => Plan(x).Write? && Plan(x).row.Some? && x.buffer == Buffer(Some(Plan(x).request), None, None)
        case Marking => Buffers(x.buffer, Plan(x)) && x.buffer.mark.None?
        case Committing =>
          || (!x.d.command.CreateRequest? && x.buffer == NOTHING)
          || (Buffers(x.buffer, Plan(x)) && x.buffer.mark == Some(Plan(x).request.id))
        case _ => x.buffer == NOTHING)
  }

  /** What an open transaction knows about the committed tables, whatever the others do. */
  ghost predicate Sound(requests: map<string, Request>, events: map<string, string>, x: Txn) {
    && Shaped(x)
    && (Locked(x) ==> x.d.command.id in requests && x.seen == Some(requests[x.d.command.id]))
    && (x.pc.Committing? && x.buffer.mark.None? ==> x.d.event in events)
    && (forall res | Holds(x, res) :: Clear(requests, events, res))
  }

  ghost predicate AllSound(s: State) {
    forall t | t in s.txns :: Sound(s.requests, s.events, s.txns[t])
  }

  /** No two open transactions ever hold the same row lock or the same unique entry. */
  ghost predicate Exclusive(s: State) {
    forall t, u, res | t in s.txns && u in s.txns && Holds(s.txns[t], res) && Holds(s.txns[u], res) :: t == u
  }

  predicate HasDrawn(x: Txn) {
    (x.pc.Marking? || x.pc.Committing?) && x.buffer.row.Some?
  }

  /** A drawn outbox id is new, unlike any other, and above every committed one of its request. */
  ghost predicate DrawnApart(s: State) {
    && (forall t | t in s.txns && HasDrawn(s.txns[t]) ::
          s.txns[t].buffer.row.value.id < s.next && s.txns[t].buffer.row.value.id !in s.outbox)
    && (forall t, u | t in s.txns && u in s.txns && HasDrawn(s.txns[t]) && HasDrawn(s.txns[u])
          && s.txns[t].buffer.row.value.id == s.txns[u].buffer.row.value.id :: t == u)
    && (forall t, n | t in s.txns && HasDrawn(s.txns[t]) && n in s.outbox
          && s.outbox[n].request == s.txns[t].buffer.row.value.row.request :: n < s.txns[t].buffer.row.value.id)
  }

  ghost predicate IdsListed(s: State) {
    && (forall k | 0 <= k < |s.ids| :: s.ids[k] in s.outbox)
    && (forall n | n in s.outbox :: n < s.next && n in s.ids)
    && (forall j, k | 0 <= j < k < |s.ids| :: s.ids[j] != s.ids[k])
  }

  /** Across requests ids and commits may disagree; within one request they never do. */
  ghost predicate IdsOrdered(s: State)
    requires IdsListed(s)
  {
    forall j, k | 0 <= j < k < |s.ids| && s.outbox[s.ids[j]].request == s.outbox[s.ids[k]].request ::
      s.ids[j] < s.ids[k]
  }

  function Deliveries(log: seq<Entry>): (ds: seq<Delivery>)
    ensures |ds| == |log|
  {
    seq(|log|, k requires 0 <= k < |log| => log[k].d)
  }

  /** The committed outbox rows in the order their transactions committed. */
  ghost function CommittedRows(s: State): seq<OutboxRow>
    requires IdsListed(s)
  {
    seq(|s.ids|, k requires 0 <= k < |s.ids| => s.outbox[s.ids[k]])
  }

  ghost predicate Refines(t0: Tables, s: State) {
    IdsListed(s) && Tables(s.requests, s.events, CommittedRows(s)) == HandleAll(t0, Deliveries(s.log))
  }

  ghost predicate Inv(t0: Tables, s: State) {
    Refines(t0, s) && IdsOrdered(s) && AllSound(s) && Exclusive(s) && DrawnApart(s)
  }

  // ---- Every step keeps it ----

  lemma StartIsInv(t0: Tables)
    ensures Inv(t0, Quiet(t0))
  {
    var s := Quiet(t0);
    assert forall n | n in s.outbox :: s.ids[n] == n;
    assert CommittedRows(s) == t0.outbox;
    assert Deliveries(s.log) == [];
  }

  lemma InvIsWellformed(t0: Tables, s: State)
    requires Wellformed(t0) && Refines(t0, s)
    ensures Wellformed(Tables(s.requests, s.events, CommittedRows(s)))
  {
    HandleAllKeepsTables(t0, Deliveries(s.log));
  }

  /** A transaction's own statement, short of committing, keeps what it knows true. */
  lemma MovedIsSound(requests: map<string, Request>, events: map<string, string>, next: nat, x: Txn)
    requires Sound(requests, events, x) && !x.pc.Done? && !x.pc.Committing?
    requires forall id | id in requests :: requests[id].id == id
    ensures Sound(requests, events, Moved(requests, events, next, x))
  {
    if x.pc.Adding? || x.pc.Marking? {
      EndingIsSound(requests, events, next, x);
    } else if x.d.command.CreateRequest? {
      MovedCreateIsSound(requests, events, x);
    } else {
      MovedLifecycleIsSound(requests, events, x);
    }
  }

  lemma EndingIsSound(requests: map<string, Request>, events: map<string, string>, next: nat, x: Txn)
    requires Sound(requests, events, x) && (x.pc.Adding? || x.pc.Marking?)
    ensures Sound(requests, events, Moved(requests, events, next, x))
  {
    var y := Moved(requests, events, next, x);
    assert Plan(y) == Plan(x) || y.pc.Done?;
    forall res | Holds(y, res) ensures Clear(requests, events, res) {
      assert Holds(x, res) || (res.EventEntry? && res.event !in events);
    }
  }

  lemma MovedCreateIsSound(requests: map<string, Request>, events: map<string, string>, x: Txn)
    requires Sound(requests, events, x) && x.d.command.CreateRequest?
    requires !x.pc.Done? && !x.pc.Committing? && !x.pc.Adding? && !x.pc.Marking?
    ensures Sound(requests, events, MovedCreate(requests, events, x))
  {
    hide Problem, NewRequest, FindByEvent;
    var y := MovedCreate(requests, events, x);
    assert Shaped(y);
    forall res | Holds(y, res) ensures Clear(requests, events, res) {
      assert Holds(x, res) || Wants(x) == Some(res);
    }
  }

  lemma MovedLifecycleIsSound(requests: map<string, Request>, events: map<string, string>, x: Txn)
    requires Sound(requests, events, x) && !x.d.command.CreateRequest?
    requires !x.pc.Done? && !x.pc.Committing? && !x.pc.Adding? && !x.pc.Marking?
    requires forall id | id in requests :: requests[id].id == id
    ensures Sound(requests, events, MovedLifecycle(requests, events, x))
  {
    hide Problem, Decide, FindByEvent;
    var y := MovedLifecycle(requests, events, x);
    forall res | Holds(y, res) ensures Clear(requests, events, res) {
      assert res == RowLock(x.d.command.id);
    }
  }

  /** A statement obtains at most the resource it asked for. */
  lemma MovedHolds(requests: map<string, Request>, events: map<string, string>, next: nat, x: Txn, res: Resource)
    requires Shaped(x) && !x.pc.Done? && !x.pc.Committing?
    requires Holds(Moved(requests, events, next, x), res)
    ensures Holds(x, res) || Wants(x) == Some(res)
  {
    hide Problem, NewRequest, Decide, FindByEvent;
  }

  lemma MovedDraws(requests: map<string, Request>, events: map<string, string>, next: nat, x: Txn)
    requires Shaped(x) && !x.pc.Done? && !x.pc.Committing?
    ensures var y := Moved(requests, events, next, x);
            HasDrawn(y) ==>
              if x.pc.Adding? then y.buffer.row.value.id == next else HasDrawn(x) && y.buffer.row == x.buffer.row
  {
    hide Problem, NewRequest, Decide, FindByEvent;
  }

  /** Whoever has drawn an id for a request's row holds that request against every other writer. */
  lemma DrawerHoldsRequest(x: Txn)
    requires Shaped(x) && HasDrawn(x)
    ensures var id := x.buffer.row.value.row.request;
            if x.d.command.CreateRequest? then Holds(x, NewRow(id)) else Holds(x, RowLock(id))
  {
    if !x.d.command.CreateRequest? {
      assert Plan(x).row == Announcement(Plan(x).request, x.d);
    }
  }

  ghost predicate Readied(s: State, t: nat) {
    t in s.txns && !s.txns[t].pc.Done? && !s.txns[t].pc.Committing? && !Blocked(s, t)
  }

  lemma MoveKeepsExclusive(s: State, t: nat)
    requires AllSound(s) && Exclusive(s) && Readied(s, t)
    ensures Exclusive(MoveStep(s, t))
  {
    var s' := MoveStep(s, t);
    forall res, u | Holds(s'.txns[t], res) && u in s.txns && u != t ensures !Holds(s.txns[u], res) {
      MovedHolds(s.requests, s.events, s.next, s.txns[t], res);
      if Wants(s.txns[t]) == Some(res) {
        assert !WaitsFor(s, t, u);
      }
    }
  }

  lemma MoveKeepsDrawnApart(s: State, t: nat)
    requires AllSound(s) && DrawnApart(s) && IdsListed(s) && Readied(s, t)
    ensures DrawnApart(MoveStep(s, t)) && IdsListed(MoveStep(s, t))
  {
    MovedDraws(s.requests, s.events, s.next, s.txns[t]);
  }

  lemma MoveKeepsSound(s: State, t: nat)
    requires AllSound(s) && Readied(s, t)
    requires forall id | id in s.requests :: s.requests[id].id == id
    ensures AllSound(MoveStep(s, t))
  {
    hide Sound, Moved;
    MovedIsSound(s.requests, s.events, s.next, s.txns[t]);
  }

  lemma MoveKeepsInv(t0: Tables, s: State, t: nat)
    requires Wellformed(t0) && Inv(t0, s) && Readied(s, t)
    ensures Inv(t0, MoveStep(s, t))
  {
    InvIsWellformed(t0, s);
    MoveKeepsSound(s, t);
    MoveKeepsExclusive(s, t);
    MoveKeepsDrawnApart(s, t);
    hide AllSound, Exclusive, DrawnApart;
    assert CommittedRows(MoveStep(s, t)) == CommittedRows(s);
  }

  /** Beginning a transaction, or rolling one back, leaves all else as it was. */
  lemma ReplacingKeepsInv(t0: Tables, s: State, t: nat, x: Txn)
    requires Inv(t0, s)
    requires Sound(s.requests, s.events, x) && !HasDrawn(x) && forall res :: !Holds(x, res)
    ensures Inv(t0, s.(txns := s.txns[t := x]))
  {
    var s' := s.(txns := s.txns[t := x]);
    hide AllSound, Exclusive, DrawnApart, Sound, HasDrawn, Holds, HandleAll;
    ReplacingKeepsExclusive(s, t, x);
    ReplacingKeepsSound(s, t, x);
    ReplacingKeepsDrawnApart(s, t, x);
    assert CommittedRows(s') == CommittedRows(s);
  }

  lemma ReplacingKeepsSound(s: State, t: nat, x: Txn)
    requires AllSound(s) && Sound(s.requests, s.events, x)
    ensures AllSound(s.(txns := s.txns[t := x]))
  {
    hide Sound;
  }

  lemma ReplacingKeepsDrawnApart(s: State, t: nat, x: Txn)
    requires DrawnApart(s) && !HasDrawn(x)
    ensures DrawnApart(s.(txns := s.txns[t := x]))
  {
  }

  lemma ReplacingKeepsExclusive(s: State, t: nat, x: Txn)
    requires Exclusive(s) && forall res :: !Holds(x, res)
    ensures Exclusive(s.(txns := s.txns[t := x]))
  {
  }

  // ---- Commits ----

  /** At its commit, a transaction's plan is what the serial Catalog would decide, or it is a no-op. */
  lemma PlanIsSerial(t: Tables, x: Txn)
    requires Wellformed(t) && Sound(t.requests, t.events, x) && x.pc.Committing?
    ensures x.buffer.mark.None? ==> x.buffer == NOTHING && Handle(t, x.d) == t && Serial(t, x.d).Answer?
    ensures x.buffer.mark.Some? ==> Serial(t, x.d) == Plan(x)
  {
    hide Decide;
    if x.buffer.mark.Some? {
      assert Holds(x, EventEntry(x.d.event));
      if x.d.command.CreateRequest? {
        CreationPlanIsSerial(t, x);
      } else {
        assert Holds(x, RowLock(x.d.command.id));
      }
    }
  }

  lemma CreationPlanIsSerial(t: Tables, x: Txn)
    requires Sound(t.requests, t.events, x) && x.pc.Committing? && x.buffer.mark.Some?
    requires x.d.command.CreateRequest? && x.d.event !in t.events
    ensures Serial(t, x.d) == Plan(x)
  {
    hide Problem, NewRequest, Announcement;
    var c := x.d.command;
    assert Holds(x, NewRow(x.d.drawn));
    assert Holds(x, KeyEntry(c.owner, c.key));
    assert Holds(x, SourceEntry(c.owner, c.source));
  }

  /** Applying the buffer is applying the verdict. */
  lemma {:induction false} CommitIsHandle(s: State, t: nat)
    requires t in s.txns && s.txns[t].pc.Committing? && AllSound(s) && IdsListed(s) && IdsListed(Commit(s, t))
    requires Wellformed(Tables(s.requests, s.events, CommittedRows(s)))
    requires CommittedRows(Commit(s, t)) == RowsAfter(s, t)
    ensures var s' := Commit(s, t);
            Handle(Tables(s.requests, s.events, CommittedRows(s)), s.txns[t].d)
            == Tables(s'.requests, s'.events, CommittedRows(s'))
  {
    FlushIsHandle(Tables(s.requests, s.events, CommittedRows(s)), s.txns[t]);
    hide Wellformed, IdsListed, CommittedRows, Sound, Handle;
  }

  /** The tables once a buffer is written to them. */
  function Flushed(t: Tables, event: string, b: Buffer): Tables {
    Tables(if b.request.Some? then t.requests[b.request.value.id := b.request.value] else t.requests,
           if b.mark.Some? then t.events[event := b.mark.value] else t.events,
           if b.row.Some? then t.outbox + [b.row.value.row] else t.outbox)
  }

  lemma FlushIsHandle(t: Tables, x: Txn)
    requires Wellformed(t) && Sound(t.requests, t.events, x) && x.pc.Committing?
    ensures Handle(t, x.d) == Flushed(t, x.d.event, x.buffer)
  {
    PlanIsSerial(t, x);
    hide Serial, Plan, Wellformed;
  }

  ghost function RowsAfter(s: State, t: nat): seq<OutboxRow>
    requires IdsListed(s) && t in s.txns
  {
    var row := s.txns[t].buffer.row;
    if row.Some? then CommittedRows(s) + [row.value.row] else CommittedRows(s)
  }

  lemma CommitAppendsRow(s: State, t: nat)
    requires IdsListed(s) && DrawnApart(s) && t in s.txns && s.txns[t].pc.Committing?
    ensures IdsListed(Commit(s, t)) && CommittedRows(Commit(s, t)) == RowsAfter(s, t)
  {
    CommitKeepsIdsListed(s, t);
    if s.txns[t].buffer.row.Some? {
      assert HasDrawn(s.txns[t]);
    }
    assert CommittedRows(Commit(s, t)) == RowsAfter(s, t);
  }

  lemma CommitKeepsRefines(t0: Tables, s: State, t: nat)
    requires Wellformed(t0) && Refines(t0, s) && AllSound(s) && DrawnApart(s)
    requires t in s.txns && s.txns[t].pc.Committing?
    ensures Refines(t0, Commit(s, t))
  {
    InvIsWellformed(t0, s);
    CommitAppendsRow(s, t);
    CommitIsHandle(s, t);
    var s' := Commit(s, t);
    hide AllSound, DrawnApart, Handle, Wellformed, IdsListed, CommittedRows;
    assert Deliveries(s'.log) == Deliveries(s.log) + [s.txns[t].d];
    HandleAllSnoc(t0, Deliveries(s.log), s.txns[t].d);
  }

  lemma CommitKeepsIdsListed(s: State, t: nat)
    requires IdsListed(s) && DrawnApart(s) && t in s.txns && s.txns[t].pc.Committing?
    ensures IdsListed(Commit(s, t))
  {
    var x := s.txns[t];
    if x.buffer.row.Some? {
      assert HasDrawn(x);
    }
  }

  lemma CommitKeepsIdsOrdered(s: State, t: nat)
    requires IdsListed(s) && IdsOrdered(s) && DrawnApart(s) && t in s.txns && s.txns[t].pc.Committing?
    requires IdsListed(Commit(s, t))
    ensures IdsOrdered(Commit(s, t))
  {
    var x, s' := s.txns[t], Commit(s, t);
    if x.buffer.row.Some? {
      assert HasDrawn(x);
      forall j, k | 0 <= j < k < |s'.ids| && s'.outbox[s'.ids[j]].request == s'.outbox[s'.ids[k]].request
        ensures s'.ids[j] < s'.ids[k]
      {
        assert s'.ids[j] == s.ids[j] && s'.outbox[s.ids[j]] == s.outbox[s.ids[j]];
        if k < |s.ids| { assert s'.outbox[s.ids[k]] == s.outbox[s.ids[k]]; }
      }
    }
  }

  lemma CommitKeepsDrawnApart(s: State, t: nat)
    requires AllSound(s) && Exclusive(s) && DrawnApart(s) && t in s.txns && s.txns[t].pc.Committing?
    ensures DrawnApart(Commit(s, t))
  {
    forall u | u in s.txns && u != t && HasDrawn(s.txns[t]) && HasDrawn(s.txns[u])
      ensures s.txns[t].buffer.row.value.row.request != s.txns[u].buffer.row.value.row.request
    {
      DrawersDiffer(s, t, u);
    }
    hide AllSound, Exclusive;
    CommitLeavesOthersApart(s, t);
  }

  lemma CommitLeavesOthersApart(s: State, t: nat)
    requires DrawnApart(s) && t in s.txns && s.txns[t].pc.Committing?
    requires forall u | u in s.txns && u != t && HasDrawn(s.txns[t]) && HasDrawn(s.txns[u]) ::
               s.txns[t].buffer.row.value.row.request != s.txns[u].buffer.row.value.row.request
    ensures DrawnApart(Commit(s, t))
  {
    assert s.txns[t].buffer.row.Some? ==> HasDrawn(s.txns[t]);
  }

  lemma DrawersDiffer(s: State, t: nat, u: nat)
    requires AllSound(s) && Exclusive(s) && t in s.txns && u in s.txns && t != u
    requires HasDrawn(s.txns[t]) && HasDrawn(s.txns[u])
    ensures s.txns[t].buffer.row.value.row.request != s.txns[u].buffer.row.value.row.request
  {
    DrawerHoldsRequest(s.txns[t]);
    DrawerHoldsRequest(s.txns[u]);
    hide Shaped, Plan;
  }

  /** A write by the holder of a request, key, source and event leaves everyone else's knowledge true. */
  lemma WriteKeepsSound(requests: map<string, Request>, events: map<string, string>, y: Txn, r: Request)
    requires Sound(requests, events, y)
    requires if r.id in requests then SameIdentity(requests[r.id], r) && !Holds(y, RowLock(r.id))
             else !Holds(y, NewRow(r.id)) && r.key.Some? && !Holds(y, KeyEntry(r.owner, r.key.value))
                  && !Holds(y, SourceEntry(r.owner, r.source))
    ensures Sound(requests[r.id := r], events, y)
  {
    hide Shaped;
    var requests' := requests[r.id := r];
    assert Locked(y) ==> Holds(y, RowLock(y.d.command.id));
    forall res | Holds(y, res) ensures Clear(requests', events, res) {
      assert Clear(requests, events, res);
      if r.id in requests {
        assert HasKey(r, r.owner, "") <==> HasKey(requests[r.id], r.owner, "");
      }
    }
  }

  lemma MarkKeepsSound(requests: map<string, Request>, events: map<string, string>, y: Txn, event: string, id: string)
    requires Sound(requests, events, y) && !Holds(y, EventEntry(event))
    ensures Sound(requests, events[event := id], y)
  {
    hide Shaped;
  }

  lemma CommitKeepsSound(s: State, t: nat)
    requires AllSound(s) && Exclusive(s) && t in s.txns && s.txns[t].pc.Committing?
    requires forall id | id in s.requests :: s.requests[id].id == id && Consistent(s.requests[id])
    ensures AllSound(Commit(s, t))
  {
    var x, s' := s.txns[t], Commit(s, t);
    EndedIsSound(s'.requests, s'.events, x, CommitReply(x));
    hide Sound, Exclusive, CommitReply;
    forall u | u in s'.txns ensures Sound(s'.requests, s'.events, s'.txns[u]) {
      if u != t { CommitKeepsOther(s, t, u); }
    }
  }

  lemma EndedIsSound(requests: map<string, Request>, events: map<string, string>, x: Txn, reply: Reply)
    ensures Sound(requests, events, End(x, reply))
  {
  }

  lemma CommitKeepsOther(s: State, t: nat, u: nat)
    requires AllSound(s) && Exclusive(s) && t in s.txns && s.txns[t].pc.Committing? && u in s.txns && u != t
    requires forall id | id in s.requests :: s.requests[id].id == id && Consistent(s.requests[id])
    ensures Sound(Commit(s, t).requests, Commit(s, t).events, s.txns[u])
  {
    var x, y := s.txns[t], s.txns[u];
    if x.buffer.mark.Some? {
      assert Holds(x, EventEntry(x.d.event));
      hide Sound;
      if x.buffer.request.Some? {
        CommitterHoldsItsWrite(s.requests, s.events, x);
        WriteKeepsSound(s.requests, s.events, y, x.buffer.request.value);
      }
      MarkKeepsSound(Commit(s, t).requests, s.events, y, x.d.event, x.buffer.mark.value);
    }
  }

  /** What a transaction is about to write is protected by what it holds. */
  lemma CommitterHoldsItsWrite(requests: map<string, Request>, events: map<string, string>, x: Txn)
    requires Sound(requests, events, x) && x.pc.Committing? && x.buffer.request.Some?
    requires forall id | id in requests :: requests[id].id == id && Consistent(requests[id])
    ensures var r := x.buffer.request.value;
            if r.id in requests then Advances(requests[r.id], r) && Holds(x, RowLock(r.id))
            else r.key.Some? && Holds(x, NewRow(r.id)) && Holds(x, KeyEntry(r.owner, r.key.value))
                 && Holds(x, SourceEntry(r.owner, r.source))
  {
    if x.d.command.CreateRequest? {
      assert Holds(x, NewRow(x.d.drawn));
    } else {
      DecideAdvances(x.seen.value, x.d);
    }
  }

  lemma CommitKeepsExclusive(s: State, t: nat)
    requires Exclusive(s) && t in s.txns
    ensures Exclusive(Commit(s, t))
  {
    assert forall res :: !Holds(End(s.txns[t], CommitReply(s.txns[t])), res);
  }

  lemma CommitKeepsInv(t0: Tables, s: State, t: nat)
    requires Wellformed(t0) && Inv(t0, s) && t in s.txns && s.txns[t].pc.Committing?
    ensures Inv(t0, Commit(s, t))
  {
    hide AllSound, Exclusive, DrawnApart;
    InvIsWellformed(t0, s);
    CommitKeepsRefines(t0, s, t);
    CommitKeepsIdsOrdered(s, t);
    CommitKeepsDrawnApart(s, t);
    CommitKeepsSound(s, t);
    CommitKeepsExclusive(s, t);
  }

  lemma NextKeepsInv(t0: Tables, s: State, step: Step)
    requires Wellformed(t0) && Inv(t0, s)
    ensures Inv(t0, Next(s, step))
  {
    hide Inv;
    if Enabled(s, step) {
      match step
      case Begin(t, d) =>
        ReplacingKeepsInv(t0, s, t, Txn(d, Checking, None, NOTHING));
      case Abort(t) =>
        ReplacingKeepsInv(t0, s, t, End(s.txns[t], Errored(Outage)));
      case LoseAck(t) =>
        CommitKeepsInv(t0, s, t);
        ReplacingKeepsInv(t0, Commit(s, t), t, End(s.txns[t], Errored(AckLost)));
      case Move(t) =>
        if s.txns[t].pc.Committing? {
          CommitKeepsInv(t0, s, t);
        } else {
          MoveKeepsInv(t0, s, t);
        }
    }
  }

  /** The invariant holds however any number of transactions interleave, fail and crash. */
  lemma {:induction false} ReachableInv(t0: Tables, steps: seq<Step>)
    requires Wellformed(t0)
    ensures Inv(t0, After(t0, steps))
  {
    if steps == [] {
      StartIsInv(t0);
    } else {
      ReachableInv(t0, steps[..|steps| - 1]);
      NextKeepsInv(t0, After(t0, steps[..|steps| - 1]), steps[|steps| - 1]);
    }
  }

  // ---- Main results ----

  /**
   * Serializability. After any interleaving, the committed requests, dedup records and outbox rows
   * are those of handling the committed deliveries one at a time in commit order. Outbox ids may
   * disagree with commit order between requests, never within one.
   */
  lemma {:induction false} InterleavingsAreSerializable(t0: Tables, steps: seq<Step>, s: State)
    requires Wellformed(t0) && s == After(t0, steps)
    ensures IdsListed(s) && IdsOrdered(s)
    ensures HandleAll(t0, Deliveries(s.log)) == Tables(s.requests, s.events, CommittedRows(s))
  {
    ReachableInv(t0, steps);
  }
}
