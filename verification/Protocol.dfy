/**
 * The use cases as concurrent PostgreSQL transactions under READ COMMITTED: any number of them,
 * interleaved step by step, with row locks, unique-index entries, buffered writes and rollback.
 */
module Protocol {
  import opened Text
  import opened Lifecycle
  import opened Catalog

  /** What a transaction can hold until it ends, and another may have to wait for. */
  datatype Resource =
    | RowLock(id: string)
    | NewRow(id: string)
    | KeyEntry(owner: string, key: string)
    | SourceEntry(owner: string, source: string)
    | EventEntry(event: string)

  datatype Reply =
    | Created(request: Request)
    | Replayed(request: Request)
    | Answered(request: Request)
    | Refused(why: Rejection)
    | Conflicted
    | Errored(kind: FaultKind)

  datatype Pc =
    // Lifecycle use cases, from the unlocked check to the decision taken under the row lock.
    | Checking | Finding | Locking | Rechecking | Updating
    // Creation: two separate lookups, then the insert claiming three unique entries in turn.
    | KeyLookup | SourceLookup | InsertingRow | InsertingKey | InsertingSource
    // Creation after a lost race, outside the transaction that was rolled back.
    | RecoveringKey | RecoveringSource
    // The end of every writing transaction.
    | Adding | Marking | Committing
    | Done(reply: Reply)

  datatype Drawn = Drawn(id: nat, row: OutboxRow)

  /** Uncommitted writes; nobody else sees them. `mark` is the request the event is recorded for. */
  datatype Buffer = Buffer(request: Option<Request>, row: Option<Drawn>, mark: Option<string>)

  const NOTHING := Buffer(None, None, None)

  datatype Txn = Txn(d: Delivery, pc: Pc, seen: Option<Request>, buffer: Buffer)

  /** One commit: whose it was, and everything it wrote. */
  datatype Entry = Entry(txn: nat, d: Delivery, wrote: Buffer)

  /**
   * The committed tables, the outbox sequence and the transactions, ended ones included.
   * `log` and `ids` are history: the commits in order, and the outbox ids they published in order.
   */
  datatype State = State(
    requests: map<string, Request>,
    events: map<string, string>,
    outbox: map<nat, OutboxRow>,
    next: nat,
    txns: map<nat, Txn>,
    log: seq<Entry>,
    ids: seq<nat>)

  /** `LoseAck` is a commit that takes effect while its caller is told of a failure. */
  datatype Step = Begin(txn: nat, d: Delivery) | Move(txn: nat) | Abort(txn: nat) | LoseAck(txn: nat)

  // ---- Locks and claims ----

  predicate Locked(x: Txn) {
    !x.d.command.CreateRequest? && (x.pc.Rechecking? || x.pc.Updating? || x.pc.Adding? || x.pc.Marking? || x.pc.Committing?)
  }

  predicate Writing(x: Txn) {
    x.d.command.CreateRequest? && (x.pc.Adding? || x.pc.Marking? || x.pc.Committing?)
  }

  predicate Holds(x: Txn, res: Resource) {
    match res
    case RowLock(id) => Locked(x) && x.d.command.id == id
    case NewRow(id) =>
      x.d.command.CreateRequest? && (x.pc.InsertingKey? || x.pc.InsertingSource? || Writing(x)) && x.d.drawn == id
    case KeyEntry(owner, key) =>
      x.d.command.CreateRequest? && (x.pc.InsertingSource? || Writing(x))
      && x.d.command.owner == owner && x.d.command.key == key
    case SourceEntry(owner, source) =>
      Writing(x) && x.d.command.owner == owner && x.d.command.source == source
    case EventEntry(event) => x.pc.Committing? && x.buffer.mark.Some? && x.d.event == event
  }

  /** What the transaction's next statement has to obtain. */
  function Wants(x: Txn): Option<Resource> {
    match x.pc
    case Locking => if x.d.command.CreateRequest? then None else Some(RowLock(x.d.command.id))
    case InsertingRow => Some(NewRow(x.d.drawn))
    case InsertingKey =>
      if x.d.command.CreateRequest? then Some(KeyEntry(x.d.command.owner, x.d.command.key)) else None
    case InsertingSource =>
      if x.d.command.CreateRequest? then Some(SourceEntry(x.d.command.owner, x.d.command.source)) else None
    case Marking => Some(EventEntry(x.d.event))
    case _ => None
  }

  ghost predicate WaitsFor(s: State, t: nat, u: nat) {
    && t in s.txns && u in s.txns && t != u
    && Wants(s.txns[t]).Some? && Holds(s.txns[u], Wants(s.txns[t]).value)
  }

  ghost predicate Blocked(s: State, t: nat) {
    exists u :: WaitsFor(s, t, u)
  }

  // ---- One statement of one transaction ----

  function End(x: Txn, reply: Reply): Txn {
    Txn(x.d, Done(reply), None, NOTHING)
  }

  function ReplayReply(bound: Request, source: string): Reply {
    if Replay(bound, source).Conflict? then Conflicted else Replayed(bound)
  }

  /** The verdict the transaction is carrying out. */
  function Plan(x: Txn): Verdict {
    if x.d.command.CreateRequest? then
      if Problem(x.d).None? && NewRequest(x.d).Changed? then
        Write(NewRequest(x.d).request, Announcement(NewRequest(x.d).request, x.d))
      else Conflict
    else if x.seen.Some? then Decide(x.seen.value, x.d)
    else Conflict
  }

  ghost function MovedLifecycle(requests: map<string, Request>, events: map<string, string>, x: Txn): Txn
    requires !x.d.command.CreateRequest?
  {
    match x.pc
    case Checking =>
      if Problem(x.d).Some? then End(x, Refused(Problem(x.d).value))
      else if x.d.event in events then x.(pc := Finding)
      else x.(pc := Locking)
    case Finding =>
      var found := FindByEvent(Tables(requests, events, []), x.d.event);
      if found.Some? then End(x, Answered(found.value)) else x.(pc := Locking)
    case Locking =>
      if x.d.command.id !in requests then End(x, Refused(NotFound))
      else x.(pc := Rechecking, seen := Some(requests[x.d.command.id]))
    case Rechecking =>
      if x.d.event in events then x.(pc := Committing)
      else (match Plan(x)
        case Refuse(why) => End(x, Refused(why))
        case Write(_, _) => x.(pc := Updating)
        case _ => x.(pc := Marking))
    case Updating =>
      (match Plan(x)
        case Write(next, row) =>
          x.(pc := if row.Some? then Adding else Marking, buffer := x.buffer.(request := Some(next)))
        case _ => x)
    case _ => x
  }

  ghost function MovedCreate(requests: map<string, Request>, events: map<string, string>, x: Txn): Txn
    requires x.d.command.CreateRequest?
  {
    var c := x.d.command;
    var bound, known := FindByKey(requests, c.owner, c.key), FindBySource(requests, c.owner, c.source);
    match x.pc
    case Checking =>
      if Problem(x.d).Some? then End(x, Refused(Problem(x.d).value))
      else
        var found := FindByEvent(Tables(requests, events, []), x.d.event);
        if found.Some? then End(x, Replayed(found.value))
        else if NewRequest(x.d).Throw? then End(x, Refused(NewRequest(x.d).why))
        else x.(pc := KeyLookup)
    case KeyLookup => if bound.Some? then End(x, ReplayReply(bound.value, c.source)) else x.(pc := SourceLookup)
    case SourceLookup => if known.Some? then End(x, Replayed(known.value)) else x.(pc := InsertingRow)
    case InsertingRow => if x.d.drawn in requests then End(x, Errored(DuplicateRequestId)) else x.(pc := InsertingKey)
    case InsertingKey => x.(pc := if bound.Some? then RecoveringKey else InsertingSource)
    case InsertingSource =>
      if known.Some? then x.(pc := RecoveringSource)
      else if Plan(x).Write? then x.(pc := Adding, buffer := x.buffer.(request := Some(Plan(x).request)))
      else x
    case RecoveringKey =>
      if bound.Some? then End(x, ReplayReply(bound.value, c.source)) else End(x, Errored(DuplicateKey))
    case RecoveringSource =>
      if known.Some? then End(x, Replayed(known.value)) else End(x, Errored(DuplicateSource))
    case _ => x
  }

  /** The transaction after its next statement, given what is committed; commits are apart. */
  ghost function Moved(requests: map<string, Request>, events: map<string, string>, next: nat, x: Txn): Txn {
    if x.pc.Adding? then
      if Plan(x).Write? && Plan(x).row.Some? then
        x.(pc := Marking, buffer := x.buffer.(row := Some(Drawn(next, Plan(x).row.value))))
      else x
    else if x.pc.Marking? then
      if x.d.event in events then End(x, Errored(DuplicateEvent))
      else if Plan(x).Write? || Plan(x).Record? then
        x.(pc := Committing, buffer := x.buffer.(mark := Some(Plan(x).request.id)))
      else x
    else if x.d.command.CreateRequest? then MovedCreate(requests, events, x)
    else MovedLifecycle(requests, events, x)
  }

  function CommitReply(x: Txn): Reply {
    if x.d.command.CreateRequest? then
      if x.buffer.request.Some? then Created(x.buffer.request.value) else Errored(Outage)
    else if x.buffer.request.Some? then Answered(x.buffer.request.value)
    else if x.seen.Some? then Answered(x.seen.value) else Errored(Outage)
  }

  function Commit(s: State, t: nat): State
    requires t in s.txns
  {
    var x := s.txns[t];
    var b := x.buffer;
    State(
      if b.request.Some? then s.requests[b.request.value.id := b.request.value] else s.requests,
      if b.mark.Some? then s.events[x.d.event := b.mark.value] else s.events,
      if b.row.Some? then s.outbox[b.row.value.id := b.row.value.row] else s.outbox,
      s.next,
      s.txns[t := End(x, CommitReply(x))],
      s.log + [Entry(t, x.d, b)],
      if b.row.Some? then s.ids + [b.row.value.id] else s.ids)
  }

  ghost predicate Enabled(s: State, step: Step) {
    match step
    case Begin(t, _) => t !in s.txns
    case Move(t) => t in s.txns && !s.txns[t].pc.Done? && !Blocked(s, t)
    case Abort(t) => t in s.txns && !s.txns[t].pc.Done?
    case LoseAck(t) => t in s.txns && s.txns[t].pc.Committing?
  }

  /** The step is a commit, whatever its caller hears of it. */
  ghost predicate Commits(s: State, step: Step) {
    Enabled(s, step) && (step.LoseAck? || (step.Move? && s.txns[step.txn].pc.Committing?))
  }

  /** Replaces what one transaction has come to, and nothing else. */
  function WithTxn(s: State, t: nat, x: Txn): State {
    s.(txns := s.txns[t := x])
  }

  ghost function MoveStep(s: State, t: nat): State
    requires t in s.txns
  {
    var x := s.txns[t];
    if x.pc.Committing? then Commit(s, t)
    else s.(txns := s.txns[t := Moved(s.requests, s.events, s.next, x)],
            next := if x.pc.Adding? then s.next + 1 else s.next)
  }

  /** One step of the whole system. A step that is not enabled does nothing. */
  ghost function Next(s: State, step: Step): State {
    if !Enabled(s, step) then s
    else match step
      case Begin(t, d) => s.(txns := s.txns[t := Txn(d, Checking, None, NOTHING)])
      case Move(t) => MoveStep(s, t)
      case Abort(t) => WithTxn(s, t, End(s.txns[t], Errored(Outage)))
      case LoseAck(t) => WithTxn(Commit(s, t), t, End(s.txns[t], Errored(AckLost)))
  }

  /** A quiet system over tables that are already there, their outbox ids in commit order. */
  function Quiet(t0: Tables): State {
    var n := |t0.outbox|;
    State(t0.requests, t0.events, map i: nat | i < n :: t0.outbox[i], n, map[], [], seq(n, i => i))
  }

  ghost function After(t0: Tables, steps: seq<Step>): State {
    if steps == [] then Quiet(t0) else Next(After(t0, steps[..|steps| - 1]), steps[|steps| - 1])
  }
}
