/**
 * The Catalog run one delivery at a time: the three tables, what each use case decides and what
 * it writes. Concurrent runs and the object-based adapters are both proved against this module.
 */
module Catalog {
  import opened Text
  import opened Lifecycle

  /** When an event says it happened: the clock at creation, or the incoming event's own text. */
  datatype Moment = Clock(now: int) | Given(text: string)

  datatype OutboxRow =
    | ValidationRequested(message: string, request: string, owner: string, source: string,
                          occurredAt: Moment, correlation: Option<string>)
    | ProcessingQueued(message: string, request: string, owner: string, source: string,
                       attempt: Option<string>, occurredAt: Moment, correlation: Option<string>)
    | Terminal(message: string, request: string, owner: string, email: string, status: Status,
               zip: Option<string>, reason: Option<string>, attempt: Option<string>,
               occurredAt: Moment, correlation: Option<string>)

  /** `requests` and `events` are keyed by their primary keys; `outbox` is in commit order. */
  datatype Tables = Tables(
    requests: map<string, Request>,
    events: map<string, string>,
    outbox: seq<OutboxRow>)

  const EMPTY := Tables(map[], map[], [])

  datatype Origin = ByValidation | ByProcessing(attempt: Option<string>)

  datatype Command =
    | CreateRequest(owner: string, email: string, source: string, key: string, correlation: CorrelationInput)
    | AcceptRequest(id: string)
    | StartRequest(id: string, attempt: string)
    | CompleteRequest(id: string, attempt: string, zip: string)
    | FailRequest(id: string, origin: Origin, code: string)

  /**
   * One call of a use case. `drawn` is the random id the call draws for a new request or attempt,
   * `message` the one it draws for its outbox event, `now` the clock it reads.
   */
  datatype Delivery = Delivery(event: string, command: Command, occurredAt: string,
                               now: int, drawn: string, message: string)

  /** `AckLost` is an outage as well, but one that struck after the commit had taken effect. */
  datatype FaultKind = DuplicateRequestId | DuplicateEvent | DuplicateKey | DuplicateSource | Outage | AckLost

  /** What a use case has decided to do. Only `Record` and `Write` touch the tables. */
  datatype Verdict =
    | Refuse(why: Rejection)
    | Conflict
    | Fault(kind: FaultKind)
    | Answer(request: Request)
    | Record(request: Request)
    | Write(request: Request, row: Option<OutboxRow>)

  /** The checks made before anything is read. */
  function Problem(d: Delivery): Option<Rejection> {
    if Blank(d.event) then Some(FieldRequired("eventId"))
    else match d.command
      case CreateRequest(_, _, _, key, correlation) =>
        if Blank(key) then Some(FieldRequired("idempotencyKey"))
        else if ParseCorrelation(correlation).Invalid? then Some(InvalidCorrelation)
        else None
      case CompleteRequest(id, _, zip) =>
        if Blank(id) then Some(FieldRequired("processingRequestId"))
        else if Blank(zip) then Some(FieldRequired("zipStorageKey"))
        else None
      case FailRequest(id, _, code) =>
        if Blank(id) then Some(FieldRequired("processingRequestId"))
        else if ParseCode(code).None? then Some(UnknownCode)
        else None
      case _ =>
        if Blank(d.command.id) then Some(FieldRequired("processingRequestId")) else None
  }

  /** The attempt an event names, for the events that belong to one. */
  function NamedAttempt(c: Command): Option<Option<string>> {
    match c
    case StartRequest(_, attempt) => Some(Some(attempt))
    case CompleteRequest(_, attempt, _) => Some(Some(attempt))
    case FailRequest(_, ByProcessing(attempt), _) => Some(attempt)
    case _ => None
  }

  predicate StaleFor(r: Request, c: Command) {
    NamedAttempt(c).Some? && IsStale(r, NamedAttempt(c).value)
  }

  function TransitionFor(r: Request, d: Delivery): Transition
    requires !d.command.CreateRequest?
  {
    match d.command
    case AcceptRequest(_) => Accept(r, d.drawn, d.now)
    case StartRequest(_, _) => Start(r, d.now)
    case CompleteRequest(_, _, zip) => Complete(r, zip, d.now)
    case FailRequest(_, ByValidation, code) => Reject(r, code, d.now)
    case FailRequest(_, ByProcessing(_), code) => Fail(r, code, d.now)
  }

  /** The outbox row announcing that `r` was written, if that is announced at all. */
  function Announcement(r: Request, d: Delivery): Option<OutboxRow> {
    match d.command
    case CreateRequest(_, _, _, _, _) =>
      Some(ValidationRequested(d.event, r.id, r.owner, r.source, Clock(r.createdAt), r.correlation))
    case AcceptRequest(_) =>
      Some(ProcessingQueued(d.message, r.id, r.owner, r.source, r.attempt, Given(d.occurredAt), r.correlation))
    case StartRequest(_, _) => None
    case CompleteRequest(_, _, _) =>
      Some(Terminal(d.message, r.id, r.owner, r.email, r.status, r.zip, None, r.attempt,
                    Given(d.occurredAt), r.correlation))
    case FailRequest(_, _, code) =>
      var reason := if ParseCode(code).Some? then Some(ReasonFor(ParseCode(code).value)) else None;
      Some(Terminal(d.message, r.id, r.owner, r.email, r.status, None, reason, r.attempt,
                    Given(d.occurredAt), r.correlation))
  }

  /** What a lifecycle event does to the request it names, once that is locked and read. */
  function Decide(r: Request, d: Delivery): (v: Verdict)
    requires !d.command.CreateRequest?
    ensures v.Refuse? || v.Record? || v.Write?
  {
    if StaleFor(r, d.command) then Record(r)
    else match TransitionFor(r, d)
      case Throw(why) => Refuse(why)
      case Same(same) => Record(same)
      case Changed(next) => Write(next, Announcement(next, d))
  }

  function NewRequest(d: Delivery): (made: Transition)
    requires d.command.CreateRequest? && Problem(d).None?
    ensures !made.Same?
  {
    var c := d.command;
    New(d.drawn, c.owner, c.email, c.source, Some(c.key), ParseCorrelation(c.correlation).id, d.now)
  }

  // ---- Reads ----

  /** The request bound to an event, as `findByEventId` reads it. */
  function FindByEvent(t: Tables, event: string): Option<Request> {
    if event in t.events && t.events[event] in t.requests then Some(t.requests[t.events[event]]) else None
  }

  predicate HasKey(r: Request, owner: string, key: string) {
    r.owner == owner && r.key == Some(key)
  }

  predicate HasSource(r: Request, owner: string, source: string) {
    r.owner == owner && r.source == source
  }

  ghost function FindByKey(requests: map<string, Request>, owner: string, key: string): (found: Option<Request>)
    ensures found.Some? ==> found.value in requests.Values && HasKey(found.value, owner, key)
    ensures found.None? ==> forall id | id in requests :: !HasKey(requests[id], owner, key)
  {
    if exists id :: id in requests && HasKey(requests[id], owner, key) then
      var id :| id in requests && HasKey(requests[id], owner, key);
      Some(requests[id])
    else None
  }

  ghost function FindBySource(requests: map<string, Request>, owner: string, source: string): (found: Option<Request>)
    ensures found.Some? ==> found.value in requests.Values && HasSource(found.value, owner, source)
    ensures found.None? ==> forall id | id in requests :: !HasSource(requests[id], owner, source)
  {
    if exists id :: id in requests && HasSource(requests[id], owner, source) then
      var id :| id in requests && HasSource(requests[id], owner, source);
      Some(requests[id])
    else None
  }

  /** Answers with the request holding the key, unless it was made for another source. */
  function Replay(bound: Request, source: string): Verdict {
    if bound.source != source then Conflict else Answer(bound)
  }

  // ---- One delivery, and a run of them ----

  ghost function DecideCreate(t: Tables, d: Delivery): Verdict
    requires d.command.CreateRequest? && Problem(d).None?
  {
    var c := d.command;
    var made := NewRequest(d);
    if made.Throw? then Refuse(made.why)
    else
      var bound := FindByKey(t.requests, c.owner, c.key);
      var known := FindBySource(t.requests, c.owner, c.source);
      if bound.Some? then Replay(bound.value, c.source)
      else if known.Some? then Answer(known.value)
      else if d.drawn in t.requests then Fault(DuplicateRequestId)
      else if d.event in t.events then Fault(DuplicateEvent)
      else Write(made.request, Announcement(made.request, d))
  }

  ghost function DecideLifecycle(t: Tables, d: Delivery): Verdict
    requires !d.command.CreateRequest?
  {
    if d.command.id !in t.requests then Refuse(NotFound)
    else if d.event in t.events then Answer(t.requests[d.command.id])
    else Decide(t.requests[d.command.id], d)
  }

  ghost function Serial(t: Tables, d: Delivery): Verdict {
    if Problem(d).Some? then Refuse(Problem(d).value)
    else if FindByEvent(t, d.event).Some? then Answer(FindByEvent(t, d.event).value)
    else if d.command.CreateRequest? then DecideCreate(t, d)
    else DecideLifecycle(t, d)
  }

  function Apply(t: Tables, event: string, v: Verdict): Tables {
    match v
    case Record(r) => t.(events := t.events[event := r.id])
    case Write(r, row) =>
      Tables(t.requests[r.id := r], t.events[event := r.id],
             if row.Some? then t.outbox + [row.value] else t.outbox)
    case _ => t
  }

  ghost function Handle(t: Tables, d: Delivery): Tables {
    Apply(t, d.event, Serial(t, d))
  }

  ghost function HandleAll(t: Tables, ds: seq<Delivery>): Tables {
    if ds == [] then t else Handle(HandleAll(t, ds[..|ds| - 1]), ds[|ds| - 1])
  }

  lemma HandleAllSnoc(t: Tables, ds: seq<Delivery>, d: Delivery)
    ensures HandleAll(t, ds + [d]) == Handle(HandleAll(t, ds), d)
  {
    assert (ds + [d])[..|ds|] == ds;
  }

  // ---- What the schema guarantees, and every delivery keeps ----

  ghost predicate Keyed(t: Tables) {
    && (forall id | id in t.requests :: t.requests[id].id == id)
    && (forall e | e in t.events :: t.events[e] in t.requests)
  }

  ghost predicate UniqueKeys(requests: map<string, Request>) {
    forall i, j | i in requests && j in requests && requests[i].key.Some?
      && HasKey(requests[j], requests[i].owner, requests[i].key.value) :: i == j
  }

  ghost predicate UniqueSources(requests: map<string, Request>) {
    forall i, j | i in requests && j in requests
      && HasSource(requests[j], requests[i].owner, requests[i].source) :: i == j
  }

  ghost predicate AllConsistent(t: Tables) {
    forall id | id in t.requests :: Consistent(t.requests[id])
  }

  ghost predicate Wellformed(t: Tables) {
    Keyed(t) && UniqueKeys(t.requests) && UniqueSources(t.requests) && AllConsistent(t)
  }

  /** The tables only grow: requests advance, dedup records stay, the outbox is appended to. */
  ghost predicate Grows(t: Tables, t': Tables) {
    && (forall id | id in t.requests :: id in t'.requests && Advances(t.requests[id], t'.requests[id]))
    && (forall e | e in t.events :: e in t'.events && t'.events[e] == t.events[e])
    && t.outbox <= t'.outbox
  }

  /** A lifecycle decision that writes at all is a legal transition of the request it read. */
  lemma DecideAdvances(r: Request, d: Delivery)
    requires !d.command.CreateRequest? && Consistent(r)
    ensures var v := Decide(r, d);
            && (v.Record? ==> v.request == r)
            && (v.Write? ==> Advances(r, v.request) && Consistent(v.request)
                             && Rank(r.status) < Rank(v.request.status))
    ensures Decide(r, d).Write? ==> Decide(r, d).row == Announcement(Decide(r, d).request, d)
  {
    var tr := TransitionFor(r, d);
    assert IsTransition(r, tr);
    if !tr.Throw? {
      TransitionAdvances(r, tr);
    }
  }

  /** A creation that writes found no such key, source, id or event, and writes a new request. */
  lemma CreationVerdict(t: Tables, d: Delivery)
    requires d.command.CreateRequest? && Serial(t, d).Write?
    ensures var v := Serial(t, d);
            var r := v.request;
            && Problem(d).None? && NewRequest(d) == Changed(r) && v.row == Announcement(r, d)
            && Consistent(r) && r.id == d.drawn && r.id !in t.requests && d.event !in t.events
            && (forall id | id in t.requests ::
                  !HasKey(t.requests[id], r.owner, r.key.value) && !HasSource(t.requests[id], r.owner, r.source))
  {
    assert Serial(t, d) == DecideCreate(t, d);
  }

  /** A lifecycle event that writes decided so on the stored request it names. */
  lemma LifecycleVerdict(t: Tables, d: Delivery)
    requires !d.command.CreateRequest? && (Serial(t, d).Write? || Serial(t, d).Record?)
    ensures d.command.id in t.requests && d.event !in t.events && Problem(d).None?
    ensures Serial(t, d) == Decide(t.requests[d.command.id], d)
  {
  }

  lemma NothingGrows(t: Tables)
    ensures Grows(t, t)
  {
  }

  lemma WriteGrows(t: Tables, v: Verdict, event: string)
    requires v.Record? || v.Write?
    requires var t' := Tables(t.requests[v.request.id := v.request], t.events[event := v.request.id], t.outbox);
             Wellformed(t') && forall rows | t.outbox <= rows :: Grows(t, t'.(outbox := rows))
    requires v.Record? ==> v.request.id in t.requests && t.requests[v.request.id] == v.request
    ensures Wellformed(Apply(t, event, v)) && Grows(t, Apply(t, event, v))
  {
    hide Grows;
    var t' := Tables(t.requests[v.request.id := v.request], t.events[event := v.request.id], t.outbox);
    if v.Record? { assert t'.requests == t.requests; }
    assert Apply(t, event, v) == t'.(outbox := Apply(t, event, v).outbox);
  }

  lemma HandleKeepsTables(t: Tables, d: Delivery)
    requires Wellformed(t)
    ensures Wellformed(Handle(t, d)) && Grows(t, Handle(t, d))
  {
    hide Serial, Decide, Wellformed, Grows, NewRequest;
    var v := Serial(t, d);
    if v.Write? && d.command.CreateRequest? {
      CreationVerdict(t, d);
      CreateKeepsTables(t, v.request, d.event, v.row.value);
    } else if v.Write? || v.Record? {
      EffectIsOnStored(t, d);
      UpdateKeepsTables(t, v.request, d.event);
      WriteGrows(t, v, d.event);
    } else {
      NothingGrows(t);
    }
  }

  lemma EffectIsOnStored(t: Tables, d: Delivery)
    requires Wellformed(t) && (Serial(t, d).Record? || (Serial(t, d).Write? && !d.command.CreateRequest?))
    ensures var r := Serial(t, d).request;
            && r.id in t.requests && Advances(t.requests[r.id], r) && Consistent(r) && d.event !in t.events
            && (Serial(t, d).Record? ==> r == t.requests[r.id])
  {
    if !d.command.CreateRequest? {
      LifecycleVerdict(t, d);
      DecideAdvances(t.requests[d.command.id], d);
    }
  }

  lemma CreateKeepsTables(t: Tables, r: Request, event: string, row: OutboxRow)
    requires Wellformed(t) && Consistent(r)
    requires r.id !in t.requests && event !in t.events
    requires r.key.Some? ==> forall id | id in t.requests :: !HasKey(t.requests[id], r.owner, r.key.value)
    requires forall id | id in t.requests :: !HasSource(t.requests[id], r.owner, r.source)
    ensures var t' := Tables(t.requests[r.id := r], t.events[event := r.id], t.outbox + [row]);
            Wellformed(t') && Grows(t, t')
  {
  }

  lemma UpdateKeepsTables(t: Tables, r: Request, event: string)
    requires Wellformed(t)
    requires r.id in t.requests && Advances(t.requests[r.id], r) && Consistent(r)
    requires event !in t.events
    ensures var t' := Tables(t.requests[r.id := r], t.events[event := r.id], t.outbox);
            Wellformed(t') && forall rows | t.outbox <= rows :: Grows(t, t'.(outbox := rows))
  {
    var rs := t.requests[r.id := r];
    forall i, j | i in rs && j in rs && rs[i].key.Some? && HasKey(rs[j], rs[i].owner, rs[i].key.value)
      ensures i == j
    {
      assert t.requests[i].key == rs[i].key && t.requests[j].key == rs[j].key;
      assert HasKey(t.requests[j], t.requests[i].owner, t.requests[i].key.value);
    }
    forall i, j | i in rs && j in rs && HasSource(rs[j], rs[i].owner, rs[i].source)
      ensures i == j
    {
      assert HasSource(t.requests[j], t.requests[i].owner, t.requests[i].source);
    }
  }

  lemma GrowsIsTransitive(a: Tables, b: Tables, c: Tables)
    requires Grows(a, b) && Grows(b, c)
    ensures Grows(a, c)
  {
    forall id | id in a.requests ensures id in c.requests && Advances(a.requests[id], c.requests[id]) {
      AdvancesIsTransitive(a.requests[id], b.requests[id], c.requests[id]);
    }
  }

  lemma {:induction false} HandleAllKeepsTables(t: Tables, ds: seq<Delivery>)
    requires Wellformed(t)
    ensures Wellformed(HandleAll(t, ds)) && Grows(t, HandleAll(t, ds))
  {
    if ds != [] {
      var before := HandleAll(t, ds[..|ds| - 1]);
      HandleAllKeepsTables(t, ds[..|ds| - 1]);
      HandleKeepsTables(before, ds[|ds| - 1]);
      GrowsIsTransitive(t, before, HandleAll(t, ds));
    }
  }
}
