/**
 * The consuming side: messages that are ready, in flight, acked or dead-lettered, each handling
 * running a use case as a transaction among all the others, with requeue, crash and redelivery.
 */
module Consumer {
  import opened Catalog
  import opened Protocol
  import opened Creation
  import opened Races

  /** What a message carries once its body has been parsed, or why that failed. */
  datatype Body = Event(event: string, command: Command, occurredAt: string) | NotJson | InvalidPayload

  /** Handling a message runs a transaction, unless the body is refused before any. */
  datatype Handling = Running(txn: nat) | Rejected

  datatype How = Acked | DeadLettered | Requeued

  datatype Settlement = Settlement(message: nat, handling: Handling, how: How)

  /** The broker's side and the counter of final settlements; `settled` is history. */
  datatype Mail = Mail(
    bodies: map<nat, Body>,
    ready: set<nat>,
    inFlight: map<nat, Handling>,
    acked: set<nat>,
    dead: set<nat>,
    consumed: nat,
    settled: seq<Settlement>)

  datatype State = State(db: Protocol.State, mail: Mail)

  datatype Step =
    | Publish(message: nat, body: Body)
    | Take(message: nat, txn: nat, now: int, drawn: string, id: string)
    | Database(step: Protocol.Step)
    | Settle(message: nat)
    | CrashConsumer(message: nat)

  /** What became of a handling: still running, succeeded, or threw a permanent or a passing error. */
  datatype Result = Unfinished | Success | PermanentFailure | TransientFailure

  function ResultOf(db: Protocol.State, h: Handling): Result {
    match h
    case Rejected => PermanentFailure
    case Running(t) =>
      if t !in db.txns || !db.txns[t].pc.Done? then Unfinished
      else match db.txns[t].pc.reply
        case Refused(_) => PermanentFailure
        case Errored(_) => TransientFailure
        case Conflicted => TransientFailure
        case _ => Success
  }

  /** `settleMessage`: ack on success, reject for good on a permanent failure, else requeue. */
  function SettlementFor(result: Result): How
    requires !result.Unfinished?
  {
    match result
    case Success => Acked
    case PermanentFailure => DeadLettered
    case TransientFailure => Requeued
  }

  function Published(mail: Mail, m: nat, body: Body): Mail {
    mail.(bodies := mail.bodies[m := body], ready := mail.ready + {m})
  }

  function Taken(mail: Mail, m: nat, h: Handling): Mail {
    mail.(ready := mail.ready - {m}, inFlight := mail.inFlight[m := h])
  }

  function Returned(mail: Mail, m: nat): Mail {
    mail.(inFlight := mail.inFlight - {m}, ready := mail.ready + {m})
  }

  function Settled(mail: Mail, m: nat, h: Handling, how: How): Mail {
    var done := mail.(inFlight := mail.inFlight - {m}, settled := mail.settled + [Settlement(m, h, how)]);
    match how
    case Acked => done.(acked := mail.acked + {m}, consumed := mail.consumed + 1)
    case DeadLettered => done.(dead := mail.dead + {m}, consumed := mail.consumed + 1)
    case Requeued => done.(ready := mail.ready + {m})
  }

  function DeliveryOf(body: Body, now: int, drawn: string, id: string): Delivery
    requires body.Event?
  {
    Delivery(body.event, body.command, body.occurredAt, now, drawn, id)
  }

  /** One step of the consumers, the broker or the database. A step that is not enabled does nothing. */
  ghost function Next(s: State, step: Step): State {
    var mail := s.mail;
    match step
    case Publish(m, body) =>
      if m in mail.bodies || (body.Event? && body.command.CreateRequest?) then s
      else State.State(s.db, Published(mail, m, body))
    case Take(m, t, now, drawn, id) =>
      if m !in mail.ready || m !in mail.bodies || t in s.db.txns then s
      else if mail.bodies[m].Event? then
        State.State(Protocol.Next(s.db, Begin(t, DeliveryOf(mail.bodies[m], now, drawn, id))), Taken(mail, m, Running(t)))
      else State.State(s.db, Taken(mail, m, Rejected))
    case Database(w) => State.State(Protocol.Next(s.db, w), mail)
    case Settle(m) =>
      if m !in mail.inFlight || ResultOf(s.db, mail.inFlight[m]).Unfinished? then s
      else State.State(s.db, Settled(mail, m, mail.inFlight[m], SettlementFor(ResultOf(s.db, mail.inFlight[m]))))
    case CrashConsumer(m) =>
      // The broker redelivers what was in flight; an open transaction is rolled back.
      if m !in mail.inFlight then s
      else State.State(match mail.inFlight[m]
                       case Running(t) => Protocol.Next(s.db, Abort(t))
                       case Rejected => s.db,
                       Returned(mail, m))
  }

  function Initial(t0: Tables): State {
    State.State(Quiet(t0), Mail(map[], {}, map[], {}, {}, 0, []))
  }

  ghost function After(t0: Tables, steps: seq<Step>): State {
    if steps == [] then Initial(t0) else Next(After(t0, steps[..|steps| - 1]), steps[|steps| - 1])
  }

  // ---- The invariant ----

  function One(b: bool): nat { if b then 1 else 0 }

  /** In how many places a message is. */
  function Places(mail: Mail, m: nat): nat {
    One(m in mail.ready) + One(m in mail.inFlight) + One(m in mail.acked) + One(m in mail.dead)
  }

  /** Each message ever published is in exactly one place. */
  ghost predicate Partitioned(mail: Mail) {
    forall m :: Places(mail, m) == One(m in mail.bodies)
  }

  ghost predicate CounterExact(mail: Mail) {
    mail.consumed == |mail.acked| + |mail.dead|
  }

  /** A handling runs the transaction of its message's own event, or has refused the body. */
  ghost predicate Matches(db: Protocol.State, body: Body, h: Handling) {
    if h.Rejected? then !body.Event?
    else body.Event? && !body.command.CreateRequest? && h.txn in db.txns
         && db.txns[h.txn].d.event == body.event && db.txns[h.txn].d.command == body.command
  }

  ghost predicate HandlingsMatch(db: Protocol.State, mail: Mail) {
    && (forall m | m in mail.inFlight :: m in mail.bodies && Matches(db, mail.bodies[m], mail.inFlight[m]))
    && (forall m | m in mail.bodies && mail.bodies[m].Event? :: !mail.bodies[m].command.CreateRequest?)
  }

  ghost predicate Recorded(db: Protocol.State, body: Body) {
    body.Event? && body.event in db.events
  }

  ghost predicate AckedAreRecorded(db: Protocol.State, mail: Mail) {
    forall m | m in mail.acked :: m in mail.bodies && Recorded(db, mail.bodies[m])
  }

  /** A transaction that ended without committing, so that it can never be in the log. */
  ghost predicate EndedInVain(db: Protocol.State, h: Handling) {
    h.Running? ==> h.txn in db.txns && db.txns[h.txn].pc.Done? && !Committed(db.txns[h.txn])
  }

  /** The one way to commit and be told of a failure: the acknowledgement was lost. */
  ghost predicate EndedUnheard(db: Protocol.State, h: Handling) {
    h.Running? && h.txn in db.txns && db.txns[h.txn].pc == Done(Errored(AckLost))
  }

  /** What a handling had come to when it was settled. */
  ghost predicate SettledRightly(db: Protocol.State, h: Handling, how: How) {
    match how
    case Acked => true
    case DeadLettered => EndedInVain(db, h)
    case Requeued => EndedInVain(db, h) || EndedUnheard(db, h)
  }

  ghost predicate AllSettledRightly(db: Protocol.State, mail: Mail) {
    forall k | 0 <= k < |mail.settled| :: SettledRightly(db, mail.settled[k].handling, mail.settled[k].how)
  }

  ghost predicate MailInv(db: Protocol.State, mail: Mail) {
    && Partitioned(mail) && CounterExact(mail)
    && HandlingsMatch(db, mail) && AckedAreRecorded(db, mail) && AllSettledRightly(db, mail)
  }

  ghost predicate Inv(t0: Tables, s: State) {
    RaceInv(t0, s.db) && MailInv(s.db, s.mail)
  }

  // ---- The database only moves forward ----

  /** Ended transactions stay ended, deliveries never change, dedup records stay. */
  ghost predicate Forward(a: Protocol.State, b: Protocol.State) {
    && (forall t | t in a.txns :: t in b.txns && b.txns[t].d == a.txns[t].d && (a.txns[t].pc.Done? ==> b.txns[t] == a.txns[t]))
    && (forall e | e in a.events :: e in b.events)
  }

  lemma DatabaseMovesForward(s: Protocol.State, step: Protocol.Step)
    ensures Forward(s, Protocol.Next(s, step))
  {
    if step.Move? && Enabled(s, step) && !Commits(s, step) {
      MovedKeepsDelivery(s.requests, s.events, s.next, s.txns[step.txn]);
      hide Moved;
    }
  }

  lemma ForwardKeepsMail(a: Protocol.State, b: Protocol.State, mail: Mail)
    requires Forward(a, b) && MailInv(a, mail)
    ensures MailInv(b, mail)
  {
    hide Partitioned, CounterExact;
  }

  /** Any database step keeps the whole invariant. */
  lemma DatabaseKeepsInv(t0: Tables, s: State, step: Protocol.Step)
    requires Wellformed(t0) && Inv(t0, s)
    ensures Inv(t0, s.(db := Protocol.Next(s.db, step)))
  {
    StepKeepsRaceInv(t0, s.db, step);
    DatabaseMovesForward(s.db, step);
    hide RaceInv, MailInv, Protocol.Next;
    ForwardKeepsMail(s.db, Protocol.Next(s.db, step), s.mail);
  }

  // ---- The mail keeps its books ----

  lemma TakingKeepsMail(db: Protocol.State, mail: Mail, m: nat, h: Handling)
    requires MailInv(db, mail) && m in mail.ready && m in mail.bodies && Matches(db, mail.bodies[m], h)
    ensures MailInv(db, Taken(mail, m, h))
  {
    hide Matches, Recorded, SettledRightly;
    assert Places(mail, m) == 1;
    assert forall k | k != m :: Places(Taken(mail, m, h), k) == Places(mail, k);
  }

  lemma ReturningKeepsMail(db: Protocol.State, mail: Mail, m: nat)
    requires MailInv(db, mail) && m in mail.inFlight
    ensures MailInv(db, Returned(mail, m))
  {
    hide Matches, Recorded, SettledRightly;
    assert Places(mail, m) == 1;
    assert forall k | k != m :: Places(Returned(mail, m), k) == Places(mail, k);
  }

  lemma SettlingKeepsMail(db: Protocol.State, mail: Mail, m: nat, how: How)
    requires MailInv(db, mail) && m in mail.inFlight
    requires how.Acked? ==> Recorded(db, mail.bodies[m])
    requires SettledRightly(db, mail.inFlight[m], how)
    ensures MailInv(db, Settled(mail, m, mail.inFlight[m], how))
  {
    SettlingKeepsPlaces(mail, m, mail.inFlight[m], how);
    SettlingKeepsHistory(db, mail, m, how);
    hide Matches, Recorded, SettledRightly, Partitioned, CounterExact, AllSettledRightly;
  }

  lemma SettlingKeepsHistory(db: Protocol.State, mail: Mail, m: nat, how: How)
    requires AllSettledRightly(db, mail) && m in mail.inFlight
    requires SettledRightly(db, mail.inFlight[m], how)
    ensures AllSettledRightly(db, Settled(mail, m, mail.inFlight[m], how))
  {
    hide SettledRightly;
    var mail' := Settled(mail, m, mail.inFlight[m], how);
    forall k | 0 <= k < |mail'.settled| ensures SettledRightly(db, mail'.settled[k].handling, mail'.settled[k].how) {
      assert k < |mail.settled| ==> mail'.settled[k] == mail.settled[k];
    }
  }

  lemma SettlingKeepsPlaces(mail: Mail, m: nat, h: Handling, how: How)
    requires Partitioned(mail) && CounterExact(mail) && m in mail.inFlight
    ensures Partitioned(Settled(mail, m, h, how)) && CounterExact(Settled(mail, m, h, how))
  {
    assert Places(mail, m) == 1;
    assert forall k | k != m :: Places(Settled(mail, m, h, how), k) == Places(mail, k);
  }

  /** A handling that succeeded found its event recorded, or recorded it itself. */
  lemma SuccessIsRecorded(t0: Tables, s: State, m: nat)
    requires Inv(t0, s) && m in s.mail.inFlight && ResultOf(s.db, s.mail.inFlight[m]).Success?
    ensures Recorded(s.db, s.mail.bodies[m])
  {
    var t := s.mail.inFlight[m].txn;
    assert Matches(s.db, s.mail.bodies[m], s.mail.inFlight[m]);
    assert Honest(s.db.requests, s.db.events, s.db.txns[t]);
  }

  lemma SettleKeepsInv(t0: Tables, s: State, m: nat)
    requires Inv(t0, s) && m in s.mail.inFlight && !ResultOf(s.db, s.mail.inFlight[m]).Unfinished?
    ensures Inv(t0, Next(s, Settle(m)))
  {
    hide RaceInv, ResultOf, Matches, Recorded, SettledRightly;
    var result := ResultOf(s.db, s.mail.inFlight[m]);
    if result.Success? {
      SuccessIsRecorded(t0, s, m);
    }
    ResultIsSettledRightly(s.db, s.mail.bodies[m], s.mail.inFlight[m]);
    SettlingKeepsMail(s.db, s.mail, m, SettlementFor(result));
  }

  lemma ResultIsSettledRightly(db: Protocol.State, body: Body, h: Handling)
    requires Matches(db, body, h) && !ResultOf(db, h).Unfinished?
    ensures SettledRightly(db, h, SettlementFor(ResultOf(db, h)))
  {
  }

  lemma TakeKeepsInv(t0: Tables, s: State, m: nat, t: nat, d: Delivery)
    requires Wellformed(t0) && Inv(t0, s) && m in s.mail.ready && t !in s.db.txns
    requires m in s.mail.bodies && s.mail.bodies[m] == Event(d.event, d.command, d.occurredAt)
    ensures Inv(t0, State.State(Protocol.Next(s.db, Begin(t, d)), Taken(s.mail, m, Running(t))))
  {
    DatabaseKeepsInv(t0, s, Begin(t, d));
    var db := Protocol.Next(s.db, Begin(t, d));
    assert t in db.txns && db.txns[t].d == d;
    hide RaceInv, Protocol.Next;
    TakingKeepsMail(db, s.mail, m, Running(t));
  }

  lemma StepKeepsInv(t0: Tables, s: State, step: Step)
    requires Wellformed(t0) && Inv(t0, s)
    ensures Inv(t0, Next(s, step))
  {
    hide RaceInv, Protocol.Next, HandlingsMatch, AckedAreRecorded, AllSettledRightly, CounterExact, ResultOf;
    match step
    case Publish(m, body) => PublishKeepsInv(t0, s, m, body);
    case Take(m, t, now, drawn, id) =>
      if m in s.mail.ready && m in s.mail.bodies && t !in s.db.txns {
        if s.mail.bodies[m].Event? {
          TakeKeepsInv(t0, s, m, t, DeliveryOf(s.mail.bodies[m], now, drawn, id));
        } else {
          TakingKeepsMail(s.db, s.mail, m, Rejected);
        }
      }
    case Database(w) => DatabaseKeepsInv(t0, s, w);
    case Settle(m) =>
      if m in s.mail.inFlight && !ResultOf(s.db, s.mail.inFlight[m]).Unfinished? { SettleKeepsInv(t0, s, m); }
    case CrashConsumer(m) =>
      if m in s.mail.inFlight {
        match s.mail.inFlight[m] {
          case Running(t) =>
            DatabaseKeepsInv(t0, s, Abort(t));
            ReturningKeepsMail(Protocol.Next(s.db, Abort(t)), s.mail, m);
          case Rejected => ReturningKeepsMail(s.db, s.mail, m);
        }
      }
  }

  lemma PublishKeepsInv(t0: Tables, s: State, m: nat, body: Body)
    requires Inv(t0, s)
    ensures Inv(t0, Next(s, Publish(m, body)))
  {
    hide RaceInv;
    PublishingKeepsMail(s.db, s.mail, m, body);
    hide MailInv;
  }

  lemma PublishingKeepsMail(db: Protocol.State, mail: Mail, m: nat, body: Body)
    requires MailInv(db, mail)
    ensures m !in mail.bodies && !(body.Event? && body.command.CreateRequest?) ==> MailInv(db, Published(mail, m, body))
  {
    hide Matches, Recorded, SettledRightly;
    assert Places(mail, m) == One(m in mail.bodies);
    assert forall k | k != m :: Places(Published(mail, m, body), k) == Places(mail, k);
  }

  lemma {:induction false} ReachableInv(t0: Tables, steps: seq<Step>)
    requires Wellformed(t0)
    ensures Inv(t0, After(t0, steps))
  {
    if steps == [] {
      ReachableRaceInv(t0, []);
    } else {
      ReachableInv(t0, steps[..|steps| - 1]);
      StepKeepsInv(t0, After(t0, steps[..|steps| - 1]), steps[|steps| - 1]);
    }
  }

  // ---- Main results ----

  /**
   * No message is lost. However handlings fail, crash and are redelivered, each published message is
   * in exactly one of ready, in flight, acked and dead-lettered; an acked one is recorded as handled;
   * and the counter counts exactly the final settlements.
   */
  lemma {:induction false} NoMessageIsLost(t0: Tables, steps: seq<Step>, s: State)
    requires Wellformed(t0) && s == After(t0, steps)
    ensures Partitioned(s.mail) && AckedAreRecorded(s.db, s.mail)
    ensures s.mail.consumed == |s.mail.acked| + |s.mail.dead|
  {
    ReachableInv(t0, steps);
    hide After, Partitioned, AckedAreRecorded, RaceInv;
  }

  /**
   * What a message becomes, by what its handling came to: a success is acked, a domain refusal or a
   * body that was refused is dead-lettered, and both are counted; any other error puts it back.
   */
  lemma SettlementByReply(s: State, m: nat)
    requires m in s.mail.inFlight
    requires s.mail.inFlight[m].Running? ==>
               s.mail.inFlight[m].txn in s.db.txns && s.db.txns[s.mail.inFlight[m].txn].pc.Done?
    ensures var h, mail, mail' := s.mail.inFlight[m], s.mail, Next(s, Settle(m)).mail;
            && Next(s, Settle(m)).db == s.db && mail'.inFlight == mail.inFlight - {m} && mail'.bodies == mail.bodies
            && (if h.Rejected? || s.db.txns[h.txn].pc.reply.Refused? then
                  && mail'.dead == mail.dead + {m} && mail'.ready == mail.ready && mail'.acked == mail.acked
                  && mail'.consumed == mail.consumed + 1
                else if s.db.txns[h.txn].pc.reply.Errored? || s.db.txns[h.txn].pc.reply.Conflicted? then
                  && mail'.ready == mail.ready + {m} && mail'.dead == mail.dead && mail'.acked == mail.acked
                  && mail'.consumed == mail.consumed
                else
                  && mail'.acked == mail.acked + {m} && mail'.ready == mail.ready && mail'.dead == mail.dead
                  && mail'.consumed == mail.consumed + 1)
  {
  }

  /**
   * A message dead-lettered had no effect through that handling: it never committed. One requeued had
   * none either, unless the acknowledgement of its commit was lost.
   */
  lemma {:induction false} RejectionFollowsNoEffect(t0: Tables, steps: seq<Step>, s: State, k: nat, j: nat)
    requires Wellformed(t0) && s == After(t0, steps)
    requires k < |s.mail.settled| && !s.mail.settled[k].how.Acked? && s.mail.settled[k].handling.Running?
    requires j < |s.db.log| && s.db.log[j].txn == s.mail.settled[k].handling.txn
    ensures s.mail.settled[k].how.Requeued? && s.db.log[j].txn in s.db.txns
    ensures s.db.txns[s.db.log[j].txn].pc == Done(Errored(AckLost))
  {
    ReachableInv(t0, steps);
    hide After, Inv;
    InVainIsNotLogged(t0, s, k, j);
  }

  lemma InVainIsNotLogged(t0: Tables, s: State, k: nat, j: nat)
    requires Inv(t0, s) && j < |s.db.log|
    requires k < |s.mail.settled| && !s.mail.settled[k].how.Acked? && s.mail.settled[k].handling.Running?
    requires s.db.log[j].txn == s.mail.settled[k].handling.txn
    ensures s.mail.settled[k].how.Requeued? && s.db.log[j].txn in s.db.txns
    ensures s.db.txns[s.db.log[j].txn].pc == Done(Errored(AckLost))
  {
    assert SettledRightly(s.db, s.mail.settled[k].handling, s.mail.settled[k].how);
    assert LogKept(t0, s.db);
  }

  /**
   * A requeue after an effect is absorbed: the event is recorded, so no commit of a redelivery, nor
   * any other commit with that event, writes anything.
   */
  lemma {:induction false} RequeuedEffectIsAbsorbed(t0: Tables, steps: seq<Step>, s: State, k: nat, j: nat)
    requires Wellformed(t0) && s == After(t0, steps)
    requires k < |s.mail.settled| && s.mail.settled[k].how.Requeued? && s.mail.settled[k].handling.Running?
    requires j < |s.db.log| && s.db.log[j].txn == s.mail.settled[k].handling.txn && s.db.log[j].wrote != NOTHING
    ensures s.db.log[j].d.event in s.db.events
    ensures forall i | 0 <= i < |s.db.log| && i != j && s.db.log[i].d.event == s.db.log[j].d.event ::
              s.db.log[i].wrote == NOTHING
  {
    ReachableInv(t0, steps);
    hide After, MailInv, CreationInv, WritesAddUp, EveryRecordIsWon, AllContested;
  }
}
