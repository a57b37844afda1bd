/**
 * The five use cases as the objects they are, over the in-memory adapters: each call leaves exactly
 * the tables, and gives exactly the reply, of the serial Catalog.
 */
module UseCases {
  import opened Text
  import opened Lifecycle
  import opened Catalog
  import opened Protocol
  import opened InMemory
  import opened Effects
  import Creation

  /** Each use case ends with its tables well formed, having done what the serial Catalog does. */
  lemma HandledIsValid(t: Tables, d: Delivery)
    requires Wellformed(t) && "" !in t.requests
    requires d.command.CreateRequest? ==> d.drawn != ""
    ensures Wellformed(Handle(t, d)) && "" !in Handle(t, d).requests
  {
    hide Wellformed;
    HandleKeepsTables(t, d);
    if Serial(t, d).Write? {
      if d.command.CreateRequest? {
        CreationVerdict(t, d);
      } else {
        hide Serial;
        hide Decide;
        EffectIsOnStored(t, d);
      }
    }
  }

  class CreateProcessingRequest {
    const unitOfWork: UnitOfWork

    constructor (unitOfWork: UnitOfWork)
      ensures this.unitOfWork == unitOfWork
    {
      this.unitOfWork := unitOfWork;
    }

    method Execute(d: Delivery) returns (reply: Reply)
      requires d.command.CreateRequest? && unitOfWork.Valid()
      requires d.drawn != "" && d.drawn !in unitOfWork.requests.requests
      modifies unitOfWork.requests, unitOfWork.outbox
      ensures unitOfWork.Valid()
      ensures unitOfWork.Contents() == Handle(old(unitOfWork.Contents()), d)
      ensures reply == Creation.CreateReplyTo(Serial(old(unitOfWork.Contents()), d))
      ensures reply.Created? ==>
                CarriesTheCommand(reply.request, d) && reply.request.id in unitOfWork.requests.requests
                && unitOfWork.requests.requests[reply.request.id] == reply.request
    {
      HandledIsValid(unitOfWork.Contents(), d);
      if Serial(unitOfWork.Contents(), d).Write? { CreatedCarriesTheCommand(unitOfWork.Contents(), d); }
      var c, repository := d.command, unitOfWork.requests;
      if Blank(d.event) { return Refused(FieldRequired("eventId")); }
      if Blank(c.key) { return Refused(FieldRequired("idempotencyKey")); }
      var correlation := ParseCorrelation(c.correlation);
      if correlation.Invalid? { return Refused(InvalidCorrelation); }

      var existing := repository.FindByEventId(d.event);
      if existing.Some? { return Replayed(existing.value); }

      var made := New(d.drawn, c.owner, c.email, c.source, Some(c.key), correlation.id, d.now);
      if made.Throw? { return Refused(made.why); }

      var bound := repository.FindByOwnerAndIdempotencyKey(c.owner, c.key);
      if bound.Some? { return ReplayReply(bound.value, c.source); }
      var known := repository.FindByOwnerAndSource(c.owner, c.source);
      if known.Some? { return Replayed(known.value); }

      reply := Insert(d, made.request);
    }

    /**
     * The transaction and the recovery from a lost race, whatever was committed since the lookups:
     * either the request, its event and its dedup record are written, or a winner is found.
     */
    method Insert(d: Delivery, r: Request) returns (reply: Reply)
      requires d.command.CreateRequest? && Problem(d).None? && NewRequest(d) == Changed(r)
      requires Wellformed(unitOfWork.Contents())
      modifies unitOfWork.requests, unitOfWork.outbox
      ensures var t, c := old(unitOfWork.Contents()), d.command;
              var bound, known := FindByKey(t.requests, c.owner, c.key), FindBySource(t.requests, c.owner, c.source);
              && reply == (if bound.Some? then ReplayReply(bound.value, c.source)
                           else if known.Some? then Replayed(known.value) else Created(r))
              && unitOfWork.Contents() == (if reply.Created? then Apply(t, d.event, Write(r, Announcement(r, d))) else t)
    {
      var c, repository := d.command, unitOfWork.requests;
      var fault := repository.Save(r);
      if fault.None? {
        unitOfWork.outbox.Add(Announcement(r, d).value);
        repository.MarkEventProcessed(d.event, Some(r.id));
        return Created(r);
      }
      if fault.value.DuplicateSource? {
        var winner := repository.FindByOwnerAndSource(c.owner, c.source);
        return if winner.None? then Errored(DuplicateSource) else Replayed(winner.value);
      }
      var winner := repository.FindByOwnerAndIdempotencyKey(c.owner, c.key);
      return if winner.None? then Errored(DuplicateKey) else ReplayReply(winner.value, c.source);
    }
  }

  class AcceptProcessingRequest {
    const unitOfWork: UnitOfWork

    constructor (unitOfWork: UnitOfWork)
      ensures this.unitOfWork == unitOfWork
    {
      this.unitOfWork := unitOfWork;
    }

    method Execute(d: Delivery) returns (reply: Reply)
      requires d.command.AcceptRequest? && unitOfWork.Valid()
      modifies unitOfWork.requests, unitOfWork.outbox
      ensures unitOfWork.Valid()
      ensures unitOfWork.Contents() == Handle(old(unitOfWork.Contents()), d)
      ensures reply == Creation.ReplyTo(Serial(old(unitOfWork.Contents()), d))
      ensures var t, id := old(unitOfWork.Contents()), d.command.id;
              Arrives(t, d, id) && t.requests[id].status == Received ==>
                reply == Answered(t.requests[id].(status := Queued, attempt := Some(d.drawn), updatedAt := d.now))
    {
      HandledIsValid(unitOfWork.Contents(), d);
      if Arrives(unitOfWork.Contents(), d, d.command.id) { AcceptanceQueues(unitOfWork.Contents(), d, d.command.id); }
      if Blank(d.event) { return Refused(FieldRequired("eventId")); }
      if Blank(d.command.id) { return Refused(FieldRequired("processingRequestId")); }

      var processed := unitOfWork.requests.HasEventBeenProcessed(d.event);
      if processed {
        var existing := unitOfWork.requests.FindByEventId(d.event);
        if existing.Some? { return Answered(existing.value); }
      }
      reply := Work(d);
    }

    method Work(d: Delivery) returns (reply: Reply)
      requires d.command.AcceptRequest? && unitOfWork.requests.Valid()
      modifies unitOfWork.requests, unitOfWork.outbox
      ensures var t := old(unitOfWork.Contents());
              && unitOfWork.Contents() == Apply(t, d.event, DecideLifecycle(t, d))
              && reply == Creation.ReplyTo(DecideLifecycle(t, d))
    {
      var requests, outbox := unitOfWork.requests, unitOfWork.outbox;
      var locked := requests.FindForUpdate(d.command.id);
      if locked.None? { return Refused(NotFound); }
      var processed := requests.HasEventBeenProcessed(d.event);
      if processed { return Answered(locked.value); }

      var updated := Accept(locked.value, d.drawn, d.now);
      if updated.Throw? { return Refused(updated.why); }
      var r := updated.request;
      requests.Update(r);
      outbox.Add(ProcessingQueued(d.message, r.id, r.owner, r.source, r.attempt, Given(d.occurredAt), r.correlation));
      requests.MarkEventProcessed(d.event, Some(r.id));
      return Answered(r);
    }
  }

  class StartProcessingRequest {
    const unitOfWork: UnitOfWork

    constructor (unitOfWork: UnitOfWork)
      ensures this.unitOfWork == unitOfWork
    {
      this.unitOfWork := unitOfWork;
    }

    method Execute(d: Delivery) returns (reply: Reply)
      requires d.command.StartRequest? && unitOfWork.Valid()
      modifies unitOfWork.requests, unitOfWork.outbox
      ensures unitOfWork.Valid()
      ensures unitOfWork.Contents() == Handle(old(unitOfWork.Contents()), d)
      ensures reply == Creation.ReplyTo(Serial(old(unitOfWork.Contents()), d))
      ensures var t, id := old(unitOfWork.Contents()), d.command.id;
              Arrives(t, d, id) && t.requests[id].attempt == Some(d.command.attempt) && t.requests[id].status == Queued ==>
                reply == Answered(t.requests[id].(status := Processing, updatedAt := d.now))
    {
      HandledIsValid(unitOfWork.Contents(), d);
      ghost var t, id := unitOfWork.Contents(), d.command.id;
      if Arrives(t, d, id) && t.requests[id].attempt == Some(d.command.attempt) {
        StartBegins(t, d, id, d.command.attempt);
      }
      if Blank(d.event) { return Refused(FieldRequired("eventId")); }
      if Blank(d.command.id) { return Refused(FieldRequired("processingRequestId")); }

      var processed := unitOfWork.requests.HasEventBeenProcessed(d.event);
      if processed {
        var existing := unitOfWork.requests.FindByEventId(d.event);
        if existing.Some? { return Answered(existing.value); }
      }
      reply := Work(d);
    }

    /** No outbox row: a start is nobody else's business. */
    method Work(d: Delivery) returns (reply: Reply)
      requires d.command.StartRequest? && unitOfWork.requests.Valid()
      modifies unitOfWork.requests, unitOfWork.outbox
      ensures var t := old(unitOfWork.Contents());
              && unitOfWork.Contents() == Apply(t, d.event, DecideLifecycle(t, d))
              && reply == Creation.ReplyTo(DecideLifecycle(t, d))
    {
      var requests := unitOfWork.requests;
      var locked := requests.FindForUpdate(d.command.id);
      if locked.None? { return Refused(NotFound); }
      var processed := requests.HasEventBeenProcessed(d.event);
      if processed { return Answered(locked.value); }

      if IsStale(locked.value, Some(d.command.attempt)) {
        requests.MarkEventProcessed(d.event, Some(locked.value.id));
        return Answered(locked.value);
      }
      var updated := Start(locked.value, d.now);
      if updated.Throw? { return Refused(updated.why); }
      if !updated.Same? {
        requests.Update(updated.request);
      }
      requests.MarkEventProcessed(d.event, Some(updated.request.id));
      return Answered(updated.request);
    }
  }

  class CompleteProcessingRequest {
    const unitOfWork: UnitOfWork

    constructor (unitOfWork: UnitOfWork)
      ensures this.unitOfWork == unitOfWork
    {
      this.unitOfWork := unitOfWork;
    }

    method Execute(d: Delivery) returns (reply: Reply)
      requires d.command.CompleteRequest? && unitOfWork.Valid()
      modifies unitOfWork.requests, unitOfWork.outbox
      ensures unitOfWork.Valid()
      ensures unitOfWork.Contents() == Handle(old(unitOfWork.Contents()), d)
      ensures reply == Creation.ReplyTo(Serial(old(unitOfWork.Contents()), d))
      ensures var t, id := old(unitOfWork.Contents()), d.command.id;
              Arrives(t, d, id) && !Blank(d.command.zip) && t.requests[id].attempt == Some(d.command.attempt)
              && t.requests[id].status in {Queued, Processing} ==>
                reply == Answered(t.requests[id].(status := Completed, zip := Some(d.command.zip), updatedAt := d.now))
    {
      HandledIsValid(unitOfWork.Contents(), d);
      ghost var t, id := unitOfWork.Contents(), d.command.id;
      if Arrives(t, d, id) && t.requests[id].attempt == Some(d.command.attempt) && !Blank(d.command.zip) {
        CompletionStoresItsArchive(t, d, id, d.command.attempt, d.command.zip);
      }
      if Blank(d.event) { return Refused(FieldRequired("eventId")); }
      if Blank(d.command.id) { return Refused(FieldRequired("processingRequestId")); }
      if Blank(d.command.zip) { return Refused(FieldRequired("zipStorageKey")); }

      var processed := unitOfWork.requests.HasEventBeenProcessed(d.event);
      if processed {
        var existing := unitOfWork.requests.FindByEventId(d.event);
        if existing.Some? { return Answered(existing.value); }
      }
      reply := Work(d);
    }

    method Work(d: Delivery) returns (reply: Reply)
      requires d.command.CompleteRequest? && unitOfWork.requests.Valid()
      modifies unitOfWork.requests, unitOfWork.outbox
      ensures var t := old(unitOfWork.Contents());
              && unitOfWork.Contents() == Apply(t, d.event, DecideLifecycle(t, d))
              && reply == Creation.ReplyTo(DecideLifecycle(t, d))
    {
      var requests, outbox := unitOfWork.requests, unitOfWork.outbox;
      var locked := requests.FindForUpdate(d.command.id);
      if locked.None? { return Refused(NotFound); }
      var processed := requests.HasEventBeenProcessed(d.event);
      if processed { return Answered(locked.value); }

      if IsStale(locked.value, Some(d.command.attempt)) {
        requests.MarkEventProcessed(d.event, Some(locked.value.id));
        return Answered(locked.value);
      }
      var updated := Complete(locked.value, d.command.zip, d.now);
      if updated.Throw? { return Refused(updated.why); }
      var r := updated.request;
      if updated.Same? {
        requests.MarkEventProcessed(d.event, Some(r.id));
        return Answered(r);
      }
      requests.Update(r);
      outbox.Add(Terminal(d.message, r.id, r.owner, r.email, r.status, r.zip, None, r.attempt,
                          Given(d.occurredAt), r.correlation));
      requests.MarkEventProcessed(d.event, Some(r.id));
      return Answered(r);
    }
  }

  lemma FailureIsAnswered(t: Tables, d: Delivery)
    requires Wellformed(t) && d.command.FailRequest?
    ensures forall failure, sentence | Arrives(t, d, d.command.id) && Means(d.command.code, failure, sentence)
              && (if d.command.origin.ByValidation? then t.requests[d.command.id].status == Received
                  else t.requests[d.command.id].attempt.Some? && d.command.origin.attempt == t.requests[d.command.id].attempt
                       && t.requests[d.command.id].status in {Queued, Processing}) ::
              Creation.ReplyTo(Serial(t, d))
              == Answered(t.requests[d.command.id].(status := Failed, failure := Some(failure), updatedAt := d.now))
  {
    hide Serial, Means, Wellformed;
    forall failure, sentence | Arrives(t, d, d.command.id) && Means(d.command.code, failure, sentence)
      && (if d.command.origin.ByValidation? then t.requests[d.command.id].status == Received
          else t.requests[d.command.id].attempt.Some? && d.command.origin.attempt == t.requests[d.command.id].attempt
               && t.requests[d.command.id].status in {Queued, Processing})
      ensures Creation.ReplyTo(Serial(t, d))
              == Answered(t.requests[d.command.id].(status := Failed, failure := Some(failure), updatedAt := d.now))
    {
      if d.command.origin.ByValidation? {
        RejectionFailsTheUpload(t, d, d.command.id, d.command.code, failure, sentence);
      } else {
        FailureFailsTheAttempt(t, d, d.command.id, d.command.code, failure, sentence);
      }
    }
  }

  class FailProcessingRequest {
    const unitOfWork: UnitOfWork

    constructor (unitOfWork: UnitOfWork)
      ensures this.unitOfWork == unitOfWork
    {
      this.unitOfWork := unitOfWork;
    }

    method Execute(d: Delivery) returns (reply: Reply)
      requires d.command.FailRequest? && unitOfWork.Valid()
      modifies unitOfWork.requests, unitOfWork.outbox
      ensures unitOfWork.Valid()
      ensures unitOfWork.Contents() == Handle(old(unitOfWork.Contents()), d)
      ensures reply == Creation.ReplyTo(Serial(old(unitOfWork.Contents()), d))
      ensures var t, id := old(unitOfWork.Contents()), d.command.id;
              forall failure, sentence | Arrives(t, d, id) && Means(d.command.code, failure, sentence)
                && (if d.command.origin.ByValidation? then t.requests[id].status == Received
                    else t.requests[id].attempt.Some? && d.command.origin.attempt == t.requests[id].attempt
                         && t.requests[id].status in {Queued, Processing}) ::
                reply == Answered(t.requests[id].(status := Failed, failure := Some(failure), updatedAt := d.now))
    {
      HandledIsValid(unitOfWork.Contents(), d);
      FailureIsAnswered(unitOfWork.Contents(), d);
      if Blank(d.event) { return Refused(FieldRequired("eventId")); }
      if Blank(d.command.id) { return Refused(FieldRequired("processingRequestId")); }
      if ParseCode(d.command.code).None? { return Refused(UnknownCode); }

      var processed := unitOfWork.requests.HasEventBeenProcessed(d.event);
      if processed {
        var existing := unitOfWork.requests.FindByEventId(d.event);
        if existing.Some? { return Answered(existing.value); }
      }
      reply := Work(d, ParseCode(d.command.code).value);
    }

    method Work(d: Delivery, code: FailureCode) returns (reply: Reply)
      requires d.command.FailRequest? && unitOfWork.requests.Valid()
      requires ParseCode(d.command.code) == Some(code)
      modifies unitOfWork.requests, unitOfWork.outbox
      ensures var t := old(unitOfWork.Contents());
              && unitOfWork.Contents() == Apply(t, d.event, DecideLifecycle(t, d))
              && reply == Creation.ReplyTo(DecideLifecycle(t, d))
    {
      hide ParseCode, ReasonFor;
      var requests, outbox := unitOfWork.requests, unitOfWork.outbox;
      var locked := requests.FindForUpdate(d.command.id);
      if locked.None? { return Refused(NotFound); }
      var processed := requests.HasEventBeenProcessed(d.event);
      if processed { return Answered(locked.value); }

      if d.command.origin.ByProcessing? && IsStale(locked.value, d.command.origin.attempt) {
        requests.MarkEventProcessed(d.event, Some(locked.value.id));
        return Answered(locked.value);
      }
      var updated := if d.command.origin.ByValidation? then Reject(locked.value, d.command.code, d.now)
                     else Fail(locked.value, d.command.code, d.now);
      if updated.Throw? { return Refused(updated.why); }
      var r := updated.request;
      requests.Update(r);
      outbox.Add(Terminal(d.message, r.id, r.owner, r.email, r.status, None, Some(ReasonFor(code)), r.attempt,
                          Given(d.occurredAt), r.correlation));
      requests.MarkEventProcessed(d.event, Some(r.id));
      return Answered(r);
    }
  }
}
