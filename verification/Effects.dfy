/**
 * What each operation does, said of the tables and the delivery alone: every field written, every row
 * announced and every refusal, without naming the functions that decide.
 */
module Effects {
  import opened Text
  import opened Lifecycle
  import opened Catalog
  import opened Announcements

  /** An event that was not handled before, for a request that exists. */
  predicate Arrives(t: Tables, d: Delivery, id: string) {
    && !Blank(d.event) && d.event !in t.events && !Blank(id) && id in t.requests
    && !d.command.CreateRequest? && d.command.id == id
  }

  /** The event is recorded for the request; requests and outbox stay as they were. */
  ghost predicate OnlyRecords(t: Tables, d: Delivery, id: string)
    requires id in t.requests
  {
    && Handle(t, d) == Tables(t.requests, t.events[d.event := id], t.outbox)
    && Serial(t, d) == Record(t.requests[id])
  }

  /** The request is replaced and announced, and the event recorded for it. */
  ghost predicate Writes(t: Tables, d: Delivery, r: Request, rows: seq<OutboxRow>) {
    && Handle(t, d) == Tables(t.requests[r.id := r], t.events[d.event := r.id], t.outbox + rows)
    && Serial(t, d).Write? && Serial(t, d).request == r
  }

  ghost predicate Refuses(t: Tables, d: Delivery, why: Rejection) {
    Handle(t, d) == t && Serial(t, d) == Refuse(why)
  }

  // ---- Accept ----

  /** Only a RECEIVED request is accepted; its attempt is the id drawn for this very call. */
  lemma AcceptanceQueues(t: Tables, d: Delivery, id: string)
    requires Wellformed(t) && Arrives(t, d, id) && d.command == AcceptRequest(id)
    ensures var r := t.requests[id];
            if r.status == Received then
              Writes(t, d, r.(status := Queued, attempt := Some(d.drawn), updatedAt := d.now),
                     [ProcessingQueued(d.message, id, r.owner, r.source, Some(d.drawn), Given(d.occurredAt),
                                       r.correlation)])
            else Refuses(t, d, CannotAccept)
  {
  }

  // ---- Attempts ----

  /** A start, completion or processing failure, and the attempt it names. */
  predicate Names(c: Command, attempt: Option<string>) {
    || (c.StartRequest? && attempt == Some(c.attempt))
    || (c.CompleteRequest? && attempt == Some(c.attempt) && !Blank(c.zip))
    || (c.FailRequest? && c.origin == ByProcessing(attempt) && KnownCode(c.code))
  }

  predicate KnownCode(code: string) {
    code == "FORMATO_INVALIDO" || code == "DURACAO_EXCEDIDA" || code == "PROCESSAMENTO_FALHOU"
  }

  /** An event of another attempt than the current one is recorded and otherwise ignored. */
  lemma OtherAttemptIsIgnored(t: Tables, d: Delivery, id: string, named: Option<string>)
    requires Wellformed(t) && Arrives(t, d, id) && Names(d.command, named)
    requires t.requests[id].attempt.Some? && named != t.requests[id].attempt
    ensures OnlyRecords(t, d, id)
  {
  }

  /** A start of the current attempt moves a QUEUED request and is a mere record on any later one. */
  lemma StartBegins(t: Tables, d: Delivery, id: string, attempt: string)
    requires Wellformed(t) && Arrives(t, d, id) && d.command == StartRequest(id, attempt)
    requires t.requests[id].attempt == Some(attempt)
    ensures var r := t.requests[id];
            if r.status == Queued then Writes(t, d, r.(status := Processing, updatedAt := d.now), [])
            else OnlyRecords(t, d, id)
  {
  }

  /** Before acceptance a start is refused; after a rejection, which left no attempt, it is a record. */
  lemma StartWithoutAttempt(t: Tables, d: Delivery, id: string, attempt: string)
    requires Wellformed(t) && Arrives(t, d, id) && d.command == StartRequest(id, attempt)
    requires t.requests[id].attempt.None?
    ensures if t.requests[id].status == Received then Refuses(t, d, CannotStart)
            else t.requests[id].status == Failed && OnlyRecords(t, d, id)
  {
  }

  ghost predicate Completes(t: Tables, d: Delivery, r: Request, zip: string) {
    Writes(t, d, r.(status := Completed, zip := Some(zip), updatedAt := d.now),
           [Terminal(d.message, r.id, r.owner, r.email, Completed, Some(zip), None, r.attempt,
                     Given(d.occurredAt), r.correlation)])
  }

  /** A completion of the current attempt stores and announces the very archive key it carries. */
  lemma CompletionStoresItsArchive(t: Tables, d: Delivery, id: string, attempt: string, zip: string)
    requires Wellformed(t) && Arrives(t, d, id) && d.command == CompleteRequest(id, attempt, zip) && !Blank(zip)
    requires t.requests[id].attempt == Some(attempt)
    ensures var r := t.requests[id];
            match r.status
            case Received => false
            case Queued => Completes(t, d, r, zip)
            case Processing => Completes(t, d, r, zip)
            case Completed => if r.zip == Some(zip) then OnlyRecords(t, d, id) else Refuses(t, d, CannotComplete)
            case Failed => Refuses(t, d, CannotComplete)
  {
  }

  /** From then on its owner, and nobody else, is given exactly that key to download. */
  lemma CompletionIsReadable(t: Tables, d: Delivery, id: string, attempt: string, zip: string, reader: string)
    requires Wellformed(t) && Arrives(t, d, id) && d.command == CompleteRequest(id, attempt, zip) && !Blank(zip)
    requires t.requests[id].attempt == Some(attempt) && t.requests[id].status in {Queued, Processing}
    ensures ArchiveFor(Handle(t, d).requests, reader, id)
            == if reader == t.requests[id].owner then Ready(zip) else ArchiveNotFound
  {
    CompletionStoresItsArchive(t, d, id, attempt, zip);
    assert zip != "";
    hide Handle, Serial, Blank;
  }

  /** A request without an attempt, waiting or rejected, cannot be completed or fail in processing. */
  lemma OutcomeNeedsAttempt(t: Tables, d: Delivery, id: string, named: Option<string>)
    requires Wellformed(t) && Arrives(t, d, id) && Names(d.command, named) && !d.command.StartRequest?
    requires t.requests[id].attempt.None?
    ensures Refuses(t, d, if d.command.CompleteRequest? then CannotComplete else CannotFail)
  {
  }

  // ---- Failure and rejection ----

  /** The codes as they are written in an event, and the sentence each is announced with. */
  predicate Means(code: string, failure: FailureCode, sentence: string) {
    || (code == "FORMATO_INVALIDO" && failure == FormatoInvalido
        && sentence == "O arquivo enviado nao e um video MP4 ou MOV valido.")
    || (code == "DURACAO_EXCEDIDA" && failure == DuracaoExcedida
        && sentence == "O video excede a duracao maxima de 10 minutos.")
    || (code == "PROCESSAMENTO_FALHOU" && failure == ProcessamentoFalhou
        && sentence == "Nao foi possivel processar o video. Tente enviar novamente.")
  }

  lemma CodeMeans(code: string, failure: FailureCode, sentence: string)
    requires Means(code, failure, sentence)
    ensures ParseCode(code) == Some(failure) && ReasonFor(failure) == sentence
  {
    assert |"FORMATO_INVALIDO"| == 16 && |"DURACAO_EXCEDIDA"| == 16 && |"PROCESSAMENTO_FALHOU"| == 20;
    assert "FORMATO_INVALIDO"[0] != "DURACAO_EXCEDIDA"[0];
  }

  lemma FailureIsInOrder(t: Tables, d: Delivery, id: string)
    requires Wellformed(t) && Arrives(t, d, id) && d.command.FailRequest? && ParseCode(d.command.code).Some?
    ensures Serial(t, d) == Decide(t.requests[id], d) && t.requests[id].id == id && Consistent(t.requests[id])
  {
    hide ParseCode, Decide;
  }

  lemma FailureDecides(r: Request, d: Delivery, failure: FailureCode)
    requires d.command.FailRequest? && ParseCode(d.command.code) == Some(failure) && Consistent(r)
    requires d.command.origin == ByValidation || (r.attempt.Some? && d.command.origin == ByProcessing(r.attempt))
    ensures var failed := r.(status := Failed, failure := Some(failure), updatedAt := d.now);
            Decide(r, d) == if (if d.command.origin.ByValidation? then r.status == Received
                                else r.status == Queued || r.status == Processing) then
                              Write(failed, Some(Terminal(d.message, r.id, r.owner, r.email, Failed, None,
                                                          Some(ReasonFor(failure)), r.attempt,
                                                          Given(d.occurredAt), r.correlation)))
                            else Refuse(if d.command.origin.ByValidation? then CannotReject else CannotFail)
  {
    hide ParseCode, ReasonFor;
  }

  ghost predicate Fails(t: Tables, d: Delivery, r: Request, failure: FailureCode, sentence: string) {
    Writes(t, d, r.(status := Failed, failure := Some(failure), updatedAt := d.now),
           [Terminal(d.message, r.id, r.owner, r.email, Failed, None, Some(sentence), r.attempt,
                     Given(d.occurredAt), r.correlation)])
  }

  /** A processing failure of the current attempt fails a request that awaits its outcome, and no other. */
  lemma FailureFailsTheAttempt(t: Tables, d: Delivery, id: string, code: string, failure: FailureCode, sentence: string)
    requires Wellformed(t) && Arrives(t, d, id) && t.requests[id].attempt.Some?
    requires d.command == FailRequest(id, ByProcessing(t.requests[id].attempt), code) && Means(code, failure, sentence)
    ensures var r := t.requests[id];
            if r.status == Queued || r.status == Processing then Fails(t, d, r, failure, sentence)
            else Refuses(t, d, CannotFail)
  {
    CodeMeans(code, failure, sentence);
    FailureIsInOrder(t, d, id);
    FailureDecides(t.requests[id], d, failure);
    hide Means, ParseCode, ReasonFor, Problem, Decide, Serial, Blank, Wellformed, Arrives;
  }

  /** A validation rejection fails a RECEIVED request, and is refused on every other. */
  lemma RejectionFailsTheUpload(t: Tables, d: Delivery, id: string, code: string, failure: FailureCode, sentence: string)
    requires Wellformed(t) && Arrives(t, d, id)
    requires d.command == FailRequest(id, ByValidation, code) && Means(code, failure, sentence)
    ensures var r := t.requests[id];
            if r.status == Received then Fails(t, d, r, failure, sentence) else Refuses(t, d, CannotReject)
  {
    CodeMeans(code, failure, sentence);
    FailureIsInOrder(t, d, id);
    FailureDecides(t.requests[id], d, failure);
    hide Means, ParseCode, ReasonFor, Problem, Decide, Serial, Blank, Wellformed, Arrives;
  }

  // ---- Create ----

  /** The correlation id a request is stored with: absent as given, else the trimmed text. */
  predicate Correlates(given: CorrelationInput, stored: Option<string>) {
    match given
    case Absent => stored.None?
    case NotText => false
    case Text(s) => 1 <= |Trim(s)| <= 128 && (forall i | 0 <= i < |Trim(s)| :: ' ' <= Trim(s)[i] <= '~')
                    && stored == Some(Trim(s))
  }

  /** A creation whose input is in order, and whose event was not handled before. */
  predicate Asks(t: Tables, d: Delivery, correlation: Option<string>) {
    && d.command.CreateRequest? && !Blank(d.event) && d.event !in t.events && !Blank(d.command.key)
    && !Blank(d.command.owner) && !Blank(d.command.email) && !Blank(d.command.source)
    && Correlates(d.command.correlation, correlation)
  }

  lemma AskingIsValid(t: Tables, d: Delivery, correlation: Option<string>)
    requires Asks(t, d, correlation)
    ensures Problem(d).None?
    ensures NewRequest(d) == Changed(Request(d.drawn, d.command.owner, d.command.email, d.command.source, Received,
                                             None, None, None, Some(d.command.key), correlation, d.now, d.now))
  {
  }

  lemma FoundIsStored(t: Tables, owner: string, key: string, source: string)
    requires Wellformed(t)
    ensures var bound, known := FindByKey(t.requests, owner, key), FindBySource(t.requests, owner, source);
            && (bound.Some? ==> bound.value.id in t.requests && t.requests[bound.value.id] == bound.value)
            && (known.Some? ==> known.value.id in t.requests && t.requests[known.value.id] == known.value)
  {
  }

  /** A new key and a new source make a new request, every field of which comes from the command. */
  lemma CreationStoresTheCommand(t: Tables, d: Delivery, correlation: Option<string>)
    requires Wellformed(t) && Asks(t, d, correlation) && d.drawn !in t.requests
    requires forall id | id in t.requests && t.requests[id].owner == d.command.owner ::
               t.requests[id].key != Some(d.command.key) && t.requests[id].source != d.command.source
    ensures var c := d.command;
            Writes(t, d,
                   Request(d.drawn, c.owner, c.email, c.source, Received, None, None, None, Some(c.key), correlation,
                           d.now, d.now),
                   [ValidationRequested(d.event, d.drawn, c.owner, c.source, Clock(d.now), correlation)])
  {
    AskingIsValid(t, d, correlation);
    FoundIsStored(t, d.command.owner, d.command.key, d.command.source);
    hide Problem, NewRequest;
  }

  /** Whatever a creation writes carries the command, field by field. */
  lemma CreatedCarriesTheCommand(t: Tables, d: Delivery)
    requires Wellformed(t) && d.command.CreateRequest? && Serial(t, d).Write?
    ensures CarriesTheCommand(Serial(t, d).request, d)
  {
    CreationVerdict(t, d);
    hide Serial;
  }

  predicate CarriesTheCommand(r: Request, d: Delivery)
    requires d.command.CreateRequest?
  {
    && r.id == d.drawn && r.owner == d.command.owner && r.email == d.command.email && r.source == d.command.source
    && r.key == Some(d.command.key) && Correlates(d.command.correlation, r.correlation)
    && r.createdAt == d.now && r.updatedAt == d.now
    && r.status == Received && r.attempt.None? && r.zip.None? && r.failure.None?
  }

  /** Nothing else ever makes a request. */
  lemma OnlyCreationMakesRequests(t: Tables, d: Delivery, id: string) returns (correlation: Option<string>)
    requires Wellformed(t) && id !in t.requests && id in Handle(t, d).requests
    ensures Asks(t, d, correlation) && id == d.drawn
    ensures forall k | k in t.requests && t.requests[k].owner == d.command.owner ::
              t.requests[k].key != Some(d.command.key) && t.requests[k].source != d.command.source
  {
    hide Serial;
    if !d.command.CreateRequest? {
      hide Decide;
      EffectIsOnStored(t, d);
    } else {
      CreationVerdict(t, d);
      correlation := ParseCorrelation(d.command.correlation).id;
    }
  }

  /** A known key answers with its request if the source is the same, and conflicts if it is not. */
  lemma KnownKeyIsReplayed(t: Tables, d: Delivery, correlation: Option<string>, id: string)
    requires Wellformed(t) && Asks(t, d, correlation)
    requires id in t.requests && t.requests[id].owner == d.command.owner && t.requests[id].key == Some(d.command.key)
    ensures Handle(t, d) == t
    ensures Serial(t, d) == if t.requests[id].source == d.command.source then Answer(t.requests[id]) else Conflict
  {
    AskingIsValid(t, d, correlation);
    FoundIsStored(t, d.command.owner, d.command.key, d.command.source);
    hide Problem, NewRequest;
    var bound := FindByKey(t.requests, d.command.owner, d.command.key);
    assert HasKey(t.requests[id], d.command.owner, d.command.key);
    assert HasKey(t.requests[id], bound.value.owner, bound.value.key.value);
  }

  /** Under a new key, a source the owner already has answers with its request. */
  lemma KnownSourceIsReplayed(t: Tables, d: Delivery, correlation: Option<string>, id: string)
    requires Wellformed(t) && Asks(t, d, correlation)
    requires id in t.requests && t.requests[id].owner == d.command.owner && t.requests[id].source == d.command.source
    requires forall k | k in t.requests && t.requests[k].owner == d.command.owner :: t.requests[k].key != Some(d.command.key)
    ensures Handle(t, d) == t && Serial(t, d) == Answer(t.requests[id])
  {
    AskingIsValid(t, d, correlation);
    FoundIsStored(t, d.command.owner, d.command.key, d.command.source);
    hide Problem, NewRequest;
    var c := d.command;
    var known := FindBySource(t.requests, c.owner, c.source);
    assert HasSource(t.requests[id], c.owner, c.source);
    assert HasSource(t.requests[id], known.value.owner, known.value.source);
  }

  // ---- Refused input and handled events ----

  /** The first thing wrong with a delivery, in the order the use cases look. */
  ghost predicate Lacks(d: Delivery, why: Rejection) {
    var c := d.command;
    if Blank(d.event) then why == FieldRequired("eventId")
    else if c.CreateRequest? then
      if Blank(c.key) then why == FieldRequired("idempotencyKey")
      else (forall stored :: !Correlates(c.correlation, stored)) && why == InvalidCorrelation
    else if Blank(c.id) then why == FieldRequired("processingRequestId")
    else || (c.CompleteRequest? && Blank(c.zip) && why == FieldRequired("zipStorageKey"))
         || (c.FailRequest? && !KnownCode(c.code) && why == UnknownCode)
  }

  /** Input that is not in order is refused for what is wrong with it, and leaves no trace. */
  lemma BadInputIsRefused(t: Tables, d: Delivery, why: Rejection)
    requires Lacks(d, why)
    ensures Refuses(t, d, why)
  {
    if d.command.CreateRequest? && d.command.correlation.Text? {
      var text := Trim(d.command.correlation.text);
      assert Correlates(d.command.correlation, Some(text)) <==> 1 <= |text| <= 128 && Printable(text);
    }
    assert d.command.CreateRequest? && d.command.correlation.Absent? ==> Correlates(d.command.correlation, None);
  }

  /** A creation with a blank owner, e-mail or source is refused, unless its event was handled before. */
  lemma BlankPartsAreRefused(t: Tables, d: Delivery, correlation: Option<string>)
    requires Wellformed(t) && d.command.CreateRequest? && !Blank(d.event) && !Blank(d.command.key)
    requires d.event !in t.events && Correlates(d.command.correlation, correlation)
    requires Blank(d.command.owner) || Blank(d.command.email) || Blank(d.command.source)
    ensures Refuses(t, d, FieldRequired(if Blank(d.command.owner) then "ownerUserId"
                                        else if Blank(d.command.email) then "ownerEmail" else "sourceStorageKey"))
  {
  }

  /** An unseen event for no stored request is refused. */
  lemma UnknownRequestIsRefused(t: Tables, d: Delivery)
    requires !d.command.CreateRequest? && d.event !in t.events && d.command.id !in t.requests
    requires forall why :: !Lacks(d, why)
    ensures Refuses(t, d, NotFound)
  {
    assert !Lacks(d, FieldRequired("eventId")) && !Lacks(d, FieldRequired("processingRequestId"));
    assert !Lacks(d, FieldRequired("zipStorageKey")) && !Lacks(d, UnknownCode);
  }
}
