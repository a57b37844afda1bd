/** The outbox tells each request's story exactly once, and completely. */
module Announcements {
  import opened Text
  import opened Lifecycle
  import opened Catalog

  /** The outbox rows of one request, in order. */
  function RowsOf(outbox: seq<OutboxRow>, id: string): (rows: seq<OutboxRow>)
    ensures forall row | row in rows :: row in outbox && row.request == id
    ensures forall row | row in outbox && row.request == id :: row in rows
    ensures (forall row | row in outbox :: row.request != id) ==> rows == []
  {
    if outbox == [] then []
    else if outbox[|outbox| - 1].request == id then RowsOf(outbox[..|outbox| - 1], id) + [outbox[|outbox| - 1]]
    else RowsOf(outbox[..|outbox| - 1], id)
  }

  lemma RowsOfSnoc(outbox: seq<OutboxRow>, row: OutboxRow, id: string)
    ensures RowsOf(outbox + [row], id) == if row.request == id then RowsOf(outbox, id) + [row] else RowsOf(outbox, id)
  {
    assert (outbox + [row])[..|outbox|] == outbox;
  }

  datatype Kind = OfValidation | OfQueued | OfTerminal

  function KindOf(row: OutboxRow): Kind {
    match row
    case ValidationRequested(_, _, _, _, _, _) => OfValidation
    case ProcessingQueued(_, _, _, _, _, _, _) => OfQueued
    case Terminal(_, _, _, _, _, _, _, _, _, _) => OfTerminal
  }

  function Count(rows: seq<OutboxRow>, kind: Kind): nat {
    if rows == [] then 0
    else Count(rows[..|rows| - 1], kind) + if KindOf(rows[|rows| - 1]) == kind then 1 else 0
  }

  lemma CountSnoc(rows: seq<OutboxRow>, row: OutboxRow, kind: Kind)
    ensures Count(rows + [row], kind) == Count(rows, kind) + if KindOf(row) == kind then 1 else 0
  {
    assert (rows + [row])[..|rows|] == rows;
  }

  /** What a reader of the events alone knows of a request. Starts are not announced. */
  datatype View = View(status: Status, attempt: Option<string>, zip: Option<string>, failure: Option<FailureCode>)

  function ViewOf(r: Request): View {
    View(if r.status == Processing then Queued else r.status, r.attempt, r.zip, r.failure)
  }

  function Absorb(v: Option<View>, row: OutboxRow): Option<View> {
    match row
    case ValidationRequested(_, _, _, _, _, _) => Some(View(Received, None, None, None))
    case ProcessingQueued(_, _, _, _, attempt, _, _) =>
      if v.None? then None else Some(v.value.(status := Queued, attempt := attempt))
    case Terminal(_, _, _, _, status, zip, reason, _, _, _) =>
      if v.None? then None
      else Some(v.value.(status := status, zip := zip,
                         failure := if reason.Some? then CodeOfReason(reason.value) else None))
  }

  /** Rebuilds a request's state from its rows alone. */
  function Rebuild(rows: seq<OutboxRow>): Option<View> {
    if rows == [] then None else Absorb(Rebuild(rows[..|rows| - 1]), rows[|rows| - 1])
  }

  lemma RebuildSnoc(rows: seq<OutboxRow>, row: OutboxRow)
    ensures Rebuild(rows + [row]) == Absorb(Rebuild(rows), row)
  {
    assert (rows + [row])[..|rows|] == rows;
  }

  function Times(b: bool): nat { if b then 1 else 0 }

  /** One row per fact, none besides. */
  predicate OncePerFact(rows: seq<OutboxRow>, r: Request) {
    && Count(rows, OfValidation) == 1
    && Count(rows, OfQueued) == Times(r.attempt.Some?)
    && Count(rows, OfTerminal) == Times(r.status == Completed || r.status == Failed)
  }

  /** Every row carries the stored owner and trace id, and a terminal row the stored outcome. */
  predicate Faithful(row: OutboxRow, r: Request) {
    && row.request == r.id && row.owner == r.owner && row.correlation == r.correlation
    && (row.ValidationRequested? || row.ProcessingQueued? ==> row.source == r.source)
    && (row.ProcessingQueued? ==> row.attempt == r.attempt)
    && (row.Terminal? ==>
          && row.email == r.email && row.status == r.status && row.zip == r.zip && row.attempt == r.attempt
          && row.reason == if r.failure.Some? then Some(ReasonFor(r.failure.value)) else None)
  }

  predicate Tells(rows: seq<OutboxRow>, r: Request) {
    && OncePerFact(rows, r)
    && Rebuild(rows) == Some(ViewOf(r))
    && (forall row | row in rows :: Faithful(row, r))
    && (r.zip.Some? ==> !Blank(r.zip.value))
  }

  /** In this database every request is told exactly by its rows, and no row is about anything else. */
  ghost predicate Told(requests: map<string, Request>, outbox: seq<OutboxRow>) {
    && (forall id | id in requests :: Tells(RowsOf(outbox, id), requests[id]))
    && (forall row | row in outbox :: row.request in requests)
  }

  /** Every database built by deliveries alone is told by its outbox. */
  lemma {:induction false} OutboxTellsTheState(ds: seq<Delivery>)
    ensures var t := HandleAll(EMPTY, ds); Wellformed(t) && Told(t.requests, t.outbox)
  {
    if ds != [] {
      var before, d := HandleAll(EMPTY, ds[..|ds| - 1]), ds[|ds| - 1];
      OutboxTellsTheState(ds[..|ds| - 1]);
      HandleKeepsTables(before, d);
      HandleKeepsTold(before, d);
    }
  }

  lemma HandleKeepsTold(t: Tables, d: Delivery)
    requires Wellformed(t) && Told(t.requests, t.outbox)
    ensures Told(Handle(t, d).requests, Handle(t, d).outbox)
  {
    hide Told;
    var v := Serial(t, d);
    if v.Write? {
      if d.command.CreateRequest? {
        CreationIsTold(v.request, d);
        CreationKeepsTold(t.requests, t.outbox, v.request, v.row.value);
      } else {
        UpdateKeepsTold(t, t.requests[d.command.id], d);
      }
    }
  }

  lemma CreationKeepsTold(requests: map<string, Request>, outbox: seq<OutboxRow>, r: Request, row: OutboxRow)
    requires Told(requests, outbox) && r.id !in requests
    requires row.request == r.id && Tells([row], r)
    ensures Told(requests[r.id := r], outbox + [row])
  {
    hide Tells;
    var rows := RowsOf(outbox, r.id);
    assert rows == [];
    assert rows + [row] == [row];
    WriteKeepsTold(requests, outbox, r, Some(row));
  }

  lemma AnnouncesItself(r: Request, d: Delivery)
    requires !d.command.CreateRequest? && Consistent(r) && Decide(r, d).Write?
    ensures var v := Decide(r, d); v.request.id == r.id && (v.row.Some? ==> v.row.value.request == r.id)
  {
    DecideAdvances(r, d);
  }

  lemma UpdateKeepsTold(t: Tables, r: Request, d: Delivery)
    requires Told(t.requests, t.outbox) && r.id in t.requests && t.requests[r.id] == r && Consistent(r)
    requires !d.command.CreateRequest? && Problem(d).None? && Decide(r, d).Write?
    ensures var v := Decide(r, d);
            Told(t.requests[r.id := v.request], if v.row.Some? then t.outbox + [v.row.value] else t.outbox)
  {
    var v := Decide(r, d);
    AnnouncesItself(r, d);
    hide Decide, Problem, Tells, Consistent;
    UpdateIsTold(RowsOf(t.outbox, r.id), r, d);
    WriteKeepsTold(t.requests, t.outbox, v.request, v.row);
  }

  lemma WriteKeepsTold(requests: map<string, Request>, outbox: seq<OutboxRow>, r: Request, row: Option<OutboxRow>)
    requires Told(requests, outbox)
    requires row.Some? ==> row.value.request == r.id
    requires Tells(if row.Some? then RowsOf(outbox, r.id) + [row.value] else RowsOf(outbox, r.id), r)
    ensures Told(requests[r.id := r], if row.Some? then outbox + [row.value] else outbox)
  {
    hide Tells;
    var requests', outbox' := requests[r.id := r], if row.Some? then outbox + [row.value] else outbox;
    forall id | id in requests' ensures Tells(RowsOf(outbox', id), requests'[id]) {
      if row.Some? { RowsOfSnoc(outbox, row.value, id); }
    }
  }

  lemma CreationIsTold(r: Request, d: Delivery)
    requires d.command.CreateRequest? && Problem(d).None? && NewRequest(d) == Changed(r)
    ensures Tells([Announcement(r, d).value], r)
  {
    var row := Announcement(r, d).value;
    assert [] + [row] == [row];
    Counts([], row);
    RebuildSnoc([], row);
  }

  lemma UpdateIsTold(rows: seq<OutboxRow>, r: Request, d: Delivery)
    requires !d.command.CreateRequest? && Problem(d).None? && Consistent(r)
    requires Decide(r, d).Write? && Tells(rows, r)
    ensures var v := Decide(r, d);
            Tells(if v.row.Some? then rows + [v.row.value] else rows, v.request)
  {
    match d.command
    case AcceptRequest(_) => AcceptanceIsTold(rows, r, d);
    case StartRequest(_, _) => NoneOfKind(rows, OfTerminal);
    case CompleteRequest(_, _, _) => OutcomeIsTold(rows, r, d);
    case FailRequest(_, _, _) => OutcomeIsTold(rows, r, d);
  }

  lemma AcceptanceIsTold(rows: seq<OutboxRow>, r: Request, d: Delivery)
    requires d.command.AcceptRequest? && Consistent(r) && Decide(r, d).Write? && Tells(rows, r)
    ensures Tells(rows + [Decide(r, d).row.value], Decide(r, d).request)
  {
    var row := Decide(r, d).row.value;
    Counts(rows, row);
    RebuildSnoc(rows, row);
    NoneOfKind(rows, OfTerminal);
    NoneOfKind(rows, OfQueued);
  }

  lemma OutcomeIsTold(rows: seq<OutboxRow>, r: Request, d: Delivery)
    requires d.command.CompleteRequest? || d.command.FailRequest?
    requires Consistent(r) && Problem(d).None? && Decide(r, d).Write? && Tells(rows, r)
    ensures Tells(rows + [Decide(r, d).row.value], Decide(r, d).request)
  {
    hide ParseCode, ReasonFor, CodeOfReason;
    var row := Decide(r, d).row.value;
    Counts(rows, row);
    RebuildSnoc(rows, row);
    NoneOfKind(rows, OfTerminal);
    if d.command.FailRequest? {
      ReasonDeterminesCode(ParseCode(d.command.code).value);
    }
  }

  lemma Counts(rows: seq<OutboxRow>, row: OutboxRow)
    ensures forall kind :: Count(rows + [row], kind) == Count(rows, kind) + if KindOf(row) == kind then 1 else 0
  {
    forall kind ensures Count(rows + [row], kind) == Count(rows, kind) + if KindOf(row) == kind then 1 else 0 {
      CountSnoc(rows, row, kind);
    }
  }

  lemma {:induction false} NoneOfKind(rows: seq<OutboxRow>, kind: Kind)
    requires Count(rows, kind) == 0
    ensures forall row | row in rows :: KindOf(row) != kind
  {
    if rows != [] {
      NoneOfKind(rows[..|rows| - 1], kind);
      assert rows == rows[..|rows| - 1] + [rows[|rows| - 1]];
    }
  }

  lemma {:induction false} SomeOfKind(rows: seq<OutboxRow>, kind: Kind)
    requires Count(rows, kind) > 0
    ensures exists row :: row in rows && KindOf(row) == kind
  {
    if KindOf(rows[|rows| - 1]) != kind {
      SomeOfKind(rows[..|rows| - 1], kind);
    }
  }

  // ---- The owner's reads agree with what was announced ----

  datatype Archive = Ready(zip: string) | NotCompleted | ArchiveNotFound

  function FindByIdAndOwner(requests: map<string, Request>, id: string, owner: string): Option<Request> {
    if id in requests && requests[id].owner == owner then Some(requests[id]) else None
  }

  function ArchiveFor(requests: map<string, Request>, owner: string, id: string): Archive {
    match FindByIdAndOwner(requests, id, owner)
    case None => ArchiveNotFound
    case Some(r) =>
      if r.status != Completed || r.zip.None? || r.zip.value == "" then NotCompleted else Ready(r.zip.value)
  }

  datatype Item = Item(id: string, status: Status, createdAt: int, updatedAt: int, reason: Option<string>)

  function ItemOf(r: Request): Item {
    Item(r.id, r.status, r.createdAt, r.updatedAt,
         if r.status == Failed && r.failure.Some? then Some(ReasonFor(r.failure.value)) else None)
  }

  ghost predicate AnnouncedArchive(outbox: seq<OutboxRow>, owner: string, id: string, zip: string) {
    exists row :: row in outbox && row.Terminal? && row.status == Completed
                  && row.request == id && row.owner == owner && row.zip == Some(zip)
  }

  /** An archive is ready for an owner exactly when its completion was announced for that owner. */
  lemma ArchiveAgreesWithOutbox(ds: seq<Delivery>, owner: string, id: string, zip: string)
    ensures var t := HandleAll(EMPTY, ds);
            ArchiveFor(t.requests, owner, id) == Ready(zip) <==> AnnouncedArchive(t.outbox, owner, id, zip)
  {
    OutboxTellsTheState(ds);
    ArchiveIsAnnounced(HandleAll(EMPTY, ds).requests, HandleAll(EMPTY, ds).outbox, owner, id, zip);
  }

  lemma ArchiveIsAnnounced(requests: map<string, Request>, outbox: seq<OutboxRow>, owner: string, id: string, zip: string)
    requires Told(requests, outbox)
    requires forall id | id in requests :: requests[id].id == id && Consistent(requests[id])
    ensures ArchiveFor(requests, owner, id) == Ready(zip) <==> AnnouncedArchive(outbox, owner, id, zip)
  {
    hide Tells;
    if id in requests {
      ArchiveAgreesWithRows(requests[id], outbox, owner, zip);
    }
  }

  lemma ArchiveAgreesWithRows(r: Request, outbox: seq<OutboxRow>, owner: string, zip: string)
    requires Consistent(r) && Tells(RowsOf(outbox, r.id), r)
    ensures r.owner == owner && r.status == Completed && r.zip == Some(zip) <==> AnnouncedArchive(outbox, owner, r.id, zip)
    ensures r.zip != Some("")
  {
    if r.owner == owner && r.status == Completed && r.zip == Some(zip) {
      SomeOfKind(RowsOf(outbox, r.id), OfTerminal);
    }
    if AnnouncedArchive(outbox, owner, r.id, zip) {
      var row :| row in outbox && row.Terminal? && row.status == Completed
                 && row.request == r.id && row.owner == owner && row.zip == Some(zip);
      assert row in RowsOf(outbox, r.id);
    }
  }

  /** An item shows a reason exactly when the request failed, and it is the announced one. */
  lemma {:induction false} ItemAgreesWithOutbox(ds: seq<Delivery>, t: Tables, id: string)
    requires t == HandleAll(EMPTY, ds) && id in t.requests
    ensures var item := ItemOf(t.requests[id]);
            && (item.reason.Some? <==> item.status == Failed)
            && (item.reason.Some? ==>
                  exists row :: row in t.outbox && row.Terminal? && row.request == id
                                && row.status == Failed && row.reason == item.reason)
  {
    OutboxTellsTheState(ds);
    if ItemOf(t.requests[id]).reason.Some? {
      SomeOfKind(RowsOf(t.outbox, id), OfTerminal);
    }
  }

  ghost predicate CreatedFor(outbox: seq<OutboxRow>, owner: string, id: string) {
    exists row :: row in outbox && row.ValidationRequested? && row.request == id && row.owner == owner
  }

  ghost predicate CompletedFor(outbox: seq<OutboxRow>, owner: string, id: string) {
    exists row :: row in outbox && row.Terminal? && row.status == Completed && row.request == id && row.owner == owner
  }

  /**
   * The three answers tell apart exactly what was announced: nothing was created under this id for this
   * owner, it was created but not completed, or it was completed.
   */
  lemma {:induction false} ArchiveTellsApart(ds: seq<Delivery>, t: Tables, owner: string, id: string)
    requires t == HandleAll(EMPTY, ds)
    ensures ArchiveFor(t.requests, owner, id) == ArchiveNotFound <==> !CreatedFor(t.outbox, owner, id)
    ensures ArchiveFor(t.requests, owner, id) == NotCompleted
            <==> CreatedFor(t.outbox, owner, id) && !CompletedFor(t.outbox, owner, id)
  {
    OutboxTellsTheState(ds);
    hide Tells;
    if id in t.requests {
      ArchiveAgreesWithRows(t.requests[id], t.outbox, owner, if t.requests[id].zip.Some? then t.requests[id].zip.value else "");
      RowsTellApart(t.requests[id], t.outbox, owner);
    }
  }

  lemma RowsTellApart(r: Request, outbox: seq<OutboxRow>, owner: string)
    requires Consistent(r) && Tells(RowsOf(outbox, r.id), r)
    ensures CreatedFor(outbox, owner, r.id) <==> r.owner == owner
    ensures CompletedFor(outbox, owner, r.id) <==> r.owner == owner && r.status == Completed
  {
    var rows := RowsOf(outbox, r.id);
    SomeOfKind(rows, OfValidation);
    if r.status == Completed { SomeOfKind(rows, OfTerminal); }
    assert forall row | row in outbox && row.request == r.id :: row in rows;
  }

  /** An item shows the request's own id, status and times, and its reason in words, and nothing else. */
  lemma ItemShowsTheRequest(r: Request)
    requires Consistent(r)
    ensures var item := ItemOf(r);
            && item.id == r.id && item.status == r.status
            && item.createdAt == r.createdAt && item.updatedAt == r.updatedAt
            && item.reason == match r.failure
                              case None => None
                              case Some(FormatoInvalido) => Some("O arquivo enviado nao e um video MP4 ou MOV valido.")
                              case Some(DuracaoExcedida) => Some("O video excede a duracao maxima de 10 minutos.")
                              case Some(ProcessamentoFalhou) => Some("Nao foi possivel processar o video. Tente enviar novamente.")
  {
  }
}
