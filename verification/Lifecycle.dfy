/** The life of one processing request: its data, its transitions and what each one keeps. */
module Lifecycle {
  import opened Text

  datatype Status = Received | Queued | Processing | Completed | Failed

  datatype FailureCode = FormatoInvalido | DuracaoExcedida | ProcessamentoFalhou

  datatype Request = Request(
    id: string,
    owner: string,
    email: string,
    source: string,
    status: Status,
    attempt: Option<string>,
    zip: Option<string>,
    failure: Option<FailureCode>,
    key: Option<string>,
    correlation: Option<string>,
    createdAt: int,
    updatedAt: int)

  /** Everything the domain refuses, which consumers treat as a permanent failure. */
  datatype Rejection =
    | FieldRequired(field: string)
    | InvalidCorrelation
    | UnknownCode
    | NotFound
    | CannotAccept | CannotStart | CannotComplete | CannotFail | CannotReject

  /**
   * A transition throws, returns the very object it was given, or returns a new one.
   * `UnchangedIsEquality` shows that comparing the values tells the last two apart.
   */
  datatype Transition =
    | Throw(why: Rejection)
    | Same(request: Request)
    | Changed(request: Request)

  function ParseCode(code: string): Option<FailureCode> {
    match code
    case "FORMATO_INVALIDO" => Some(FormatoInvalido)
    case "DURACAO_EXCEDIDA" => Some(DuracaoExcedida)
    case "PROCESSAMENTO_FALHOU" => Some(ProcessamentoFalhou)
    case _ => None
  }

  function ReasonFor(code: FailureCode): string {
    match code
    case FormatoInvalido => "O arquivo enviado nao e um video MP4 ou MOV valido."
    case DuracaoExcedida => "O video excede a duracao maxima de 10 minutos."
    case ProcessamentoFalhou => "Nao foi possivel processar o video. Tente enviar novamente."
  }

  /** Reads a published reason back; only for stating what a reason determines. */
  function CodeOfReason(reason: string): Option<FailureCode> {
    if reason == ReasonFor(FormatoInvalido) then Some(FormatoInvalido)
    else if reason == ReasonFor(DuracaoExcedida) then Some(DuracaoExcedida)
    else if reason == ReasonFor(ProcessamentoFalhou) then Some(ProcessamentoFalhou)
    else None
  }

  lemma ReasonDeterminesCode(code: FailureCode)
    ensures CodeOfReason(ReasonFor(code)) == Some(code)
  {
    assert |ReasonFor(FormatoInvalido)| != |ReasonFor(DuracaoExcedida)|;
    assert |ReasonFor(FormatoInvalido)| != |ReasonFor(ProcessamentoFalhou)|;
    assert |ReasonFor(DuracaoExcedida)| != |ReasonFor(ProcessamentoFalhou)|;
  }

  function New(id: string, owner: string, email: string, source: string,
               key: Option<string>, correlation: Option<string>, now: int): Transition
  {
    if Blank(owner) then Throw(FieldRequired("ownerUserId"))
    else if Blank(email) then Throw(FieldRequired("ownerEmail"))
    else if Blank(source) then Throw(FieldRequired("sourceStorageKey"))
    else Changed(Request(id, owner, email, source, Received, None, None, None,
                         key, correlation, now, now))
  }

  function Accept(r: Request, attempt: string, now: int): Transition {
    if r.status != Received then Throw(CannotAccept)
    else Changed(r.(status := Queued, attempt := Some(attempt), updatedAt := now))
  }

  function Start(r: Request, now: int): Transition {
    if r.status == Received then Throw(CannotStart)
    else if r.status != Queued then Same(r)
    else Changed(r.(status := Processing, updatedAt := now))
  }

  function Complete(r: Request, zip: string, now: int): Transition {
    if Blank(zip) then Throw(FieldRequired("zipStorageKey"))
    else if r.status == Completed && r.zip == Some(zip) then Same(r)
    else if r.status != Queued && r.status != Processing then Throw(CannotComplete)
    else Changed(r.(status := Completed, zip := Some(zip), updatedAt := now))
  }

  function Fail(r: Request, code: string, now: int): Transition {
    if r.status != Queued && r.status != Processing then Throw(CannotFail)
    else if ParseCode(code).None? then Throw(UnknownCode)
    else Changed(r.(status := Failed, failure := ParseCode(code), updatedAt := now))
  }

  function Reject(r: Request, code: string, now: int): Transition {
    if r.status != Received then Throw(CannotReject)
    else if ParseCode(code).None? then Throw(UnknownCode)
    else Changed(r.(status := Failed, failure := ParseCode(code), updatedAt := now))
  }

  predicate IsStale(r: Request, attempt: Option<string>) {
    r.attempt.Some? && attempt != r.attempt
  }

  // ---- What every transition keeps ----

  /** Which optional facts a status carries. */
  predicate Consistent(r: Request) {
    && (r.status == Received ==> r.attempt.None?)
    && (r.status in {Queued, Processing, Completed} ==> r.attempt.Some?)
    && (r.zip.Some? <==> r.status == Completed)
    && (r.failure.Some? <==> r.status == Failed)
  }

  function Rank(s: Status): nat {
    match s
    case Received => 0
    case Queued => 1
    case Processing => 2
    case Completed => 3
    case Failed => 3
  }

  predicate SameIdentity(r: Request, r': Request) {
    && r'.id == r.id && r'.owner == r.owner && r'.email == r.email && r'.source == r.source
    && r'.key == r.key && r'.correlation == r.correlation && r'.createdAt == r.createdAt
  }

  predicate WriteOnce<T(==)>(before: Option<T>, after: Option<T>) {
    before.Some? ==> after == before
  }

  /** What any number of updates may do to a request: nothing, or move it strictly forward. */
  predicate Advances(r: Request, r': Request) {
    && SameIdentity(r, r')
    && WriteOnce(r.attempt, r'.attempt) && WriteOnce(r.zip, r'.zip) && WriteOnce(r.failure, r'.failure)
    && (r' == r || Rank(r.status) < Rank(r'.status))
  }

  ghost predicate IsTransition(r: Request, tr: Transition) {
    || (exists a, now :: tr == Accept(r, a, now))
    || (exists now :: tr == Start(r, now))
    || (exists z, now :: tr == Complete(r, z, now))
    || (exists c, now :: tr == Fail(r, c, now))
    || (exists c, now :: tr == Reject(r, c, now))
  }

  /** Every transition keeps the invariant and identity, writes facts once, and climbs strictly. */
  lemma TransitionAdvances(r: Request, tr: Transition)
    requires Consistent(r) && IsTransition(r, tr) && !tr.Throw?
    ensures Consistent(tr.request) && Advances(r, tr.request)
    ensures tr.Changed? ==> Rank(r.status) < Rank(tr.request.status)
    ensures r.status in {Completed, Failed} ==> tr == Same(r)
  {
  }

  /** `isUnchanged` compares objects; comparing values would give the same answer. */
  lemma UnchangedIsEquality(r: Request, tr: Transition)
    requires IsTransition(r, tr) && !tr.Throw?
    ensures tr.Same? <==> tr.request == r
  {
  }

  predicate Finished(r: Request) {
    r.status == Completed || r.status == Failed
  }

  /**
   * Which transitions apply is a matter of the attempt alone: an unfinished request without one can
   * only be accepted or rejected, one with an attempt can only start, complete or fail.
   */
  lemma AttemptDecides(r: Request, attempt: string, zip: string, code: string, now: int)
    requires Consistent(r) && !Blank(zip) && ParseCode(code).Some?
    ensures Accept(r, attempt, now).Changed? <==> r.attempt.None? && !Finished(r)
    ensures Reject(r, code, now).Changed? <==> r.attempt.None? && !Finished(r)
    ensures Complete(r, zip, now).Changed? <==> r.attempt.Some? && !Finished(r)
    ensures Fail(r, code, now).Changed? <==> r.attempt.Some? && !Finished(r)
    ensures Start(r, now).Throw? <==> r.attempt.None? && !Finished(r)
    ensures Start(r, now).Changed? <==> r.attempt.Some? && !Finished(r) && r.status != Processing
    ensures Start(r, now).Same? <==> Finished(r) || r.status == Processing
  {
  }

  lemma AdvancesIsTransitive(a: Request, b: Request, c: Request)
    requires Advances(a, b) && Advances(b, c)
    ensures Advances(a, c)
  {
  }
}
