/** Events that leave no trace: starts, which nothing depends on, and events of stale attempts. */
module Erasure {
  import opened Text
  import opened Lifecycle
  import opened Catalog
  import opened Runs

  predicate AwaitsOutcome(s: Status) {
    s == Queued || s == Processing
  }

  /** Equal, or awaiting an outcome and equal but for whether, and when, processing was seen to start. */
  predicate UpToStart(a: Request, b: Request) {
    || a == b
    || (AwaitsOutcome(a.status) && AwaitsOutcome(b.status)
        && a.(status := Received, updatedAt := 0) == b.(status := Received, updatedAt := 0))
  }

  ghost predicate SameEventsOutside(a: map<string, string>, b: map<string, string>, erased: set<string>) {
    forall e | e !in erased :: (e in a <==> e in b) && (e in a ==> a[e] == b[e])
  }

  /** Two databases that differ only by starts, whose event ids are all in `erased`. */
  ghost predicate SimilarUpToStart(a: Tables, b: Tables, erased: set<string>) {
    && a.outbox == b.outbox
    && a.requests.Keys == b.requests.Keys
    && (forall id | id in a.requests :: UpToStart(a.requests[id], b.requests[id]))
    && SameEventsOutside(a.events, b.events, erased)
  }

  /** The event ids of a run's starts. */
  function StartIds(ds: seq<Delivery>): set<string> {
    set d | d in ds && d.command.StartRequest? :: d.event
  }

  predicate StartsShareNoId(ds: seq<Delivery>) {
    forall d | d in ds && !d.command.StartRequest? :: d.event !in StartIds(ds)
  }

  function EraseStarts(ds: seq<Delivery>): seq<Delivery> {
    if ds == [] then []
    else if ds[|ds| - 1].command.StartRequest? then EraseStarts(ds[..|ds| - 1])
    else EraseStarts(ds[..|ds| - 1]) + [ds[|ds| - 1]]
  }

  /** Deleting every start from a run changes neither the outbox nor any request, up to the start. */
  lemma {:induction false} StartsAreErasable(t: Tables, ds: seq<Delivery>)
    requires Wellformed(t) && StartsShareNoId(ds)
    ensures SimilarUpToStart(HandleAll(t, ds), HandleAll(t, EraseStarts(ds)), StartIds(ds))
  {
    StartsAreErasableWithin(t, ds, StartIds(ds));
  }

  lemma {:induction false} StartsAreErasableWithin(t: Tables, ds: seq<Delivery>, erased: set<string>)
    requires Wellformed(t)
    requires forall d | d in ds :: d.command.StartRequest? <==> d.event in erased
    ensures SimilarUpToStart(HandleAll(t, ds), HandleAll(t, EraseStarts(ds)), erased)
  {
    if ds != [] {
      var init, d := ds[..|ds| - 1], ds[|ds| - 1];
      StartsAreErasableWithin(t, init, erased);
      HandleAllKeepsTables(t, init);
      HandleAllKeepsTables(t, EraseStarts(init));
      if d.command.StartRequest? {
        StartIsInvisible(HandleAll(t, init), HandleAll(t, EraseStarts(init)), d, erased);
      } else {
        HandleAllSnoc(t, EraseStarts(init), d);
        OtherEventsKeepSimilarity(HandleAll(t, init), HandleAll(t, EraseStarts(init)), d, erased);
      }
    }
  }

  lemma StartIsInvisible(a: Tables, b: Tables, d: Delivery, erased: set<string>)
    requires Wellformed(a) && SimilarUpToStart(a, b, erased)
    requires d.command.StartRequest? && d.event in erased
    ensures SimilarUpToStart(Handle(a, d), b, erased)
  {
    StartVerdict(a, d);
    var v := Serial(a, d);
    if v.Write? {
      UpToStartIsTransitive(v.request, a.requests[v.request.id], b.requests[v.request.id]);
    }
    hide Serial, Wellformed, UpToStart;
    QuietEffect(a, b, d.event, v, erased);
  }

  /** An effect that shows neither in the outbox nor beyond the start leaves the databases similar. */
  lemma QuietEffect(a: Tables, b: Tables, event: string, v: Verdict, erased: set<string>)
    requires SimilarUpToStart(a, b, erased) && event in erased
    requires v.Write? ==> v.row.None? && v.request.id in a.requests && UpToStart(v.request, b.requests[v.request.id])
    ensures SimilarUpToStart(Apply(a, event, v), b, erased)
  {
    hide UpToStart;
  }

  lemma UpToStartIsTransitive(a: Request, b: Request, c: Request)
    requires UpToStart(a, b) && UpToStart(b, c)
    ensures UpToStart(a, c)
  {
  }

  lemma StartVerdict(t: Tables, d: Delivery)
    requires Wellformed(t) && d.command.StartRequest?
    ensures var v := Serial(t, d);
            v.Write? ==> v.row.None? && v.request.id in t.requests && UpToStart(v.request, t.requests[v.request.id])
  {
    if Serial(t, d).Write? {
      LifecycleVerdict(t, d);
    }
  }

  lemma OtherEventsKeepSimilarity(a: Tables, b: Tables, d: Delivery, erased: set<string>)
    requires Wellformed(a) && Wellformed(b) && SimilarUpToStart(a, b, erased)
    requires !d.command.StartRequest? && d.event !in erased
    ensures SimilarUpToStart(Handle(a, d), Handle(b, d), erased)
  {
    hide Serial, SimilarUpToStart, Wellformed;
    if d.command.CreateRequest? {
      CreateAlike(a, b, d, erased);
    } else {
      LifecycleAlike(a, b, d, erased);
    }
    ApplyAlike(a, b, d.event, Serial(a, d), Serial(b, d), erased);
  }

  /** Verdicts with the same effect, bar what is known of the start. */
  predicate Alike(va: Verdict, vb: Verdict) {
    && (va.Record? <==> vb.Record?) && (va.Write? <==> vb.Write?)
    && (va.Record? ==> va.request.id == vb.request.id)
    && (va.Write? ==> va.request.id == vb.request.id && UpToStart(va.request, vb.request) && va.row == vb.row)
  }

  lemma ApplyAlike(a: Tables, b: Tables, event: string, va: Verdict, vb: Verdict, erased: set<string>)
    requires SimilarUpToStart(a, b, erased) && Alike(va, vb)
    ensures SimilarUpToStart(Apply(a, event, va), Apply(b, event, vb), erased)
  {
  }

  lemma LifecycleAlike(a: Tables, b: Tables, d: Delivery, erased: set<string>)
    requires Wellformed(a) && Wellformed(b) && SimilarUpToStart(a, b, erased)
    requires !d.command.StartRequest? && !d.command.CreateRequest? && d.event !in erased
    ensures Alike(Serial(a, d), Serial(b, d))
  {
    hide Decide, Problem, UpToStart, UniqueKeys, UniqueSources;
    assert FindByEvent(a, d.event).Some? <==> FindByEvent(b, d.event).Some?;
    if d.command.id in a.requests {
      DecideAlike(a.requests[d.command.id], b.requests[d.command.id], d);
    }
  }

  /** Bar starts, two requests equal up to the start are treated alike and announced alike. */
  lemma DecideAlike(a: Request, b: Request, d: Delivery)
    requires UpToStart(a, b) && Consistent(a) && Consistent(b)
    requires !d.command.CreateRequest? && !d.command.StartRequest?
    ensures var va, vb := Decide(a, d), Decide(b, d);
            && (va.Refuse? <==> vb.Refuse?) && (va.Record? <==> vb.Record?) && (va.Write? <==> vb.Write?)
            && (va.Record? ==> UpToStart(va.request, vb.request))
            && (va.Write? ==> va.request.id == a.id && UpToStart(va.request, vb.request) && va.row == vb.row)
            && (va.Record? ==> va.request == a && vb.request == b)
  {
  }

  lemma CreateAlike(a: Tables, b: Tables, d: Delivery, erased: set<string>)
    requires SimilarUpToStart(a, b, erased) && d.command.CreateRequest? && d.event !in erased
    ensures Alike(Serial(a, d), Serial(b, d))
  {
    hide Problem, NewRequest;
    var c := d.command;
    FindAlike(a, b, erased, c.owner, c.key, c.source);
    FindAlike(b, a, erased, c.owner, c.key, c.source);
    assert FindByEvent(a, d.event).Some? <==> FindByEvent(b, d.event).Some?;
  }

  lemma FindAlike(a: Tables, b: Tables, erased: set<string>, owner: string, key: string, source: string)
    requires a.requests.Keys == b.requests.Keys
    requires forall id | id in a.requests :: SameIdentity(a.requests[id], b.requests[id])
    ensures FindByKey(a.requests, owner, key).Some? ==> FindByKey(b.requests, owner, key).Some?
    ensures FindBySource(a.requests, owner, source).Some? ==> FindBySource(b.requests, owner, source).Some?
  {
    var byKey, bySource := FindByKey(a.requests, owner, key), FindBySource(a.requests, owner, source);
    if byKey.Some? {
      var id :| id in a.requests && a.requests[id] == byKey.value;
      assert HasKey(b.requests[id], owner, key);
    }
    if bySource.Some? {
      var id :| id in a.requests && a.requests[id] == bySource.value;
      assert HasSource(b.requests[id], owner, source);
    }
  }

  lemma AlikeToItself(t: Tables, erased: set<string>)
    ensures SimilarUpToStart(t, t, erased)
  {
  }

  /** A start and any other event leave the same in either order, up to the start. */
  lemma {:induction false} StartAndCompletionCommute(t: Tables, start: Delivery, other: Delivery)
    requires Wellformed(t) && start.event != other.event
    requires start.command.StartRequest? && !other.command.StartRequest?
    ensures SimilarUpToStart(Handle(Handle(t, start), other), Handle(t, other), {start.event})
    ensures SimilarUpToStart(Handle(Handle(t, other), start), Handle(t, other), {start.event})
    ensures SimilarUpToStart(Handle(Handle(t, start), other), Handle(Handle(t, other), start), {start.event})
  {
    hide Handle, Wellformed, SimilarUpToStart;
    HandleKeepsTables(t, start);
    HandleKeepsTables(t, other);
    AlikeToItself(t, {start.event});
    AlikeToItself(Handle(t, other), {start.event});
    StartIsInvisible(t, t, start, {start.event});
    OtherEventsKeepSimilarity(Handle(t, start), t, other, {start.event});
    StartIsInvisible(Handle(t, other), Handle(t, other), start, {start.event});
    SimilarToTheSame(Handle(Handle(t, start), other), Handle(Handle(t, other), start), Handle(t, other), {start.event});
  }

  lemma SimilarToTheSame(a: Tables, b: Tables, c: Tables, erased: set<string>)
    requires SimilarUpToStart(a, c, erased) && SimilarUpToStart(b, c, erased)
    ensures SimilarUpToStart(a, b, erased)
  {
  }

  /** The request after a lifecycle event that reads it, and the rows the event announces. */
  function Moved(r: Request, d: Delivery): Request
    requires !d.command.CreateRequest?
  {
    if Decide(r, d).Write? then Decide(r, d).request else r
  }

  function Announced(r: Request, d: Delivery): seq<OutboxRow>
    requires !d.command.CreateRequest?
  {
    if Decide(r, d).Write? && Decide(r, d).row.Some? then [Decide(r, d).row.value] else []
  }

  /** Whether a lifecycle event is recorded when it is handled on these tables. */
  predicate Takes(t: Tables, d: Delivery)
    requires !d.command.CreateRequest?
  {
    && Problem(d).None? && d.event !in t.events && d.command.id in t.requests
    && !Decide(t.requests[d.command.id], d).Refuse?
  }

  function Taken(t: Tables, d: Delivery): Tables
    requires !d.command.CreateRequest?
  {
    if !Takes(t, d) then t
    else Tables(t.requests[d.command.id := Moved(t.requests[d.command.id], d)],
                t.events[d.event := d.command.id],
                t.outbox + Announced(t.requests[d.command.id], d))
  }

  lemma LifecycleEffect(t: Tables, d: Delivery)
    requires Wellformed(t) && !d.command.CreateRequest?
    ensures Handle(t, d) == Taken(t, d)
  {
    if Takes(t, d) {
      LifecycleVerdictStands(t, d);
      DecideAdvances(t.requests[d.command.id], d);
      hide Serial, Decide;
      assert t.requests[d.command.id := t.requests[d.command.id]] == t.requests;
    }
  }

  lemma LifecycleVerdictStands(t: Tables, d: Delivery)
    requires Wellformed(t) && !d.command.CreateRequest? && Takes(t, d)
    ensures Serial(t, d) == Decide(t.requests[d.command.id], d)
  {
  }

  /** Events of an attempt that report how it ended. */
  predicate ReportsOutcome(c: Command) {
    c.CompleteRequest? || (c.FailRequest? && c.origin.ByProcessing?)
  }

  lemma OutcomeIgnoresStart(r: Request, start: Delivery, outcome: Delivery)
    requires Consistent(r) && start.command.StartRequest? && ReportsOutcome(outcome.command)
    ensures Moved(Moved(r, start), outcome) == Moved(Moved(r, outcome), start)
    ensures Announced(Moved(r, start), outcome) == Announced(r, outcome) && Announced(r, start) == []
    ensures Announced(Moved(r, outcome), start) == []
    ensures Decide(Moved(r, start), outcome).Refuse? <==> Decide(r, outcome).Refuse?
    ensures Decide(Moved(r, outcome), start).Refuse? <==> Decide(r, start).Refuse?
  {
  }

  /** Whether one of the two is recorded does not depend on the other. */
  lemma TakesAnyway(t: Tables, start: Delivery, outcome: Delivery)
    requires AllConsistent(t) && start.event != outcome.event
    requires start.command.StartRequest? && ReportsOutcome(outcome.command)
    ensures Takes(Taken(t, start), outcome) <==> Takes(t, outcome)
    ensures Takes(Taken(t, outcome), start) <==> Takes(t, start)
  {
    if start.command.id in t.requests {
      OutcomeIgnoresStart(t.requests[start.command.id], start, outcome);
    }
    hide Problem, Decide, Moved, Announced;
  }

  lemma TakenCommute(t: Tables, start: Delivery, outcome: Delivery)
    requires AllConsistent(t) && start.event != outcome.event
    requires start.command.StartRequest? && ReportsOutcome(outcome.command)
    ensures Taken(Taken(t, start), outcome) == Taken(Taken(t, outcome), start)
  {
    TakesAnyway(t, start, outcome);
    if Takes(t, start) && Takes(t, outcome) {
      var i, j := start.command.id, outcome.command.id;
      OutcomeIgnoresStart(t.requests[i], start, outcome);
      hide Takes, Moved, Announced;
      BothTaken(t, start, outcome);
    }
  }

  lemma BothTaken(t: Tables, start: Delivery, outcome: Delivery)
    requires start.event != outcome.event && start.command.StartRequest? && ReportsOutcome(outcome.command)
    requires start.command.id in t.requests && outcome.command.id in t.requests
    requires Takes(t, start) && Takes(t, outcome) && Takes(Taken(t, start), outcome) && Takes(Taken(t, outcome), start)
    requires var r := t.requests[start.command.id];
             && Moved(Moved(r, start), outcome) == Moved(Moved(r, outcome), start)
             && Announced(Moved(r, start), outcome) == Announced(r, outcome)
             && Announced(Moved(r, outcome), start) == [] && Announced(r, start) == []
    ensures Taken(Taken(t, start), outcome) == Taken(Taken(t, outcome), start)
  {
    hide Takes, Moved, Announced;
    var i, j := start.command.id, outcome.command.id;
    var a, b := Taken(Taken(t, start), outcome), Taken(Taken(t, outcome), start);
    assert a.events == b.events;
    assert a.requests == b.requests;
    assert a.outbox == b.outbox;
  }

  /**
   * A start and the report of how an attempt ended, for any requests, leave the very same tables in
   * either order: requests, dedup records and outbox.
   */
  lemma {:induction false} StartAndOutcomeCommute(t: Tables, start: Delivery, outcome: Delivery)
    requires Wellformed(t) && start.event != outcome.event
    requires start.command.StartRequest? && ReportsOutcome(outcome.command)
    ensures Handle(Handle(t, start), outcome) == Handle(Handle(t, outcome), start)
  {
    HandleKeepsTables(t, start);
    HandleKeepsTables(t, outcome);
    TakenCommute(t, start, outcome);
    hide Handle, Taken, Wellformed, Grows;
    LifecycleEffect(t, start);
    LifecycleEffect(t, outcome);
    LifecycleEffect(Handle(t, start), outcome);
    LifecycleEffect(Handle(t, outcome), start);
  }

  // ---- Stale attempts ----

  /** An event of an attempt, other than the one its request has. */
  ghost predicate IsStaleDelivery(t: Tables, d: Delivery) {
    && !d.command.CreateRequest? && d.command.id in t.requests
    && var current := t.requests[d.command.id].attempt;
       current.Some?
       && match d.command
          case AcceptRequest(_) => false
          case StartRequest(_, attempt) => Some(attempt) != current
          case CompleteRequest(_, attempt, _) => Some(attempt) != current
          case FailRequest(_, origin, _) => origin.ByProcessing? && origin.attempt != current
  }

  ghost predicate SameBarEvents(a: Tables, b: Tables, erased: set<string>) {
    && a.requests == b.requests && a.outbox == b.outbox
    && SameEventsOutside(a.events, b.events, erased)
  }

  ghost function EraseStale(t: Tables, ds: seq<Delivery>): seq<Delivery> {
    if ds == [] then [] else
      var init, d := ds[..|ds| - 1], ds[|ds| - 1];
      if IsStaleDelivery(HandleAll(t, init), d) then EraseStale(t, init) else EraseStale(t, init) + [d]
  }

  ghost function StaleIds(t: Tables, ds: seq<Delivery>): set<string> {
    if ds == [] then {} else
      var init, d := ds[..|ds| - 1], ds[|ds| - 1];
      StaleIds(t, init) + if IsStaleDelivery(HandleAll(t, init), d) then {d.event} else {}
  }

  /**
   * No other event carries the id of one that is stale at some moment of the run. The event itself may
   * be delivered any number of times, before it was stale and after.
   */
  ghost predicate StaleIdsNotReused(t: Tables, ds: seq<Delivery>) {
    forall i, j | 0 <= i < |ds| && 0 <= j < |ds| && ds[i].event == ds[j].event
      && IsStaleDelivery(HandleAll(t, ds[..i]), ds[i]) :: ds[j].command == ds[i].command
  }

  lemma {:induction false} StaleIdsComeFromStale(t: Tables, ds: seq<Delivery>, e: string) returns (i: nat)
    requires e in StaleIds(t, ds)
    ensures i < |ds| && ds[i].event == e && IsStaleDelivery(HandleAll(t, ds[..i]), ds[i])
  {
    var init, d := ds[..|ds| - 1], ds[|ds| - 1];
    hide IsStaleDelivery;
    if e in StaleIds(t, init) {
      i := StaleIdsComeFromStale(t, init, e);
      assert init[..i] == ds[..i];
    } else {
      i := |ds| - 1;
    }
  }

  /** Attempts are written once, so what is stale stays stale. */
  lemma StaleStaysStale(a: Tables, b: Tables, d: Delivery, d': Delivery)
    requires Grows(a, b) && IsStaleDelivery(a, d) && d'.command == d.command
    ensures IsStaleDelivery(b, d')
  {
  }

  /** A delivery that is not stale carries no id that a stale one carried before. */
  lemma FreshOfStale(t: Tables, ds: seq<Delivery>, n: nat)
    requires Wellformed(t) && StaleIdsNotReused(t, ds) && n < |ds|
    requires !IsStaleDelivery(HandleAll(t, ds[..n]), ds[n])
    ensures ds[n].event !in StaleIds(t, ds[..n])
  {
    if ds[n].event in StaleIds(t, ds[..n]) {
      var i := StaleIdsComeFromStale(t, ds[..n], ds[n].event);
      assert ds[..n][..i] == ds[..i];
      LaterGrows(t, ds, i, n);
      hide Grows, Wellformed;
      StaleStaysStale(HandleAll(t, ds[..i]), HandleAll(t, ds[..n]), ds[i], ds[n]);
    }
  }

  lemma StaleIsInvisible(a: Tables, b: Tables, d: Delivery, erased: set<string>)
    requires Wellformed(a) && SameBarEvents(a, b, erased) && IsStaleDelivery(a, d)
    ensures SameBarEvents(Handle(a, d), b, erased + {d.event})
  {
  }

  lemma OtherEventsKeepSameness(a: Tables, b: Tables, d: Delivery, erased: set<string>)
    requires Wellformed(a) && Wellformed(b) && SameBarEvents(a, b, erased)
    requires d.event !in erased
    ensures SameBarEvents(Handle(a, d), Handle(b, d), erased)
  {
    assert FindByEvent(a, d.event) == FindByEvent(b, d.event);
    assert Serial(a, d) == Serial(b, d);
  }

  lemma InitDoesNotReuse(t: Tables, ds: seq<Delivery>)
    requires ds != [] && StaleIdsNotReused(t, ds)
    ensures StaleIdsNotReused(t, ds[..|ds| - 1])
  {
    var init := ds[..|ds| - 1];
    hide IsStaleDelivery;
    forall i, j | 0 <= i < |init| && 0 <= j < |init| && init[i].event == init[j].event
      && IsStaleDelivery(HandleAll(t, init[..i]), init[i])
      ensures init[j].command == init[i].command
    {
      assert init[..i] == ds[..i];
    }
  }

  /**
   * Deleting from a run every event of a stale attempt, redeliveries included, changes only the dedup
   * records of the deleted events.
   */
  lemma {:induction false} StaleEventsAreErasable(t: Tables, ds: seq<Delivery>)
    requires Wellformed(t) && StaleIdsNotReused(t, ds)
    ensures SameBarEvents(HandleAll(t, ds), HandleAll(t, EraseStale(t, ds)), StaleIds(t, ds))
  {
    if ds != [] {
      var init, d := ds[..|ds| - 1], ds[|ds| - 1];
      var a, b := HandleAll(t, init), HandleAll(t, EraseStale(t, init));
      InitDoesNotReuse(t, ds);
      StaleEventsAreErasable(t, init);
      HandleAllKeepsTables(t, init);
      HandleAllKeepsTables(t, EraseStale(t, init));
      hide IsStaleDelivery, Wellformed, Handle, SameBarEvents, StaleIdsNotReused;
      if IsStaleDelivery(a, d) {
        StaleIsInvisible(a, b, d, StaleIds(t, init));
      } else {
        FreshOfStale(t, ds, |ds| - 1);
        HandleAllSnoc(t, EraseStale(t, init), d);
        OtherEventsKeepSameness(a, b, d, StaleIds(t, init));
      }
    }
  }
}
