/** What holds over whole runs of deliveries: at most one effect per event, harmless redelivery. */
module Runs {
  import opened Lifecycle
  import opened Catalog

  /** Whether a delivery is handled for the first time, and so recorded. */
  ghost predicate Effective(t: Tables, d: Delivery) {
    Serial(t, d).Record? || Serial(t, d).Write?
  }

  lemma {:induction false} LaterGrows(t: Tables, ds: seq<Delivery>, i: nat, j: nat)
    requires Wellformed(t) && i <= j <= |ds|
    ensures Wellformed(HandleAll(t, ds[..i]))
    ensures Grows(HandleAll(t, ds[..i]), HandleAll(t, ds[..j]))
  {
    HandleAllKeepsTables(t, ds[..i]);
    if i == j {
      NothingGrows(HandleAll(t, ds[..i]));
    } else {
      hide Wellformed, Grows, Handle;
      LaterGrows(t, ds, i, j - 1);
      var before := HandleAll(t, ds[..j - 1]);
      assert ds[..j] == ds[..j - 1] + [ds[j - 1]];
      HandleAllSnoc(t, ds[..j - 1], ds[j - 1]);
      HandleAllKeepsTables(t, ds[..j - 1]);
      HandleKeepsTables(before, ds[j - 1]);
      GrowsIsTransitive(HandleAll(t, ds[..i]), before, HandleAll(t, ds[..j]));
    }
  }

  /** An effective delivery records its event, for the first time, with the request it wrote. */
  lemma EffectIsRecorded(t: Tables, d: Delivery)
    requires Wellformed(t) && Effective(t, d)
    ensures var r, t' := Serial(t, d).request, Handle(t, d);
            && d.event !in t.events && d.event in t'.events && t'.events[d.event] == r.id
            && r.id in t'.requests && t'.requests[r.id] == r
  {
    if !d.command.CreateRequest? {
      DecideAdvances(t.requests[d.command.id], d);
    }
  }

  /** What a delivery recorded is still there at every later point of the run. */
  lemma EffectStaysRecorded(t: Tables, ds: seq<Delivery>, i: nat, j: nat)
    requires Wellformed(t) && i < j <= |ds| && Effective(HandleAll(t, ds[..i]), ds[i])
    ensures var r, later := Serial(HandleAll(t, ds[..i]), ds[i]).request, HandleAll(t, ds[..j]);
            && Wellformed(later)
            && ds[i].event in later.events && later.events[ds[i].event] == r.id
            && r.id in later.requests && Advances(r, later.requests[r.id])
  {
    LaterGrows(t, ds, i, i);
    LaterGrows(t, ds, j, j);
    EffectIsRecorded(HandleAll(t, ds[..i]), ds[i]);
    assert ds[..i + 1] == ds[..i] + [ds[i]];
    HandleAllSnoc(t, ds[..i], ds[i]);
    LaterGrows(t, ds, i + 1, j);
  }

  /** An event id takes effect at most once in the whole database, whatever requests it names. */
  lemma EventTakesEffectOnce(t: Tables, ds: seq<Delivery>, i: nat, j: nat)
    requires Wellformed(t) && i < j < |ds|
    requires Effective(HandleAll(t, ds[..i]), ds[i]) && Effective(HandleAll(t, ds[..j]), ds[j])
    ensures ds[i].event != ds[j].event
  {
    EffectStaysRecorded(t, ds, i, j);
    EffectIsRecorded(HandleAll(t, ds[..j]), ds[j]);
  }

  /** Whether a delivery moves this existing request on. */
  ghost predicate MovesOn(t: Tables, d: Delivery, id: string) {
    Serial(t, d).Write? && !d.command.CreateRequest? && Serial(t, d).request.id == id
  }

  /** How often deliveries moved an existing request on. */
  ghost function Updates(t: Tables, ds: seq<Delivery>, id: string): nat {
    if ds == [] then 0 else
      var before, d := HandleAll(t, ds[..|ds| - 1]), ds[|ds| - 1];
      Updates(t, ds[..|ds| - 1], id) + if MovesOn(before, d, id) then 1 else 0
  }

  ghost function RankIn(t: Tables, id: string): nat {
    if id in t.requests then Rank(t.requests[id].status) else 0
  }

  lemma EachUpdateClimbs(t: Tables, d: Delivery, id: string)
    requires Wellformed(t)
    ensures RankIn(t, id) + (if MovesOn(t, d, id) then 1 else 0) <= RankIn(Handle(t, d), id) <= 3
  {
    HandleKeepsTables(t, d);
    hide Wellformed;
    if MovesOn(t, d, id) {
      LifecycleVerdict(t, d);
      hide Serial;
      StoredIsConsistent(t, d.command.id);
      DecideAdvances(t.requests[d.command.id], d);
    }
  }

  lemma StoredIsConsistent(t: Tables, id: string)
    requires Wellformed(t) && id in t.requests
    ensures Consistent(t.requests[id]) && t.requests[id].id == id
  {
  }

  /** Each update climbs at least one rank, so no request is ever updated more than three times. */
  lemma {:induction false} UpdatesAreBounded(t: Tables, ds: seq<Delivery>, id: string)
    requires Wellformed(t)
    ensures RankIn(t, id) + Updates(t, ds, id) <= RankIn(HandleAll(t, ds), id) <= 3
  {
    if ds != [] {
      var before, d := HandleAll(t, ds[..|ds| - 1]), ds[|ds| - 1];
      UpdatesAreBounded(t, ds[..|ds| - 1], id);
      HandleAllKeepsTables(t, ds[..|ds| - 1]);
      hide Wellformed, Grows, RankIn, Handle, MovesOn;
      EachUpdateClimbs(before, d, id);
    }
  }

  // ---- Redelivery ----

  /** A delivery of an event that was already handled successfully. */
  ghost predicate IsRedelivery(t: Tables, d: Delivery) {
    d.event in t.events
  }

  /** A redelivery writes nothing and is answered with the request the event was handled for. */
  lemma RedeliveryIsAnswered(t: Tables, d: Delivery)
    requires Wellformed(t) && IsRedelivery(t, d)
    ensures Handle(t, d) == t
    ensures Problem(d).None? ==> Serial(t, d) == Answer(t.requests[t.events[d.event]])
    ensures Problem(d).Some? ==> Serial(t, d) == Refuse(Problem(d).value)
  {
  }

  ghost function DropRedeliveries(t: Tables, ds: seq<Delivery>): seq<Delivery> {
    if ds == [] then [] else
      var init, d := ds[..|ds| - 1], ds[|ds| - 1];
      if IsRedelivery(HandleAll(t, init), d) then DropRedeliveries(t, init)
      else DropRedeliveries(t, init) + [d]
  }

  /** Dropping every redelivery from a run gives the same requests, dedup records and outbox. */
  lemma {:induction false} RedeliveriesAreAbsorbed(t: Tables, ds: seq<Delivery>)
    requires Wellformed(t)
    ensures HandleAll(t, DropRedeliveries(t, ds)) == HandleAll(t, ds)
  {
    if ds != [] {
      var init, d := ds[..|ds| - 1], ds[|ds| - 1];
      RedeliveriesAreAbsorbed(t, init);
      HandleAllKeepsTables(t, init);
      if IsRedelivery(HandleAll(t, init), d) {
        RedeliveryIsAnswered(HandleAll(t, init), d);
      } else {
        HandleAllSnoc(t, DropRedeliveries(t, init), d);
      }
    }
  }

  /**
   * After an effective delivery, the same message delivered again at any later point is answered
   * with the request it was handled for, in whatever state that has reached.
   */
  lemma {:induction false} RepeatedMessageIsAnswered(t: Tables, ds: seq<Delivery>, i: nat, j: nat)
    requires Wellformed(t) && i < j < |ds|
    requires Effective(HandleAll(t, ds[..i]), ds[i])
    requires ds[j].event == ds[i].event && ds[j].command == ds[i].command
    ensures var handled := Serial(HandleAll(t, ds[..i]), ds[i]).request;
            var later := HandleAll(t, ds[..j]);
            && handled.id in later.requests
            && Serial(later, ds[j]) == Answer(later.requests[handled.id])
            && Advances(handled, later.requests[handled.id])
            && Handle(later, ds[j]) == later
  {
    EffectStaysRecorded(t, ds, i, j);
    var later := HandleAll(t, ds[..j]);
    assert Problem(ds[j]) == Problem(ds[i]);
    RedeliveryIsAnswered(later, ds[j]);
  }
}
