/** Repeated webhooks leave no trace. */
module DuplicateLaws {
  import opened BillingCalendar
  import opened Storage
  import opened EventIds
  import opened WebhookRules
  import opened WebhookFootprint

  /** A webhook, the moment it is processed, and whether its delivery is recorded
      too: the commit of the delivery may fail after the webhook's own. */
  datatype Arrival = Arrival(payload: Payload, now: DateTime, told: bool)

  function Arrive(s: Store, a: Arrival): Store {
    if a.told then Deliver(s, a.payload, a.now) else After(s, a.payload, a.now)
  }

  /** The delivery is added to what the webhook left. */
  lemma ArriveAddsDelivery(s: Store, a: Arrival)
    ensures var after := After(s, a.payload, a.now);
            && Arrive(s, a) == after.(deliveries := Arrive(s, a).deliveries)
            && (!Handle(s, a.payload, a.now).Commit? ==> Arrive(s, a) == s)
  {
    hide Handle, BuildDelivery;
  }

  function RunWebhooks(s: Store, arrivals: seq<Arrival>): Store
    decreases |arrivals|
  {
    if arrivals == [] then s else RunWebhooks(Arrive(s, arrivals[0]), arrivals[1..])
  }

  /** The arrivals whose event id was not committed before them, and that commit. */
  function FirstCommits(seen: set<string>, s: Store, arrivals: seq<Arrival>): seq<Arrival>
    decreases |arrivals|
  {
    if arrivals == [] then []
    else
      var a := arrivals[0];
      var id := IdOf(a.payload);
      if id.None? || id.value in seen || !Handle(s, a.payload, a.now).Commit? then FirstCommits(seen, s, arrivals[1..])
      else [a] + FirstCommits(seen + {id.value}, Arrive(s, a), arrivals[1..])
  }

  /** A commit adds its event, and only its event, to the processed ones. */
  lemma CommitRecordsItsEvent(s: Store, p: Payload, now: DateTime)
    requires AllProcessed(s.events)
    ensures Handle(s, p, now).Commit? ==>
              && IdOf(p).Some? && IdOf(p).value !in s.events
              && After(s, p, now).events.Keys == s.events.Keys + {IdOf(p).value}
              && AllProcessed(After(s, p, now).events)
    ensures !Handle(s, p, now).Commit? ==> After(s, p, now) == s
  {
    hide Handle, EventId;
    CommitFootprint(s, p, now);
  }

  lemma RepeatIsSkipped(s: Store, p: Payload, now: DateTime)
    requires AllProcessed(s.events) && IdOf(p).Some? && IdOf(p).value in s.events
    ensures Handle(s, p, now) == Skip && After(s, p, now) == s
  {
    hide EventId;
  }

  /** Any run of arrivals, with repeats and failures in any position, leaves what
      its first committing occurrences alone leave, in their order: rows, events
      and deliveries to consumers. */
  lemma {:induction false} DuplicatesErase(seen: set<string>, s: Store, arrivals: seq<Arrival>)
    requires AllProcessed(s.events) && seen == s.events.Keys
    ensures RunWebhooks(s, arrivals) == RunWebhooks(s, FirstCommits(seen, s, arrivals))
    decreases |arrivals|
  {
    if arrivals != [] {
      var a := arrivals[0];
      var next := Arrive(s, a);
      CommitRecordsItsEvent(s, a.payload, a.now);
      ArriveAddsDelivery(s, a);
      if Handle(s, a.payload, a.now).Commit? {
        var rest := FirstCommits(seen + {IdOf(a.payload).value}, next, arrivals[1..]);
        DuplicatesErase(seen + {IdOf(a.payload).value}, next, arrivals[1..]);
        assert ([a] + rest)[0] == a && ([a] + rest)[1..] == rest;
      } else {
        DuplicatesErase(seen, s, arrivals[1..]);
      }
    }
  }

  predicate NewIds(seen: set<string>, kept: seq<Arrival>) {
    forall i :: 0 <= i < |kept| ==> IdOf(kept[i].payload).Some? && IdOf(kept[i].payload).value !in seen
  }

  predicate DistinctIds(kept: seq<Arrival>) {
    forall i, j :: 0 <= i < j < |kept| ==> IdOf(kept[i].payload) != IdOf(kept[j].payload)
  }

  /** Those first commits have one arrival per event id, all new. */
  lemma {:induction false} FirstCommitsAreDistinct(seen: set<string>, s: Store, arrivals: seq<Arrival>)
    ensures NewIds(seen, FirstCommits(seen, s, arrivals)) && DistinctIds(FirstCommits(seen, s, arrivals))
    decreases |arrivals|
  {
    hide Handle, IdOf;
    if arrivals != [] {
      var a := arrivals[0];
      var id := IdOf(a.payload);
      if id.None? || id.value in seen || !Handle(s, a.payload, a.now).Commit? {
        FirstCommitsAreDistinct(seen, s, arrivals[1..]);
      } else {
        var next := Arrive(s, a);
        FirstCommitsAreDistinct(seen + {id.value}, next, arrivals[1..]);
      }
    }
  }

  lemma {:induction false} RunsAppend(s: Store, a: seq<Arrival>, b: seq<Arrival>)
    ensures RunWebhooks(s, a + b) == RunWebhooks(RunWebhooks(s, a), b)
    decreases |a|
  {
    if a == [] {
      assert a + b == b;
    } else {
      assert (a + b)[1..] == a[1..] + b;
      RunsAppend(Arrive(s, a[0]), a[1..], b);
    }
  }

  lemma {:induction false} RunsKeepEvents(s: Store, arrivals: seq<Arrival>)
    requires AllProcessed(s.events)
    ensures AllProcessed(RunWebhooks(s, arrivals).events) && s.events.Keys <= RunWebhooks(s, arrivals).events.Keys
    decreases |arrivals|
  {
    if arrivals != [] {
      CommitRecordsItsEvent(s, arrivals[0].payload, arrivals[0].now);
      ArriveAddsDelivery(s, arrivals[0]);
      RunsKeepEvents(Arrive(s, arrivals[0]), arrivals[1..]);
    }
  }

  /** A repeat of a committed event can be taken out, wherever it stands. */
  lemma RepeatCanBeRemoved(s: Store, before: seq<Arrival>, a: Arrival, after: seq<Arrival>)
    requires AllProcessed(s.events) && IdOf(a.payload).Some?
    requires IdOf(a.payload).value in RunWebhooks(s, before).events
    ensures RunWebhooks(s, before + [a] + after) == RunWebhooks(s, before + after)
  {
    RunsKeepEvents(s, before);
    var reached := RunWebhooks(s, before);
    RepeatIsSkipped(reached, a.payload, a.now);
    ArriveAddsDelivery(reached, a);
    assert RunWebhooks(reached, [a]) == RunWebhooks(Arrive(reached, a), []);
    RunsAppend(s, before + [a], after);
    RunsAppend(s, before, [a]);
    RunsAppend(s, before, after);
  }
}
