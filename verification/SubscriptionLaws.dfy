/** No remote subscription is orphaned: every id the gateway returned is in
    exactly one place, and a reference has at most one that is not lost. */
module SubscriptionLaws {
  import opened BillingCalendar
  import opened Entities
  import opened Storage
  import opened WebhookRules
  import opened Transactions
  import opened TransactionLaws
  import opened OperationLaws
  import opened SubscriptionProtocol

  /** A committed subscription row has the id. */
  predicate Mirrored(s: Store, id: string) {
    FindSubscription(s.subscriptions, id).Some?
  }

  predicate SetAsideAs(op: OperationRow, id: string) {
    op.status == RequiresReconciliation && op.gatewayReference == id
  }

  /** The creation operation for `ref` awaits reconciliation with the id. */
  predicate Awaits(s: Store, ref: SubscriptionRef, id: string) {
    var o := FindOperation(s.operations, KeyFor(ref));
    o.Some? && SetAsideAs(s.operations[o.value], id)
  }

  predicate Holds(w: World, ref: SubscriptionRef, id: string) {
    ref in w.jobs && InHand(w.jobs[ref].place) == id
  }

  function One(b: bool): nat {
    if b then 1 else 0
  }

  /** The id is a row's, or an awaiting operation's, or in a job's hand, or dropped. */
  predicate InOnePlace(w: World, id: string)
    requires id in w.created
  {
    var ref := w.created[id];
    One(Mirrored(w.store, id)) + One(Awaits(w.store, ref, id)) + One(Holds(w, ref, id)) + One(id in w.dropped) == 1
  }

  predicate RowIsFor(s: Store, ref: SubscriptionRef, id: string) {
    var k := FindSubscription(s.subscriptions, id);
    k.Some? ==> s.subscriptions[k.value].systemSubscriptionId == ref.systemSubscriptionId
                && s.subscriptions[k.value].fromSystem == ref.system
  }

  /** An operation awaiting with a created id is the one it was created under. */
  predicate OperationIsFor(w: World, op: OperationRow) {
    WellFormed(op) &&
    (op.key.CreateSubscriptionKey? && op.status == RequiresReconciliation && op.gatewayReference in w.created ==>
      op.key == KeyFor(w.created[op.gatewayReference]))
  }

  ghost predicate NoneLive(w: World, ref: SubscriptionRef) {
    forall id :: id in w.created && w.created[id] == ref ==> id in w.dropped
  }

  /** A job holds an open operation of its own, and at most the one id. */
  ghost predicate JobSound(w: World, ref: SubscriptionRef, job: Job) {
    job.order.ref == ref &&
    (!job.place.Answered? ==>
      var place := job.place;
      && place.op.key == KeyFor(ref)
      && place.o < |w.store.operations| && FindOperation(w.store.operations, KeyFor(ref)) == Some(place.o)
      && w.store.operations[place.o].status in {InProgress, Rejected}
      && (InHand(place) == "" ==> NoneLive(w, ref) && (place.Recovering? ==> place.op.status == Rejected))
      && (InHand(place) != "" ==> InHand(place) in w.created && w.created[InHand(place)] == ref)
      && (place.Ready? || place.Holding? || InHand(place) == "" ==> place.op.gatewayReference == "")
      && (place.Holding? ==> InHand(place) != "")
      && (place.Recovering? && InHand(place) != "" ==> SetAsideAs(place.op, place.id)))
  }

  ghost predicate JobsSound(w: World) {
    forall ref :: ref in w.jobs ==> JobSound(w, ref, w.jobs[ref])
  }

  ghost predicate IdsPlaced(w: World) {
    && (forall id :: id in w.created ==> id != "" && InOnePlace(w, id) && RowIsFor(w.store, w.created[id], id))
    && (forall id :: id in w.dropped ==> id in w.created)
  }

  /** Of two ids for one reference, at least one was dropped. */
  ghost predicate OneLive(w: World) {
    forall a, b :: a in w.created && b in w.created && a != b && w.created[a] == w.created[b] ==> a in w.dropped || b in w.dropped
  }

  ghost predicate OperationsFor(w: World) {
    forall o :: 0 <= o < |w.store.operations| ==> OperationIsFor(w, w.store.operations[o])
  }

  ghost predicate Sound(w: World) {
    Good(w.store) && JobsSound(w) && IdsPlaced(w) && OneLive(w) && OperationsFor(w)
  }

  // ---------------------------------------------------------------- other commits

  /** A creation operation is left alone, or reconciled: then its id has a row. */
  lemma ForeignReconciles(s: Store, t: Transaction, o: nat)
    requires Good(s) && MayCommit(s, t) && o < |s.operations| && s.operations[o].key.CreateSubscriptionKey?
    requires WellFormed(s.operations[o])
    ensures var next := Apply(s, t);
            && o < |next.operations| && next.operations[o].key == s.operations[o].key
            && (next.operations[o] == s.operations[o]
                || (s.operations[o].status == RequiresReconciliation && next.operations[o].status == Completed
                    && Mirrored(next, s.operations[o].gatewayReference)))
  {
    hide Apply, Mirrored;
    OperationsKept(s, t, o);
    if Rewrites(t) == Some(o) {
      ReconciledOrAwaiting(s, t);
      if Apply(s, t) != s {
        if t.ReconcileCreation? { ReconciledIsMirrored(s, t); } else { OtherReconciliation(s, t); }
      }
    }
  }

  lemma ReconciledIsMirrored(s: Store, t: Transaction)
    requires t.ReconcileCreation? && Apply(s, t) != s
    ensures t.o < |s.operations| && Mirrored(Apply(s, t), s.operations[t.o].gatewayReference)
  {
    hide FindSubscription;
    var id := s.operations[t.o].gatewayReference;
    var row := RebuiltSubscription(s.operations[t.o], t.remote);
    if FindSubscription(s.subscriptions, id).None? { FoundSubscription(s.subscriptions, row.value); }
  }

  lemma OtherReconciliation(s: Store, t: Transaction)
    requires (t.ReconcileCancellation? || t.ReconcileCheckout?) && t.o < |s.operations|
    requires s.operations[t.o].key.CreateSubscriptionKey? && WellFormed(s.operations[t.o])
    ensures Apply(s, t) == s
  {
  }

  /** Subscriptions keep their ids and owners; a new one comes from reconciliation
      alone, with the id its operation awaited with. */
  lemma ForeignRows(s: Store, t: Transaction)
    requires Good(s) && MayCommit(s, t)
    ensures var subs, next := s.subscriptions, Apply(s, t).subscriptions;
            && |subs| <= |next| <= |subs| + 1
            && (forall k :: 0 <= k < |subs| ==> SameSubscription(subs[k], next[k]))
            && (|next| > |subs| ==>
                  && t.ReconcileCreation? && Awaiting(s, t.o) && s.operations[t.o].payload.SubscriptionPayload?
                  && next[|subs|].gatewaySubscriptionId == s.operations[t.o].gatewayReference
                  && next[|subs|].systemSubscriptionId == s.operations[t.o].payload.systemSubscriptionId
                  && next[|subs|].fromSystem == s.operations[t.o].key.system)
  {
    hide Good;
    TransactionKeepsRows(s, t);
    forall k | 0 <= k < |s.subscriptions| ensures SameSubscription(s.subscriptions[k], Apply(s, t).subscriptions[k]) {
      assert SubscriptionStep(s.subscriptions[k], Apply(s, t).subscriptions[k]);
    }
    RowsGained(s, t);
  }

  lemma RowsGained(s: Store, t: Transaction)
    requires MayCommit(s, t)
    ensures var subs, next := s.subscriptions, Apply(s, t).subscriptions;
            && |next| <= |subs| + 1
            && (|next| > |subs| ==>
                  && t.ReconcileCreation? && Awaiting(s, t.o) && s.operations[t.o].payload.SubscriptionPayload?
                  && next[|subs|].gatewaySubscriptionId == s.operations[t.o].gatewayReference
                  && next[|subs|].systemSubscriptionId == s.operations[t.o].payload.systemSubscriptionId
                  && next[|subs|].fromSystem == s.operations[t.o].key.system)
  {
    hide After, WritePayment, CheckoutTarget, MoveCheckout, BuildDelivery;
    if t.Webhook? { WebhookAddsNoSubscription(s, t.payload, t.now); }
  }

  /** Lookups by id see through changes that keep ids. */
  lemma {:induction false} FindSubscriptionStays(subs: seq<SubscriptionRow>, next: seq<SubscriptionRow>, id: string)
    requires |subs| <= |next| <= |subs| + 1
    requires forall k :: 0 <= k < |subs| ==> SameSubscription(subs[k], next[k])
    requires |next| > |subs| ==> next[|subs|].gatewaySubscriptionId != id
    ensures FindSubscription(next, id) == FindSubscription(subs, id)
    decreases |next|
  {
    if |next| > |subs| {
      FindSubscriptionStays(subs, next[..|subs|], id);
    } else if subs != [] {
      FindSubscriptionStays(subs[..|subs| - 1], next[..|next| - 1], id);
    }
  }

  lemma FoundByKey(ops: seq<OperationRow>, o: nat)
    requires OperationKeys(ops) && o < |ops|
    ensures FindOperation(ops, ops[o].key) == Some(o)
  {
  }

  /** A stored operation is found where it was, after another commit. */
  lemma FoundAfter(s: Store, t: Transaction, ref: SubscriptionRef)
    requires MayCommit(s, t)
    ensures FindOperation(Apply(s, t).operations, KeyFor(ref)) == FindOperation(s.operations, KeyFor(ref))
  {
    hide Apply;
    OperationsGained(s, t);
    var ops, next := s.operations, Apply(s, t).operations;
    forall o | 0 <= o < |ops| ensures o < |next| && next[o].key == ops[o].key {
      OperationsKept(s, t, o);
    }
    if ops != [] { OperationsKept(s, t, |ops| - 1); }
    FindStays(ops, next, KeyFor(ref));
  }

  /** Another commit leaves an id where it was, or moves it from its awaiting
      operation to a row. */
  lemma ForeignPlaces(w: World, t: Transaction, id: string)
    requires Sound(w) && MayCommit(w.store, t) && id in w.created
    ensures var v := w.(store := Apply(w.store, t));
            && InOnePlace(v, id) && RowIsFor(v.store, w.created[id], id)
            && (Mirrored(w.store, id) ==> Mirrored(v.store, id))
            && (Awaits(w.store, w.created[id], id) ==> Awaits(v.store, w.created[id], id) || Mirrored(v.store, id))
            && (Holds(v, w.created[id], id) <==> Holds(w, w.created[id], id))
  {
    hide Apply, FindOperation, FindSubscription, JobsSound, OneLive, PaymentKeys, SubscriptionKeys, Owned, DeliveryKeys,
         AllProcessed, AllDated;
    var s, next, ref := w.store, Apply(w.store, t), w.created[id];
    FoundAfter(s, t, ref);
    ForeignRows(s, t);
    var o := FindOperation(s.operations, KeyFor(ref));
    if o.Some? {
      FoundKey(s.operations, KeyFor(ref));
      assert OperationIsFor(w, s.operations[o.value]);
      ForeignReconciles(s, t, o.value);
    }
    if |next.subscriptions| > |s.subscriptions| && next.subscriptions[|s.subscriptions|].gatewaySubscriptionId == id {
      assert OperationIsFor(w, s.operations[t.o]);
      FoundByKey(s.operations, t.o);
      ReconciledOrAwaiting(s, t);
      FoundSubscriptionLast(next.subscriptions);
    } else {
      FindSubscriptionStays(s.subscriptions, next.subscriptions, id);
      SameOwner(s, next, id);
    }
  }

  lemma FoundSubscriptionLast(subs: seq<SubscriptionRow>)
    requires subs != []
    ensures FindSubscription(subs, subs[|subs| - 1].gatewaySubscriptionId) == Some(|subs| - 1)
  {
  }

  lemma SameOwner(s: Store, next: Store, id: string)
    requires |s.subscriptions| <= |next.subscriptions|
    requires forall k :: 0 <= k < |s.subscriptions| ==> SameSubscription(s.subscriptions[k], next.subscriptions[k])
    requires FindSubscription(next.subscriptions, id) == FindSubscription(s.subscriptions, id)
    ensures forall ref :: RowIsFor(s, ref, id) ==> RowIsFor(next, ref, id)
  {
  }

  lemma ForeignKeeps(w: World, t: Transaction)
    requires Sound(w) && MayCommit(w.store, t)
    ensures Sound(Do(w, Foreign(t)))
  {
    hide Apply, InOnePlace, RowIsFor, FindOperation;
    var v := w.(store := Apply(w.store, t));
    TransactionKeepsRows(w.store, t);
    forall id | id in v.created ensures InOnePlace(v, id) && RowIsFor(v.store, v.created[id], id) {
      ForeignPlaces(w, t, id);
    }
    OperationsGained(w.store, t);
    forall o | 0 <= o < |v.store.operations| ensures OperationIsFor(v, v.store.operations[o]) {
      if o < |w.store.operations| {
        OperationsKept(w.store, t, o);
        assert OperationIsFor(w, w.store.operations[o]);
        if w.store.operations[o].key.CreateSubscriptionKey? { ForeignReconciles(w.store, t, o); }
      }
    }
    forall ref | ref in v.jobs ensures JobSound(v, ref, v.jobs[ref]) {
      assert JobSound(w, ref, w.jobs[ref]);
      FoundAfter(w.store, t, ref);
      if !w.jobs[ref].place.Answered? {
        var o := w.jobs[ref].place.o;
        FoundKey(w.store.operations, KeyFor(ref));
        assert OperationIsFor(w, w.store.operations[o]);
        ForeignReconciles(w.store, t, o);
      }
    }
  }

  // ---------------------------------------------------------------- the jobs' own steps

  /** Without a row and with a retryable operation, or none, every id was dropped. */
  lemma NothingIsLive(w: World, ref: SubscriptionRef)
    requires Sound(w) && Idle(w, ref)
    requires FindSubscriptionBySystemRef(w.store.subscriptions, ref.systemSubscriptionId, ref.system).None?
    requires var o := FindOperation(w.store.operations, KeyFor(ref));
             o.Some? ==> Retryable(w.store.operations[o.value])
    ensures NoneLive(w, ref)
  {
    hide FindOperation, FindSubscription, Good, JobsSound, OperationsFor;
    forall id | id in w.created && w.created[id] == ref ensures id in w.dropped {
      assert InOnePlace(w, id) && RowIsFor(w.store, ref, id);
    }
  }

  /** What is known of an id depends on rows, operations, its job and the record. */
  lemma SamePlace(w: World, v: World, id: string)
    requires id in w.created && id in v.created && v.created[id] == w.created[id]
    requires v.store.subscriptions == w.store.subscriptions
    requires Awaits(v.store, w.created[id], id) == Awaits(w.store, w.created[id], id)
    requires Holds(v, w.created[id], id) == Holds(w, w.created[id], id)
    requires (id in v.dropped) == (id in w.dropped)
    ensures InOnePlace(w, id) ==> InOnePlace(v, id)
    ensures RowIsFor(w.store, w.created[id], id) ==> RowIsFor(v.store, v.created[id], id)
  {
  }

  /** A step of one job that leaves the rows and the operations. */
  lemma MovedKeeps(w: World, order: Order, place: Place)
    requires Sound(w) && JobSound(w, order.ref, Job(order, place))
    requires order.ref in w.jobs ==> InHand(w.jobs[order.ref].place) == InHand(place)
    requires order.ref !in w.jobs ==> InHand(place) == ""
    ensures Sound(Moved(w, order, place))
  {
    hide Good, FindOperation, InOnePlace, RowIsFor, Awaits;
    var v := Moved(w, order, place);
    forall id | id in v.created ensures InOnePlace(v, id) && RowIsFor(v.store, v.created[id], id) {
      SamePlace(w, v, id);
    }
    JobsSeeThrough(w, v);
    forall o | 0 <= o < |v.store.operations| ensures OperationIsFor(v, v.store.operations[o]) {
      assert OperationIsFor(w, w.store.operations[o]);
    }
  }

  lemma JobsSeeThrough(w: World, v: World)
    requires v.store == w.store && v.created == w.created && v.dropped == w.dropped
    ensures forall ref, job :: JobSound(w, ref, job) ==> JobSound(v, ref, job)
  {
    hide Good, FindOperation;
    forall ref, job | JobSound(w, ref, job) ensures JobSound(v, ref, job) {
      assert NoneLive(w, ref) ==> NoneLive(v, ref);
    }
  }

  lemma OpenedKeeps(w: World, order: Order)
    requires Sound(w) && Idle(w, order.ref) && NoneLive(w, order.ref)
    requires FindOperation(w.store.operations, KeyFor(order.ref)).None?
    ensures var op := NewOperation(order);
            var s := w.store.(operations := w.store.operations + [op]);
            Sound(Moved(w.(store := s), order, Ready(|w.store.operations|, op)))
  {
    hide FindOperation, InOnePlace, RowIsFor, Awaits, FindSubscription;
    var op := NewOperation(order);
    var s := w.store.(operations := w.store.operations + [op]);
    var v := Moved(w.(store := s), order, Ready(|w.store.operations|, op));
    OpenedIsGood(w.store, op);
    FoundLast(w.store.operations, op);
    forall ref | ref != order.ref
      ensures FindOperation(s.operations, KeyFor(ref)) == FindOperation(w.store.operations, KeyFor(ref))
    {
      FindStays(w.store.operations, s.operations, KeyFor(ref));
    }
    forall id | id in v.created ensures InOnePlace(v, id) && RowIsFor(v.store, v.created[id], id) {
      AwaitsAfterOpening(w.store, op, w.created[id], id);
      SamePlace(w, v, id);
    }
    forall o | 0 <= o < |s.operations| ensures OperationIsFor(v, s.operations[o]) {
      if o < |w.store.operations| { assert OperationIsFor(w, w.store.operations[o]); }
    }
    forall ref | ref in v.jobs ensures JobSound(v, ref, v.jobs[ref]) {
      if ref == order.ref { assert NoneLive(v, ref); }
      else {
        assert JobSound(w, ref, w.jobs[ref]);
        assert NoneLive(w, ref) ==> NoneLive(v, ref);
      }
    }
  }

  lemma OpenedIsGood(s: Store, op: OperationRow)
    requires Good(s) && FindOperation(s.operations, op.key).None?
    ensures Good(s.(operations := s.operations + [op]))
  {
  }

  lemma AwaitsAfterOpening(s: Store, op: OperationRow, ref: SubscriptionRef, id: string)
    requires FindOperation(s.operations, op.key).None? && op.status == InProgress
    ensures Awaits(s.(operations := s.operations + [op]), ref, id) == Awaits(s, ref, id)
  {
    if op.key == KeyFor(ref) { FoundLast(s.operations, op); } else { FindStays(s.operations, s.operations + [op], KeyFor(ref)); }
  }

  lemma StartKeeps(w: World, order: Order, lands: bool)
    requires Sound(w) && Enabled(w, Start(order, lands))
    ensures Sound(Do(w, Start(order, lands)))
  {
    hide Sound, NoneLive, FindOperation;
    var ref := order.ref;
    IdleJob(w, order);
    var existing := FindSubscriptionBySystemRef(w.store.subscriptions, ref.systemSubscriptionId, ref.system);
    if existing.Some? { MovedKeeps(w, order, Answered(AlreadyThere(existing.value))); }
    else {
      var found := FindOperation(w.store.operations, KeyFor(ref));
      if found.Some? && !Retryable(w.store.operations[found.value]) { MovedKeeps(w, order, Answered(Refused)); }
      else {
        NothingIsLive(w, ref);
        if found.Some? {
          FoundKey(w.store.operations, KeyFor(ref));
          assert JobSound(w, ref, Job(order, Ready(found.value, w.store.operations[found.value])));
          MovedKeeps(w, order, Ready(found.value, w.store.operations[found.value]));
        }
        else if lands { OpenedKeeps(w, order); }
        else { MovedKeeps(w, order, Answered(Broken)); }
      }
    }
  }

  lemma IdleJob(w: World, order: Order)
    requires Idle(w, order.ref)
    ensures forall answer :: JobSound(w, order.ref, Job(order, Answered(answer)))
    ensures order.ref in w.jobs ==> InHand(w.jobs[order.ref].place) == ""
  {
  }

  lemma CallKeeps(w: World, ref: SubscriptionRef, outcome: CreateOutcome)
    requires Sound(w) && Enabled(w, CallCreate(ref, outcome))
    ensures Sound(Do(w, CallCreate(ref, outcome)))
  {
    hide Good, FindOperation;
    assert JobSound(w, ref, w.jobs[ref]);
    var Job(order, Ready(o, op)) := w.jobs[ref];
    match outcome
    case NotCreated(message) =>
      assert JobSound(w, ref, Job(order, Recovering(o, Fail(op, message), "")));
      MovedKeeps(w, order, Recovering(o, Fail(op, message), ""));
    case Created(id) => CreatedKeeps(w, ref, id);
  }

  lemma CreatedKeeps(w: World, ref: SubscriptionRef, id: string)
    requires Sound(w) && Enabled(w, CallCreate(ref, Created(id)))
    ensures Sound(Do(w, CallCreate(ref, Created(id))))
  {
    hide Good, JobsSound, IdsPlaced, OneLive, OperationsFor, NewId;
    CreatedIdsPlaced(w, ref, id);
    CreatedOneLive(w, ref, id);
    CreatedJobsSound(w, ref, id);
    CreatedOperationsFor(w, ref, id);
  }

  lemma CreatedIdsPlaced(w: World, ref: SubscriptionRef, id: string)
    requires Sound(w) && Enabled(w, CallCreate(ref, Created(id)))
    ensures IdsPlaced(Do(w, CallCreate(ref, Created(id))))
  {
    hide Good, FindOperation, FindSubscription, WellFormed, OneLive, OperationsFor, Mirrored, Awaits, RowIsFor;
    assert JobSound(w, ref, w.jobs[ref]);
    var v := Do(w, CallCreate(ref, Created(id)));
    NewIdIsNowhere(w, id, ref);
    forall a | a in v.created ensures a != "" && InOnePlace(v, a) && RowIsFor(v.store, v.created[a], a) {
      if a != id { assert InOnePlace(w, a) && RowIsFor(w.store, w.created[a], a); }
    }
  }

  lemma CreatedOneLive(w: World, ref: SubscriptionRef, id: string)
    requires Sound(w) && Enabled(w, CallCreate(ref, Created(id)))
    ensures OneLive(Do(w, CallCreate(ref, Created(id))))
  {
    hide Good, FindOperation, OperationsFor, IdsPlaced, NewId;
    assert JobSound(w, ref, w.jobs[ref]) && NoneLive(w, ref);
  }

  lemma CreatedJobsSound(w: World, ref: SubscriptionRef, id: string)
    requires Sound(w) && Enabled(w, CallCreate(ref, Created(id)))
    ensures JobsSound(Do(w, CallCreate(ref, Created(id))))
  {
    hide Good, FindOperation, OneLive, OperationsFor, InOnePlace, RowIsFor;
    assert JobSound(w, ref, w.jobs[ref]);
    var v := Do(w, CallCreate(ref, Created(id)));
    forall r | r in v.jobs ensures JobSound(v, r, v.jobs[r]) {
      assert JobSound(w, r, w.jobs[r]);
      assert r != ref && NoneLive(w, r) ==> NoneLive(v, r);
    }
  }

  lemma CreatedOperationsFor(w: World, ref: SubscriptionRef, id: string)
    requires Sound(w) && Enabled(w, CallCreate(ref, Created(id)))
    ensures OperationsFor(Do(w, CallCreate(ref, Created(id))))
  {
    hide Good, FindOperation, FindSubscription, WellFormed, OneLive, IdsPlaced, JobsSound;
    var v := Do(w, CallCreate(ref, Created(id)));
    forall o | 0 <= o < |v.store.operations| ensures OperationIsFor(v, v.store.operations[o]) {
      assert OperationIsFor(w, w.store.operations[o]);
    }
  }

  lemma NewIdIsNowhere(w: World, id: string, ref: SubscriptionRef)
    requires NewId(w, id)
    ensures !Mirrored(w.store, id) && !Awaits(w.store, ref, id) && RowIsFor(w.store, ref, id)
  {
  }

  /** The rows and the operation of a commit by `ref`'s job at operation `o`. */
  ghost predicate OwnCommit(s: Store, t: Store, ref: SubscriptionRef, o: nat) {
    && |t.operations| == |s.operations| && o < |s.operations| && s.operations[o].key == KeyFor(ref)
    && SameRequest(s.operations[o], t.operations[o])
    && (forall p :: 0 <= p < |s.operations| && p != o ==> t.operations[p] == s.operations[p])
  }

  lemma OwnCommitFinds(s: Store, t: Store, ref: SubscriptionRef, o: nat)
    requires OwnCommit(s, t, ref, o) && FindOperation(s.operations, KeyFor(ref)) == Some(o)
    ensures forall r :: FindOperation(t.operations, KeyFor(r)) == FindOperation(s.operations, KeyFor(r))
    ensures forall r, id :: r != ref ==> Awaits(t, r, id) == Awaits(s, r, id)
    ensures forall id :: Awaits(t, ref, id) == SetAsideAs(t.operations[o], id)
  {
    forall r ensures FindOperation(t.operations, KeyFor(r)) == FindOperation(s.operations, KeyFor(r)) {
      FindStays(s.operations, t.operations, KeyFor(r));
      if r != ref && FindOperation(s.operations, KeyFor(r)).Some? { FoundKey(s.operations, KeyFor(r)); }
    }
    forall r, id | r != ref ensures Awaits(t, r, id) == Awaits(s, r, id) {
      if FindOperation(s.operations, KeyFor(r)).Some? { FoundKey(s.operations, KeyFor(r)); }
    }
  }

  /** After a job's last step, with its commit: everything else is as it was, and
      the id it had in hand is in its one place. */
  lemma OwnCommitKeeps(w: World, t: Store, order: Order, o: nat, answer: Answer, dropped: set<string>)
    requires Sound(w) && Good(t) && order.ref in w.jobs && !w.jobs[order.ref].place.Answered? && w.jobs[order.ref].place.o == o
    requires w.jobs[order.ref].order == order
    requires OwnCommit(w.store, t, order.ref, o)
    requires forall id :: id in w.created && id != InHand(w.jobs[order.ref].place) ==>
               && Mirrored(t, id) == Mirrored(w.store, id)
               && (RowIsFor(w.store, w.created[id], id) ==> RowIsFor(t, w.created[id], id))
    requires var hand := InHand(w.jobs[order.ref].place);
             && w.dropped <= dropped <= w.dropped + (if hand == "" then {} else {hand})
             && (hand == "" ==> t.operations[o].status != RequiresReconciliation)
             && (hand != "" ==>
                   && One(Mirrored(t, hand)) + One(SetAsideAs(t.operations[o], hand)) + One(hand in dropped) == 1
                   && (t.operations[o].status == RequiresReconciliation ==> t.operations[o].gatewayReference == hand)
                   && RowIsFor(t, order.ref, hand))
    ensures Sound(Moved(w.(store := t, dropped := dropped), order, Answered(answer)))
  {
    hide Good, FindOperation, FindSubscription, Mirrored, RowIsFor, Awaits;
    var v := Moved(w.(store := t, dropped := dropped), order, Answered(answer));
    var hand := InHand(w.jobs[order.ref].place);
    assert JobSound(w, order.ref, w.jobs[order.ref]);
    OwnCommitFinds(w.store, t, order.ref, o);
    forall id | id in v.created ensures InOnePlace(v, id) && RowIsFor(v.store, v.created[id], id) {
      assert InOnePlace(w, id) && RowIsFor(w.store, w.created[id], id);
      if id != hand && w.created[id] == order.ref { OtherIdsAreDropped(w, order.ref, id); }
    }
    forall p | 0 <= p < |t.operations| ensures OperationIsFor(v, t.operations[p]) {
      assert OperationIsFor(w, w.store.operations[p]);
    }
    forall r | r in v.jobs ensures JobSound(v, r, v.jobs[r]) {
      assert JobSound(w, r, w.jobs[r]);
      if r != order.ref && !w.jobs[r].place.Answered? {
        FoundKey(w.store.operations, KeyFor(r));
        assert NoneLive(w, r) ==> NoneLive(v, r);
      }
    }
  }

  lemma OtherIdsAreDropped(w: World, ref: SubscriptionRef, id: string)
    requires Sound(w) && ref in w.jobs && !w.jobs[ref].place.Answered?
    requires id in w.created && w.created[id] == ref && id != InHand(w.jobs[ref].place)
    ensures id in w.dropped && !Awaits(w.store, ref, id) && !Mirrored(w.store, id)
  {
    assert JobSound(w, ref, w.jobs[ref]) && InOnePlace(w, id);
    var hand := InHand(w.jobs[ref].place);
    if hand != "" { assert InOnePlace(w, hand); }
  }

  lemma BoundCommits(s: Store, order: Order, o: nat, id: string, fetched: Option<seq<GatewayPayment>>, now: DateTime)
    requires Good(s) && o < |s.operations| && s.operations[o].key == KeyFor(order.ref)
    requires Bound(s, order, o, id, fetched, now).Some?
    ensures var t := Bound(s, order, o, id, fetched, now).value;
            && Good(t) && OwnCommit(s, t, order.ref, o) && t.operations[o].status == Completed
            && t.operations[o].gatewayReference == id
            && NewSubscription(order, id).Some? && t.subscriptions == s.subscriptions + [NewSubscription(order, id).value]
  {
    hide Good, Chosen, NewInvoice;
    var sub := NewSubscription(order, id).value;
    var p := Chosen(fetched.value).value;
    var invoice := NewInvoice(order.ref.systemSubscriptionId + ":" + p.paymentId, p.paymentId, sub,
                              |s.subscriptions|, p.value, p.paymentType, p.invoiceUrl, now).value;
    BindSubscriptionKeeps(s, o, sub, invoice);
  }

  lemma BoundMirrors(s: Store, t: Store, ref: SubscriptionRef, row: SubscriptionRow)
    requires t.subscriptions == s.subscriptions + [row]
    requires row.systemSubscriptionId == ref.systemSubscriptionId && row.fromSystem == ref.system
    ensures Mirrored(t, row.gatewaySubscriptionId) && RowIsFor(t, ref, row.gatewaySubscriptionId)
    ensures forall id :: id != row.gatewaySubscriptionId ==> Mirrored(t, id) == Mirrored(s, id)
    ensures forall r, id :: id != row.gatewaySubscriptionId && RowIsFor(s, r, id) ==> RowIsFor(t, r, id)
  {
    FoundSubscription(s.subscriptions, row);
    forall id | id != row.gatewaySubscriptionId
      ensures FindSubscription(t.subscriptions, id) == FindSubscription(s.subscriptions, id)
    {
      FindSubscriptionStays(s.subscriptions, t.subscriptions, id);
    }
  }

  /** The id in hand became a row, the operation completed in the same commit; or
      nothing was committed and the id is still in hand. */
  predicate BoundOrHeld(w: World, v: World, ref: SubscriptionRef) {
    && ref in w.jobs && w.jobs[ref].place.Holding? && ref in v.jobs
    && var id, o, n := w.jobs[ref].place.id, w.jobs[ref].place.o, |w.store.subscriptions|;
       if v.jobs[ref].place == Answered(CreatedNow) then
         && |v.store.subscriptions| == n + 1 && v.store.subscriptions[..n] == w.store.subscriptions
         && OwnRow(v.store.subscriptions[n], ref, id)
         && o < |v.store.operations| && v.store.operations[o].key == KeyFor(ref)
         && v.store.operations[o].status == Completed && v.store.operations[o].gatewayReference == id
       else v.store == w.store && Holds(v, ref, id)
  }

  lemma ConcludeKeeps(w: World, ref: SubscriptionRef, fetched: Option<seq<GatewayPayment>>, lands: bool, message: string,
                      now: DateTime)
    requires Sound(w) && Enabled(w, Conclude(ref, fetched, lands, message, now))
    ensures var v := Do(w, Conclude(ref, fetched, lands, message, now));
            && Sound(v)
            && BoundOrHeld(w, v, ref)
  {
    hide Good, FindOperation, Bound, InOnePlace, RowIsFor, Mirrored, Awaits;
    var Job(order, Holding(o, op, id)) := w.jobs[ref];
    assert JobSound(w, ref, w.jobs[ref]);
    FoundKey(w.store.operations, KeyFor(ref));
    var bound := Bound(w.store, order, o, id, fetched, now);
    if lands && bound.Some? {
      BoundCommits(w.store, order, o, id, fetched, now);
      BoundMirrors(w.store, bound.value, ref, NewSubscription(order, id).value);
      HandIsNotDropped(w, ref);
      OwnCommitKeeps(w, bound.value, order, o, CreatedNow, w.dropped);
    } else {
      MovedKeeps(w, order, Recovering(o, SetAside(op, id, message), id));
    }
  }

  lemma HandIsNotDropped(w: World, ref: SubscriptionRef)
    requires Sound(w) && ref in w.jobs && InHand(w.jobs[ref].place) != ""
    ensures var id := InHand(w.jobs[ref].place);
            id in w.created && w.created[id] == ref && id !in w.dropped && !Mirrored(w.store, id) && !Awaits(w.store, ref, id)
            && RowIsFor(w.store, ref, id)
  {
    assert JobSound(w, ref, w.jobs[ref]) && InOnePlace(w, InHand(w.jobs[ref].place));
  }

  lemma UpdateCommits(s: Store, o: nat, row: OperationRow, ref: SubscriptionRef)
    requires Good(s) && o < |s.operations| && s.operations[o].key == KeyFor(ref)
    ensures var t := UpdateOperation(s, o, row);
            && Good(t) && OwnCommit(s, t, ref, o) && t.subscriptions == s.subscriptions
            && t.operations[o].status == row.status && t.operations[o].gatewayReference == row.gatewayReference
  {
    OperationWriteKeeps(s, o, row);
  }

  lemma SameRowsMirror(s: Store, t: Store)
    requires t.subscriptions == s.subscriptions
    ensures forall id :: Mirrored(t, id) == Mirrored(s, id)
    ensures forall r, id :: RowIsFor(s, r, id) ==> RowIsFor(t, r, id)
  {
  }

  lemma RecoverKeeps(w: World, ref: SubscriptionRef, lands: bool)
    requires Sound(w) && Enabled(w, Recover(ref, lands))
    ensures var v := Do(w, Recover(ref, lands));
            && Sound(v)
            && var id, o := InHand(w.jobs[ref].place), w.jobs[ref].place.o;
               if !lands then v.store == w.store
               else o < |v.store.operations| && v.store.subscriptions == w.store.subscriptions
                    && v.store.operations[o].key == KeyFor(ref)
                    && if id == "" then v.store.operations[o].status == Rejected
                       else OwnOperation(v.store.operations[o], ref, id)
  {
    hide Good, FindOperation, InOnePlace, RowIsFor, Mirrored, Awaits;
    var Job(order, Recovering(o, op, id)) := w.jobs[ref];
    assert JobSound(w, ref, w.jobs[ref]);
    FoundKey(w.store.operations, KeyFor(ref));
    if id != "" { HandIsNotDropped(w, ref); }
    if lands {
      UpdateCommits(w.store, o, op, ref);
      SameRowsMirror(w.store, UpdateOperation(w.store, o, op));
      OwnCommitKeeps(w, UpdateOperation(w.store, o, op), order, o, if id == "" then FailedNow else SetAsideNow, w.dropped);
    } else { EndedKeeps(w, ref, Broken); }
  }

  /** A job that ends here, with what it has in hand unrecorded. */
  lemma EndedKeeps(w: World, ref: SubscriptionRef, answer: Answer)
    requires Sound(w) && !Idle(w, ref)
    ensures Sound(Moved(Drop(w, InHand(w.jobs[ref].place)), w.jobs[ref].order, Answered(answer)))
  {
    hide Good, FindOperation, InOnePlace, RowIsFor, Mirrored, Awaits;
    var Job(order, place) := w.jobs[ref];
    assert JobSound(w, ref, w.jobs[ref]);
    FoundKey(w.store.operations, KeyFor(ref));
    var hand := InHand(place);
    if hand != "" { HandIsNotDropped(w, ref); }
    var v := Drop(w, hand);
    OpenOperationsAreNotAside(w, ref);
    OwnCommitKeeps(w, w.store, order, place.o, answer, v.dropped);
    assert w.(store := w.store, dropped := v.dropped) == v;
  }

  lemma OpenOperationsAreNotAside(w: World, ref: SubscriptionRef)
    requires Sound(w) && !Idle(w, ref)
    ensures w.jobs[ref].place.o < |w.store.operations|
    ensures w.store.operations[w.jobs[ref].place.o].status != RequiresReconciliation
  {
    assert JobSound(w, ref, w.jobs[ref]);
  }

  lemma StepKeeps(w: World, step: Step)
    requires Sound(w) && Enabled(w, step)
    ensures Sound(Do(w, step))
  {
    hide Sound;
    match step
    case Foreign(t) => ForeignKeeps(w, t);
    case Start(order, lands) => StartKeeps(w, order, lands);
    case CallCreate(ref, outcome) => CallKeeps(w, ref, outcome);
    case Conclude(ref, fetched, lands, message, now) => ConcludeKeeps(w, ref, fetched, lands, message, now);
    case Recover(ref, lands) => RecoverKeeps(w, ref, lands);
    case Crash(ref) => EndedKeeps(w, ref, Crashed);
  }

  // ---------------------------------------------------------------- over runs

  lemma {:induction false} RunIsSound(w: World, steps: seq<Step>)
    requires Sound(w) && Possible(w, steps)
    ensures Sound(Steps(w, steps))
    decreases |steps|
  {
    hide Sound, Do, Enabled;
    if steps != [] {
      StepKeeps(w, steps[0]);
      RunIsSound(Do(w, steps[0]), steps[1..]);
    }
  }

  /** Before any job, whatever is stored. */
  lemma StartIsSound(s: Store)
    requires Good(s) && forall o :: 0 <= o < |s.operations| ==> WellFormed(s.operations[o])
    ensures Sound(World(s, map[], map[], {}))
  {
  }

  /** A committed row of the subscription `ref` that has the id. */
  predicate OwnRow(row: SubscriptionRow, ref: SubscriptionRef, id: string) {
    row.gatewaySubscriptionId == id && row.systemSubscriptionId == ref.systemSubscriptionId && row.fromSystem == ref.system
  }

  /** The creation operation of `ref`, awaiting reconciliation with the id. */
  predicate OwnOperation(op: OperationRow, ref: SubscriptionRef, id: string) {
    op.key == KeyFor(ref) && SetAsideAs(op, id)
  }

  ghost predicate OnRecord(s: Store, ref: SubscriptionRef, id: string) {
    || (exists k :: 0 <= k < |s.subscriptions| && OwnRow(s.subscriptions[k], ref, id))
    || (exists o :: 0 <= o < |s.operations| && OwnOperation(s.operations[o], ref, id))
  }

  predicate RowHas(s: Store, k: nat, id: string) {
    k < |s.subscriptions| && s.subscriptions[k].gatewaySubscriptionId == id
  }

  predicate OperationHas(s: Store, o: nat, id: string) {
    o < |s.operations| && s.operations[o].key.CreateSubscriptionKey? && SetAsideAs(s.operations[o], id)
  }

  /** Nothing on record has the id, of this reference or of another. */
  ghost predicate Unrecorded(s: Store, id: string) {
    (forall k: nat :: !RowHas(s, k, id)) && (forall o: nat :: !OperationHas(s, o, id))
  }

  /** One row or one operation at most has the id, and not one of each. */
  ghost predicate OnRecordOnce(s: Store, id: string) {
    && (forall k: nat, o: nat :: !(RowHas(s, k, id) && OperationHas(s, o, id)))
    && (forall j: nat, k: nat :: RowHas(s, j, id) && RowHas(s, k, id) ==> j == k)
    && (forall o: nat, p: nat :: OperationHas(s, o, id) && OperationHas(s, p, id) ==> o == p)
  }

  /** No orphan, in any state of any run: an id the gateway returned and no job
      dropped is in the hand of its reference's job and nowhere on record, or on
      record exactly once, as that reference's own row or awaiting operation; and
      no other such id is the reference's. */
  lemma NoOrphan(s: Store, steps: seq<Step>, id: string)
    requires Good(s) && (forall o :: 0 <= o < |s.operations| ==> WellFormed(s.operations[o]))
    requires Possible(World(s, map[], map[], {}), steps)
    requires var v := Steps(World(s, map[], map[], {}), steps); id in v.created && id !in v.dropped
    ensures var v := Steps(World(s, map[], map[], {}), steps);
            var ref := v.created[id];
            && (if Holds(v, ref, id) then Unrecorded(v.store, id)
                else OnRecord(v.store, ref, id) && OnRecordOnce(v.store, id))
            && (Idle(v, ref) ==> !Holds(v, ref, id))
            && forall other :: other in v.created && other !in v.dropped && v.created[other] == ref ==> other == id
  {
    hide Sound;
    StartIsSound(s);
    RunIsSound(World(s, map[], map[], {}), steps);
    var v := Steps(World(s, map[], map[], {}), steps);
    SoundIsPlaced(v, id);
    SoundIsOnRecord(v, id);
  }

  lemma SoundIsPlaced(v: World, id: string)
    requires Sound(v) && id in v.created && id !in v.dropped
    ensures id != "" && (Idle(v, v.created[id]) ==> !Holds(v, v.created[id], id))
    ensures forall other :: other in v.created && other !in v.dropped && v.created[other] == v.created[id] ==> other == id
  {
    hide Good, FindOperation, FindSubscription;
    assert InOnePlace(v, id);
  }

  lemma SoundIsOnRecord(v: World, id: string)
    requires Sound(v) && id in v.created && id !in v.dropped
    ensures if Holds(v, v.created[id], id) then Unrecorded(v.store, id)
            else OnRecord(v.store, v.created[id], id) && OnRecordOnce(v.store, id)
  {
    hide FindOperation, FindSubscription, JobsSound, OneLive;
    assert InOnePlace(v, id) && RowIsFor(v.store, v.created[id], id);
    var s, ref := v.store, v.created[id];
    FoundRow(s.subscriptions, id);
    if FindOperation(s.operations, KeyFor(ref)).Some? { FoundKey(s.operations, KeyFor(ref)); }
    forall o: nat | OperationHas(s, o, id) ensures FindOperation(s.operations, KeyFor(ref)) == Some(o) {
      assert OperationIsFor(v, s.operations[o]);
      FoundByKey(s.operations, o);
    }
  }

  lemma FoundRow(subs: seq<SubscriptionRow>, id: string)
    ensures var k := FindSubscription(subs, id);
            && (k.Some? ==> k.value < |subs| && subs[k.value].gatewaySubscriptionId == id)
            && (k.None? ==> forall j :: 0 <= j < |subs| ==> subs[j].gatewaySubscriptionId != id)
  {
  }

  /** Runs in which no job dies with an id in hand and every recovery commits. */
  predicate AllRecorded(steps: seq<Step>) {
    forall step :: step in steps ==> !step.Crash? && (step.Recover? ==> step.lands)
  }

  lemma {:induction false} NothingIsDropped(w: World, steps: seq<Step>)
    requires Sound(w) && Possible(w, steps) && AllRecorded(steps)
    ensures Steps(w, steps).dropped == w.dropped
    decreases |steps|
  {
    hide Sound;
    if steps != [] {
      var next := Do(w, steps[0]);
      StepKeeps(w, steps[0]);
      assert steps[0] in steps && forall step :: step in steps[1..] ==> step in steps;
      RecordedDropsNothing(w, steps[0]);
      NothingIsDropped(next, steps[1..]);
    }
  }

  lemma RecordedDropsNothing(w: World, step: Step)
    requires Sound(w) && Enabled(w, step) && !step.Crash? && (step.Recover? ==> step.lands)
    ensures Do(w, step).dropped == w.dropped
  {
    hide Apply, Bound, Good, IdsPlaced, OneLive, OperationsFor, FindOperation;
    if step.Recover? { assert JobSound(w, step.ref, w.jobs[step.ref]); }
  }
}
