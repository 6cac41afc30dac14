/** What each step of a creation job leaves, told from the order, the gateway's
    answers and the rows before. */
module SubscriptionOutcomes {
  import opened BillingCalendar
  import opened Entities
  import opened RowMeanings
  import opened Storage
  import opened TransactionLaws
  import opened SubscriptionProtocol
  import opened SubscriptionLaws

  // ---------------------------------------------------------------- the rows of an order

  /** The subscription that was ordered, under the gateway's id, with nothing paid
      or ended yet. */
  predicate AsOrdered(row: SubscriptionRow, order: Order, id: string) {
    && row.fromSystem == order.ref.system && row.systemSubscriptionId == order.ref.systemSubscriptionId
    && row.gateway == order.provider && row.gatewaySubscriptionId == id
    && row.subscriptionType == order.subscriptionType && row.value == order.value
    && row.expiresAt == order.expiresAt && row.webhookLink == order.webhookLink
    && row.status == Unpaid && row.lastPaidDate == None
    && row.cancellationRequestedAt == None && row.cancelledAt == None
    && row.cancellationReason == "" && row.cancellationJobId == ""
  }

  /** The subscription's first payment, as the gateway lists it. */
  predicate AsListed(row: PaymentRow, order: Order, owner: nat, p: GatewayPayment, now: DateTime) {
    && Untouched(row, now) && row.subscription == Some(owner)
    && row.providerPaymentId == p.paymentId && row.value == p.value && row.paymentType == p.paymentType
    && row.checkoutLink == p.invoiceUrl
    && row.systemPaymentId == order.ref.systemSubscriptionId + ":" + p.paymentId
    && row.fromSystem == order.ref.system && row.gateway == order.provider
    && row.webhookLink == "" && row.externalReference == NoReference
  }

  /** Of the payments listed, the first pending one; if none is pending, the first. */
  predicate IsChosen(payments: seq<GatewayPayment>, n: nat) {
    n < |payments|
    && if payments[n].pending then forall m :: 0 <= m < n ==> !payments[m].pending
       else n == 0 && forall m :: 0 <= m < |payments| ==> !payments[m].pending
  }

  predicate AsChosen(row: PaymentRow, order: Order, owner: nat, payments: seq<GatewayPayment>, now: DateTime) {
    exists n :: 0 <= n < |payments| && IsChosen(payments, n) && AsListed(row, order, owner, payments[n], now)
  }

  /** One commit: the subscription ordered, its first payment, and the operation
      completed with the id; nothing else. */
  predicate BoundAs(s: Store, t: Store, order: Order, o: nat, id: string, payments: seq<GatewayPayment>, now: DateTime) {
    var k, i := |s.subscriptions|, |s.payments|;
    && |t.subscriptions| == k + 1 && |t.payments| == i + 1 && o < |s.operations| == |t.operations|
    && AsOrdered(t.subscriptions[k], order, id)
    && AsChosen(t.payments[i], order, k, payments, now)
    && CompletedWith(s.operations[o], t.operations[o], id)
    && t == s.(subscriptions := s.subscriptions + [t.subscriptions[k]], payments := s.payments + [t.payments[i]],
               operations := s.operations[o := t.operations[o]])
  }

  // ---------------------------------------------------------------- when it may be bound

  /** No stored subscription has the order's reference or the gateway's id. */
  predicate FreeForOrder(s: Store, order: Order, id: string) {
    forall k :: 0 <= k < |s.subscriptions| ==>
      && s.subscriptions[k].gatewaySubscriptionId != id
      && (s.subscriptions[k].systemSubscriptionId != order.ref.systemSubscriptionId
          || s.subscriptions[k].fromSystem != order.ref.system)
  }

  /** The payment has an id and a positive value, and no stored payment has that id
      or the reference made from it. */
  predicate Payable(s: Store, order: Order, p: GatewayPayment) {
    && p.paymentId != "" && p.value > 0
    && forall i :: 0 <= i < |s.payments| ==>
         && s.payments[i].providerPaymentId != p.paymentId
         && (s.payments[i].systemPaymentId != order.ref.systemSubscriptionId + ":" + p.paymentId
             || s.payments[i].fromSystem != order.ref.system)
  }

  /** What binding demands of the order, the id and the payments listed. */
  predicate Binds(s: Store, order: Order, id: string, payments: seq<GatewayPayment>) {
    && order.ref.systemSubscriptionId != "" && id != "" && order.value >= 0 && FreeForOrder(s, order, id)
    && exists n :: 0 <= n < |payments| && IsChosen(payments, n) && Payable(s, order, payments[n])
  }

  /** Of any payments listed, one is chosen. */
  lemma OneIsChosen(payments: seq<GatewayPayment>)
    requires payments != []
    ensures exists n: nat :: IsChosen(payments, n) && Chosen(payments) == Some(payments[n])
    ensures forall m: nat, n: nat :: IsChosen(payments, m) && IsChosen(payments, n) ==> m == n
  {
    var n := 0;
    while n < |payments| && !payments[n].pending
      invariant n <= |payments| && forall m :: 0 <= m < n ==> !payments[m].pending
      invariant FirstPending(payments) == FirstPending(payments[n..])
    {
      assert payments[n..][1..] == payments[n + 1..];
      n := n + 1;
    }
    assert IsChosen(payments, if n < |payments| then n else 0);
  }

  /** The commit that binds goes through exactly when it may, and leaves what was
      ordered and listed. */
  lemma BindingCommits(s: Store, order: Order, o: nat, id: string, fetched: Option<seq<GatewayPayment>>, now: DateTime)
    requires o < |s.operations|
    ensures var bound := Bound(s, order, o, id, fetched, now);
            && (bound.Some? <==> fetched.Some? && Binds(s, order, id, fetched.value))
            && (bound.Some? ==> BoundAs(s, bound.value, order, o, id, fetched.value, now))
  {
    if fetched.Some? && fetched.value != [] {
      hide Chosen;
      OneIsChosen(fetched.value);
      var n: nat :| IsChosen(fetched.value, n) && Chosen(fetched.value) == Some(fetched.value[n]);
      ChosenCommits(s, order, o, id, fetched.value, n, now);
    }
  }

  lemma ChosenCommits(s: Store, order: Order, o: nat, id: string, payments: seq<GatewayPayment>, n: nat, now: DateTime)
    requires o < |s.operations| && IsChosen(payments, n) && Chosen(payments) == Some(payments[n])
    requires forall m: nat :: IsChosen(payments, m) ==> m == n
    ensures var bound := Bound(s, order, o, id, Some(payments), now);
            && (bound.Some? <==> Binds(s, order, id, payments))
            && (bound.Some? ==> BoundAs(s, bound.value, order, o, id, payments, now))
  {
    hide Chosen;
    OperationRulesMean(s.operations[o], id, "");
    assert Binds(s, order, id, payments) <==>
      order.ref.systemSubscriptionId != "" && id != "" && order.value >= 0 && FreeForOrder(s, order, id)
      && Payable(s, order, payments[n]);
  }

  // ---------------------------------------------------------------- the steps of a job

  predicate HasRow(s: Store, ref: SubscriptionRef, k: nat) {
    k < |s.subscriptions| && s.subscriptions[k].fromSystem == ref.system
    && s.subscriptions[k].systemSubscriptionId == ref.systemSubscriptionId
  }

  predicate HasRequest(s: Store, ref: SubscriptionRef, o: nat) {
    o < |s.operations| && s.operations[o].key == CreateSubscriptionKey(ref.system, ref.systemSubscriptionId)
  }

  /** The request, just opened: it carries the whole order. */
  predicate JustRequested(op: OperationRow, order: Order) {
    && op.key == CreateSubscriptionKey(order.ref.system, order.ref.systemSubscriptionId) && op.provider == order.provider
    && op.payload.SubscriptionPayload? && op.payload.systemSubscriptionId == order.ref.systemSubscriptionId
    && op.payload.value == order.value && op.payload.subscriptionType == order.subscriptionType
    && op.payload.expiresAt == order.expiresAt && op.payload.webhookLink == order.webhookLink
    && op.status == InProgress && op.gatewayReference == "" && op.errorMessage == ""
  }

  /** A job of this order moved, and no other. */
  predicate OnlyMoved(w: World, v: World, order: Order) {
    order.ref in v.jobs && v.jobs[order.ref].order == order && v.jobs == w.jobs[order.ref := v.jobs[order.ref]]
  }

  /** The answers of a start, and what it commits: the stored row, a refusal, the
      failed request to try again, or a new request. */
  lemma StartOutcome(w: World, order: Order, lands: bool)
    requires Sound(w) && Enabled(w, Start(order, lands))
    ensures var s, v := w.store, Do(w, Start(order, lands));
            && OnlyMoved(w, v, order) && v.created == w.created && v.dropped == w.dropped
            && var place := v.jobs[order.ref].place;
               if exists k: nat :: HasRow(s, order.ref, k) then
                 v.store == s && place.Answered? && place.answer.AlreadyThere? && HasRow(s, order.ref, place.answer.k)
               else if exists o: nat :: HasRequest(s, order.ref, o) then
                 v.store == s && forall o: nat :: HasRequest(s, order.ref, o) ==>
                   var op := s.operations[o];
                   place == if op.status == Rejected && op.gatewayReference == "" then Ready(o, op) else Answered(Refused)
               else if !lands then v.store == s && place == Answered(Broken)
               else
                 && place.Ready? && place.o == |s.operations| && JustRequested(place.op, order)
                 && v.store == s.(operations := s.operations + [place.op])
  {
    hide JobsSound, IdsPlaced, OneLive, OperationsFor, PaymentKeys, Owned, DeliveryKeys, AllProcessed;
    var s := w.store;
    var existing := FindSubscriptionBySystemRef(s.subscriptions, order.ref.systemSubscriptionId, order.ref.system);
    if existing.Some? { assert HasRow(s, order.ref, existing.value); }
    else {
      var found := FindOperation(s.operations, KeyFor(order.ref));
      if found.Some? { assert HasRequest(s, order.ref, found.value); }
    }
  }

  /** The create call: the id the gateway gave is in hand, for this reference; or the
      request is to be recorded as failed. */
  lemma CallOutcome(w: World, ref: SubscriptionRef, outcome: CreateOutcome)
    requires Sound(w) && Enabled(w, CallCreate(ref, outcome))
    ensures var v, order, at := Do(w, CallCreate(ref, outcome)), w.jobs[ref].order, w.jobs[ref].place;
            && OnlyMoved(w, v, order) && v.store == w.store && v.dropped == w.dropped && order.ref == ref
            && match outcome
               case Created(id) => v.created == w.created[id := ref] && v.jobs[ref].place == Holding(at.o, at.op, id)
               case NotCreated(message) =>
                 && v.created == w.created && v.jobs[ref].place.Recovering?
                 && v.jobs[ref].place.o == at.o && v.jobs[ref].place.id == ""
                 && FailedWith(at.op, v.jobs[ref].place.op, message)
  {
    hide Good, IdsPlaced, OneLive, OperationsFor, FindOperation;
    assert JobSound(w, ref, w.jobs[ref]);
  }

  /** The binding: a job that answers it is done has committed what was ordered and
      listed, and nothing else; it does so whenever it may and the commit lands. Any
      other has committed nothing, and is to set the request aside with the id. */
  lemma ConcludeOutcome(w: World, ref: SubscriptionRef, fetched: Option<seq<GatewayPayment>>, lands: bool, message: string,
                        now: DateTime)
    requires Sound(w) && Enabled(w, Conclude(ref, fetched, lands, message, now))
    ensures var s, v := w.store, Do(w, Conclude(ref, fetched, lands, message, now));
            var Job(order, at) := w.jobs[ref];
            && OnlyMoved(w, v, order) && v.created == w.created && v.dropped == w.dropped && order.ref == ref
            && if lands && fetched.Some? && Binds(s, order, at.id, fetched.value) then
                 v.jobs[ref].place == Answered(CreatedNow) && BoundAs(s, v.store, order, at.o, at.id, fetched.value, now)
               else
                 && v.store == s && v.jobs[ref].place.Recovering?
                 && v.jobs[ref].place.o == at.o && v.jobs[ref].place.id == at.id
                 && SetAsideWith(at.op, v.jobs[ref].place.op, at.id, message)
  {
    hide Good, IdsPlaced, OneLive, OperationsFor, FindOperation, Bound, BoundAs, Binds;
    assert JobSound(w, ref, w.jobs[ref]);
    var Job(order, at) := w.jobs[ref];
    BindingCommits(w.store, order, at.o, at.id, fetched, now);
  }

  /** The recovery: the request gets the status, reference and message that the job
      decided on, and nothing else changes; an id that cannot be recorded is dropped. */
  lemma RecoverOutcome(w: World, ref: SubscriptionRef, lands: bool)
    requires Sound(w) && Enabled(w, Recover(ref, lands))
    ensures var s, v := w.store, Do(w, Recover(ref, lands));
            var Job(order, at) := w.jobs[ref];
            && OnlyMoved(w, v, order) && v.created == w.created && order.ref == ref && at.o < |s.operations|
            && if !lands then
                 && v.store == s && v.jobs[ref].place == Answered(Broken)
                 && v.dropped == (if at.id == "" then w.dropped else w.dropped + {at.id})
               else
                 && v.dropped == w.dropped && v.jobs[ref].place == Answered(if at.id == "" then FailedNow else SetAsideNow)
                 && |v.store.operations| == |s.operations|
                 && v.store == s.(operations := s.operations[at.o := v.store.operations[at.o]])
                 && Decided(s.operations[at.o], at.op, v.store.operations[at.o])
  {
    hide Good, IdsPlaced, OneLive, OperationsFor, FindOperation;
    assert JobSound(w, ref, w.jobs[ref]);
  }

  // ---------------------------------------------------------------- a job's run

  /** The state just committed ends with the order's subscription and its first
      payment, and the request is completed with the id. */
  predicate EndsWithOrder(t: Store, order: Order, id: string, payments: seq<GatewayPayment>, now: DateTime) {
    && |t.subscriptions| > 0 && AsOrdered(t.subscriptions[|t.subscriptions| - 1], order, id)
    && |t.payments| > 0 && AsChosen(t.payments[|t.payments| - 1], order, |t.subscriptions| - 1, payments, now)
    && exists o :: 0 <= o < |t.operations| && HasRequest(t, order.ref, o)
                   && t.operations[o].status == Completed && t.operations[o].gatewayReference == id
  }

  /** Since step `from`, the gateway created the id for this order, and the last step
      committed it with the payments it listed. */
  predicate CreatedSince(steps: seq<Step>, from: nat, order: Order, t: Store) {
    exists n :: from <= n < |steps| - 1 && CreatedAt(steps, n, order, t)
  }

  predicate CreatedAt(steps: seq<Step>, n: nat, order: Order, t: Store) {
    n < |steps| && var call, last := steps[n], steps[|steps| - 1];
    && call.CallCreate? && call.ref == order.ref && call.outcome.Created?
    && last.Conclude? && last.ref == order.ref && last.fetched.Some?
    && EndsWithOrder(t, order, call.outcome.id, last.fetched.value, last.now)
  }

  lemma BoundEndsWithOrder(s: Store, t: Store, order: Order, o: nat, id: string, payments: seq<GatewayPayment>, now: DateTime)
    requires BoundAs(s, t, order, o, id, payments, now) && s.operations[o].key == KeyFor(order.ref)
    ensures EndsWithOrder(t, order, id, payments, now)
  {
    assert HasRequest(t, order.ref, o);
  }
}
