/** What every run of the cancellation protocol keeps. */
module CancellationLaws {
  import opened BillingCalendar
  import opened Entities
  import opened RowMeanings
  import opened Storage
  import opened EventIds
  import opened WebhookRules
  import opened Transactions
  import opened TransactionLaws
  import opened OperationLaws
  import opened CancellationProtocol

  /** A completed cancellation has ended its subscription, and one awaiting
      reconciliation is of a subscription canceled at the gateway. */
  predicate OperationSafe(w: World, op: OperationRow) {
    WellFormed(op) &&
    (op.key.CancelSubscriptionKey? ==>
      var k := op.key.subscription;
      && k < |w.store.subscriptions| && op.key.system == w.store.subscriptions[k].fromSystem
      && (op.status == Completed ==> w.store.subscriptions[k].status == Ended)
      && (op.status == RequiresReconciliation ==> GatewayId(w, k) in w.canceled))
  }

  /** An inactivation notice names a subscription that has ended, and no payment. */
  predicate Inactivates(s: Store, event: InternalEvent, subscription: Option<nat>, payment: Option<nat>) {
    event == NotifyInactivated ==>
      payment.None? && subscription.Some? && subscription.value < |s.subscriptions|
      && s.subscriptions[subscription.value].status == Ended
  }

  /** A delivery that tells, at the subscription's link, when it expires. */
  predicate TellsEnd(s: Store, k: nat, d: DeliveryRow) {
    && k < |s.subscriptions| && d.key == SubscriptionNotice(NotifyInactivated, k, None)
    && d.targetUrl == s.subscriptions[k].webhookLink && d.content.SubscriptionContent?
    && d.content.systemSubscriptionId == s.subscriptions[k].systemSubscriptionId
    && d.content.expiresOn == s.subscriptions[k].expiresAt.date && d.content.paidOn == None
  }

  /** An inactivation delivery is of a subscription that has ended, and tells it. */
  predicate DeliverySafe(s: Store, d: DeliveryRow) {
    d.key.SubscriptionNotice? && d.key.event == NotifyInactivated ==>
      && Inactivates(s, d.key.event, Some(d.key.subscription), d.key.payment)
      && TellsEnd(s, d.key.subscription, d)
  }

  predicate Told(s: Store, k: nat) {
    k < |s.subscriptions| && s.subscriptions[k].status == Ended
    && (s.subscriptions[k].webhookLink == "" || HasDelivery(s.deliveries, SubscriptionNotice(NotifyInactivated, k, None)))
  }

  /** The operation a job works on is open, and only that job may move it. */
  predicate Holds(w: World, r: Request, o: nat, op: OperationRow) {
    && r.subscription < |w.store.subscriptions| && w.store.subscriptions[r.subscription].fromSystem == r.system
    && o < |w.store.operations| && SameRequest(w.store.operations[o], op)
    && op.key == CancelSubscriptionKey(r.system, r.subscription)
    && w.store.operations[o].status in {InProgress, Rejected}
  }

  predicate JobSafe(w: World, k: nat, job: Job) {
    var r := job.request;
    && r.subscription == k
    && match job.place
       case Begun(o, op) => Holds(w, r, o, op)
       case Finishing(o, op, guarded) => Holds(w, r, o, op) && guarded && GatewayId(w, k) in w.canceled
       case Live(o, op) => Holds(w, r, o, op) && GatewayId(w, k) !in w.calls
       case Called(o, op, reference) => Holds(w, r, o, op) && GatewayId(w, k) in w.canceled
       case Failing(o, op, _) => Holds(w, r, o, op)
       case SettingAside(o, op, _, _) => Holds(w, r, o, op) && GatewayId(w, k) in w.canceled
       case Answered(answer) => answer == CanceledNow ==> k < |w.store.subscriptions| && w.store.subscriptions[k].status == Ended
       case Notified => Told(w.store, k)
  }

  ghost predicate OperationsSafe(w: World) {
    forall o :: 0 <= o < |w.store.operations| ==> OperationSafe(w, w.store.operations[o])
  }

  ghost predicate EndsSafe(w: World) {
    forall k :: 0 <= k < |w.store.subscriptions| && w.store.subscriptions[k].status == Ended ==> GatewayId(w, k) in w.canceled
  }

  ghost predicate Distinct(calls: seq<string>) {
    forall i, j :: 0 <= i < j < |calls| ==> calls[i] != calls[j]
  }

  ghost predicate CallsSafe(w: World) {
    Distinct(w.calls) && forall i :: 0 <= i < |w.calls| ==> w.calls[i] in w.canceled
  }

  ghost predicate NoticesSafe(w: World) {
    && (forall n :: n in w.owed ==> Inactivates(w.store, n.event, n.subscription, n.payment))
    && (forall d :: 0 <= d < |w.store.deliveries| ==> DeliverySafe(w.store, w.store.deliveries[d]))
  }

  ghost predicate JobsSafe(w: World) {
    forall k :: k in w.jobs ==> JobSafe(w, k, w.jobs[k])
  }

  ghost predicate Safe(w: World) {
    Good(w.store) && OperationsSafe(w) && EndsSafe(w) && CallsSafe(w) && NoticesSafe(w) && JobsSafe(w)
  }

  // ---------------------------------------------------------------- what other commits may do

  /** A commit beside the cancel jobs ends only subscriptions that are canceled
      at the gateway. */
  lemma ForeignEnds(w: World, t: Transaction)
    requires Safe(w) && MayCommit(w, t)
    ensures EndsSafe(w.(store := Apply(w.store, t)))
  {
    hide After, WritePayment, CheckoutTarget, MoveCheckout, BuildDelivery, Good, JobsSafe, NoticesSafe, CallsSafe;
    if t.Webhook? { WebhookEndsTruthfully(w, t); }
  }

  lemma WebhookEndsTruthfully(w: World, t: Transaction)
    requires Safe(w) && MayCommit(w, t) && t.Webhook?
    ensures EndsSafe(w.(store := Apply(w.store, t)))
  {
    hide Handle, Valid, AllDated, JobsSafe, NoticesSafe, CallsSafe, OperationsSafe;
    var next := Apply(w.store, t);
    TransactionKeepsRows(w.store, t);
    WebhookAddsNoSubscription(w.store, t.payload, t.now);
    forall k | 0 <= k < |w.store.subscriptions|
      ensures next.subscriptions[k].status == Ended ==> GatewayId(w.(store := next), k) in w.canceled
    {
      WebhookEnds(w.store, t.payload, t.now, k);
      assert SubscriptionStep(w.store.subscriptions[k], next.subscriptions[k]);
    }
  }

  /** An operation another commit moves is reconciled, truthfully, or it is not
      a cancellation. */
  lemma ForeignOperations(w: World, t: Transaction)
    requires Safe(w) && MayCommit(w, t)
    ensures OperationsSafe(w.(store := Apply(w.store, t)))
  {
    hide JobsSafe, NoticesSafe, CallsSafe, Apply, PaymentKeys, SubscriptionKeys;
    TransactionKeepsRows(w.store, t);
    OperationsGained(w.store, t);
    var next := Apply(w.store, t);
    forall o | 0 <= o < |next.operations| ensures OperationSafe(w.(store := next), next.operations[o]) {
      if o < |w.store.operations| {
        OperationsKept(w.store, t, o);
        if w.store.operations[o].key.CancelSubscriptionKey? { ForeignMovesOperation(w, t, o); }
        assert OperationSafe(w, w.store.operations[o]);
      }
    }
  }

  lemma ForeignMovesOperation(w: World, t: Transaction, o: nat)
    requires MayCommit(w, t) && o < |w.store.operations| && w.store.operations[o].key.CancelSubscriptionKey?
    requires WellFormed(w.store.operations[o])
    ensures o < |Apply(w.store, t).operations|
    ensures var before, after := w.store.operations[o], Apply(w.store, t).operations[o];
            after == before
            || (before.status == RequiresReconciliation && after.status == Completed
                && before.key.subscription < |Apply(w.store, t).subscriptions|
                && Apply(w.store, t).subscriptions[before.key.subscription].status == Ended)
  {
    OperationsKept(w.store, t, o);
    if Rewrites(t) == Some(o) {
      if t.ReconcileCancellation? { ReconciledEnds(w.store, t); }
    }
  }

  lemma ReconciledEnds(s: Store, t: Transaction)
    requires t.ReconcileCancellation? && t.o < |s.operations| && s.operations[t.o].key.CancelSubscriptionKey?
    requires WellFormed(s.operations[t.o])
    ensures var next := Apply(s, t);
            t.o < |next.operations|
            && (next == s
                || (s.operations[t.o].status == RequiresReconciliation && next.operations[t.o].status == Completed
                    && s.operations[t.o].key.subscription < |next.subscriptions|
                    && next.subscriptions[s.operations[t.o].key.subscription].status == Ended))
  {
    hide BuildDelivery;
  }

  /** A webhook's inactivation notice is of a subscription it leaves ended. */
  lemma OwedNoticesInactivate(s: Store, t: Transaction)
    ensures forall n :: n in Owes(s, t) ==> Inactivates(Apply(s, t), n.event, n.subscription, n.payment)
  {
    hide EventId, Locate, Target, WritePayment, Pay, Confirm, ApplyGatewayStatus, Extended, FindPayment, FindByReference,
         MarkProcessed, WriteBoth, HandleStandalone, HandleReceived, HandleConfirmed, HandleDeleted, HandleLifecycle,
         HandleCheckout, HandleInactivated;
    if t.Webhook? && IdOf(t.payload).Some? {
      InactivationEnds(s, t.payload, IdOf(t.payload).value, t.now);
      OtherWebhooksDoNotInactivate(s, t.payload, IdOf(t.payload).value, t.now);
    }
  }

  lemma InactivationEnds(s: Store, p: Payload, id: string, now: DateTime)
    ensures var r := HandleInactivated(s, p, id, now);
            r.Commit? && r.notice.Some? ==>
              Inactivates(r.store, r.notice.value.event, r.notice.value.subscription, r.notice.value.payment)
  {
  }

  predicate SpeaksOfInactivation(r: Reply) {
    r.Commit? && r.notice.Some? && r.notice.value.event == NotifyInactivated
  }

  lemma OtherWebhooksDoNotInactivate(s: Store, p: Payload, id: string, now: DateTime)
    ensures !SpeaksOfInactivation(HandleStandalone(s, p, id, now)) && !SpeaksOfInactivation(HandleReceived(s, p, id, now))
    ensures !SpeaksOfInactivation(HandleConfirmed(s, p, id, now)) && !SpeaksOfInactivation(HandleDeleted(s, p, id, now))
    ensures IsCheckoutEvent(p.event) ==> !SpeaksOfInactivation(HandleCheckout(s, p, id, now))
    ensures p.event in {PaymentOverdue, PaymentRefunded, PaymentChargebackRequested} ==>
              !SpeaksOfInactivation(HandleLifecycle(s, p, id, now))
  {
  }

  /** The one delivery a commit may add, by its key. */
  lemma DeliveryAdded(s: Store, t: Transaction)
    ensures var ds := Apply(s, t).deliveries;
            ds == s.deliveries
            || (|ds| == |s.deliveries| + 1 && ds[..|s.deliveries|] == s.deliveries
                && (var key := ds[|s.deliveries|].key;
                    key.SubscriptionNotice? && key.event == NotifyInactivated && key.payment == None ==>
                      TellsEnd(Apply(s, t), key.subscription, ds[|s.deliveries|]))
                && (var key := ds[|s.deliveries|].key;
                    || key.PaymentNotice?
                    || (t.RecordNotice? && t.notice.subscription == Some(key.subscription) && key.event == t.notice.event
                        && key.payment == t.notice.payment)
                    || (t.ReconcileCancellation? && key.event == NotifyInactivated && key.payment == None
                        && key.subscription < |Apply(s, t).subscriptions|
                        && Apply(s, t).subscriptions[key.subscription].status == Ended)))
  {
    hide After, WritePayment, RebuiltSubscription, CheckoutTarget, MoveCheckout;
    if t.Webhook? { WebhookKeepsOperations(s, t.payload, t.now); }
  }

  lemma EndedStays(s: Store, t: Transaction, k: nat)
    requires Good(s) && RenewsOwnRow(s, t) && k < |s.subscriptions| && s.subscriptions[k].status == Ended
    ensures k < |Apply(s, t).subscriptions| && Apply(s, t).subscriptions[k] == s.subscriptions[k]
  {
    TransactionKeepsRows(s, t);
    assert SubscriptionStep(s.subscriptions[k], Apply(s, t).subscriptions[k]);
  }

  lemma ForeignNotices(w: World, t: Transaction)
    requires Safe(w) && MayCommit(w, t)
    ensures NoticesSafe(w.(store := Apply(w.store, t), owed := w.owed + Owes(w.store, t)))
  {
    hide JobsSafe, CallsSafe, OperationsSafe, EndsSafe, Apply, Owes, Good;
    var next := Apply(w.store, t);
    OwedNoticesInactivate(w.store, t);
    DeliveryAdded(w.store, t);
    forall n | n in w.owed ensures Inactivates(next, n.event, n.subscription, n.payment) {
      if n.event == NotifyInactivated { EndedStays(w.store, t, n.subscription.value); }
    }
    forall d | 0 <= d < |next.deliveries| ensures DeliverySafe(next, next.deliveries[d]) {
      if d < |w.store.deliveries| {
        var key := w.store.deliveries[d].key;
        assert next.deliveries[d] == w.store.deliveries[d];
        assert DeliverySafe(w.store, w.store.deliveries[d]);
        if key.SubscriptionNotice? && key.event == NotifyInactivated { EndedStays(w.store, t, key.subscription); }
      }
    }
  }

  /** A job keeps hold of its operation while others commit. */
  lemma ForeignJobs(w: World, t: Transaction)
    requires Safe(w) && MayCommit(w, t)
    ensures JobsSafe(w.(store := Apply(w.store, t), owed := w.owed + Owes(w.store, t)))
  {
    hide CallsSafe, NoticesSafe, EndsSafe, Apply, Owes, Valid, AllDated;
    var after := w.(store := Apply(w.store, t), owed := w.owed + Owes(w.store, t));
    TransactionKeepsRows(w.store, t);
    forall k | k in w.jobs ensures JobSafe(after, k, after.jobs[k]) {
      var job := w.jobs[k];
      assert JobSafe(w, k, job);
      if k < |w.store.subscriptions| {
        assert SubscriptionStep(w.store.subscriptions[k], after.store.subscriptions[k]);
      }
      if !Over(job.place) {
        var o := job.place.o;
        assert Holds(w, job.request, o, job.place.op);
        OperationsKept(w.store, t, o);
        assert OperationSafe(w, w.store.operations[o]);
        ForeignMovesOperation(w, t, o);
      } else if job.place.Notified? {
        DeliveriesStay(w.store, t, SubscriptionNotice(NotifyInactivated, k, None));
      }
    }
  }

  lemma DeliveriesStay(s: Store, t: Transaction, key: DeliveryKey)
    ensures HasDelivery(s.deliveries, key) ==> HasDelivery(Apply(s, t).deliveries, key)
  {
    DeliveryAdded(s, t);
    if HasDelivery(s.deliveries, key) {
      var d: nat :| d < |s.deliveries| && s.deliveries[d].key == key;
      assert Apply(s, t).deliveries[d].key == key;
    }
  }

  lemma ForeignKeeps(w: World, t: Transaction)
    requires Safe(w) && MayCommit(w, t)
    ensures Safe(Do(w, Foreign(t)))
  {
    hide Good, OperationsSafe, EndsSafe, NoticesSafe, JobsSafe, CallsSafe, Apply, Owes;
    ForeignGood(w, t);
    ForeignEnds(w, t);
    ForeignOperations(w, t);
    ForeignNotices(w, t);
    ForeignJobs(w, t);
    var after := Do(w, Foreign(t));
    OwingIsAside(w.(store := after.store), after.owed);
  }

  lemma ForeignGood(w: World, t: Transaction)
    requires Safe(w) && MayCommit(w, t)
    ensures Good(Apply(w.store, t)) && CallsSafe(w.(store := Apply(w.store, t)))
  {
    hide JobsSafe, NoticesSafe, EndsSafe, OperationsSafe;
    TransactionKeepsRows(w.store, t);
  }

  lemma OwingIsAside(w: World, owed: set<Notice>)
    ensures OperationsSafe(w) ==> OperationsSafe(w.(owed := owed))
    ensures EndsSafe(w) ==> EndsSafe(w.(owed := owed))
    ensures CallsSafe(w) ==> CallsSafe(w.(owed := owed))
  {
    if OperationsSafe(w) {
      forall o | 0 <= o < |w.store.operations| ensures OperationSafe(w.(owed := owed), w.store.operations[o]) {
        assert OperationSafe(w, w.store.operations[o]);
      }
    }
  }

  // ---------------------------------------------------------------- what the jobs do

  /** Moving one job, when nothing but its place changes. */
  lemma MovedKeeps(w: World, k: nat, r: Request, place: Place)
    requires Safe(w) && JobSafe(w, k, Job(r, place))
    ensures Safe(Moved(w, k, r, place))
  {
    hide Good, Holds, SameRequest, Told;
    var after := Moved(w, k, r, place);
    SameJudgements(w, after);
  }

  /** Judgements about rows look only at the store and the gateway. */
  lemma SameJudgements(w: World, v: World)
    requires v.store == w.store && v.canceled == w.canceled && v.calls == w.calls
    ensures forall o :: 0 <= o < |w.store.operations| && OperationSafe(w, w.store.operations[o]) ==>
              OperationSafe(v, w.store.operations[o])
    ensures forall k, job :: JobSafe(w, k, job) ==> JobSafe(v, k, job)
  {
  }

  /** A cancellation at the gateway, asked for by this service or not. */
  lemma CanceledKeeps(w: World, id: string, called: bool)
    requires Safe(w) && (called ==> id !in w.calls)
    requires called ==> forall k :: k in w.jobs && w.jobs[k].place.Live? ==> GatewayId(w, k) != id
    ensures Safe(if called then CanceledByCall(w, id) else w.(canceled := w.canceled + {id}))
  {
    hide Good, Told;
    var after := if called then CanceledByCall(w, id) else w.(canceled := w.canceled + {id});
    forall o | 0 <= o < |w.store.operations| ensures OperationSafe(after, w.store.operations[o]) {
      assert OperationSafe(w, w.store.operations[o]);
    }
    forall k | k in w.jobs ensures JobSafe(after, k, w.jobs[k]) {
      assert JobSafe(w, k, w.jobs[k]);
      if !Over(w.jobs[k].place) {
        assert Holds(after, w.jobs[k].request, w.jobs[k].place.o, w.jobs[k].place.op);
      }
    }
  }

  /** The store after a job's own commit: its subscription `k` and its operation
      `o` moved, and perhaps one operation was opened. */
  ghost predicate OwnCommit(s: Store, t: Store, k: nat, o: nat) {
    && k < |s.subscriptions| && t.payments == s.payments && t.deliveries == s.deliveries && t.events == s.events
    && |t.subscriptions| == |s.subscriptions| && SameSubscription(s.subscriptions[k], t.subscriptions[k])
    && (s.subscriptions[k].status == Ended ==> t.subscriptions[k] == s.subscriptions[k])
    && (forall j :: 0 <= j < |s.subscriptions| && j != k ==> t.subscriptions[j] == s.subscriptions[j])
    && o < |t.operations| && |s.operations| <= |t.operations| <= |s.operations| + 1
    && t.operations[o].key == CancelSubscriptionKey(s.subscriptions[k].fromSystem, k)
    && t.operations[o].payload == CancelPayload(k)
    && (o < |s.operations| ==> SameRequest(s.operations[o], t.operations[o]))
    && (forall p {:trigger t.operations[p]} :: 0 <= p < |t.operations| && p != o ==>
          p < |s.operations| && t.operations[p] == s.operations[p])
  }

  lemma OwnCommitKeeps(w: World, t: Store, k: nat, o: nat, r: Request, place: Place)
    requires Safe(w) && Good(t) && OwnCommit(w.store, t, k, o) && JobSafe(w.(store := t), k, Job(r, place))
    requires t.subscriptions[k].status == Ended ==> GatewayId(w, k) in w.canceled
    requires OperationSafe(w.(store := t), t.operations[o])
    ensures Safe(Moved(w.(store := t), k, r, place))
  {
    hide Good;
    var v := w.(store := t);
    var after := Moved(v, k, r, place);
    assert forall j :: 0 <= j < |t.subscriptions| ==> GatewayId(v, j) == GatewayId(w, j);
    assert OperationsSafe(after) by {
      forall p | 0 <= p < |t.operations| ensures OperationSafe(after, t.operations[p]) {
        var moved := t.operations[p];
        if p != o {
          assert p < |w.store.operations| && moved == w.store.operations[p];
          assert OperationSafe(w, w.store.operations[p]);
        }
        assert OperationSafe(v, t.operations[p]);
      }
    }
    assert NoticesSafe(after) by { OwnCommitNotices(w, t, k, o); }
    forall j | j in after.jobs ensures JobSafe(after, j, after.jobs[j]) {
      if j == k { SameJudgements(v, after); }
      else {
        assert JobSafe(w, j, w.jobs[j]);
        OtherJobKeeps(w, t, k, o, j);
        SameJudgements(v, after);
      }
    }
  }

  lemma OwnCommitNotices(w: World, t: Store, k: nat, o: nat)
    requires NoticesSafe(w) && OwnCommit(w.store, t, k, o)
    ensures NoticesSafe(w.(store := t))
  {
    forall n | n in w.owed ensures Inactivates(t, n.event, n.subscription, n.payment) {
      assert Inactivates(w.store, n.event, n.subscription, n.payment);
    }
    forall d | 0 <= d < |t.deliveries| ensures DeliverySafe(t, t.deliveries[d]) {
      assert DeliverySafe(w.store, w.store.deliveries[d]);
    }
  }

  lemma OtherJobKeeps(w: World, t: Store, k: nat, o: nat, j: nat)
    requires Safe(w) && OwnCommit(w.store, t, k, o) && j in w.jobs && j != k
    ensures JobSafe(w.(store := t), j, w.jobs[j])
  {
    var job := w.jobs[j];
    assert JobSafe(w, j, job);
    if !Over(job.place) {
      assert Holds(w, job.request, job.place.o, job.place.op);
      assert t.operations[job.place.o] == w.store.operations[job.place.o];
    }
  }

  lemma BeginCommits(s: Store, k: nat, system: System, reason: string, job: string, now: DateTime)
    requires Good(s) && k < |s.subscriptions| && s.subscriptions[k].fromSystem == system
    requires forall o :: 0 <= o < |s.operations| ==> WellFormed(s.operations[o])
    requires s.subscriptions[k].status != Ended && DoBeginCancellation(s, k, system, reason, job, now).Some?
    ensures var t := DoBeginCancellation(s, k, system, reason, job, now).value;
            var o := Or(FindOperation(s.operations, CancelSubscriptionKey(system, k)), |s.operations|);
            OwnCommit(s, t, k, o) && t.subscriptions[k].status == CancellationPending
            && t.operations[o].status in {InProgress, Rejected}
  {
    hide Good, WellFormed;
    var found := FindOperation(s.operations, CancelSubscriptionKey(system, k));
    if found.Some? {
      assert WellFormed(s.operations[found.value]);
      CancelRequestNamesIt(s.operations[found.value]);
      var status := s.operations[found.value].status;
      assert status.InProgress? || status.Rejected?;
    } else {
      assert DoBeginCancellation(s, k, system, reason, job, now).value.operations[|s.operations|].status == InProgress;
    }
  }

  lemma CancelRequestNamesIt(op: OperationRow)
    requires WellFormed(op) && op.key.CancelSubscriptionKey?
    ensures op.payload == CancelPayload(op.key.subscription)
  {
  }

  lemma OperationsAreWellFormed(w: World)
    requires OperationsSafe(w)
    ensures forall o :: 0 <= o < |w.store.operations| ==> WellFormed(w.store.operations[o])
  {
    forall o | 0 <= o < |w.store.operations| ensures WellFormed(w.store.operations[o]) {
      assert OperationSafe(w, w.store.operations[o]);
    }
  }

  /** A start committed the request and an open operation together, or nothing. */
  predicate BegunOrNothing(w: World, v: World, r: Request) {
    && r.subscription in v.jobs
    && var k, place := r.subscription, v.jobs[r.subscription].place;
       if place.Begun? then
         && k < |v.store.subscriptions| && v.store.subscriptions[k].status == CancellationPending
         && place.o < |v.store.operations| && v.store.operations[place.o] == place.op
         && place.op.key == CancelSubscriptionKey(r.system, k) && place.op.status in {InProgress, Rejected}
       else v.store == w.store
  }

  lemma StartKeeps(w: World, r: Request, now: DateTime, lands: bool)
    requires Safe(w) && Enabled(w, Start(r, now, lands))
    ensures var v := Do(w, Start(r, now, lands)); Safe(v) && BegunOrNothing(w, v, r)
  {
    hide Good, DoBeginCancellation, OwnCommit, NoticesSafe, CallsSafe;
    var s, k := w.store, r.subscription;
    if k >= |s.subscriptions| || s.subscriptions[k].fromSystem != r.system { MovedKeeps(w, k, r, Answered(NotFound)); }
    else if s.subscriptions[k].status == Ended { MovedKeeps(w, k, r, Answered(CanceledNow)); }
    else {
      CompletedMeansEnded(w, k);
      var begun := DoBeginCancellation(s, k, r.system, r.reason, r.job, now);
      if begun.None? { MovedKeeps(w, k, r, Answered(Refused)); }
      else if !lands { MovedKeeps(w, k, r, Answered(Broken)); }
      else { BeganKeeps(w, r, now); }
    }
  }

  lemma BeganKeeps(w: World, r: Request, now: DateTime)
    requires Safe(w) && r.subscription < |w.store.subscriptions|
    requires w.store.subscriptions[r.subscription].fromSystem == r.system
    requires w.store.subscriptions[r.subscription].status != Ended
    requires DoBeginCancellation(w.store, r.subscription, r.system, r.reason, r.job, now).Some?
    ensures var t := DoBeginCancellation(w.store, r.subscription, r.system, r.reason, r.job, now).value;
            var o := Or(FindOperation(w.store.operations, CancelSubscriptionKey(r.system, r.subscription)), |w.store.operations|);
            && o < |t.operations| && t.operations[o].status in {InProgress, Rejected}
            && t.operations[o].key == CancelSubscriptionKey(r.system, r.subscription)
            && r.subscription < |t.subscriptions| && t.subscriptions[r.subscription].status == CancellationPending
            && Safe(Moved(w.(store := t), r.subscription, r, Begun(o, t.operations[o])))
  {
    hide Good, DoBeginCancellation, NoticesSafe, CallsSafe, JobsSafe, EndsSafe;
    var k := r.subscription;
    OperationsAreWellFormed(w);
    BeginCommits(w.store, k, r.system, r.reason, r.job, now);
    BeginCancellationKeeps(w.store, k, r.system, r.reason, r.job, now);
    var t := DoBeginCancellation(w.store, k, r.system, r.reason, r.job, now).value;
    var o := Or(FindOperation(w.store.operations, CancelSubscriptionKey(r.system, k)), |w.store.operations|);
    assert Holds(w.(store := t), r, o, t.operations[o]);
    OwnCommitKeeps(w, t, k, o, r, Begun(o, t.operations[o]));
  }

  /** The branch of `execute` on an operation already completed is never taken:
      its subscription has ended, and `execute` has answered before. */
  lemma CompletedMeansEnded(w: World, k: nat)
    requires Safe(w) && k < |w.store.subscriptions|
    ensures var o := FindOperation(w.store.operations, CancelSubscriptionKey(w.store.subscriptions[k].fromSystem, k));
            o.Some? && w.store.operations[o.value].status == Completed ==> w.store.subscriptions[k].status == Ended
  {
    var o := FindOperation(w.store.operations, CancelSubscriptionKey(w.store.subscriptions[k].fromSystem, k));
    if o.Some? { assert OperationSafe(w, w.store.operations[o.value]); }
  }

  lemma VerifyKeeps(w: World, k: nat, status: StatusOutcome)
    requires Safe(w) && Enabled(w, Verify(k, status))
    ensures Safe(Do(w, Verify(k, status)))
  {
    hide Good, NoticesSafe, EndsSafe, OperationsSafe, Holds;
    var Job(r, Begun(o, op)) := w.jobs[k];
    assert JobSafe(w, k, w.jobs[k]);
    match status
    case SaysCanceled => MovedKeeps(w, k, r, Finishing(o, op, true));
    case SaysLive => MovedKeeps(w, k, r, Live(o, op));
    case StatusRefused => MovedKeeps(w, k, r, Answered(Refused));
    case StatusBroken(message) => MovedKeeps(w, k, r, Failing(o, op, message));
  }

  lemma OthersDiffer(w: World, k: nat)
    requires Safe(w) && k < |w.store.subscriptions|
    ensures forall j :: 0 <= j < |w.store.subscriptions| && j != k ==> GatewayId(w, j) != GatewayId(w, k)
  {
  }

  /** The job about to call, put aside: no other job is about to call for its
      subscription, and no call for it has taken effect. */
  lemma AboutToCall(w: World, k: nat, message: string)
    requires Safe(w) && k in w.jobs && w.jobs[k].place.Live?
    ensures var aside := Moved(w, k, w.jobs[k].request, Failing(w.jobs[k].place.o, w.jobs[k].place.op, message));
            var id := GatewayId(w, k);
            && Safe(aside) && GatewayId(aside, k) == id && id !in aside.calls && w.jobs[k].request.subscription == k
            && (forall j :: j in aside.jobs && aside.jobs[j].place.Live? ==> GatewayId(aside, j) != id)
  {
    hide Good, NoticesSafe, EndsSafe, OperationsSafe, CallsSafe;
    var Job(r, Live(o, op)) := w.jobs[k];
    assert JobSafe(w, k, w.jobs[k]);
    OthersDiffer(w, k);
    MovedKeeps(w, k, r, Failing(o, op, message));
    forall j | j in w.jobs && w.jobs[j].place.Live? && j != k ensures GatewayId(w, j) != GatewayId(w, k) {
      assert JobSafe(w, j, w.jobs[j]);
    }
  }

  lemma CallKeeps(w: World, k: nat, call: CallOutcome)
    requires Safe(w) && Enabled(w, CallCancel(k, call))
    ensures Safe(Do(w, CallCancel(k, call))) && GatewayId(w, k) !in w.calls
    ensures Effective(call) <==> GatewayId(w, k) in Do(w, CallCancel(k, call)).calls
  {
    hide Safe, JobSafe;
    var Job(r, Live(o, op)) := w.jobs[k];
    var id := GatewayId(w, k);
    var message := if call.CallBroken? then call.message else "";
    AboutToCall(w, k, message);
    var aside := Moved(w, k, r, Failing(o, op, message));
    CanceledKeeps(aside, id, true);
    var called := CanceledByCall(aside, id);
    StillFailing(aside, called, k);
    match call
    case CallAccepted(reference) =>
      var at := Called(o, op, if reference == "" then id else reference);
      CalledIsSafe(called, k, r, o, op, at.reference);
      MovedKeeps(called, k, r, at);
      assert Moved(called, k, r, at) == Do(w, CallCancel(k, call));
    case CallRefused(effective) =>
      var v := if effective then called else aside;
      RefusedIsSafe(v, k, r);
      MovedKeeps(v, k, r, Answered(Refused));
      assert Moved(v, k, r, Answered(Refused)) == Do(w, CallCancel(k, call));
    case CallBroken(_, effective) =>
      var v := if effective then called else aside;
      assert v == Do(w, CallCancel(k, call));
  }

  lemma StillFailing(aside: World, called: World, k: nat)
    requires k in aside.jobs && k in called.jobs && called == CanceledByCall(aside, GatewayId(aside, k))
    ensures GatewayId(called, k) in called.canceled
  {
  }

  lemma CalledIsSafe(w: World, k: nat, r: Request, o: nat, op: OperationRow, reference: string)
    requires Safe(w) && k in w.jobs && w.jobs[k].request == r && w.jobs[k].place.Failing?
    requires w.jobs[k].place.o == o && w.jobs[k].place.op == op && GatewayId(w, k) in w.canceled
    ensures JobSafe(w, k, Job(r, Called(o, op, reference)))
  {
    assert JobSafe(w, k, w.jobs[k]);
  }

  lemma RefusedIsSafe(w: World, k: nat, r: Request)
    requires r.subscription == k
    ensures JobSafe(w, k, Job(r, Answered(Refused)))
  {
  }

  lemma FinishCommits(s: Store, k: nat, o: nat, reference: string, r: Request, now: DateTime)
    requires Good(s) && k < |s.subscriptions| && o < |s.operations| && WellFormed(s.operations[o])
    requires s.operations[o].key == CancelSubscriptionKey(s.subscriptions[k].fromSystem, k)
    requires DoFinishCancellation(s, k, o, reference, r.reason, r.job, now).Some?
    ensures var t := DoFinishCancellation(s, k, o, reference, r.reason, r.job, now).value;
            OwnCommit(s, t, k, o) && t.subscriptions[k].status == Ended && t.operations[o].status == Completed
  {
    hide Good;
  }

  /** Finishing ended the subscription and completed the operation in one commit,
      or committed nothing. */
  predicate EndedOrNothing(w: World, v: World, k: nat) {
    && k in w.jobs && (w.jobs[k].place.Finishing? || w.jobs[k].place.Called?) && k in v.jobs
    && if v.jobs[k].place == Answered(CanceledNow) then
         && k < |v.store.subscriptions| && v.store.subscriptions[k].status == Ended
         && w.jobs[k].place.o < |v.store.operations| && v.store.operations[w.jobs[k].place.o].status == Completed
       else v.store == w.store
  }

  lemma FinishKeeps(w: World, k: nat, commit: CommitOutcome, now: DateTime)
    requires Safe(w) && Enabled(w, Finish(k, commit, now))
    ensures var v := Do(w, Finish(k, commit, now)); Safe(v) && EndedOrNothing(w, v, k)
  {
    hide Good, NoticesSafe, EndsSafe, CallsSafe, DoFinishCancellation;
    var Job(r, at) := w.jobs[k];
    assert JobSafe(w, k, w.jobs[k]);
    assert Holds(w, r, at.o, at.op);
    assert OperationSafe(w, w.store.operations[at.o]);
    var reference := if at.Called? then at.reference else GatewayId(w, k);
    var done := DoFinishCancellation(w.store, k, at.o, reference, r.reason, r.job, now);
    if commit.Lands? && done.Some? {
      FinishCancellationKeeps(w.store, k, at.o, reference, r.reason, r.job, now);
      FinishCommits(w.store, k, at.o, reference, r, now);
      OwnCommitKeeps(w, done.value, k, at.o, r, Answered(CanceledNow));
    } else {
      MovedKeeps(w, k, r, Do(w, Finish(k, commit, now)).jobs[k].place);
    }
  }

  /** The operation as a recovery writes it. */
  function Recovered(at: Place): OperationRow
    requires at.Failing? || at.SettingAside?
  {
    if at.Failing? then Fail(at.op, at.message) else SetAside(at.op, at.reference, at.message)
  }

  lemma RecoverCommits(w: World, k: nat)
    requires Safe(w) && k in w.jobs && (w.jobs[k].place.Failing? || w.jobs[k].place.SettingAside?)
    ensures var at := w.jobs[k].place;
            && k < |w.store.subscriptions| && at.o < |w.store.operations| && w.jobs[k].request.subscription == k
            && var t := UpdateOperation(w.store, at.o, Recovered(at));
               Good(t) && OwnCommit(w.store, t, k, at.o) && OperationSafe(w.(store := t), t.operations[at.o])
               && t.subscriptions == w.store.subscriptions
  {
    hide Good, NoticesSafe, EndsSafe, CallsSafe, Told;
    var Job(r, at) := w.jobs[k];
    assert JobSafe(w, k, w.jobs[k]);
    assert Holds(w, r, at.o, at.op);
    assert OperationSafe(w, w.store.operations[at.o]);
    OperationWriteKeeps(w.store, at.o, Recovered(at));
  }

  lemma RecoverKeeps(w: World, k: nat, lands: bool)
    requires Safe(w) && Enabled(w, Recover(k, lands))
    ensures Safe(Do(w, Recover(k, lands)))
  {
    hide Safe, OwnCommit, OperationSafe, Good;
    var Job(r, at) := w.jobs[k];
    RecoverCommits(w, k);
    if !lands { MovedKeeps(w, k, r, Answered(Broken)); }
    else {
      if w.store.subscriptions[k].status == Ended { EndedIsCanceled(w, k); }
      OwnCommitKeeps(w, UpdateOperation(w.store, at.o, Recovered(at)), k, at.o, r,
                     Answered(if at.Failing? then GatewayFailed else SetAsideNow));
    }
  }

  lemma EndedIsCanceled(w: World, k: nat)
    requires Safe(w) && k < |w.store.subscriptions| && w.store.subscriptions[k].status == Ended
    ensures GatewayId(w, k) in w.canceled
  {
  }

  lemma NotifyKeeps(w: World, k: nat, lands: bool)
    requires Safe(w) && Enabled(w, Notify(k, lands))
    ensures Safe(Do(w, Notify(k, lands)))
  {
    assert JobSafe(w, k, w.jobs[k]);
    var r := w.jobs[k].request;
    if !lands { MovedKeeps(w, k, r, Answered(Broken)); }
    else {
      NoticeRecorded(w, k);
      var v := w.(store := Record(w.store, BuildDelivery(w.store, InactivationNotice(k))));
      MovedKeeps(v, k, r, Notified);
    }
  }

  lemma NoticeRecorded(w: World, k: nat)
    requires Safe(w) && k < |w.store.subscriptions| && w.store.subscriptions[k].status == Ended
    ensures var t := Record(w.store, BuildDelivery(w.store, InactivationNotice(k)));
            Told(t, k) && Safe(w.(store := t))
  {
    hide Good;
    var d := BuildDelivery(w.store, InactivationNotice(k));
    var t := Record(w.store, d);
    var v := w.(store := t);
    RecordKeeps(w.store, d);
    assert d.Draft? ==> d.row.key == SubscriptionNotice(NotifyInactivated, k, None);
    if d.Draft? && !HasDelivery(w.store.deliveries, d.row.key) { assert t.deliveries[|w.store.deliveries|] == d.row; }
    forall j | j in w.jobs ensures JobSafe(v, j, w.jobs[j]) {
      assert JobSafe(w, j, w.jobs[j]);
      if w.jobs[j].place.Notified? { RecordedStays(w.store, d, SubscriptionNotice(NotifyInactivated, j, None)); }
    }
    forall o | 0 <= o < |t.operations| ensures OperationSafe(v, t.operations[o]) {
      assert OperationSafe(w, w.store.operations[o]);
    }
    forall i | 0 <= i < |t.deliveries| ensures DeliverySafe(t, t.deliveries[i]) {
      if i < |w.store.deliveries| { assert DeliverySafe(w.store, w.store.deliveries[i]); }
    }
  }

  lemma RecordedStays(s: Store, d: Draft, key: DeliveryKey)
    ensures HasDelivery(s.deliveries, key) ==> HasDelivery(Record(s, d).deliveries, key)
  {
    if HasDelivery(s.deliveries, key) {
      var i: nat :| i < |s.deliveries| && s.deliveries[i].key == key;
      assert Record(s, d).deliveries[i].key == key;
    }
  }

  /** One step, of a cancel job or of anything else. */
  lemma StepKeeps(w: World, step: Step)
    requires Safe(w) && Enabled(w, step)
    ensures Safe(Do(w, step))
  {
    hide Safe;
    match step
    case Elsewhere(id) => CanceledKeeps(w, id, false);
    case Foreign(t) => ForeignKeeps(w, t);
    case Start(r, now, lands) => StartKeeps(w, r, now, lands);
    case Verify(k, status) => VerifyKeeps(w, k, status);
    case CallCancel(k, call) => CallKeeps(w, k, call);
    case Finish(k, commit, now) => FinishKeeps(w, k, commit, now);
    case Recover(k, lands) => RecoverKeeps(w, k, lands);
    case Notify(k, lands) => NotifyKeeps(w, k, lands);
    case Crash(k) => CrashKeeps(w, k);
  }

  lemma CrashKeeps(w: World, k: nat)
    requires Safe(w) && Enabled(w, Crash(k))
    ensures Safe(Do(w, Crash(k)))
  {
    assert JobSafe(w, k, w.jobs[k]);
    MovedKeeps(w, k, w.jobs[k].request, Answered(Crashed));
  }

  /** Cancellation is safe in every run, with crashes anywhere. */
  lemma {:induction false} RunIsSafe(w: World, steps: seq<Step>)
    requires Safe(w) && Possible(w, steps)
    ensures Safe(Steps(w, steps))
    decreases |steps|
  {
    if steps != [] {
      StepKeeps(w, steps[0]);
      RunIsSafe(Do(w, steps[0]), steps[1..]);
    }
  }

  // ---------------------------------------------------------------- what that means

  /** Completed implies ended implies canceled at the gateway; awaiting
      reconciliation implies canceled at the gateway. */
  ghost predicate RemoteAgrees(w: World) {
    && (forall o :: 0 <= o < |w.store.operations| && w.store.operations[o].key.CancelSubscriptionKey? ==>
          var op := w.store.operations[o];
          && (op.status == Completed ==> op.key.subscription < |w.store.subscriptions|
                                         && w.store.subscriptions[op.key.subscription].status == Ended)
          && (op.status == RequiresReconciliation ==> GatewayId(w, op.key.subscription) in w.canceled))
    && (forall k :: 0 <= k < |w.store.subscriptions| && w.store.subscriptions[k].status == Ended ==>
          GatewayId(w, k) in w.canceled)
  }

  predicate InactivationOf(key: DeliveryKey, k: nat) {
    key.SubscriptionNotice? && key.event == NotifyInactivated && key.subscription == k
  }

  ghost predicate ToldAtMostOnce(s: Store, k: nat) {
    forall d, e :: 0 <= d < e < |s.deliveries| ==>
      !(InactivationOf(s.deliveries[d].key, k) && InactivationOf(s.deliveries[e].key, k))
  }

  /** How many cancel calls of a run take effect for subscription `k`. */
  function EffectiveCalls(k: nat, steps: seq<Step>): nat
    decreases |steps|
  {
    if steps == [] then 0 else (if TakesEffect(k, steps[0]) then 1 else 0) + EffectiveCalls(k, steps[1..])
  }

  predicate TakesEffect(k: nat, step: Step) {
    step.CallCancel? && step.k == k && Effective(step.call)
  }

  lemma GatewayIdStays(w: World, step: Step, k: nat)
    requires Safe(w) && Enabled(w, step) && k < |w.store.subscriptions|
    ensures k < |Do(w, step).store.subscriptions| && GatewayId(Do(w, step), k) == GatewayId(w, k)
  {
    hide Apply, DoBeginCancellation, DoFinishCancellation, BuildDelivery, OperationsSafe, EndsSafe, CallsSafe, NoticesSafe,
         Owes, Valid, AllDated, ExtendedByPeriod;
    var s := w.store;
    match step
    case Foreign(t) =>
      TransactionKeepsRows(s, t);
      assert SubscriptionStep(s.subscriptions[k], Apply(s, t).subscriptions[k]);
    case Start(r, now, lands) =>
      BeginCancellationKeeps(s, r.subscription, r.system, r.reason, r.job, now);
      var t := DoBeginCancellation(s, r.subscription, r.system, r.reason, r.job, now);
      if t.Some? { assert SubscriptionStep(s.subscriptions[k], t.value.subscriptions[k]); }
    case Finish(j, commit, now) =>
      var Job(r, at) := w.jobs[j];
      var reference := if at.Called? then at.reference else GatewayId(w, j);
      FinishCancellationKeeps(s, j, at.o, reference, r.reason, r.job, now);
      var t := DoFinishCancellation(s, j, at.o, reference, r.reason, r.job, now);
      if t.Some? { assert SubscriptionStep(s.subscriptions[k], t.value.subscriptions[k]); }
    case _ =>
  }

  lemma CallsGrow(w: World, step: Step)
    requires Enabled(w, step)
    ensures forall id :: id in w.calls ==> id in Do(w, step).calls
  {
    hide Apply, DoBeginCancellation, DoFinishCancellation, BuildDelivery, Owes, UpdateOperation;
  }

  /** A subscription is canceled by this service at most once. */
  lemma {:induction false} CancelCalledAtMostOnce(w: World, steps: seq<Step>, k: nat)
    requires Safe(w) && Possible(w, steps)
    ensures EffectiveCalls(k, steps) <= if k < |w.store.subscriptions| && GatewayId(w, k) in w.calls then 0 else 1
    decreases |steps|
  {
    hide Safe, Do, Enabled;
    if steps != [] {
      var next := Do(w, steps[0]);
      StepKeeps(w, steps[0]);
      if k < |w.store.subscriptions| {
        GatewayIdStays(w, steps[0], k);
        CallsGrow(w, steps[0]);
      }
      if TakesEffect(k, steps[0]) { EffectiveCallIsNew(w, k, steps[0].call); }
      CancelCalledAtMostOnce(next, steps[1..], k);
    }
  }

  /** No cancel call, with effect or without, is made on a subscription that this
      service has canceled before: not in the run, nor before it. */
  lemma {:induction false} NeverCalledAgain(w: World, steps: seq<Step>, k: nat, n: nat)
    requires Safe(w) && Possible(w, steps) && n < |steps| && steps[n].CallCancel? && steps[n].k == k
    ensures EffectiveCalls(k, steps[..n]) == 0
    ensures k < |w.store.subscriptions| ==> GatewayId(w, k) !in w.calls
    decreases n
  {
    hide Safe, Do, Enabled;
    if n == 0 {
      CallKeeps(w, k, steps[0].call);
    } else {
      var next := Do(w, steps[0]);
      StepKeeps(w, steps[0]);
      NeverCalledAgain(next, steps[1..], k, n - 1);
      assert steps[..n][1..] == steps[1..][..n - 1];
      if k < |w.store.subscriptions| {
        GatewayIdStays(w, steps[0], k);
        CallsGrow(w, steps[0]);
      }
      if TakesEffect(k, steps[0]) { EffectiveCallIsNew(w, k, steps[0].call); }
    }
  }

  lemma EffectiveCallIsNew(w: World, k: nat, call: CallOutcome)
    requires Safe(w) && Enabled(w, CallCancel(k, call)) && TakesEffect(k, CallCancel(k, call))
    ensures k < |w.store.subscriptions| && GatewayId(w, k) !in w.calls
    ensures GatewayId(w, k) in Do(w, CallCancel(k, call)).calls
  {
    assert JobSafe(w, k, w.jobs[k]);
  }

  /** In every state a run reaches: local rows and the gateway agree; nobody is told
      twice that a subscription ended, and what is told is its own expiry; and a job
      that ran to completion has told it if there is a link. */
  lemma ReachableStatesAgree(w: World, steps: seq<Step>, k: nat)
    requires Safe(w) && Possible(w, steps)
    ensures var v := Steps(w, steps);
            && RemoteAgrees(v)
            && ToldAtMostOnce(v.store, k)
            && (forall d :: 0 <= d < |v.store.deliveries| && InactivationOf(v.store.deliveries[d].key, k) ==>
                  TellsEnd(v.store, k, v.store.deliveries[d]))
            && (k in v.jobs && v.jobs[k].place.Notified? ==> Told(v.store, k))
  {
    RunIsSafe(w, steps);
    var v := Steps(w, steps);
    forall o | 0 <= o < |v.store.operations| ensures OperationSafe(v, v.store.operations[o]) {}
    if k in v.jobs { assert JobSafe(v, k, v.jobs[k]); }
    forall d | 0 <= d < |v.store.deliveries| && InactivationOf(v.store.deliveries[d].key, k)
      ensures TellsEnd(v.store, k, v.store.deliveries[d])
    {
      assert DeliverySafe(v.store, v.store.deliveries[d]);
    }
    forall d, e | 0 <= d < e < |v.store.deliveries|
      ensures !(InactivationOf(v.store.deliveries[d].key, k) && InactivationOf(v.store.deliveries[e].key, k))
    {
      assert DeliverySafe(v.store, v.store.deliveries[d]) && DeliverySafe(v.store, v.store.deliveries[e]);
    }
  }

  /** Before any cancellation a store is safe: no operation, no delivery and no
      ended subscription. */
  lemma QuietStoreIsSafe(s: Store)
    requires Good(s) && s.operations == [] && s.deliveries == []
    requires forall k :: 0 <= k < |s.subscriptions| ==> s.subscriptions[k].status != Ended
    ensures Safe(World(s, {}, [], map[], {}))
  {
  }
}
