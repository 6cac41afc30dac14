/** What every commit keeps: the keys, the fate of a payment's status, and the
    course of a subscription's expiry and end. */
module TransactionLaws {
  import opened BillingCalendar
  import opened Entities
  import opened RowMeanings
  import opened Storage
  import opened EventIds
  import opened WebhookRules
  import opened Transactions

  // ---------------------------------------------------------------- one row

  predicate SettledIn(status: PaymentStatus) {
    status in {Paid, Refunded}
  }

  /** A payment that has a date whenever it counts as paid for. */
  predicate Dated(p: PaymentRow) {
    p.status in {Confirmed, Paid, Refunded} ==> p.paidDate.Some?
  }

  predicate SamePayment(a: PaymentRow, b: PaymentRow) {
    b.systemPaymentId == a.systemPaymentId && b.fromSystem == a.fromSystem && b.subscription == a.subscription
  }

  /** The same payment, whose settlement is not undone. */
  predicate PaymentEvolves(a: PaymentRow, b: PaymentRow) {
    && SamePayment(a, b)
    && (a.status == Paid ==> SettledIn(b.status))
    && (a.status == Refunded ==> b.status == Refunded)
    && (SettledIn(a.status) ==> b.paidDate == a.paidDate && b.netValue == a.netValue)
  }

  predicate SameSubscription(a: SubscriptionRow, b: SubscriptionRow) {
    && b.systemSubscriptionId == a.systemSubscriptionId && b.gatewaySubscriptionId == a.gatewaySubscriptionId
    && b.fromSystem == a.fromSystem && b.subscriptionType == a.subscriptionType && b.webhookLink == a.webhookLink
  }

  /** One commit on a subscription: its expiry stands unless the last paid date
      changes, and then is one period on from the later of its old value and that
      date, so strictly beyond both; an ended one is frozen. */
  predicate SubscriptionStep(a: SubscriptionRow, b: SubscriptionRow) {
    && SameSubscription(a, b)
    && (if b.lastPaidDate == a.lastPaidDate then b.expiresAt == a.expiresAt
        else b.lastPaidDate.Some? && Before(a.expiresAt, b.expiresAt) && Before(b.lastPaidDate.value, b.expiresAt)
             && ExtendedByPeriod(a, b, b.lastPaidDate.value))
    && (a.status == Ended ==> b == a)
  }

  // ---------------------------------------------------------------- tables

  ghost predicate AllDated(ps: seq<PaymentRow>) {
    forall i :: 0 <= i < |ps| ==> Dated(ps[i])
  }

  ghost predicate PaymentsEvolve(ps: seq<PaymentRow>, qs: seq<PaymentRow>) {
    |ps| <= |qs| && forall i :: 0 <= i < |ps| ==> PaymentEvolves(ps[i], qs[i])
  }

  ghost predicate SubscriptionsStep(subs: seq<SubscriptionRow>, next: seq<SubscriptionRow>) {
    |subs| <= |next| && forall k :: 0 <= k < |subs| ==> SubscriptionStep(subs[k], next[k])
  }

  ghost predicate Good(s: Store) {
    Valid(s) && AllDated(s.payments)
  }

  /** What one commit may do to the tables other than payments. */
  ghost predicate RowsStep(s: Store, t: Store) {
    && SubscriptionsStep(s.subscriptions, t.subscriptions)
    && |s.operations| <= |t.operations|
    && |s.deliveries| <= |t.deliveries| && s.deliveries == t.deliveries[..|s.deliveries|]
  }

  /** What one commit may do to the tables. */
  ghost predicate StoreStep(s: Store, t: Store) {
    PaymentsEvolve(s.payments, t.payments) && RowsStep(s, t)
  }

  lemma WritePaymentKeeps(ps: seq<PaymentRow>, i: nat, row: PaymentRow, owners: nat)
    requires i <= |ps| && PaymentKeys(ps) && Owned(ps, owners) && AllDated(ps)
    requires WritePayment(ps, i, row).Some?
    requires Dated(row) && (row.subscription.Some? ==> row.subscription.value < owners)
    requires i < |ps| ==> PaymentEvolves(ps[i], row)
    ensures var qs := WritePayment(ps, i, row).value;
            PaymentKeys(qs) && Owned(qs, owners) && AllDated(qs) && PaymentsEvolve(ps, qs)
  {
  }

  lemma WriteSubscriptionKeeps(subs: seq<SubscriptionRow>, k: nat, row: SubscriptionRow)
    requires k <= |subs| && SubscriptionKeys(subs) && WriteSubscription(subs, k, row).Some?
    requires k < |subs| ==> SubscriptionStep(subs[k], row)
    ensures var next := WriteSubscription(subs, k, row).value;
            SubscriptionKeys(next) && SubscriptionsStep(subs, next)
  {
  }

  /** Writing one payment and recording the event keeps a good state good. */
  lemma PaymentCommitKeeps(s: Store, i: nat, row: PaymentRow, id: string, event: EventType)
    requires Good(s) && i <= |s.payments| && WritePayment(s.payments, i, row).Some?
    requires Dated(row) && (row.subscription.Some? ==> row.subscription.value < |s.subscriptions|)
    requires i < |s.payments| ==> PaymentEvolves(s.payments[i], row)
    ensures var t := s.(payments := WritePayment(s.payments, i, row).value);
            Good(t) && StoreStep(s, t) && Good(MarkProcessed(t, id, event)) && StoreStep(s, MarkProcessed(t, id, event))
  {
    hide WritePayment, PaymentKeys, Dated, PaymentEvolves, SubscriptionStep;
    WritePaymentKeeps(s.payments, i, row, |s.subscriptions|);
    UnchangedKeeps(s);
  }

  lemma MarkProcessedKeeps(s: Store, id: string, event: EventType)
    requires Good(s)
    ensures Good(MarkProcessed(s, id, event)) && StoreStep(s, MarkProcessed(s, id, event))
  {
    UnchangedKeeps(s);
  }

  lemma UnchangedKeeps(s: Store)
    ensures StoreStep(s, s)
  {
  }

  // ---------------------------------------------------------------- the rules on rows

  lemma StatusRulesEvolve(p: PaymentRow, said: GatewayStatus, date: Option<DateTime>, net: Option<int>, now: DateTime)
    ensures var r := ApplyGatewayStatus(p, said, date, net, now);
            r.Some? ==> PaymentEvolves(p, r.value) && (Dated(p) ==> Dated(r.value))
                        && r.value.subscription == p.subscription && r.value.systemPaymentId == p.systemPaymentId
                        && r.value.fromSystem == p.fromSystem
  {
  }

  lemma PaymentRulesEvolve(p: PaymentRow, date: Option<DateTime>, net: Option<int>, now: DateTime)
    ensures Dated(p) && Pay(p, date, net, now).Some? ==> Dated(Pay(p, date, net, now).value)
    ensures Pay(p, date, net, now).Some? ==> PaymentEvolves(p, Pay(p, date, net, now).value)
    ensures Cancel(p, now).Some? ==> PaymentEvolves(p, Cancel(p, now).value) && Dated(Cancel(p, now).value)
    ensures Expire(p, now).Some? ==> PaymentEvolves(p, Expire(p, now).value) && Dated(Expire(p, now).value)
  {
  }

  lemma ExtendSteps(s: SubscriptionRow, date: DateTime)
    ensures Extended(s, date).Some? ==> SubscriptionStep(s, Extended(s, date).value)
  {
    LatestThenExtended(date, s.expiresAt, s.subscriptionType);
    ExtendsByPeriod(s, date);
  }

  lemma EndSteps(s: SubscriptionRow, at: Option<DateTime>, reason: string, job: string, now: DateTime)
    ensures SubscriptionStep(s, End(s, at, reason, job, now))
  {
  }

  // ---------------------------------------------------------------- webhooks

  lemma StandaloneKeeps(s: Store, p: Payload, id: string, now: DateTime)
    requires Good(s)
    ensures var r := HandleStandalone(s, p, id, now); r.Commit? ==> Good(r.store) && StoreStep(s, r.store)
  {
    hide WritePayment, ApplyGatewayStatus, PaymentEvolves, StoreStep, MarkProcessed;
    TakingOverIsDated(s, p);
    var byId := FindPayment(s.payments, p.paymentId);
    var found := if byId.Some? then Only(byId.value)
                 else if p.externalReference == NoReference then Missing
                 else FindByReference(s.payments, p.externalReference);
    if found.Only? {
      var row := s.payments[found.index].(providerPaymentId := p.paymentId);
      StatusRulesEvolve(row, StatusOf(p), DayOf(p.paymentDate), p.netValue, now);
      var applied := ApplyGatewayStatus(row, StatusOf(p), DayOf(p.paymentDate), p.netValue, now);
      if applied.Some? && WritePayment(s.payments, found.index, applied.value).Some? {
        TakingOverEvolves(s.payments[found.index], p.paymentId, applied.value);
        PaymentCommitKeeps(s, found.index, applied.value, id, p.event);
      }
    }
    MarkProcessedKeeps(s, id, p.event);
  }

  lemma TakingOverIsDated(s: Store, p: Payload)
    requires AllDated(s.payments)
    ensures forall i :: 0 <= i < |s.payments| ==> Dated(s.payments[i].(providerPaymentId := p.paymentId))
  {
  }

  lemma TakingOverEvolves(p: PaymentRow, providerPaymentId: string, q: PaymentRow)
    requires PaymentEvolves(p.(providerPaymentId := providerPaymentId), q)
    ensures PaymentEvolves(p, q)
    ensures Dated(p) <==> Dated(p.(providerPaymentId := providerPaymentId))
  {
  }

  lemma TargetIsGood(s: Store, k: nat, p: Payload, now: DateTime)
    requires Good(s) && k < |s.subscriptions|
    ensures var r := Target(s, k, p, now);
            r.Some? ==>
              && Dated(r.value.1)
              && (r.value.1.subscription.Some? ==> r.value.1.subscription.value < |s.subscriptions|)
              && (r.value.0 < |s.payments| ==> PaymentEvolves(s.payments[r.value.0], r.value.1)
                                               && r.value.1.status == s.payments[r.value.0].status)
              && (r.value.0 == |s.payments| ==> r.value.1.status == Pending)
  {
  }

  lemma WriteBothKeeps(s: Store, k: nat, sub: SubscriptionRow, i: nat, row: PaymentRow)
    requires Good(s) && k < |s.subscriptions| && i <= |s.payments| && WriteBoth(s, k, sub, i, row).Some?
    requires SubscriptionStep(s.subscriptions[k], sub)
    requires Dated(row) && (row.subscription.Some? ==> row.subscription.value < |s.subscriptions|)
    requires i < |s.payments| ==> PaymentEvolves(s.payments[i], row)
    ensures var t := WriteBoth(s, k, sub, i, row).value; Good(t) && StoreStep(s, t)
  {
    WriteSubscriptionKeeps(s.subscriptions, k, sub);
    WritePaymentKeeps(s.payments, i, row, |s.subscriptions|);
  }

  lemma PaymentsEvolveTransitively(a: PaymentRow, b: PaymentRow, c: PaymentRow)
    requires PaymentEvolves(a, b) && PaymentEvolves(b, c)
    ensures PaymentEvolves(a, c)
  {
  }

  lemma ReceivedKeeps(s: Store, p: Payload, id: string, now: DateTime)
    requires Good(s)
    ensures var r := HandleReceived(s, p, id, now); r.Commit? ==> Good(r.store) && StoreStep(s, r.store)
  {
    hide Target, Locate, WriteBoth, PaymentEvolves, SubscriptionStep, Dated, Pay, Extended;
    var found := FindSubscription(s.subscriptions, p.subscription);
    if found.Some? && Target(s, found.value, p, now).Some? {
      var (i, row) := Target(s, found.value, p, now).value;
      TargetIsGood(s, found.value, p, now);
      var date := PaymentDateOf(p, row);
      if date.Some? {
        PaymentRulesEvolve(row, date, p.netValue, now);
        ExtendSteps(s.subscriptions[found.value], date.value);
        var paid, sub := Pay(row, date, p.netValue, now), Extended(s.subscriptions[found.value], date.value);
        if paid.Some? && sub.Some? && WriteBoth(s, found.value, sub.value, i, paid.value).Some? {
          PaidKeepsOwner(row, date, p.netValue, now);
          if i < |s.payments| { PaymentsEvolveTransitively(s.payments[i], row, paid.value); }
          WriteBothKeeps(s, found.value, sub.value, i, paid.value);
        }
      }
    }
    UnchangedKeeps(s);
  }

  lemma PaidKeepsOwner(p: PaymentRow, date: Option<DateTime>, net: Option<int>, now: DateTime)
    ensures Pay(p, date, net, now).Some? ==> Pay(p, date, net, now).value.subscription == p.subscription
    ensures Confirm(p, date, net, now).Some? ==> Confirm(p, date, net, now).value.subscription == p.subscription
    ensures Cancel(p, now).Some? ==> Cancel(p, now).value.subscription == p.subscription
    ensures Expire(p, now).Some? ==> Expire(p, now).value.subscription == p.subscription
  {
  }

  lemma ConfirmedKeeps(s: Store, p: Payload, id: string, now: DateTime)
    requires Good(s)
    ensures var r := HandleConfirmed(s, p, id, now); r.Commit? ==> Good(r.store) && StoreStep(s, r.store)
  {
    hide Target, Locate, WriteBoth, PaymentEvolves, SubscriptionStep, Dated, Confirm, Extended;
    var found := FindSubscription(s.subscriptions, p.subscription);
    if found.Some? && Target(s, found.value, p, now).Some? {
      var k := found.value;
      var (i, row) := Target(s, k, p, now).value;
      TargetIsGood(s, k, p, now);
      var date := PaymentDateOf(p, row);
      if date.Some? {
        StatusRulesEvolve(row, SaysConfirmed, date, p.netValue, now);
        ExtendSteps(s.subscriptions[k], date.value);
        SameSubscriptionSteps(s.subscriptions[k]);
        var confirmed := Confirm(row, date, p.netValue, now);
        if confirmed.Some? {
          var sub := if confirmed.value.paymentType == CreditCard then Extended(s.subscriptions[k], date.value)
                     else Some(s.subscriptions[k]);
          if sub.Some? && WriteBoth(s, k, sub.value, i, confirmed.value).Some? {
            PaidKeepsOwner(row, date, p.netValue, now);
            if i < |s.payments| { PaymentsEvolveTransitively(s.payments[i], row, confirmed.value); }
            WriteBothKeeps(s, k, sub.value, i, confirmed.value);
          }
        }
      }
    }
    UnchangedKeeps(s);
  }

  lemma SameSubscriptionSteps(s: SubscriptionRow)
    ensures SubscriptionStep(s, s)
  {
  }

  lemma DeletedKeeps(s: Store, p: Payload, id: string, now: DateTime)
    requires Good(s)
    ensures var r := HandleDeleted(s, p, id, now); r.Commit? ==> Good(r.store) && StoreStep(s, r.store)
  {
    var found := FindPayment(s.payments, p.paymentId);
    if found.Some? && Cancel(s.payments[found.value], now).Some? {
      var canceled := Cancel(s.payments[found.value], now).value;
      if WritePayment(s.payments, found.value, canceled).Some? {
        WritePaymentKeeps(s.payments, found.value, canceled, |s.subscriptions|);
      }
    }
  }

  lemma LifecycleKeeps(s: Store, p: Payload, id: string, now: DateTime)
    requires Good(s) && p.event in {PaymentOverdue, PaymentRefunded, PaymentChargebackRequested}
    ensures var r := HandleLifecycle(s, p, id, now); r.Commit? ==> Good(r.store) && StoreStep(s, r.store)
  {
    hide WritePayment, ApplyGatewayStatus, PaymentEvolves, StoreStep, MarkProcessed;
    var i := if p.paymentId == "" then None else FindPayment(s.payments, p.paymentId);
    if i.Some? {
      StatusRulesEvolve(s.payments[i.value], StatusOf(p), DayOf(p.paymentDate), p.netValue, now);
      var applied := ApplyGatewayStatus(s.payments[i.value], StatusOf(p), DayOf(p.paymentDate), p.netValue, now);
      if applied.Some? && WritePayment(s.payments, i.value, applied.value).Some? {
        PaymentCommitKeeps(s, i.value, applied.value, id, p.event);
      }
    }
    MarkProcessedKeeps(s, id, p.event);
  }

  lemma InactivatedKeeps(s: Store, p: Payload, id: string, now: DateTime)
    requires Good(s)
    ensures var r := HandleInactivated(s, p, id, now); r.Commit? ==> Good(r.store) && StoreStep(s, r.store)
  {
    var k := FindSubscription(s.subscriptions, p.subscription);
    if k.Some? {
      var ended := End(s.subscriptions[k.value], None, "", "", now);
      EndSteps(s.subscriptions[k.value], None, "", "", now);
      if WriteSubscription(s.subscriptions, k.value, ended).Some? {
        WriteSubscriptionKeeps(s.subscriptions, k.value, ended);
      }
    }
  }

  lemma CheckoutKeeps(s: Store, p: Payload, id: string, now: DateTime)
    requires Good(s) && IsCheckoutEvent(p.event)
    ensures var r := HandleCheckout(s, p, id, now); r.Commit? ==> Good(r.store) && StoreStep(s, r.store)
  {
    hide WritePayment, PaymentEvolves, StoreStep, MarkProcessed, Pay, Cancel, Expire;
    var byId := if p.paymentId == "" then None else FindPayment(s.payments, p.paymentId);
    var found := if byId.Some? then Only(byId.value)
                 else if p.externalReference == NoReference then Missing
                 else FindByReference(s.payments, p.externalReference);
    if found.Only? {
      var row := s.payments[found.index];
      PaymentRulesEvolve(row, p.paymentDate, p.netValue, now);
      var moved := match p.event
                   case CheckoutPaid => Pay(row, p.paymentDate, p.netValue, now)
                   case CheckoutCanceled => Cancel(row, now)
                   case _ => Expire(row, now);
      PaidKeepsOwner(row, p.paymentDate, p.netValue, now);
      if moved.Some? && WritePayment(s.payments, found.index, moved.value).Some? {
        PaymentCommitKeeps(s, found.index, moved.value, id, p.event);
      }
    }
    MarkProcessedKeeps(s, id, p.event);
  }

  lemma WebhookKeeps(s: Store, p: Payload, now: DateTime)
    requires Good(s)
    ensures Good(After(s, p, now)) && StoreStep(s, After(s, p, now))
  {
    hide HandleStandalone, HandleReceived, HandleConfirmed, HandleDeleted, HandleInactivated, HandleCheckout,
         HandleLifecycle, EventId, Good, StoreStep;
    UnchangedKeeps(s);
    if IdOf(p).Some? {
      var id := IdOf(p).value;
      MarkProcessedKeeps(s, id, p.event);
      StandaloneKeeps(s, p, id, now);
      ReceivedKeeps(s, p, id, now);
      ConfirmedKeeps(s, p, id, now);
      DeletedKeeps(s, p, id, now);
      InactivatedKeeps(s, p, id, now);
      if IsCheckoutEvent(p.event) { CheckoutKeeps(s, p, id, now); }
      if p.event in {PaymentOverdue, PaymentRefunded, PaymentChargebackRequested} { LifecycleKeeps(s, p, id, now); }
    }
  }

  // ---------------------------------------------------------------- the other commits

  lemma OperationWriteKeeps(s: Store, o: nat, row: OperationRow)
    requires Good(s) && o < |s.operations|
    ensures Good(UpdateOperation(s, o, row)) && StoreStep(s, UpdateOperation(s, o, row))
  {
    UnchangedKeeps(s);
  }

  lemma StoreStepsCompose(r: Store, s: Store, t: Store)
    requires StoreStep(r, s) && StoreStep(s, t)
    requires r.payments == s.payments || s.payments == t.payments
    requires r.subscriptions == s.subscriptions || s.subscriptions == t.subscriptions
    ensures StoreStep(r, t)
  {
  }

  lemma RecordKeeps(s: Store, d: Draft)
    requires Good(s)
    ensures Good(Record(s, d)) && StoreStep(s, Record(s, d))
  {
    UnchangedKeeps(s);
  }

  lemma SubscriptionWriteKeeps(s: Store, k: nat, row: SubscriptionRow)
    requires Good(s) && k <= |s.subscriptions| && WriteSubscription(s.subscriptions, k, row).Some?
    requires k < |s.subscriptions| ==> SubscriptionStep(s.subscriptions[k], row)
    ensures var t := s.(subscriptions := WriteSubscription(s.subscriptions, k, row).value);
            Good(t) && StoreStep(s, t)
  {
    hide SubscriptionStep, PaymentEvolves, Dated, PaymentKeys, SubscriptionKeys;
    UnchangedKeeps(s);
    WriteSubscriptionKeeps(s.subscriptions, k, row);
  }

  lemma PaymentWriteKeeps(s: Store, i: nat, row: PaymentRow)
    requires Good(s) && i <= |s.payments| && WritePayment(s.payments, i, row).Some?
    requires Dated(row) && (row.subscription.Some? ==> row.subscription.value < |s.subscriptions|)
    requires i < |s.payments| ==> PaymentEvolves(s.payments[i], row)
    ensures var t := s.(payments := WritePayment(s.payments, i, row).value); Good(t) && StoreStep(s, t)
  {
    PaymentCommitKeeps(s, i, row, "", UnknownEvent);
  }

  /** Two writes, of different tables, and then the operation's. */
  lemma CompleteKeeps(r: Store, s: Store, o: nat, reference: string)
    requires Good(s) && StoreStep(r, s) && o < |s.operations|
    ensures var t := CompleteOperation(s, o, reference);
            t.Some? ==> Good(t.value) && StoreStep(r, t.value)
  {
    var done := Complete(s.operations[o], reference);
    if done.Some? {
      OperationWriteKeeps(s, o, done.value);
      StoreStepsCompose(r, s, UpdateOperation(s, o, done.value));
    }
  }

  lemma BeginCancellationKeeps(s: Store, k: nat, system: System, reason: string, job: string, now: DateTime)
    requires Good(s)
    ensures var t := DoBeginCancellation(s, k, system, reason, job, now); t.Some? ==> Good(t.value) && StoreStep(s, t.value)
  {
    if k < |s.subscriptions| {
      var asked := RequestEnd(s.subscriptions[k], reason, job, now);
      if asked.Some? && WriteSubscription(s.subscriptions, k, asked.value).Some? {
        SubscriptionWriteKeeps(s, k, asked.value);
      }
    }
  }

  lemma FinishCancellationKeeps(s: Store, k: nat, o: nat, reference: string, reason: string, job: string, now: DateTime)
    requires Good(s)
    ensures var t := DoFinishCancellation(s, k, o, reference, reason, job, now);
            t.Some? ==> Good(t.value) && StoreStep(s, t.value)
  {
    hide Valid, AllDated, StoreStep, CompleteOperation;
    if k < |s.subscriptions| && o < |s.operations| {
      var ended := End(s.subscriptions[k], None, reason, job, now);
      EndSteps(s.subscriptions[k], None, reason, job, now);
      if WriteSubscription(s.subscriptions, k, ended).Some? {
        SubscriptionWriteKeeps(s, k, ended);
        CompleteKeeps(s, s.(subscriptions := WriteSubscription(s.subscriptions, k, ended).value), o, reference);
      }
    }
  }

  lemma IssueCheckoutKeeps(s: Store, o: nat, checkout: PaymentRow)
    requires Good(s)
    ensures var t := DoIssueCheckout(s, o, checkout); t.Some? ==> Good(t.value) && StoreStep(s, t.value)
  {
    hide Valid, AllDated, StoreStep, CompleteOperation;
    if DoIssueCheckout(s, o, checkout).Some? {
      PaymentWriteKeeps(s, |s.payments|, checkout);
      CompleteKeeps(s, s.(payments := WritePayment(s.payments, |s.payments|, checkout).value), o, checkout.providerPaymentId);
    }
  }

  /** A renewal of row `i` from a reading of it, however old. */
  lemma IssueRenewalKeepsRows(s: Store, o: nat, i: nat, read: PaymentRow, checkoutId: string, url: string,
                              reference: ExternalReference, gateway: GatewayProvider, now: DateTime)
    requires Good(s) && i < |s.payments| && SamePayment(s.payments[i], read)
    ensures var t := DoIssueRenewal(s, o, i, read, checkoutId, url, reference, gateway, now);
            t.Some? ==> Good(t.value) && RowsStep(s, t.value)
  {
    hide CompleteOperation, PaymentsEvolve;
    if DoIssueRenewal(s, o, i, read, checkoutId, url, reference, gateway, now).Some? {
      var renewed := Renew(read, checkoutId, url, reference, now).value.(gateway := gateway);
      RewrittenKeysKeep(s.payments, i, renewed, |s.subscriptions|);
      var written := s.(payments := WritePayment(s.payments, i, renewed).value);
      CompletedKeepsRows(written, o, checkoutId);
    }
  }

  lemma RewrittenKeysKeep(ps: seq<PaymentRow>, i: nat, row: PaymentRow, owners: nat)
    requires i < |ps| && PaymentKeys(ps) && Owned(ps, owners) && AllDated(ps) && WritePayment(ps, i, row).Some?
    requires Dated(row) && row.subscription == ps[i].subscription
    ensures var qs := WritePayment(ps, i, row).value; PaymentKeys(qs) && Owned(qs, owners) && AllDated(qs)
  {
  }

  lemma CompletedKeepsRows(s: Store, o: nat, reference: string)
    requires Good(s) && o < |s.operations|
    ensures var t := CompleteOperation(s, o, reference); t.Some? ==> Good(t.value) && RowsStep(s, t.value)
  {
    var done := Complete(s.operations[o], reference);
    if done.Some? { OperationWriteKeeps(s, o, done.value); }
  }

  /** The same, landing while the stored row is not settled. */
  lemma IssueRenewalKeeps(s: Store, o: nat, i: nat, read: PaymentRow, checkoutId: string, url: string,
                          reference: ExternalReference, gateway: GatewayProvider, now: DateTime)
    requires Good(s) && i < |s.payments| && SamePayment(s.payments[i], read) && !SettledIn(s.payments[i].status)
    ensures var t := DoIssueRenewal(s, o, i, read, checkoutId, url, reference, gateway, now);
            t.Some? ==> Good(t.value) && StoreStep(s, t.value)
  {
    hide StoreStep, CompleteOperation;
    if DoIssueRenewal(s, o, i, read, checkoutId, url, reference, gateway, now).Some? {
      var renewed := Renew(read, checkoutId, url, reference, now).value.(gateway := gateway);
      PaymentWriteKeeps(s, i, renewed);
      CompleteKeeps(s, s.(payments := WritePayment(s.payments, i, renewed).value), o, checkoutId);
    }
  }

  lemma BindSubscriptionKeeps(s: Store, o: nat, sub: SubscriptionRow, invoice: PaymentRow)
    requires Good(s)
    ensures var t := DoBindSubscription(s, o, sub, invoice); t.Some? ==> Good(t.value) && StoreStep(s, t.value)
  {
    hide Valid, AllDated, StoreStep, CompleteOperation, WritePayment, WriteSubscription;
    if DoBindSubscription(s, o, sub, invoice).Some? {
      SubscriptionWriteKeeps(s, |s.subscriptions|, sub);
      var bound := s.(subscriptions := WriteSubscription(s.subscriptions, |s.subscriptions|, sub).value);
      var first := invoice.(subscription := Some(|s.subscriptions|));
      AppendedSubscription(s, sub);
      PaymentWriteKeeps(bound, |s.payments|, first);
      var paid := bound.(payments := WritePayment(s.payments, |s.payments|, first).value);
      StoreStepsCompose(s, bound, paid);
      CompleteKeeps(s, paid, o, sub.gatewaySubscriptionId);
    }
  }

  lemma AppendedSubscription(s: Store, sub: SubscriptionRow)
    requires WriteSubscription(s.subscriptions, |s.subscriptions|, sub).Some?
    ensures |WriteSubscription(s.subscriptions, |s.subscriptions|, sub).value| == |s.subscriptions| + 1
  {
  }

  lemma ReconcileCreationKeeps(s: Store, o: nat, remote: RemoteSubscription)
    requires Good(s)
    ensures var t := DoReconcileCreation(s, o, remote); t.Some? ==> Good(t.value) && StoreStep(s, t.value)
  {
    hide StoreStep, CompleteOperation, Valid, AllDated;
    UnchangedKeeps(s);
    if DoReconcileCreation(s, o, remote).Some? {
      var op := s.operations[o];
      CompleteKeeps(s, s, o, op.gatewayReference);
      if FindSubscription(s.subscriptions, op.gatewayReference).None? {
        var rebuilt := RebuiltSubscription(op, remote).value;
        SubscriptionWriteKeeps(s, |s.subscriptions|, rebuilt);
        CompleteKeeps(s, s.(subscriptions := WriteSubscription(s.subscriptions, |s.subscriptions|, rebuilt).value), o,
                      op.gatewayReference);
      }
    }
  }

  lemma ReconcileCancellationKeeps(s: Store, o: nat, remote: RemoteSubscription, now: DateTime)
    requires Good(s)
    ensures var t := DoReconcileCancellation(s, o, remote, now); t.Some? ==> Good(t.value) && StoreStep(s, t.value)
  {
    hide StoreStep, CompleteOperation, Valid, AllDated, Record, BuildDelivery;
    UnchangedKeeps(s);
    if DoReconcileCancellation(s, o, remote, now).Some? && remote == RemoteCanceled {
      var op := s.operations[o];
      var k := op.payload.subscription;
      var ended := End(s.subscriptions[k], Some(now), "Reconciled cancellation", "", now);
      EndSteps(s.subscriptions[k], Some(now), "Reconciled cancellation", "", now);
      SubscriptionWriteKeeps(s, k, ended);
      var written := s.(subscriptions := WriteSubscription(s.subscriptions, k, ended).value);
      CompleteKeeps(s, written, o, op.gatewayReference);
      var done := CompleteOperation(written, o, op.gatewayReference).value;
      CompleteTouchesOperationsOnly(written, o, op.gatewayReference);
      RecordedAfter(s, done, BuildDelivery(done, InactivationNotice(k)));
    }
  }

  lemma CompleteTouchesOperationsOnly(s: Store, o: nat, reference: string)
    requires o < |s.operations|
    ensures var t := CompleteOperation(s, o, reference);
            t.Some? ==> t.value == s.(operations := t.value.operations) && |t.value.operations| == |s.operations|
  {
  }

  lemma RecordedAfter(r: Store, s: Store, d: Draft)
    requires Good(s) && StoreStep(r, s)
    ensures Good(Record(s, d)) && StoreStep(r, Record(s, d))
  {
    RecordKeeps(s, d);
    StoreStepsCompose(r, s, Record(s, d));
  }

  lemma CheckoutTargetIsGood(s: Store, op: OperationRow, checkout: RemoteCheckout, now: DateTime)
    requires Good(s) && op.payload.CheckoutPayload? && checkout.status != CheckoutIsUnknown
    ensures var r := CheckoutTarget(s, op, checkout, now);
            r.Some? ==>
              && Dated(r.value.1)
              && (r.value.1.subscription.Some? ==> r.value.1.subscription.value < |s.subscriptions|)
              && (r.value.0 < |s.payments| ==> PaymentEvolves(s.payments[r.value.0], r.value.1))
              && (r.value.0 == |s.payments| ==> r.value.2)
              && (!r.value.2 ==> r.value.1 == s.payments[r.value.0])
  {
  }

  lemma ReconcileCheckoutKeeps(s: Store, o: nat, checkout: RemoteCheckout, now: DateTime)
    requires Good(s)
    ensures var t := DoReconcileCheckout(s, o, checkout, now); t.Some? ==> Good(t.value) && StoreStep(s, t.value)
  {
    hide StoreStep, CompleteOperation, Valid, AllDated, Record, BuildDelivery, CheckoutTarget, MoveCheckout,
         WritePayment, PaymentEvolves, Dated;
    UnchangedKeeps(s);
    if DoReconcileCheckout(s, o, checkout, now).Some? && s.operations[o].gatewayReference != "" {
      var op := s.operations[o];
      var (i, row, save) := CheckoutTarget(s, op, checkout, now).value;
      CheckoutTargetIsGood(s, op, checkout, now);
      MoveCheckoutEvolves(row, checkout.status, now);
      var written := s;
      if save {
        var moved := MoveCheckout(row, checkout.status, now).value;
        if i < |s.payments| { PaymentsEvolveTransitively(s.payments[i], row, moved); }
        PaymentWriteKeeps(s, i, moved);
        written := s.(payments := WritePayment(s.payments, i, moved).value);
        WrittenHasRow(s.payments, i, moved);
      }
      assert written.operations == s.operations && i < |written.payments|;
      CompleteKeeps(s, written, o, checkout.id);
      if checkout.status != CheckoutIsActive {
        var d := BuildDelivery(written, Notice(NotifyStatusUpdated, Some(i), None));
        RecordedAfter(s, written, d);
        RecordKeepsOperations(written, d);
        CompleteKeeps(s, Record(written, d), o, checkout.id);
      }
    }
  }

  lemma RecordKeepsOperations(s: Store, d: Draft)
    ensures Record(s, d).operations == s.operations
  {
  }

  lemma WrittenHasRow(ps: seq<PaymentRow>, i: nat, row: PaymentRow)
    requires i <= |ps| && WritePayment(ps, i, row).Some?
    ensures i < |WritePayment(ps, i, row).value|
  {
  }

  lemma MoveCheckoutEvolves(row: PaymentRow, status: RemoteCheckoutStatus, now: DateTime)
    ensures var m := MoveCheckout(row, status, now);
            m.Some? ==>
              PaymentEvolves(row, m.value) && (Dated(row) ==> Dated(m.value)) && m.value.subscription == row.subscription
  {
  }

  lemma ReconcilePaymentKeeps(s: Store, i: nat, said: GatewayStatus, date: Option<DateTime>, net: Option<int>, now: DateTime)
    requires Good(s)
    ensures var t := DoReconcilePayment(s, i, said, date, net, now); t.Some? ==> Good(t.value) && StoreStep(s, t.value)
  {
    hide StoreStep, ApplyGatewayStatus, WritePayment, PaymentEvolves;
    UnchangedKeeps(s);
    if i < |s.payments| {
      StatusRulesEvolve(s.payments[i], said, date, net, now);
      var applied := ApplyGatewayStatus(s.payments[i], said, date, net, now);
      if applied.Some? && WritePayment(s.payments, i, applied.value).Some? { PaymentWriteKeeps(s, i, applied.value); }
    }
  }

  /** A renewal rewrites the payment it read, at whatever moment it read it. */
  predicate RenewsOwnRow(s: Store, t: Transaction) {
    t.IssueRenewal? && t.i < |s.payments| ==> SamePayment(s.payments[t.i], t.read)
  }

  /** A renewal that commits while the stored payment is not settled. */
  predicate RenewsUnsettled(s: Store, t: Transaction) {
    t.IssueRenewal? && Attempt(s, t).Some? ==> !SettledIn(s.payments[t.i].status)
  }

  /** Nothing committed between the reading and the write. */
  predicate ReadsCurrentRow(s: Store, t: Transaction) {
    t.IssueRenewal? ==> t.i < |s.payments| && t.read == s.payments[t.i]
  }

  lemma CurrentIsUnsettled(s: Store, t: Transaction)
    requires ReadsCurrentRow(s, t)
    ensures RenewsOwnRow(s, t) && RenewsUnsettled(s, t)
  {
  }

  /** Every commit keeps the keys, every payment's settlement, and every
      subscription's expiry and end. */
  lemma TransactionKeeps(s: Store, t: Transaction)
    requires Good(s) && RenewsOwnRow(s, t) && RenewsUnsettled(s, t)
    ensures Good(Apply(s, t)) && StoreStep(s, Apply(s, t))
  {
    hide Good, StoreStep;
    UnchangedKeeps(s);
    match t
    case Webhook(p, now) => WebhookKeeps(s, p, now);
    case RecordNotice(n) => if NoticeFits(s, n) { RecordKeeps(s, BuildDelivery(s, n)); }
    case OpenOperation(row) => if FindOperation(s.operations, row.key).None? { OpenOperationKeeps(s, row); }
    case CloseOperation(o, row) => if o < |s.operations| { OperationWriteKeeps(s, o, row); }
    case BeginCancellation(k, system, reason, job, now) => BeginCancellationKeeps(s, k, system, reason, job, now);
    case FinishCancellation(k, o, reference, reason, job, now) => FinishCancellationKeeps(s, k, o, reference, reason, job, now);
    case IssueCheckout(o, checkout) => IssueCheckoutKeeps(s, o, checkout);
    case IssueRenewal(o, i, read, checkoutId, url, reference, gateway, now) =>
      if Attempt(s, t).Some? { IssueRenewalKeeps(s, o, i, read, checkoutId, url, reference, gateway, now); }
    case BindSubscription(o, sub, invoice) => BindSubscriptionKeeps(s, o, sub, invoice);
    case ReconcileCreation(o, remote) => ReconcileCreationKeeps(s, o, remote);
    case ReconcileCancellation(o, remote, now) => ReconcileCancellationKeeps(s, o, remote, now);
    case ReconcileCheckout(o, checkout, now) => ReconcileCheckoutKeeps(s, o, checkout, now);
    case ReconcilePayment(i, said, date, net, now) => ReconcilePaymentKeeps(s, i, said, date, net, now);
  }

  lemma OpenOperationKeeps(s: Store, row: OperationRow)
    requires Good(s) && FindOperation(s.operations, row.key).None?
    ensures var t := s.(operations := s.operations + [row]); Good(t) && StoreStep(s, t)
  {
    UnchangedKeeps(s);
  }

  /** What holds of every commit, stale renewals included. */
  lemma TransactionKeepsRows(s: Store, t: Transaction)
    requires Good(s) && RenewsOwnRow(s, t)
    ensures Good(Apply(s, t)) && RowsStep(s, Apply(s, t))
  {
    if t.IssueRenewal? {
      SameSubscriptionsStep(s);
      if Attempt(s, t).Some? {
        IssueRenewalKeepsRows(s, t.o, t.i, t.read, t.checkoutId, t.url, t.renewal, t.gateway, t.now);
      }
    } else {
      TransactionKeeps(s, t);
    }
  }

  lemma SameSubscriptionsStep(s: Store)
    ensures RowsStep(s, s)
  {
  }
}
