/** Which tables a webhook's commit touches. */
module WebhookFootprint {
  import opened BillingCalendar
  import opened Entities
  import opened Storage
  import opened EventIds
  import opened WebhookRules

  /** The event is recorded; requests, deliveries and the number of subscriptions
      stay, and no payment is removed. */
  predicate Footprint(s: Store, r: Reply, id: string, event: EventType) {
    r.Commit? ==>
      && r.store.events == MarkProcessed(s, id, event).events
      && r.store.operations == s.operations && r.store.deliveries == s.deliveries
      && |r.store.subscriptions| == |s.subscriptions| && |s.payments| <= |r.store.payments|
  }

  lemma WriteBothFootprint(s: Store, k: nat, sub: SubscriptionRow, i: nat, row: PaymentRow)
    requires k < |s.subscriptions| && i <= |s.payments|
    ensures var t := WriteBoth(s, k, sub, i, row);
            t.Some? ==>
              && t.value.events == s.events && t.value.operations == s.operations && t.value.deliveries == s.deliveries
              && |t.value.subscriptions| == |s.subscriptions| && |s.payments| <= |t.value.payments|
  {
    hide PaymentClash, SubscriptionClash;
  }

  lemma ReceivedFootprint(s: Store, p: Payload, id: string, now: DateTime)
    ensures Footprint(s, HandleReceived(s, p, id, now), id, p.event)
  {
    hide Target, Locate, WriteBoth, Pay, Extended;
    var k := FindSubscription(s.subscriptions, p.subscription);
    if k.Some? && Target(s, k.value, p, now).Some? {
      var (i, row) := Target(s, k.value, p, now).value;
      var date := PaymentDateOf(p, row);
      var paid := Pay(row, date, p.netValue, now);
      if date.Some? && paid.Some? && Extended(s.subscriptions[k.value], date.value).Some? {
        WriteBothFootprint(s, k.value, Extended(s.subscriptions[k.value], date.value).value, i, paid.value);
      }
    }
  }

  lemma ConfirmedFootprint(s: Store, p: Payload, id: string, now: DateTime)
    ensures Footprint(s, HandleConfirmed(s, p, id, now), id, p.event)
  {
    hide Target, Locate, WriteBoth, Confirm, Extended;
    var k := FindSubscription(s.subscriptions, p.subscription);
    if k.Some? && Target(s, k.value, p, now).Some? {
      var (i, row) := Target(s, k.value, p, now).value;
      var date := PaymentDateOf(p, row);
      var confirmed := Confirm(row, date, p.netValue, now);
      if date.Some? && confirmed.Some? {
        var sub := if confirmed.value.paymentType == CreditCard then Extended(s.subscriptions[k.value], date.value)
                   else Some(s.subscriptions[k.value]);
        if sub.Some? { WriteBothFootprint(s, k.value, sub.value, i, confirmed.value); }
      }
    }
  }

  lemma StandaloneFootprint(s: Store, p: Payload, id: string, now: DateTime)
    ensures Footprint(s, HandleStandalone(s, p, id, now), id, p.event)
  {
    hide ApplyGatewayStatus, PaymentClash, FindPayment, FindByReference;
  }

  lemma DeletedFootprint(s: Store, p: Payload, id: string, now: DateTime)
    ensures Footprint(s, HandleDeleted(s, p, id, now), id, p.event)
  {
    hide Cancel, PaymentClash;
  }

  lemma LifecycleFootprint(s: Store, p: Payload, id: string, now: DateTime)
    requires p.event in {PaymentOverdue, PaymentRefunded, PaymentChargebackRequested}
    ensures Footprint(s, HandleLifecycle(s, p, id, now), id, p.event)
  {
    hide ApplyGatewayStatus, PaymentClash;
  }

  lemma InactivatedFootprint(s: Store, p: Payload, id: string, now: DateTime)
    ensures Footprint(s, HandleInactivated(s, p, id, now), id, p.event)
  {
    hide End, SubscriptionClash;
  }

  lemma CheckoutFootprint(s: Store, p: Payload, id: string, now: DateTime)
    requires IsCheckoutEvent(p.event)
    ensures Footprint(s, HandleCheckout(s, p, id, now), id, p.event)
  {
    hide Pay, Cancel, Expire, PaymentClash, FindPayment, FindByReference;
  }

  /** A webhook commits only under an id not yet processed, and within its footprint. */
  lemma CommitFootprint(s: Store, p: Payload, now: DateTime)
    ensures Handle(s, p, now).Commit? ==>
              && IdOf(p).Some? && !(IdOf(p).value in s.events && s.events[IdOf(p).value].processed)
              && Footprint(s, Handle(s, p, now), IdOf(p).value, p.event)
  {
    hide EventId, HandleStandalone, HandleReceived, HandleConfirmed, HandleDeleted, HandleInactivated, HandleCheckout,
         HandleLifecycle;
    if IdOf(p).Some? {
      var id := IdOf(p).value;
      StandaloneFootprint(s, p, id, now);
      ReceivedFootprint(s, p, id, now);
      ConfirmedFootprint(s, p, id, now);
      DeletedFootprint(s, p, id, now);
      InactivatedFootprint(s, p, id, now);
      if IsCheckoutEvent(p.event) { CheckoutFootprint(s, p, id, now); }
      if p.event in {PaymentOverdue, PaymentRefunded, PaymentChargebackRequested} { LifecycleFootprint(s, p, id, now); }
    }
  }
}
