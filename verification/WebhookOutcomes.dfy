/** What each webhook commits and whom it notifies, told from the rows before and
    after. */
module WebhookOutcomes {
  import opened BillingCalendar
  import opened Entities
  import opened RowMeanings
  import opened Storage
  import opened EventIds
  import opened WebhookRules
  import opened TransactionLaws

  /** A webhook that has an id, not seen before. */
  ghost predicate New(s: Store, p: Payload) {
    Good(s) && IdOf(p).Some? && IdOf(p).value !in s.events
  }

  /** The state with the event on record, and nothing else. */
  function Recorded(s: Store, p: Payload): Store
    requires IdOf(p).Some?
  {
    s.(events := s.events[IdOf(p).value := WebhookEvent(p.event, true)])
  }

  predicate HasId(ps: seq<PaymentRow>, id: string) {
    exists i :: 0 <= i < |ps| && ps[i].providerPaymentId == id
  }

  predicate HasReference(ps: seq<PaymentRow>, reference: ExternalReference, i: nat) {
    i < |ps| && ps[i].externalReference == reference
  }

  /** A webhook without an id is refused, and one already processed is skipped. */
  lemma OldWebhook(s: Store, p: Payload, now: DateTime)
    ensures IdOf(p).None? ==> Handle(s, p, now) == Raise
    ensures IdOf(p).Some? && IdOf(p).value in s.events && s.events[IdOf(p).value].processed ==> Handle(s, p, now) == Skip
    ensures IdOf(p).None? <==> p.sourceEventId == "" && p.paymentId == ""
  {
  }

  predicate Knows(s: Store, subscription: string) {
    exists k :: 0 <= k < |s.subscriptions| && s.subscriptions[k].gatewaySubscriptionId == subscription
  }

  /** The word a webhook stands for: its own, or that of its event. */
  lemma WordOfEvent(p: Payload)
    ensures p.status.Some? ==> StatusOf(p) == p.status.value
    ensures p.status.None? ==>
              && (StatusOf(p) == SaysConfirmed <==> p.event == PaymentConfirmed)
              && (StatusOf(p) == SaysReceived <==> p.event == PaymentReceived)
              && (StatusOf(p) == SaysOverdue <==> p.event == PaymentOverdue)
              && (StatusOf(p) == SaysRefunded <==> p.event == PaymentRefunded)
              && (StatusOf(p) == SaysChargeback <==> p.event == PaymentChargebackRequested)
              && (StatusOf(p) == SaysDeleted <==> p.event == PaymentDeleted)
  {
  }

  lemma FoundById(ps: seq<PaymentRow>, id: string, i: nat)
    requires PaymentKeys(ps) && i < |ps|
    ensures FindPayment(ps, id) == Some(i) <==> ps[i].providerPaymentId == id
  {
  }

  lemma FoundByGatewayId(subs: seq<SubscriptionRow>, id: string, k: nat)
    requires SubscriptionKeys(subs) && k < |subs|
    ensures FindSubscription(subs, id) == Some(k) <==> subs[k].gatewaySubscriptionId == id
  {
  }

  lemma RewrittenPayment(ps: seq<PaymentRow>, i: nat, row: PaymentRow)
    requires PaymentKeys(ps) && i < |ps| && row.providerPaymentId != ""
    requires row.providerPaymentId == ps[i].providerPaymentId || !HasId(ps, row.providerPaymentId)
    requires row.systemPaymentId == ps[i].systemPaymentId && row.fromSystem == ps[i].fromSystem
    ensures WritePayment(ps, i, row) == Some(ps[i := row])
  {
  }

  lemma NewEventRecorded(s: Store, p: Payload)
    requires IdOf(p).Some? && IdOf(p).value !in s.events
    ensures MarkProcessed(s, IdOf(p).value, p.event) == Recorded(s, p)
    ensures forall t: Store :: t.events == s.events ==> MarkProcessed(t, IdOf(p).value, p.event) == Recorded(t, p)
  {
  }

  // ---------------------------------------------------------------- deletion

  /** PAYMENT_DELETED cancels the invoice while it is open, and touches no other row. */
  lemma DeletedOutcome(s: Store, p: Payload, now: DateTime)
    requires New(s, p) && p.event == PaymentDeleted && p.subscription != ""
    ensures var r := Handle(s, p, now);
            && r.Commit? && r.notice == None && |r.store.payments| == |s.payments|
            && r.store == Recorded(s, p).(payments := r.store.payments)
            && forall i :: 0 <= i < |s.payments| ==>
                 if s.payments[i].providerPaymentId == p.paymentId && s.payments[i].status in {Pending, Overdue, Confirmed}
                 then MovedTo(s.payments[i], r.store.payments[i], Canceled, None, None, now)
                 else r.store.payments[i] == s.payments[i]
  {
    hide EventId, MarkProcessed, PaymentClash, SubscriptionKeys, Owned, OperationKeys, DeliveryKeys, AllProcessed, AllDated;
    NewEventRecorded(s, p);
    var found := FindPayment(s.payments, p.paymentId);
    forall i | 0 <= i < |s.payments| ensures found == Some(i) <==> s.payments[i].providerPaymentId == p.paymentId {
      FoundById(s.payments, p.paymentId, i);
    }
    if found.Some? && Cancel(s.payments[found.value], now).Some? {
      RewrittenPayment(s.payments, found.value, Cancel(s.payments[found.value], now).value);
    }
  }

  // ---------------------------------------------------------------- inactivation

  /** SUBSCRIPTION_DELETED and SUBSCRIPTION_INACTIVATED end the subscription they name. */
  lemma InactivatedOutcome(s: Store, p: Payload, k: nat, now: DateTime)
    requires New(s, p) && p.event in {SubscriptionDeleted, SubscriptionInactivated} && p.subscription != ""
    requires k < |s.subscriptions| && s.subscriptions[k].gatewaySubscriptionId == p.subscription
    ensures var r := Handle(s, p, now);
            && r.Commit? && r.notice == Some(Notice(NotifyInactivated, None, Some(k)))
            && |r.store.subscriptions| == |s.subscriptions|
            && EndedAt(s.subscriptions[k], r.store.subscriptions[k], now, "", "") && r.store.subscriptions[k].status == Ended
            && r.store == Recorded(s, p).(subscriptions := s.subscriptions[k := r.store.subscriptions[k]])
  {
    hide EventId, MarkProcessed, PaymentKeys, Owned, OperationKeys, DeliveryKeys, AllProcessed, AllDated;
    NewEventRecorded(s, p);
    FoundByGatewayId(s.subscriptions, p.subscription, k);
    EndsMean(s.subscriptions[k], None, "", "", now);
    assert s.subscriptions[k := s.subscriptions[k]] == s.subscriptions;
  }

  /** Without a subscription, or with one unknown, they are refused. */
  lemma InactivatedRefused(s: Store, p: Payload, now: DateTime)
    requires New(s, p) && p.event in {SubscriptionDeleted, SubscriptionInactivated}
    requires if p.subscription == "" then p.paymentId == "" else !Knows(s, p.subscription)
    ensures Handle(s, p, now) == Raise
  {
    hide EventId, PaymentKeys, SubscriptionKeys, Owned, OperationKeys, DeliveryKeys, AllDated;
  }

  // ---------------------------------------------------------------- words about a stored payment

  /** The day of a webhook's payment date, at midnight. */
  function MidnightOf(t: Option<DateTime>): Option<DateTime> {
    if t.Some? then Some(DateTime(t.value.date, 0)) else None
  }

  /** A word about payment `i`, taken as row `a`: refused, or only recorded when it
      moves no status, or the row moved by the diagram with everybody told. */
  predicate WordOutcome(s: Store, p: Payload, r: Reply, i: nat, a: PaymentRow, notice: Notice, now: DateTime)
    requires IdOf(p).Some? && i < |s.payments|
  {
    var to := NextStatus(a.status, StatusOf(p));
    if to.None? then r == Raise
    else if to.value == a.status then r == Commit(Recorded(s, p), None)
    else if to.value in {Confirmed, Paid} && Negative(p.netValue) then r == Raise
    else
      && r.Commit? && r.notice == Some(notice) && |r.store.payments| == |s.payments|
      && MovedTo(a, r.store.payments[i], to.value, MidnightOf(p.paymentDate), p.netValue, now)
      && r.store == Recorded(s, p).(payments := s.payments[i := r.store.payments[i]])
  }

  /** PAYMENT_OVERDUE, PAYMENT_REFUNDED and PAYMENT_CHARGEBACK_REQUESTED of a
      subscription's stored invoice; an OVERDUE that the diagram refuses is only
      recorded. */
  lemma LifecycleOutcome(s: Store, p: Payload, k: nat, i: nat, now: DateTime)
    requires New(s, p) && p.event in {PaymentOverdue, PaymentRefunded, PaymentChargebackRequested} && p.subscription != ""
    requires k < |s.subscriptions| && s.subscriptions[k].gatewaySubscriptionId == p.subscription
    requires i < |s.payments| && s.payments[i].providerPaymentId == p.paymentId
    ensures var a, r := s.payments[i], Handle(s, p, now);
            var event := match p.event
                         case PaymentOverdue => NotifyOverdue
                         case PaymentRefunded => NotifyRefunded
                         case _ => NotifyChargeback;
            if StatusOf(p) == SaysOverdue && NextStatus(a.status, SaysOverdue).None? then r == Commit(Recorded(s, p), None)
            else WordOutcome(s, p, r, i, a, Notice(event, Some(i), Some(k)), now)
  {
    hide HandleStandalone, HandleReceived, HandleConfirmed, HandleDeleted, HandleInactivated, HandleCheckout;
    hide EventId, MarkProcessed, PaymentClash, ApplyGatewayStatus, StatusOf, Owned, OperationKeys, DeliveryKeys,
         AllProcessed, AllDated;
    NewEventRecorded(s, p);
    FoundById(s.payments, p.paymentId, i);
    FoundByGatewayId(s.subscriptions, p.subscription, k);
    var a, date := s.payments[i], DayOf(p.paymentDate);
    var applied := ApplyGatewayStatus(a, StatusOf(p), date, p.netValue, now);
    WordsFollowTheDiagram(a, StatusOf(p), date, p.netValue, now);
    if applied.Some? && applied.value.status != a.status {
      MovedIsWritten(s.payments, i, a, applied.value, StatusOf(p), date, p.netValue, now);
    }
  }

  lemma MovedIsWritten(ps: seq<PaymentRow>, i: nat, a: PaymentRow, b: PaymentRow, word: GatewayStatus, date: Option<DateTime>,
                       net: Option<int>, now: DateTime)
    requires PaymentKeys(ps) && i < |ps| && Follows(a, word, date, net, now, Some(b)) && b.status != a.status
    requires a == ps[i] || (a == ps[i].(providerPaymentId := a.providerPaymentId) && a.providerPaymentId != ""
                            && !HasId(ps, a.providerPaymentId))
    requires a == ps[i] ==> ps[i].providerPaymentId != ""
    ensures WritePayment(ps, i, b) == Some(ps[i := b])
    ensures MovedTo(a, b, NextStatus(a.status, word).value, date, net, now) && b.status == NextStatus(a.status, word).value
  {
    RewrittenPayment(ps, i, b);
  }

  /** They are refused without the subscription, and only recorded without the invoice. */
  lemma LifecycleWithout(s: Store, p: Payload, now: DateTime)
    requires New(s, p) && p.event in {PaymentOverdue, PaymentRefunded, PaymentChargebackRequested} && p.subscription != ""
    ensures !Knows(s, p.subscription) ==> Handle(s, p, now) == Raise
    ensures Knows(s, p.subscription) && !HasId(s.payments, p.paymentId) ==> Handle(s, p, now) == Commit(Recorded(s, p), None)
  {
    hide EventId, MarkProcessed, WritePayment, ApplyGatewayStatus, StatusOf, PaymentKeys, Owned, OperationKeys,
         DeliveryKeys, AllDated;
    NewEventRecorded(s, p);
  }

  /** Payment `i` is the one a webhook outside a subscription is about: it has the
      id, or none has and it is the only one with the reference. */
  ghost predicate About(ps: seq<PaymentRow>, p: Payload, i: nat) {
    i < |ps| &&
    (ps[i].providerPaymentId == p.paymentId
     || (!HasId(ps, p.paymentId) && p.externalReference != NoReference && HasReference(ps, p.externalReference, i)
         && forall j: nat :: HasReference(ps, p.externalReference, j) ==> j == i))
  }

  lemma AboutIsFound(ps: seq<PaymentRow>, p: Payload, i: nat)
    requires PaymentKeys(ps) && About(ps, p, i)
    ensures FindPayment(ps, p.paymentId).Some? ==>
              FindPayment(ps, p.paymentId) == Some(i) && ps[i].providerPaymentId == p.paymentId
    ensures FindPayment(ps, p.paymentId).None? ==>
              FindByReference(ps, p.externalReference) == Only(i) && p.externalReference != NoReference && !HasId(ps, p.paymentId)
  {
    FoundById(ps, p.paymentId, i);
    if ps[i].providerPaymentId != p.paymentId { OnlyOne(ps, p.externalReference, i); }
  }

  lemma OnlyOne(ps: seq<PaymentRow>, reference: ExternalReference, i: nat)
    requires HasReference(ps, reference, i) ==> forall j: nat :: HasReference(ps, reference, j) ==> j == i
    ensures HasReference(ps, reference, i) ==> FindByReference(ps, reference) == Only(i)
  {
    if HasReference(ps, reference, i) {
      var r := FindByReference(ps, reference);
      if r.Several? {
        var a, b :| 0 <= a < b < |ps| && ps[a].externalReference == reference == ps[b].externalReference;
        assert HasReference(ps, reference, a) && HasReference(ps, reference, b);
      } else if r.Only? { assert HasReference(ps, reference, r.index); }
    }
  }

  /** A webhook of a payment outside a subscription: the payment takes the id over
      and moves by the diagram, or the event is only recorded. */
  lemma StandaloneOutcome(s: Store, p: Payload, i: nat, now: DateTime)
    requires New(s, p) && p.paymentId != "" && p.subscription == "" && About(s.payments, p, i)
    requires p.event !in {CheckoutCreated, CheckoutPaid, CheckoutCanceled, CheckoutExpired}
    ensures var a := s.payments[i].(providerPaymentId := p.paymentId);
            WordOutcome(s, p, Handle(s, p, now), i, a, Notice(NotifyStatusUpdated, Some(i), None), now)
  {
    hide EventId, MarkProcessed, PaymentClash, ApplyGatewayStatus, StatusOf, SubscriptionKeys, Owned, OperationKeys, DeliveryKeys,
         AllProcessed, AllDated;
    NewEventRecorded(s, p);
    AboutIsFound(s.payments, p, i);
    var a, date := s.payments[i].(providerPaymentId := p.paymentId), DayOf(p.paymentDate);
    var applied := ApplyGatewayStatus(a, StatusOf(p), date, p.netValue, now);
    WordsFollowTheDiagram(a, StatusOf(p), date, p.netValue, now);
    if applied.Some? && applied.value.status != a.status {
      MovedIsWritten(s.payments, i, a, applied.value, StatusOf(p), date, p.netValue, now);
    }
  }

  predicate Shared(ps: seq<PaymentRow>, reference: ExternalReference) {
    exists i, j :: 0 <= i < j < |ps| && HasReference(ps, reference, i) && HasReference(ps, reference, j)
  }

  /** About no payment, it is only recorded; about several, refused. */
  lemma StandaloneWithout(s: Store, p: Payload, now: DateTime)
    requires New(s, p) && p.paymentId != "" && p.subscription == "" && !HasId(s.payments, p.paymentId)
    requires p.event !in {CheckoutCreated, CheckoutPaid, CheckoutCanceled, CheckoutExpired}
    ensures p.externalReference == NoReference || (forall i: nat :: !HasReference(s.payments, p.externalReference, i)) ==>
              Handle(s, p, now) == Commit(Recorded(s, p), None)
    ensures p.externalReference != NoReference && Shared(s.payments, p.externalReference) ==> Handle(s, p, now) == Raise
  {
    hide EventId, MarkProcessed, WritePayment, ApplyGatewayStatus, StatusOf, PaymentKeys, Owned, OperationKeys,
         DeliveryKeys, AllDated;
    NewEventRecorded(s, p);
    var r := FindByReference(s.payments, p.externalReference);
    if r.Only? { assert HasReference(s.payments, p.externalReference, r.index); }
    if r.Several? {
      var i, j :| 0 <= i < j < |s.payments|
                  && s.payments[i].externalReference == p.externalReference == s.payments[j].externalReference;
      assert HasReference(s.payments, p.externalReference, i);
    }
  }

  // ---------------------------------------------------------------- checkouts

  /** A checkout event ends its payment while the checkout is open, with its dates;
      CREATED, and events of a payment that is not open, are only recorded. */
  lemma CheckoutOutcome(s: Store, p: Payload, i: nat, now: DateTime)
    requires New(s, p) && About(s.payments, p, i)
    requires p.event in {CheckoutCreated, CheckoutPaid, CheckoutCanceled, CheckoutExpired}
    ensures var a, r := s.payments[i], Handle(s, p, now);
            if p.event == CheckoutCreated || a.status !in {Pending, Overdue} then r == Commit(Recorded(s, p), None)
            else if p.event == CheckoutPaid && Negative(p.netValue) then r == Raise
            else
              && r.Commit? && r.notice == Some(Notice(NotifyStatusUpdated, Some(i), None))
              && |r.store.payments| == |s.payments|
              && r.store == Recorded(s, p).(payments := s.payments[i := r.store.payments[i]])
              && MovedTo(a, r.store.payments[i],
                         match p.event case CheckoutPaid => Paid case CheckoutCanceled => Canceled case _ => Expired,
                         p.paymentDate, p.netValue, now)
  {
    hide HandleStandalone, HandleReceived, HandleConfirmed, HandleDeleted, HandleLifecycle, HandleInactivated;
    hide EventId, MarkProcessed, PaymentClash, SubscriptionKeys, Owned, OperationKeys, DeliveryKeys, AllProcessed, AllDated;
    NewEventRecorded(s, p);
    AboutIsFound(s.payments, p, i);
    var a := s.payments[i];
    var moved := match p.event
                 case CheckoutPaid => Pay(a, p.paymentDate, p.netValue, now)
                 case CheckoutCanceled => Cancel(a, now)
                 case _ => Expire(a, now);
    if moved.Some? { RewrittenPayment(s.payments, i, moved.value); }
  }

  /** About no payment, it is only recorded; about several, refused. */
  lemma CheckoutWithout(s: Store, p: Payload, now: DateTime)
    requires New(s, p) && !HasId(s.payments, p.paymentId)
    requires p.event in {CheckoutCreated, CheckoutPaid, CheckoutCanceled, CheckoutExpired}
    ensures p.externalReference == NoReference || (forall i: nat :: !HasReference(s.payments, p.externalReference, i)) ==>
              Handle(s, p, now) == Commit(Recorded(s, p), None)
    ensures p.externalReference != NoReference && Shared(s.payments, p.externalReference) ==> Handle(s, p, now) == Raise
  {
    hide EventId, MarkProcessed, WritePayment, Pay, Cancel, Expire, PaymentKeys, Owned, OperationKeys, DeliveryKeys, AllDated;
    NewEventRecorded(s, p);
    var r := FindByReference(s.payments, p.externalReference);
    if r.Only? { assert HasReference(s.payments, p.externalReference, r.index); }
    if r.Several? {
      var i, j :| 0 <= i < j < |s.payments|
                  && s.payments[i].externalReference == p.externalReference == s.payments[j].externalReference;
      assert HasReference(s.payments, p.externalReference, i);
    }
  }

  // ---------------------------------------------------------------- charges

  /** The provisional row of subscription `k`: pending, under the subscription's id. */
  predicate Provisional(s: Store, k: nat, i: nat)
    requires k < |s.subscriptions|
  {
    i < |s.payments| && s.payments[i].providerPaymentId == s.subscriptions[k].gatewaySubscriptionId
    && s.payments[i].subscription == Some(k) && s.payments[i].status == Pending
  }

  /** A new invoice of subscription `k`, as a charge makes it. */
  predicate FirstSeen(s: Store, k: nat, p: Payload, a: PaymentRow, now: DateTime)
    requires k < |s.subscriptions|
  {
    var sub := s.subscriptions[k];
    && Untouched(a, now) && a.systemPaymentId == sub.systemSubscriptionId + ":" + p.paymentId
    && a.providerPaymentId == p.paymentId && a.providerPaymentId != ""
    && a.fromSystem == sub.fromSystem && a.gateway == sub.gateway
    && a.value == (if p.value != 0 then p.value else sub.value) && a.value > 0
    && a.paymentType == (if p.billingType.Some? then p.billingType.value else CreditCard)
    && a.subscription == Some(k) && a.checkoutLink == "" && a.webhookLink == "" && a.externalReference == NoReference
  }

  /** The row a charge works on, and its place: the invoice's, the provisional one
      under the invoice's id, or a new one. */
  ghost predicate Charged(s: Store, k: nat, p: Payload, i: nat, a: PaymentRow, now: DateTime)
    requires k < |s.subscriptions|
  {
    if HasId(s.payments, p.paymentId) then i < |s.payments| && a == s.payments[i] && a.providerPaymentId == p.paymentId
    else if exists j: nat :: Provisional(s, k, j) then
      Provisional(s, k, i) && a == s.payments[i].(providerPaymentId := p.paymentId) && p.paymentId != ""
    else
      && i == |s.payments| && FirstSeen(s, k, p, a, now)
      && forall j :: 0 <= j < |s.payments| ==>
           s.payments[j].systemPaymentId != a.systemPaymentId || s.payments[j].fromSystem != a.fromSystem
  }

  predicate SameKeys(a: PaymentRow, b: PaymentRow) {
    b.providerPaymentId == a.providerPaymentId && b.systemPaymentId == a.systemPaymentId && b.fromSystem == a.fromSystem
  }

  lemma ChargedIsTarget(s: Store, k: nat, p: Payload, i: nat, a: PaymentRow, now: DateTime)
    requires Good(s) && k < |s.subscriptions| && Charged(s, k, p, i, a, now)
    ensures Target(s, k, p, now) == Some((i, a)) && i <= |s.payments|
    ensures var located := Locate(s.payments, k, s.subscriptions[k].gatewaySubscriptionId, p.paymentId);
            if i == |s.payments| then located == None else located == Some((i, a))
    ensures forall b: PaymentRow :: SameKeys(a, b) ==>
              WritePayment(s.payments, i, b) == Some(if i == |s.payments| then s.payments + [b] else s.payments[i := b])
  {
    hide SubscriptionKeys, Owned, OperationKeys, DeliveryKeys, AllProcessed, AllDated;
    var gatewayId := s.subscriptions[k].gatewaySubscriptionId;
    if i < |s.payments| {
      FoundById(s.payments, p.paymentId, i);
      FoundById(s.payments, gatewayId, i);
    } else {
      var found := FindPayment(s.payments, gatewayId);
      assert found.Some? ==> !Provisional(s, k, found.value);
    }
  }

  /** A charge's commit: the invoice's row, the subscription extended if the date is
      to extend it, the event, and nothing else. */
  predicate ChargeCommitted(s: Store, p: Payload, t: Store, k: nat, i: nat, prolongs: bool, date: DateTime)
    requires IdOf(p).Some? && k < |s.subscriptions| && i <= |s.payments|
  {
    && i < |t.payments| && |t.subscriptions| == |s.subscriptions|
    && t == Recorded(s, p).(subscriptions := s.subscriptions[k := t.subscriptions[k]],
                            payments := if i == |s.payments| then s.payments + [t.payments[i]]
                                        else s.payments[i := t.payments[i]])
    && (if prolongs then ExtendedByPeriod(s.subscriptions[k], t.subscriptions[k], date)
        else t.subscriptions[k] == s.subscriptions[k])
  }

  lemma ExtendedMeans(sub: SubscriptionRow, date: DateTime)
    ensures Extended(sub, date).Some? <==> sub.status != Ended || sub.lastPaidDate == Some(date)
    ensures Extended(sub, date).Some? ==>
              if sub.lastPaidDate == Some(date) then Extended(sub, date).value == sub
              else ExtendedByPeriod(sub, Extended(sub, date).value, date)
    ensures Extended(sub, date).Some? ==> SameSubscription(sub, Extended(sub, date).value)
  {
    hide PeriodAfter, AddBillingPeriod, Latest;
    ExtendsByPeriod(sub, date);
  }

  lemma SameIdsWritten(subs: seq<SubscriptionRow>, k: nat, row: SubscriptionRow)
    requires SubscriptionKeys(subs) && k < |subs| && SameSubscription(subs[k], row)
    ensures WriteSubscription(subs, k, row) == Some(subs[k := row])
  {
  }

  /** PAYMENT_RECEIVED of a subscription: the invoice is paid and the subscription
      extended by a new date, or the charge is refused. */
  lemma ReceivedOutcome(s: Store, p: Payload, k: nat, i: nat, a: PaymentRow, now: DateTime)
    requires New(s, p) && p.event == PaymentReceived && p.subscription != ""
    requires k < |s.subscriptions| && s.subscriptions[k].gatewaySubscriptionId == p.subscription && Charged(s, k, p, i, a, now)
    ensures i <= |s.payments|
    ensures var sub, r := s.subscriptions[k], Handle(s, p, now);
            var date := if p.paymentDate.Some? then p.paymentDate else a.paidDate;
            var notice := Some(Notice(NotifyReceived, Some(i), Some(k)));
            if a.status == Paid then r == Commit(Recorded(s, p), notice)
            else if date.None? || a.status !in {Pending, Overdue, Confirmed} || Negative(p.netValue)
                    || (sub.status == Ended && sub.lastPaidDate != date) then r == Raise
            else r.Commit? && r.notice == notice
                 && ChargeCommitted(s, p, r.store, k, i, sub.lastPaidDate != date, date.value)
                 && MovedTo(a, r.store.payments[i], Paid, date, p.netValue, now)
  {
    hide HandleStandalone, HandleConfirmed, HandleDeleted, HandleLifecycle, HandleInactivated, HandleCheckout;
    hide EventId, MarkProcessed, Target, Locate, WritePayment, WriteSubscription, Extended, Charged, Valid, AllDated,
         ExtendedByPeriod;
    NewEventRecorded(s, p);
    GoodHasKeys(s);
    FoundByGatewayId(s.subscriptions, p.subscription, k);
    ChargedIsTarget(s, k, p, i, a, now);
    if a.status == Paid { StandingIsStored(s, k, p, i, a, now); }
    var date := if p.paymentDate.Some? then p.paymentDate else a.paidDate;
    if date.Some? {
      ExtendedMeans(s.subscriptions[k], date.value);
      var paid, sub := Pay(a, date, p.netValue, now), Extended(s.subscriptions[k], date.value);
      if paid.Some? { assert SameKeys(a, paid.value); }
      if sub.Some? { SameIdsWritten(s.subscriptions, k, sub.value); }
    }
  }

  lemma GoodHasKeys(s: Store)
    requires Good(s)
    ensures SubscriptionKeys(s.subscriptions) && PaymentKeys(s.payments)
  {
  }

  /** PAYMENT_CONFIRMED of a subscription: the invoice is confirmed, or stands if it
      was confirmed or paid, and on a card the subscription is extended by a new
      date; or the charge is refused. */
  lemma ConfirmedOutcome(s: Store, p: Payload, k: nat, i: nat, a: PaymentRow, now: DateTime)
    requires New(s, p) && p.event == PaymentConfirmed && p.subscription != ""
    requires k < |s.subscriptions| && s.subscriptions[k].gatewaySubscriptionId == p.subscription && Charged(s, k, p, i, a, now)
    ensures i <= |s.payments|
    ensures var sub, r := s.subscriptions[k], Handle(s, p, now);
            var date := if p.paymentDate.Some? then p.paymentDate else a.paidDate;
            var card, stands := a.paymentType == CreditCard, a.status in {Confirmed, Paid};
            if date.None? || (!stands && (a.status !in {Pending, Overdue} || Negative(p.netValue)))
               || (card && sub.status == Ended && sub.lastPaidDate != date) then r == Raise
            else r.Commit? && r.notice == Some(Notice(if card then NotifyReceived else NotifyStatusUpdated, Some(i), Some(k)))
                 && ChargeCommitted(s, p, r.store, k, i, card && sub.lastPaidDate != date, date.value)
                 && (if stands then r.store.payments[i] == a
                     else MovedTo(a, r.store.payments[i], Confirmed, date, p.netValue, now))
  {
    hide HandleStandalone, HandleReceived, HandleDeleted, HandleLifecycle, HandleInactivated, HandleCheckout;
    hide EventId, MarkProcessed, Target, Locate, WritePayment, WriteSubscription, Extended, Charged, Valid, AllDated,
         ExtendedByPeriod;
    NewEventRecorded(s, p);
    GoodHasKeys(s);
    FoundByGatewayId(s.subscriptions, p.subscription, k);
    ChargedIsTarget(s, k, p, i, a, now);
    if a.status in {Confirmed, Paid} { StandingIsStored(s, k, p, i, a, now); }
    var date := if p.paymentDate.Some? then p.paymentDate else a.paidDate;
    if date.Some? {
      ExtendedMeans(s.subscriptions[k], date.value);
      var confirmed, sub := Confirm(a, date, p.netValue, now), Extended(s.subscriptions[k], date.value);
      if confirmed.Some? { assert SameKeys(a, confirmed.value); }
      if sub.Some? { SameIdsWritten(s.subscriptions, k, sub.value); }
      SameIdsWritten(s.subscriptions, k, s.subscriptions[k]);
    }
  }

  lemma StandingIsStored(s: Store, k: nat, p: Payload, i: nat, a: PaymentRow, now: DateTime)
    requires k < |s.subscriptions| && Charged(s, k, p, i, a, now) && a.status in {Confirmed, Paid}
    ensures i < |s.payments| && a == s.payments[i]
    ensures s.payments[i := a] == s.payments && s.subscriptions[k := s.subscriptions[k]] == s.subscriptions
  {
  }

  /** So are charges of an invoice that has no row and can get none: without an id,
      without a value, or under a reference that another payment has. */
  lemma InvoiceRefused(s: Store, p: Payload, k: nat, now: DateTime)
    requires New(s, p) && p.event in {PaymentReceived, PaymentConfirmed} && p.subscription != ""
    requires k < |s.subscriptions| && s.subscriptions[k].gatewaySubscriptionId == p.subscription
    requires !HasId(s.payments, p.paymentId) && forall j: nat :: !Provisional(s, k, j)
    requires p.paymentId == "" || (if p.value != 0 then p.value else s.subscriptions[k].value) <= 0
             || exists j :: 0 <= j < |s.payments|
                  && s.payments[j].systemPaymentId == s.subscriptions[k].systemSubscriptionId + ":" + p.paymentId
                  && s.payments[j].fromSystem == s.subscriptions[k].fromSystem
    ensures Handle(s, p, now) == Raise
  {
    hide HandleStandalone, HandleDeleted, HandleLifecycle, HandleInactivated, HandleCheckout;
    hide EventId, MarkProcessed, WriteSubscription, Extended, OperationKeys, DeliveryKeys, Owned, AllDated;
    GoodHasKeys(s);
    FoundByGatewayId(s.subscriptions, p.subscription, k);
    var found := FindPayment(s.payments, s.subscriptions[k].gatewaySubscriptionId);
    assert found.Some? ==> !Provisional(s, k, found.value);
    assert Locate(s.payments, k, s.subscriptions[k].gatewaySubscriptionId, p.paymentId) == None;
  }

  /** Charges of an unknown subscription are refused. */
  lemma ChargeRefused(s: Store, p: Payload, now: DateTime)
    requires New(s, p) && p.event in {PaymentReceived, PaymentConfirmed} && p.subscription != "" && !Knows(s, p.subscription)
    ensures Handle(s, p, now) == Raise
  {
    hide EventId, PaymentKeys, Owned, OperationKeys, DeliveryKeys, AllDated;
  }

  // ---------------------------------------------------------------- the rest

  /** Without a subscription and without a payment, or unknown, an event is only
      recorded, or not even that. */
  lemma OtherOutcomes(s: Store, p: Payload, now: DateTime)
    requires New(s, p) && (p.paymentId == "" || p.subscription != "")
    ensures p.event == UnknownEvent ==> Handle(s, p, now) == Commit(Recorded(s, p), None)
    ensures p.event in {PaymentReceived, PaymentOverdue, PaymentRefunded, PaymentChargebackRequested} && p.subscription == "" ==>
              Handle(s, p, now) == Commit(Recorded(s, p), None)
    ensures p.event in {PaymentConfirmed, PaymentDeleted} && p.subscription == "" ==> Handle(s, p, now) == Skip
  {
    hide EventId, MarkProcessed, HandleStandalone, HandleReceived, HandleConfirmed, HandleDeleted, HandleLifecycle,
         HandleInactivated, HandleCheckout;
    NewEventRecorded(s, p);
  }
}
