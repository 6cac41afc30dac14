/** `ProcessWebhookService` over the unit of work, proved against the rules. */
module WebhookService {
  import opened BillingCalendar
  import opened Entities
  import opened RowMeanings
  import opened EntityObjects
  import opened Storage
  import opened WebhookRules

  /** `NotCommitted` is an exception of the commit itself. */
  datatype Answer = Raised | NotCommitted | Returned(notice: Option<Notice>)

  /** The answer and the committed state that a reply stands for; a commit may
      fail, and one that lands inserts no event that a rival has committed. */
  ghost predicate Matches(reply: Reply, before: Store, after: Store, answer: Answer, rivals: set<string>) {
    match reply
    case Commit(store, notice) =>
      (answer == Returned(notice) && after == store && InsertsFreely(before, after, rivals))
      || (answer == NotCommitted && after == before)
    case Raise => answer == Raised && after == before
    case Skip => answer == Returned(None) && after == before
  }

  lemma RewriteSubscription(s: Store, k: nat, row: SubscriptionRow)
    requires Valid(s) && k < |s.subscriptions|
    requires row.gatewaySubscriptionId == s.subscriptions[k].gatewaySubscriptionId
    requires row.systemSubscriptionId == s.subscriptions[k].systemSubscriptionId
    requires row.fromSystem == s.subscriptions[k].fromSystem
    ensures WriteSubscription(s.subscriptions, k, row) == Some(s.subscriptions[k := row])
  {
  }

  lemma PendingIsConfirmed(p: PaymentRow, date: Option<DateTime>, net: Option<int>, now: DateTime)
    ensures var r := Confirm(p, date, net, now); r.Some? && p.status == Pending ==> r.value.status == Confirmed
    ensures var r := Confirm(p, date, net, now); r.Some? ==> r.value.paymentType == p.paymentType
    ensures ApplyGatewayStatus(p, SaysConfirmed, date, net, now) == Confirm(p, date, net, now)
  {
  }

  class ProcessWebhookService {
    const uow: UnitOfWork

    constructor (uow: UnitOfWork)
      ensures this.uow == uow
    {
      this.uow := uow;
    }

    /** `_mark_event_processed`, and the return after it. */
    method MarkEventProcessed(id: string, event: EventType, notice: Option<Notice>) returns (answer: Answer)
      requires uow.working.events == uow.committed.events
      modifies uow`committed, uow`working
      ensures answer == Returned(notice) || answer == NotCommitted
      ensures answer == NotCommitted ==> uow.committed == old(uow.committed) && (uow.mayFail || id in uow.rivals)
      ensures answer == Returned(notice) ==>
                && uow.working == uow.committed == MarkProcessed(old(uow.working), id, event)
                && InsertsFreely(old(uow.committed), uow.committed, uow.rivals)
    {
      var row := if id in uow.working.events then uow.working.events[id].(processed := true) else WebhookEvent(event, true);
      uow.working := uow.working.(events := uow.working.events[id := row]);
      var landed := uow.TryCommit();
      answer := if landed then Returned(notice) else NotCommitted;
    }

    method FindByIdOrReference(paymentId: string, reference: ExternalReference) returns (ok: bool, payment: Payment?)
      ensures var ps := uow.working.payments;
              var byId := if paymentId == "" then None else FindPayment(ps, paymentId);
              var found := if byId.Some? then Only(byId.value)
                           else if reference == NoReference then Missing else FindByReference(ps, reference);
              match found
              case Several => !ok
              case Missing => ok && payment == null
              case Only(i) => ok && payment != null && fresh(payment) && payment.id == Some(i) && payment.Row() == ps[i]
    {
      payment := null;
      if paymentId != "" { payment := uow.GetPaymentByProviderId(paymentId); }
      if payment == null && reference != NoReference {
        var found := FindByReference(uow.working.payments, reference);
        if found.Several? { return false, null; }
        if found.Only? { payment := uow.GetPayment(found.index); }
      }
      ok := true;
    }

    method ProcessStandalone(p: Payload, id: string, now: DateTime) returns (answer: Answer)
      requires uow.working == uow.committed && p.paymentId != ""
      modifies uow`committed, uow`working
      ensures Matches(HandleStandalone(old(uow.committed), p, id, now), old(uow.committed), uow.committed, answer, uow.rivals)
      ensures answer.Returned? ==> uow.working == uow.committed
      ensures answer == NotCommitted ==> uow.mayFail || id in uow.rivals
    {
      var ok, payment := FindByIdOrReference(p.paymentId, p.externalReference);
      if !ok { return Raised; }
      if payment == null {
        answer := MarkEventProcessed(id, p.event, None);
        return;
      }
      payment.providerPaymentId := p.paymentId;
      var applied, changed := payment.ApplyGatewayStatus(StatusOf(p), DayOf(p.paymentDate), p.netValue, now);
      if !applied { return Raised; }
      if changed {
        var saved, _ := uow.SavePayment(payment);
        if !saved { return Raised; }
      }
      answer := MarkEventProcessed(id, p.event, if changed then Some(Notice(NotifyStatusUpdated, payment.id, None)) else None);
    }

    /** `_find_subscription_payment`. */
    method FindSubscriptionPayment(sub: Subscription, paymentId: string) returns (payment: Payment?)
      requires sub.id.Some?
      ensures var r := Locate(uow.working.payments, sub.id.value, sub.gatewaySubscriptionId, paymentId);
              if r.None? then payment == null
              else payment != null && fresh(payment) && payment.id == Some(r.value.0) && payment.Row() == r.value.1
    {
      payment := uow.GetPaymentByProviderId(paymentId);
      if payment != null { return; }
      payment := uow.GetPaymentByProviderId(sub.gatewaySubscriptionId);
      if payment != null && payment.subscription == sub.id && payment.status == Pending {
        payment.providerPaymentId := paymentId;
        return;
      }
      payment := null;
    }

    /** The payment found, or the new invoice of a subscription. */
    method FindOrCreate(sub: Subscription, found: Payment?, p: Payload, now: DateTime) returns (payment: Payment?)
      requires sub.id.Some?
      ensures found != null ==> payment == found
      ensures found == null ==>
        var invoice := NewInvoice(sub.systemSubscriptionId + ":" + p.paymentId, p.paymentId, sub.Row(), sub.id.value,
                                  if p.value != 0 then p.value else sub.value, Or(p.billingType, CreditCard), "", now);
        if invoice.None? then payment == null
        else payment != null && fresh(payment) && payment.id == None && payment.Row() == invoice.value
             && payment.status == Pending
    {
      if found != null { return found; }
      var paymentType := if p.billingType.Some? then p.billingType.value else CreditCard;
      var value := if p.value != 0 then p.value else sub.value;
      var invoice := NewInvoice(sub.systemSubscriptionId + ":" + p.paymentId, p.paymentId, sub.Row(), sub.id.value,
                                value, paymentType, "", now);
      if invoice.None? { return null; }
      payment := new Payment(invoice.value, None);
    }

    /** Extends the subscription unless this payment date was its last one. */
    method ExtendOnce(sub: Subscription, date: DateTime) returns (ok: bool, updated: bool)
      modifies sub
      ensures var r := Extended(old(sub.Row()), date);
              && ok == r.Some? && sub.Row() == (if ok then r.value else old(sub.Row()))
              && (ok ==> updated == (r.value != old(sub.Row())))
    {
      ok, updated := true, false;
      if sub.lastPaidDate != Some(date) {
        ok := sub.MarkAsPaid(date);
        updated := true;
      }
    }

    method ExtendIfCard(sub: Subscription, isCreditCard: bool, date: DateTime) returns (ok: bool, updated: bool)
      modifies sub
      ensures var r := if isCreditCard then Extended(old(sub.Row()), date) else Some(old(sub.Row()));
              && ok == r.Some? && sub.Row() == (if ok then r.value else old(sub.Row()))
              && (ok ==> updated == (r.value != old(sub.Row())))
    {
      ok, updated := true, false;
      if isCreditCard { ok, updated := ExtendOnce(sub, date); }
    }

    /** The payment confirmed, and the subscription extended if it is paid by card. */
    method ConfirmAndExtend(payment: Payment, sub: Subscription, isCreditCard: bool, date: DateTime, net: Option<int>,
                            now: DateTime)
      returns (ok: bool, changed: bool, subUpdated: bool)
      modifies payment, sub
      ensures var q := Confirm(old(payment.Row()), Some(date), net, now);
              var r := if isCreditCard then Extended(old(sub.Row()), date) else Some(old(sub.Row()));
              && ok == (q.Some? && r.Some?)
              && (q.Some? ==> q.value.paymentType == old(payment.paymentType))
              && (ok ==> payment.Row() == q.value && changed == (q.value.status != old(payment.status)))
              && (ok ==> sub.Row() == r.value && subUpdated == (r.value != old(sub.Row())))
      ensures ok && old(payment.status) == Pending ==> changed
    {
      hide Confirm, Extended, Follows, ExtendedByPeriod, ApplyGatewayStatus;
      subUpdated := false;
      PendingIsConfirmed(payment.Row(), Some(date), net, now);
      ok, changed := payment.ApplyGatewayStatus(SaysConfirmed, Some(date), net, now);
      if ok { ok, subUpdated := ExtendIfCard(sub, isCreditCard, date); }
    }

    method SaveBoth(sub: Subscription, subUpdated: bool, payment: Payment) returns (ok: bool, paymentId: nat)
      requires Valid(uow.working) && sub.id.Some? && sub.id.value < |uow.working.subscriptions|
      requires payment.id.Some? ==> payment.id.value < |uow.working.payments|
      requires var stored := uow.working.subscriptions[sub.id.value];
               && sub.gatewaySubscriptionId == stored.gatewaySubscriptionId
               && sub.systemSubscriptionId == stored.systemSubscriptionId && sub.fromSystem == stored.fromSystem
               && (!subUpdated ==> sub.Row() == stored)
      modifies uow`working
      ensures paymentId == Or(payment.id, |old(uow.working).payments|)
      ensures var w := WriteBoth(old(uow.working), sub.id.value, sub.Row(), paymentId, payment.Row());
              ok == w.Some? && (ok ==> uow.working == w.value)
      ensures ok ==> uow.working.events == old(uow.working).events
    {
      RewriteSubscription(uow.working, sub.id.value, sub.Row());
      if subUpdated {
        var saved, _ := uow.SaveSubscription(sub);
      }
      ok, paymentId := uow.SavePayment(payment);
    }

    /** Both rows saved, and the event marked with the notice they call for. */
    method SaveAndMark(sub: Subscription, subUpdated: bool, payment: Payment, id: string, event: EventType,
                       notify: InternalEvent)
      returns (answer: Answer)
      requires Valid(uow.working) && uow.working == uow.committed && sub.id.Some? && sub.id.value < |uow.working.subscriptions|
      requires payment.id.Some? ==> payment.id.value < |uow.working.payments|
      requires var stored := uow.working.subscriptions[sub.id.value];
               && sub.gatewaySubscriptionId == stored.gatewaySubscriptionId
               && sub.systemSubscriptionId == stored.systemSubscriptionId && sub.fromSystem == stored.fromSystem
               && (!subUpdated ==> sub.Row() == stored)
      modifies uow`committed, uow`working
      ensures var i := Or(payment.id, |old(uow.working).payments|);
              var w := WriteBoth(old(uow.working), sub.id.value, sub.Row(), i, payment.Row());
              Matches(if w.None? then Reply.Raise
                      else Commit(MarkProcessed(w.value, id, event), Some(Notice(notify, Some(i), sub.id))),
                      old(uow.committed), uow.committed, answer, uow.rivals)
      ensures answer.Returned? ==> uow.working == uow.committed
      ensures answer == NotCommitted ==> uow.mayFail || id in uow.rivals
    {
      hide Valid, WriteBoth, MarkProcessed, InsertsFreely;
      var saved, paymentId := SaveBoth(sub, subUpdated, payment);
      if !saved { return Raised; }
      answer := MarkEventProcessed(id, event, Some(Notice(notify, Some(paymentId), sub.id)));
    }

    method ProcessReceived(p: Payload, id: string, now: DateTime) returns (answer: Answer)
      requires Valid(uow.committed) && uow.working == uow.committed
      modifies uow`committed, uow`working
      ensures Matches(HandleReceived(old(uow.committed), p, id, now), old(uow.committed), uow.committed, answer, uow.rivals)
      ensures answer.Returned? ==> uow.working == uow.committed
      ensures answer == NotCommitted ==> uow.mayFail || id in uow.rivals
    {
      hide Valid, Locate, NewInvoice, Pay, Extended, WriteBoth, MarkProcessed, InsertsFreely, Follows, ExtendedByPeriod;
      var sub := uow.GetSubscriptionByProviderId(p.subscription);
      if sub == null { return Raised; }
      var payment := FindSubscriptionPayment(sub, p.paymentId);
      if payment != null && payment.status == Paid {
        answer := MarkEventProcessed(id, p.event, Some(Notice(NotifyReceived, payment.id, sub.id)));
        return;
      }
      payment := FindOrCreate(sub, payment, p, now);
      if payment == null { return Raised; }
      var date := if p.paymentDate.Some? then p.paymentDate else payment.paidDate;
      if date.None? { return Raised; }
      var paid := payment.MarkAsPaid(date, p.netValue, now);
      if !paid { return Raised; }
      var extended, subUpdated := ExtendOnce(sub, date.value);
      if !extended { return Raised; }
      answer := SaveAndMark(sub, subUpdated, payment, id, p.event, NotifyReceived);
    }

    method ProcessConfirmed(p: Payload, id: string, now: DateTime) returns (answer: Answer)
      requires Valid(uow.committed) && uow.working == uow.committed
      modifies uow`committed, uow`working
      ensures Matches(HandleConfirmed(old(uow.committed), p, id, now), old(uow.committed), uow.committed, answer, uow.rivals)
      ensures answer.Returned? ==> uow.working == uow.committed
      ensures answer == NotCommitted ==> uow.mayFail || id in uow.rivals
    {
      hide Valid, Locate, Extended, WriteBoth, MarkProcessed, NewInvoice, Confirm, InsertsFreely;
      var sub := uow.GetSubscriptionByProviderId(p.subscription);
      if sub == null { return Raised; }
      var payment := FindSubscriptionPayment(sub, p.paymentId);
      payment := FindOrCreate(sub, payment, p, now);
      if payment == null { return Raised; }
      var date := if p.paymentDate.Some? then p.paymentDate else payment.paidDate;
      if date.None? { return Raised; }
      var isCreditCard := payment.paymentType == CreditCard;
      var ok, changed, subUpdated := ConfirmAndExtend(payment, sub, isCreditCard, date.value, p.netValue, now);
      if !ok { return Raised; }
      var event := if isCreditCard then NotifyReceived else NotifyStatusUpdated;
      if changed || subUpdated {
        answer := SaveAndMark(sub, subUpdated, payment, id, p.event, event);
      } else {
        answer := MarkEventProcessed(id, p.event, Some(Notice(event, payment.id, sub.id)));
      }
    }

    method ProcessDeleted(p: Payload, id: string, now: DateTime) returns (answer: Answer)
      requires uow.working == uow.committed
      modifies uow`committed, uow`working
      ensures Matches(HandleDeleted(old(uow.committed), p, id, now), old(uow.committed), uow.committed, answer, uow.rivals)
      ensures answer.Returned? ==> uow.working == uow.committed
      ensures answer == NotCommitted ==> uow.mayFail || id in uow.rivals
    {
      var payment := uow.GetPaymentByProviderId(p.paymentId);
      if payment != null && payment.status in {Pending, Overdue, Confirmed} {
        var canceled := payment.MarkAsCanceled(now);
        var saved, _ := uow.SavePayment(payment);
        if !saved { return Raised; }
      }
      answer := MarkEventProcessed(id, p.event, None);
    }

    method ProcessLifecycle(p: Payload, id: string, now: DateTime) returns (answer: Answer)
      requires uow.working == uow.committed
      requires p.event in {PaymentOverdue, PaymentRefunded, PaymentChargebackRequested}
      modifies uow`committed, uow`working
      ensures Matches(HandleLifecycle(old(uow.committed), p, id, now), old(uow.committed), uow.committed, answer, uow.rivals)
      ensures answer.Returned? ==> uow.working == uow.committed
      ensures answer == NotCommitted ==> uow.mayFail || id in uow.rivals
    {
      var sub := uow.GetSubscriptionByProviderId(p.subscription);
      if sub == null { return Raised; }
      var payment: Payment? := null;
      if p.paymentId != "" { payment := uow.GetPaymentByProviderId(p.paymentId); }
      if payment == null {
        answer := MarkEventProcessed(id, p.event, None);
        return;
      }
      if StatusOf(p) == SaysOverdue && payment.status in {Paid, Canceled, Refunded, Failed} {
        answer := MarkEventProcessed(id, p.event, None);
        return;
      }
      var applied, changed := payment.ApplyGatewayStatus(StatusOf(p), DayOf(p.paymentDate), p.netValue, now);
      if !applied { return Raised; }
      if changed {
        var saved, _ := uow.SavePayment(payment);
        if !saved { return Raised; }
      }
      answer := MarkEventProcessed(id, p.event,
                                   if changed then Some(Notice(LifecycleNotice(p.event), payment.id, sub.id)) else None);
    }

    method ProcessInactivated(p: Payload, id: string, now: DateTime) returns (answer: Answer)
      requires uow.working == uow.committed
      modifies uow`committed, uow`working
      ensures Matches(HandleInactivated(old(uow.committed), p, id, now), old(uow.committed), uow.committed, answer, uow.rivals)
      ensures answer.Returned? ==> uow.working == uow.committed
      ensures answer == NotCommitted ==> uow.mayFail || id in uow.rivals
    {
      if p.subscription == "" { return Raised; }
      var sub := uow.GetSubscriptionByProviderId(p.subscription);
      if sub == null { return Raised; }
      if sub.status != Ended {
        sub.Cancel(None, "", "", now);
        var saved, _ := uow.SaveSubscription(sub);
        if !saved { return Raised; }
      }
      answer := MarkEventProcessed(id, p.event, Some(Notice(NotifyInactivated, None, sub.id)));
    }

    method ProcessCheckout(p: Payload, id: string, now: DateTime) returns (answer: Answer)
      requires uow.working == uow.committed && IsCheckoutEvent(p.event)
      modifies uow`committed, uow`working
      ensures Matches(HandleCheckout(old(uow.committed), p, id, now), old(uow.committed), uow.committed, answer, uow.rivals)
      ensures answer.Returned? ==> uow.working == uow.committed
      ensures answer == NotCommitted ==> uow.mayFail || id in uow.rivals
    {
      var ok, payment := FindByIdOrReference(p.paymentId, p.externalReference);
      if !ok { return Raised; }
      if payment == null {
        answer := MarkEventProcessed(id, p.event, None);
        return;
      }
      if p.event == CheckoutCreated {
        answer := MarkEventProcessed(id, p.event, None);
        return;
      }
      var target := match p.event case CheckoutPaid => Paid case CheckoutCanceled => Canceled case _ => Expired;
      if payment.status == target {
        answer := MarkEventProcessed(id, p.event, None);
        return;
      }
      if payment.status in {Confirmed, Paid, Canceled, Expired, Refunded, Failed} {
        answer := MarkEventProcessed(id, p.event, None);
        return;
      }
      var moved: bool;
      if p.event == CheckoutPaid {
        moved := payment.MarkAsPaid(p.paymentDate, p.netValue, now);
      } else if p.event == CheckoutCanceled {
        moved := payment.MarkAsCanceled(now);
      } else {
        moved := payment.MarkAsExpired(now);
      }
      if !moved { return Raised; }
      var saved, _ := uow.SavePayment(payment);
      if !saved { return Raised; }
      answer := MarkEventProcessed(id, p.event, Some(Notice(NotifyStatusUpdated, payment.id, None)));
    }

    /** One webhook, in one transaction: it commits what the rule says, or nothing. */
    method Execute(p: Payload, now: DateTime) returns (answer: Answer)
      requires Valid(uow.committed) && uow.working == uow.committed
      modifies uow`committed, uow`working
      ensures Matches(Handle(old(uow.committed), p, now), old(uow.committed), uow.committed, answer, uow.rivals)
      ensures answer.Returned? ==> uow.working == uow.committed
      ensures answer == NotCommitted ==> uow.mayFail || (IdOf(p).Some? && IdOf(p).value in uow.rivals)
    {
      var eventId := IdOf(p);
      if eventId.None? { return Raised; }
      var id := eventId.value;
      if id in uow.working.events && uow.working.events[id].processed { return Returned(None); }
      if IsCheckoutEvent(p.event) { answer := ProcessCheckout(p, id, now); return; }
      if p.paymentId != "" && p.subscription == "" { answer := ProcessStandalone(p, id, now); return; }
      if p.event in {PaymentOverdue, PaymentRefunded, PaymentChargebackRequested} && p.subscription != "" {
        answer := ProcessLifecycle(p, id, now);
        return;
      }
      if p.event in {UnknownEvent, PaymentOverdue, PaymentChargebackRequested, PaymentRefunded} {
        answer := MarkEventProcessed(id, p.event, None);
        return;
      }
      if p.event == PaymentReceived && p.subscription == "" {
        answer := MarkEventProcessed(id, p.event, None);
        return;
      }
      if p.event == PaymentReceived { answer := ProcessReceived(p, id, now); return; }
      if p.event == PaymentConfirmed && p.subscription != "" { answer := ProcessConfirmed(p, id, now); return; }
      if p.event == PaymentDeleted && p.subscription != "" { answer := ProcessDeleted(p, id, now); return; }
      if p.event in {SubscriptionDeleted, SubscriptionInactivated} { answer := ProcessInactivated(p, id, now); return; }
      return Returned(None);
    }
  }

  /** Two sessions that read one state, each with a webhook of its own, one
      committing after the other: if the event is the same and new, one at most
      commits it. */
  method OneOfTwoCommits(a: UnitOfWork, b: UnitOfWork, p: Payload, q: Payload, now: DateTime) returns (x: Answer, y: Answer)
    requires a != b && Valid(a.committed) && a.working == a.committed == b.committed == b.working
    modifies a, b
    ensures Matches(Handle(old(a.committed), p, now), old(a.committed), a.committed, x, old(a.rivals))
    ensures Matches(Handle(old(b.committed), q, now), old(b.committed), b.committed, y, b.rivals)
    ensures old(b.rivals) <= b.rivals && a.rivals == old(a.rivals)
    ensures IdOf(p).Some? && IdOf(q) == IdOf(p) && IdOf(p).value !in old(a.committed).events ==>
              IdOf(p).value !in a.committed.events || IdOf(p).value !in b.committed.events
  {
    hide Handle, Valid, IdOf;
    var first := new ProcessWebhookService(a);
    var second := new ProcessWebhookService(b);
    x := first.Execute(p, now);
    b.rivals := b.rivals + (set id | id in a.committed.events && id !in b.committed.events);
    y := second.Execute(q, now);
  }
}
