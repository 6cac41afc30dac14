/** What a recorded delivery tells its consumer. */
module DeliveryLaws {
  import opened BillingCalendar
  import opened Entities
  import opened Storage
  import opened WebhookRules
  import opened RunLaws

  /** A notice about a payment alone, or about a subscription. */
  predicate AboutPayment(n: Notice) {
    n.subscription.None? && n.payment.Some?
  }

  /** Where a notice is to be sent; nowhere without a link. */
  function LinkOf(s: Store, n: Notice): string
    requires NoticeFits(s, n)
  {
    if n.subscription.Some? then s.subscriptions[n.subscription.value].webhookLink
    else if n.payment.Some? then s.payments[n.payment.value].webhookLink
    else ""
  }

  function DayPaid(p: PaymentRow): Option<Date> {
    match p.paidDate case Some(t) => Some(t.date) case None => None
  }

  /** A delivery that tells what a notice is about, as the store has it: a payment's
      status under its own reference, value, paid date and link; or a subscription's
      event with its expiry, and the paid date exactly for a received payment. */
  predicate Tells(s: Store, n: Notice, d: DeliveryRow)
    requires NoticeFits(s, n)
  {
    && d.targetUrl == LinkOf(s, n)
    && if AboutPayment(n) then
         var p := s.payments[n.payment.value];
         && d.key == PaymentNotice(n.payment.value, p.status, p.updatedAt)
         && d.content == PaymentContent(p.systemPaymentId, p.value, DayPaid(p), p.checkoutLink)
       else
         && n.subscription.Some?
         && var sub := s.subscriptions[n.subscription.value];
            && d.key == SubscriptionNotice(n.event, n.subscription.value, n.payment)
            && d.content.SubscriptionContent? && d.content.systemSubscriptionId == sub.systemSubscriptionId
            && d.content.expiresOn == sub.expiresAt.date
            && (n.event != NotifyReceived ==> d.content.paidOn == None)
            && (n.event == NotifyReceived ==>
                  n.payment.Some? && d.content.paidOn.Some? && d.content.paidOn == DayPaid(s.payments[n.payment.value]))
  }

  /** The key under which a notice is recorded once. */
  predicate IsRecorded(s: Store, n: Notice)
    requires NoticeFits(s, n)
  {
    if AboutPayment(n) then
      var p := s.payments[n.payment.value];
      HasDelivery(s.deliveries, PaymentNotice(n.payment.value, p.status, p.updatedAt))
    else n.subscription.Some? && HasDelivery(s.deliveries, SubscriptionNotice(n.event, n.subscription.value, n.payment))
  }

  /** The notice told once: one more delivery, which tells it, unless nobody listens
      or it was recorded before; nothing else changes. */
  predicate ToldOnce(s: Store, n: Notice, t: Store)
    requires NoticeFits(s, n)
  {
    if LinkOf(s, n) == "" || IsRecorded(s, n) then t == s
    else
      && |t.deliveries| == |s.deliveries| + 1 && t.deliveries[..|s.deliveries|] == s.deliveries
      && t == s.(deliveries := t.deliveries) && Tells(s, n, t.deliveries[|s.deliveries|])
  }

  /** Every emitter records through this. */
  lemma RecordTellsOnce(s: Store, n: Notice)
    requires BuildsIn(s, n)
    ensures ToldOnce(s, n, Record(s, BuildDelivery(s, n)))
  {
  }
}
