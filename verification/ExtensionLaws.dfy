/** When the webhooks of a charge extend a subscription, whatever commits between
    them. */
module ExtensionLaws {
  import opened BillingCalendar
  import opened Entities
  import opened RowMeanings
  import opened Storage
  import opened EventIds
  import opened WebhookRules
  import opened Transactions
  import opened TransactionLaws
  import opened RunLaws
  import opened OperationLaws
  import opened ReorderLaws

  /** The commit moves the expiry of subscription `k`. */
  predicate Extends(s: Store, t: Transaction, k: nat) {
    k < |s.subscriptions| && k < |Apply(s, t).subscriptions|
    && Before(s.subscriptions[k].expiresAt, Apply(s, t).subscriptions[k].expiresAt)
  }

  /** The payment date of the last extension that a run commits, if it commits one. */
  function LastExtension(s: Store, ts: seq<Transaction>, k: nat): Option<DateTime>
    decreases |ts|
  {
    if ts == [] then None
    else
      var next := Apply(s, ts[0]);
      var later := LastExtension(next, ts[1..], k);
      if later.None? && Extends(s, ts[0], k) then next.subscriptions[k].lastPaidDate else later
  }

  lemma OneExtension(s: Store, t: Transaction, k: nat)
    requires Good(s) && RenewsOwnRow(s, t) && k < |s.subscriptions|
    ensures var next := Apply(s, t);
            && Good(next) && k < |next.subscriptions|
            && (if Extends(s, t, k) then next.subscriptions[k].lastPaidDate.Some?
                else next.subscriptions[k].lastPaidDate == s.subscriptions[k].lastPaidDate)
  {
    hide Good, Apply;
    TransactionKeepsRows(s, t);
    assert SubscriptionStep(s.subscriptions[k], Apply(s, t).subscriptions[k]);
  }

  /** The last paid date is that of the last extension. */
  lemma {:induction false} LastDateIsLastExtensions(s: Store, ts: seq<Transaction>, k: nat)
    requires Good(s) && RenewalsOwn(s, ts) && k < |s.subscriptions|
    ensures k < |Run(s, ts).subscriptions|
    ensures var last := LastExtension(s, ts, k);
            Run(s, ts).subscriptions[k].lastPaidDate == if last.Some? then last else s.subscriptions[k].lastPaidDate
    decreases |ts|
  {
    hide Good, Apply, Extends;
    if ts != [] {
      OneExtension(s, ts[0], k);
      LastDateIsLastExtensions(Apply(s, ts[0]), ts[1..], k);
    }
  }

  /** The charge's other webhook, after any run of commits: it extends exactly when
      the last extension since, or else the first webhook, has another date, and
      it is not the RECEIVED of a payment already paid. */
  lemma SecondExtendsExactly(s: Store, p: Payload, t: DateTime, ts: seq<Transaction>, q: Payload, u: DateTime)
    requires Good(s) && FreshCharge(s, p) && OnCard(s, p, t) && p.paymentDate.Some? && Handle(s, p, t).Commit?
    requires PlaceOf(s, p, t).pair.payment.status != Paid && OneInvoice(p, q) && q.paymentDate.Some?
    requires RenewalsOwn(After(s, p, t), ts)
    requires var between := Run(After(s, p, t), ts);
             FreshCharge(between, q) && OnCard(between, q, u) && Handle(between, q, u).Commit?
    ensures var k := PlaceOf(s, p, t).k;
            var between := Run(After(s, p, t), ts);
            var after := After(between, q, u).subscriptions;
            var last := LastExtension(After(s, p, t), ts, k);
            && PlaceOf(between, q, u).k == k && k < |between.subscriptions| && k < |after|
            && (if Before(between.subscriptions[k].expiresAt, after[k].expiresAt)
                then ExtendedByPeriod(between.subscriptions[k], after[k], q.paymentDate.value)
                else after[k] == between.subscriptions[k])
            && (Before(between.subscriptions[k].expiresAt, after[k].expiresAt) <==>
                  && q.paymentDate != (if last.Some? then last else p.paymentDate)
                  && !(q.event == PaymentReceived && PlaceOf(between, q, u).pair.payment.status == Paid))
  {
    hide EventId, PairRule, Target, Handle, CanWrite, Good, Before, After, Run, RenewalsOwn, ExtendedByPeriod;
    var k, first := PlaceOf(s, p, t).k, After(s, p, t);
    FirstSetsDate(s, p, t);
    LastDateIsLastExtensions(first, ts, k);
    SameSubscriptionFound(s, p, t, ts, q, u);
    CommitExtendsExactly(Run(first, ts), q, u);
    PlaceIsStored(Run(first, ts), q, u);
  }

  lemma FirstSetsDate(s: Store, p: Payload, t: DateTime)
    requires Good(s) && FreshCharge(s, p) && OnCard(s, p, t) && p.paymentDate.Some? && Handle(s, p, t).Commit?
    requires PlaceOf(s, p, t).pair.payment.status != Paid
    ensures var k, after := PlaceOf(s, p, t).k, After(s, p, t);
            Good(after) && k < |after.subscriptions| && after.subscriptions[k].lastPaidDate == p.paymentDate
  {
    hide EventId, PairRule, Target, Handle, CanWrite, Valid, After;
    OneWebhook(s, p, t);
    WebhookKeeps(s, p, t);
    PairExtendsExactly(PlaceOf(s, p, t).pair, p, t);
  }

  /** The subscription is found in its place, after any run. */
  lemma SameSubscriptionFound(s: Store, p: Payload, t: DateTime, ts: seq<Transaction>, q: Payload, u: DateTime)
    requires Good(s) && PlaceOf(s, p, t).Place? && q.subscription == p.subscription && RenewalsOwn(After(s, p, t), ts)
    requires PlaceOf(Run(After(s, p, t), ts), q, u).Place?
    ensures PlaceOf(Run(After(s, p, t), ts), q, u).k == PlaceOf(s, p, t).k
    ensures Good(Run(After(s, p, t), ts))
  {
    hide Target, After, AllDated, PaymentKeys, PaymentsEvolve, Handle;
    var k, first := PlaceOf(s, p, t).k, After(s, p, t);
    WebhookKeeps(s, p, t);
    RunKeepsRows(first, ts);
    assert SubscriptionStep(s.subscriptions[k], first.subscriptions[k]);
    assert SubscriptionCourse(first.subscriptions[k], Run(first, ts).subscriptions[k]);
  }

  // ---------------------------------------------------------------- one charge extends twice

  function Day(month: int, day: int): DateTime
    requires 1 <= month <= 12 && 1 <= day <= 28
  {
    DateTime(Date(2024, month, day), 0)
  }

  /** An active monthly subscription, with no payment yet. */
  function Subscribed(): Store {
    Store([], [SubscriptionRow("s", "sub_1", Marketfy, Asaas, Monthly, 100, Active, None, Day(1, 1), None, None, "", "", "")],
          [], map[], [])
  }

  function Charge(event: EventType, source: string, invoice: string, date: DateTime): Payload {
    Payload(Asaas, event, source, invoice, "sub_1", None, 100, None, Some(date), NoReference, Some(CreditCard))
  }

  lemma ChargeIds(d: EventType, e: EventType, a: string, b: string, i: string, j: string, t: DateTime, u: DateTime)
    requires a != "" && b != "" && (a != b || d != e)
    ensures IdOf(Charge(d, a, i, t)).Some? && IdOf(Charge(e, b, j, u)).Some?
    ensures IdOf(Charge(d, a, i, t)) != IdOf(Charge(e, b, j, u))
  {
    hide EventName, ProviderName;
    assert PlainSubscription("sub_1") by { assert "sub_1"[3] != PLACEHOLDER[3]; }
    if IdOf(Charge(d, a, i, t)) == IdOf(Charge(e, b, j, u)) {
      EventIdsAreInjective(Asaas, d, a, i, "sub_1", Asaas, e, b, j, "sub_1");
    }
  }

  /** The row of a new invoice, confirmed. */
  predicate ConfirmedRow(row: PaymentRow, invoice: string, date: DateTime) {
    && row.providerPaymentId == invoice && row.systemPaymentId == "s" + ":" + invoice && row.fromSystem == Marketfy
    && row.status == Confirmed && row.paymentType == CreditCard && row.paidDate == Some(date) && row.subscription == Some(0)
  }

  /** The one subscription, as active as when it began. */
  predicate StillActive(s: Store) {
    |s.subscriptions| == 1 && s.subscriptions[0].gatewaySubscriptionId == "sub_1" && s.subscriptions[0].status == Active
    && s.subscriptions[0].systemSubscriptionId == "s" && s.subscriptions[0].fromSystem == Marketfy
  }

  /** A CONFIRMED of an invoice that has no row yet. */
  lemma NewInvoiceCommits(s: Store, source: string, invoice: string, date: DateTime, now: DateTime)
    requires Good(s) && StillActive(s) && invoice != "" && source != ""
    requires forall i :: 0 <= i < |s.payments| ==>
               && s.payments[i].providerPaymentId != invoice && s.payments[i].providerPaymentId != "sub_1"
               && s.payments[i].systemPaymentId != "s" + ":" + invoice
    requires IdOf(Charge(PaymentConfirmed, source, invoice, date)).Some?
    requires IdOf(Charge(PaymentConfirmed, source, invoice, date)).value !in s.events
    ensures var p := Charge(PaymentConfirmed, source, invoice, date);
            var after := After(s, p, now);
            && FreshCharge(s, p) && OnCard(s, p, now) && Handle(s, p, now).Commit?
            && PlaceOf(s, p, now).k == 0 && PlaceOf(s, p, now).pair.payment.status == Pending
            && Good(after) && StillActive(after)
            && |after.payments| == |s.payments| + 1 && after.payments[..|s.payments|] == s.payments
            && ConfirmedRow(after.payments[|s.payments|], invoice, date)
            && after.subscriptions[0].lastPaidDate == Some(date)
            && after.events.Keys == s.events.Keys + {IdOf(p).value}
            && (s.subscriptions[0].lastPaidDate != Some(date) ==>
                  Before(s.subscriptions[0].expiresAt, after.subscriptions[0].expiresAt))
  {
    hide EventId, Handle, After, AddBillingPeriod, Latest, Valid, Before, ExtendedByPeriod;
    var p := Charge(PaymentConfirmed, source, invoice, date);
    assert s.subscriptions[0].systemSubscriptionId + ":" + invoice == "s" + ":" + invoice;
    assert FindSubscription(s.subscriptions, "sub_1") == Some(0);
    OneWebhook(s, p, now);
    GoodAfter(s, p, now);
    if s.subscriptions[0].lastPaidDate != Some(date) { NewDateExtends(s, p, date, now); }
  }

  lemma GoodAfter(s: Store, p: Payload, now: DateTime)
    requires Good(s)
    ensures Good(After(s, p, now))
  {
    hide Good, After;
    WebhookKeeps(s, p, now);
  }

  lemma NewDateExtends(s: Store, p: Payload, date: DateTime, now: DateTime)
    requires Good(s) && |s.subscriptions| == |After(s, p, now).subscriptions| == 1
    requires s.subscriptions[0].lastPaidDate != After(s, p, now).subscriptions[0].lastPaidDate == Some(date)
    ensures Before(s.subscriptions[0].expiresAt, After(s, p, now).subscriptions[0].expiresAt)
  {
    hide Good, After, Before, ExtendedByPeriod;
    WebhookKeeps(s, p, now);
    assert SubscriptionStep(s.subscriptions[0], After(s, p, now).subscriptions[0]);
  }

  /** A RECEIVED of an invoice whose row is confirmed. */
  lemma StoredInvoiceCommits(s: Store, source: string, invoice: string, i: nat, was: DateTime, date: DateTime, now: DateTime)
    requires Good(s) && StillActive(s) && source != "" && i < |s.payments| && ConfirmedRow(s.payments[i], invoice, was)
    requires IdOf(Charge(PaymentReceived, source, invoice, date)).Some?
    requires IdOf(Charge(PaymentReceived, source, invoice, date)).value !in s.events
    ensures var p := Charge(PaymentReceived, source, invoice, date);
            && FreshCharge(s, p) && OnCard(s, p, now) && Handle(s, p, now).Commit?
            && |After(s, p, now).subscriptions| == 1
            && (s.subscriptions[0].lastPaidDate != Some(date) ==>
                  Before(s.subscriptions[0].expiresAt, After(s, p, now).subscriptions[0].expiresAt))
  {
    hide EventId, Handle, After, AddBillingPeriod, Latest, Before;
    var p := Charge(PaymentReceived, source, invoice, date);
    FindsMoved(s, 0, i, Pair(s.subscriptions[0], s.payments[i]), p, now);
    OneWebhook(s, p, now);
    CommitExtendsExactly(s, p, now);
    WebhookAddsNoSubscription(s, p, now);
  }

  /** Two dates, two extensions: CONFIRMED of January 10, RECEIVED of January 12. */
  lemma OneChargeExtendsTwice(t: DateTime, u: DateTime)
    ensures var s := Subscribed();
            var p, q := Charge(PaymentConfirmed, "e1", "pay_1", Day(1, 10)), Charge(PaymentReceived, "e2", "pay_1", Day(1, 12));
            var one := After(s, p, t);
            && Good(s) && OneInvoice(p, q) && Handle(s, p, t).Commit? && Handle(one, q, u).Commit?
            && |one.subscriptions| == 1 && |After(one, q, u).subscriptions| == 1
            && Before(s.subscriptions[0].expiresAt, one.subscriptions[0].expiresAt)
            && Before(one.subscriptions[0].expiresAt, After(one, q, u).subscriptions[0].expiresAt)
  {
    hide Handle, After, EventId, Before, OnCard, PlaceOf;
    var s := Subscribed();
    var p, q := Charge(PaymentConfirmed, "e1", "pay_1", Day(1, 10)), Charge(PaymentReceived, "e2", "pay_1", Day(1, 12));
    ChargeIds(PaymentConfirmed, PaymentReceived, "e1", "e2", "pay_1", "pay_1", Day(1, 10), Day(1, 12));
    NewInvoiceCommits(s, "e1", "pay_1", Day(1, 10), t);
    StoredInvoiceCommits(After(s, p, t), "e2", "pay_1", 0, Day(1, 10), Day(1, 12), u);
  }

  /** One date, two extensions: another charge of February 10 commits between the
      CONFIRMED and the RECEIVED of January 10. */
  lemma OneDateExtendsTwice(t: DateTime)
    ensures var s := Subscribed();
            var p := Charge(PaymentConfirmed, "e1", "pay_1", Day(1, 10));
            var other := Charge(PaymentConfirmed, "e2", "pay_2", Day(2, 10));
            var q := Charge(PaymentReceived, "e3", "pay_1", Day(1, 10));
            var one, two := After(s, p, t), After(After(s, p, t), other, t);
            var three := After(two, q, t);
            && Good(s) && SameCharge(p, q)
            && Handle(s, p, t).Commit? && Handle(one, other, t).Commit? && Handle(two, q, t).Commit?
            && |one.subscriptions| == |two.subscriptions| == |three.subscriptions| == 1
            && Before(s.subscriptions[0].expiresAt, one.subscriptions[0].expiresAt)
            && Before(one.subscriptions[0].expiresAt, two.subscriptions[0].expiresAt)
            && Before(two.subscriptions[0].expiresAt, three.subscriptions[0].expiresAt)
  {
    hide Handle, After, EventId, Before, OnCard, PlaceOf, FreshCharge;
    var s := Subscribed();
    var p, other := Charge(PaymentConfirmed, "e1", "pay_1", Day(1, 10)), Charge(PaymentConfirmed, "e2", "pay_2", Day(2, 10));
    var q := Charge(PaymentReceived, "e3", "pay_1", Day(1, 10));
    ChargeIds(PaymentConfirmed, PaymentConfirmed, "e1", "e2", "pay_1", "pay_2", Day(1, 10), Day(2, 10));
    ChargeIds(PaymentConfirmed, PaymentReceived, "e1", "e3", "pay_1", "pay_1", Day(1, 10), Day(1, 10));
    ChargeIds(PaymentConfirmed, PaymentReceived, "e2", "e3", "pay_2", "pay_1", Day(2, 10), Day(1, 10));
    NewInvoiceCommits(s, "e1", "pay_1", Day(1, 10), t);
    var one := After(s, p, t);
    InvoicesDiffer();
    NewInvoiceCommits(one, "e2", "pay_2", Day(2, 10), t);
    var two := After(one, other, t);
    assert two.payments[0] == one.payments[0];
    StoredInvoiceCommits(two, "e3", "pay_1", 0, Day(1, 10), Day(1, 10), t);
  }

  lemma InvoicesDiffer()
    ensures "pay_1" != "pay_2" && "pay_1" != "sub_1" && "s" + ":" + "pay_1" != "s" + ":" + "pay_2"
  {
    assert "pay_1"[4] != "pay_2"[4] && "pay_1"[0] != "sub_1"[0];
    assert ("s" + ":" + "pay_1")[6] != ("s" + ":" + "pay_2")[6];
  }
}
