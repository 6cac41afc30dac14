/** Safety over whole runs of commits. */
module RunLaws {
  import opened BillingCalendar
  import opened Entities
  import opened Storage
  import opened EventIds
  import opened WebhookRules
  import opened Transactions
  import opened TransactionLaws

  /** A run whose renewals each rewrite the payment they read, however long ago. */
  predicate RenewalsOwn(s: Store, ts: seq<Transaction>)
    decreases |ts|
  {
    ts == [] || (RenewsOwnRow(s, ts[0]) && RenewalsOwn(Apply(s, ts[0]), ts[1..]))
  }

  /** A run in which no renewal commits over a settled payment. */
  predicate RenewalsUnsettled(s: Store, ts: seq<Transaction>)
    decreases |ts|
  {
    ts == [] || (RenewsUnsettled(s, ts[0]) && RenewalsUnsettled(Apply(s, ts[0]), ts[1..]))
  }

  /** A subscription from one moment of a run to a later one. */
  predicate SubscriptionCourse(a: SubscriptionRow, b: SubscriptionRow) {
    && SameSubscription(a, b)
    && AtMost(a.expiresAt, b.expiresAt)
    && (a.status == Ended ==> b == a)
  }

  /** The tables other than payments, from one moment of a run to a later one. */
  ghost predicate RowsCourse(s: Store, t: Store) {
    && |s.subscriptions| <= |t.subscriptions|
    && (forall k :: 0 <= k < |s.subscriptions| ==> SubscriptionCourse(s.subscriptions[k], t.subscriptions[k]))
    && |s.deliveries| <= |t.deliveries| && s.deliveries == t.deliveries[..|s.deliveries|]
  }

  lemma BeforeIsTransitive(a: DateTime, b: DateTime, c: DateTime)
    requires AtMost(a, b) && AtMost(b, c)
    ensures AtMost(a, c)
  {
  }

  lemma CoursesCompose(r: Store, s: Store, t: Store)
    requires RowsStep(r, s) && RowsCourse(s, t)
    ensures RowsCourse(r, t)
  {
    forall k | 0 <= k < |r.subscriptions| ensures SubscriptionCourse(r.subscriptions[k], t.subscriptions[k]) {
      assert SubscriptionStep(r.subscriptions[k], s.subscriptions[k]);
      BeforeIsTransitive(r.subscriptions[k].expiresAt, s.subscriptions[k].expiresAt, t.subscriptions[k].expiresAt);
    }
    assert r.deliveries == s.deliveries[..|r.deliveries|] == t.deliveries[..|r.deliveries|];
  }

  lemma PaymentsCompose(ps: seq<PaymentRow>, qs: seq<PaymentRow>, rs: seq<PaymentRow>)
    requires PaymentsEvolve(ps, qs) && PaymentsEvolve(qs, rs)
    ensures PaymentsEvolve(ps, rs)
  {
    forall i | 0 <= i < |ps| ensures PaymentEvolves(ps[i], rs[i]) {
      PaymentsEvolveTransitively(ps[i], qs[i], rs[i]);
    }
  }

  /** Unique keys hold, expiry never moves back, an ended subscription is frozen
      and a delivery is never withdrawn, in every run, stale renewals included. */
  lemma {:induction false} RunKeepsRows(s: Store, ts: seq<Transaction>)
    requires Good(s) && RenewalsOwn(s, ts)
    ensures Good(Run(s, ts)) && RowsCourse(s, Run(s, ts))
    decreases |ts|
  {
    if ts != [] {
      var next := Apply(s, ts[0]);
      TransactionKeepsRows(s, ts[0]);
      RunKeepsRows(next, ts[1..]);
      CoursesCompose(s, next, Run(next, ts[1..]));
    }
  }

  /** Settlement is final in every run in which no renewal lands on a settled
      payment. */
  lemma {:induction false} RunKeeps(s: Store, ts: seq<Transaction>)
    requires Good(s) && RenewalsOwn(s, ts) && RenewalsUnsettled(s, ts)
    ensures Good(Run(s, ts)) && RowsCourse(s, Run(s, ts)) && PaymentsEvolve(s.payments, Run(s, ts).payments)
    decreases |ts|
  {
    RunKeepsRows(s, ts);
    if ts != [] {
      var next := Apply(s, ts[0]);
      TransactionKeeps(s, ts[0]);
      RunKeeps(next, ts[1..]);
      PaymentsCompose(s.payments, next.payments, Run(next, ts[1..]).payments);
    }
  }

  /** That hypothesis is exact for one commit: a renewal takes a settlement back
      if and only if the stored payment was settled since it was read. */
  lemma StaleRenewal(s: Store, t: Transaction)
    requires Good(s) && t.IssueRenewal? && Attempt(s, t).Some? && RenewsOwnRow(s, t)
    ensures t.i < |s.payments|
    ensures PaymentEvolves(s.payments[t.i], Apply(s, t).payments[t.i]) <==> !SettledIn(s.payments[t.i].status)
  {
  }

  // ---------------------------------------------------------------- a settlement taken back

  /** An expired checkout, and the operation of its renewal, just opened. */
  function ExpiredCheckout(at: DateTime): Store {
    var row := PaymentRow("order", "chk_1", Marketfy, Asaas, 100, 0, Expired, Undefined, None, None, None, None, "", "",
                          FirstCheckout(Marketfy, "order"), at);
    var renewal := OperationRow(RenewCheckoutKey(Marketfy, "order", at), Asaas,
                                CheckoutPayload("order", 100, "", RenewedCheckout(Marketfy, "order", at)), InProgress, "", "");
    Store([row], [], [renewal], map[], [])
  }

  /** While the renewal waits for the gateway: the old checkout becomes overdue,
      and then it is paid. */
  function PaidMeanwhile(now: DateTime): seq<Transaction> {
    [Webhook(Payload(Asaas, PaymentOverdue, "e1", "chk_1", "", None, 0, None, None, NoReference, None), now),
     Webhook(Payload(Asaas, CheckoutPaid, "e2", "chk_1", "", None, 0, None, None, NoReference, None), now)]
  }

  function LateRenewal(at: DateTime, now: DateTime): Transaction {
    IssueRenewal(0, 0, ExpiredCheckout(at).payments[0], "chk_2", "", RenewedCheckout(Marketfy, "order", at), Asaas, now)
  }

  lemma OverdueMeanwhile(at: DateTime, now: DateTime)
    ensures var s, t := ExpiredCheckout(at), PaidMeanwhile(now)[0];
            && Good(s) && IdOf(t.payload).Some?
            && Apply(s, t).payments == [s.payments[0].(status := Overdue, updatedAt := now)]
            && Apply(s, t).operations == s.operations
            && Apply(s, t).events.Keys == {IdOf(t.payload).value}
  {
    hide ProviderName, EventName;
  }

  lemma PaidAfterwards(s: Store, row: PaymentRow, now: DateTime)
    requires s.payments == [row] && row.status == Overdue && row.providerPaymentId == "chk_1"
    requires IdOf(PaidMeanwhile(now)[1].payload).value !in s.events
    ensures var t := PaidMeanwhile(now)[1];
            && Apply(s, t).payments == [row.(status := Paid, paidDate := Some(now), updatedAt := now)]
            && Apply(s, t).operations == s.operations
  {
    hide ProviderName, EventName;
  }

  lemma MeanwhileIdsDiffer(now: DateTime)
    ensures IdOf(PaidMeanwhile(now)[1].payload).Some?
    ensures IdOf(PaidMeanwhile(now)[0].payload) != IdOf(PaidMeanwhile(now)[1].payload)
  {
    hide ProviderName, EventName;
    if IdOf(PaidMeanwhile(now)[0].payload) == IdOf(PaidMeanwhile(now)[1].payload) {
      EventIdsAreInjective(Asaas, PaymentOverdue, "e1", "chk_1", "", Asaas, CheckoutPaid, "e2", "chk_1", "");
    }
  }

  lemma RunsTwo(s: Store, a: Transaction, b: Transaction)
    ensures Run(s, [a, b]) == Apply(Apply(s, a), b)
  {
    hide Apply;
    var next := Apply(s, a);
    assert [a, b][1..] == [b] && [b][1..] == [];
    assert Run(next, [b]) == Run(Apply(next, b), []);
  }

  /** The code does take a settlement back: the payment is PAID when the renewal
      of the row read before lands, and PENDING after. */
  lemma SettlementTakenBack(at: DateTime, now: DateTime)
    ensures var s, renewal := ExpiredCheckout(at), LateRenewal(at, now);
            var paid := Run(s, PaidMeanwhile(now));
            && Good(s) && RenewsOwnRow(paid, renewal) && |paid.payments| == 1 && paid.payments[0].status == Paid
            && Attempt(paid, renewal).Some? && Apply(paid, renewal).payments[0].status == Pending
  {
    hide Handle, EventId, Good;
    var s, ts := ExpiredCheckout(at), PaidMeanwhile(now);
    OverdueMeanwhile(at, now);
    MeanwhileIdsDiffer(now);
    PaidAfterwards(Apply(s, ts[0]), s.payments[0].(status := Overdue, updatedAt := now), now);
    RunsTwo(s, ts[0], ts[1]);
    LateRenewalLands(Run(s, ts), at, now);
  }

  lemma LateRenewalLands(s: Store, at: DateTime, now: DateTime)
    requires |s.payments| == 1 && |s.operations| == 1 && s.payments[0].systemPaymentId == "order"
    requires s.payments[0].fromSystem == Marketfy && s.payments[0].subscription == None
    ensures var t := LateRenewal(at, now);
            RenewsOwnRow(s, t) && Attempt(s, t).Some? && Apply(s, t).payments[0].status == Pending
  {
  }

  lemma {:induction false} RunAppends(s: Store, ts: seq<Transaction>, t: Transaction)
    ensures Run(s, ts + [t]) == Apply(Run(s, ts), t)
    decreases |ts|
  {
    hide Apply;
    if ts == [] {
      assert [t][1..] == [];
    } else {
      assert (ts + [t])[1..] == ts[1..] + [t];
      RunAppends(Apply(s, ts[0]), ts[1..], t);
    }
  }

  // ---------------------------------------------------------------- notices

  /** The notice names rows that exist, and its delivery builds without the two
      errors of `_build_internal_delivery`. */
  predicate BuildsIn(s: Store, n: Notice) {
    NoticeFits(s, n) && (BuildDelivery(s, n).Draft? || BuildDelivery(s, n).NoDelivery?)
  }

  predicate Builds(r: Reply) {
    r.Commit? && r.notice.Some? ==> BuildsIn(r.store, r.notice.value)
  }

  /** A committed webhook's notice always builds: a received payment has an id
      and a date. */
  lemma NoticeBuilds(s: Store, p: Payload, now: DateTime)
    requires Good(s)
    ensures Builds(Handle(s, p, now))
  {
    hide EventId, HandleStandalone, HandleReceived, HandleConfirmed, HandleDeleted, HandleInactivated, HandleCheckout,
         HandleLifecycle, BuildDelivery, NoticeFits;
    if IdOf(p).Some? {
      var id := IdOf(p).value;
      ReceivedNoticeBuilds(s, p, id, now);
      ConfirmedNoticeBuilds(s, p, id, now);
      OtherNoticesBuild(s, p, id, now);
      DeletedNotifiesNobody(s, p, id, now);
    }
  }

  lemma DeletedNotifiesNobody(s: Store, p: Payload, id: string, now: DateTime)
    ensures HandleDeleted(s, p, id, now).Commit? ==> HandleDeleted(s, p, id, now).notice.None?
  {
  }

  lemma WrittenRow(s: Store, k: nat, sub: SubscriptionRow, i: nat, row: PaymentRow)
    requires k < |s.subscriptions| && i <= |s.payments| && WriteBoth(s, k, sub, i, row).Some?
    ensures var t := WriteBoth(s, k, sub, i, row).value;
            i < |t.payments| && t.payments[i] == row && |t.subscriptions| == |s.subscriptions|
  {
  }

  lemma ReceivedNoticeBuilds(s: Store, p: Payload, id: string, now: DateTime)
    requires Good(s)
    ensures Builds(HandleReceived(s, p, id, now))
  {
    hide WriteBoth, Target, Extended, Valid, Locate;
    var found := FindSubscription(s.subscriptions, p.subscription);
    if found.Some? {
      var k := found.value;
      LocatedKeepsStatus(s, k, p);
      var target := Target(s, k, p, now);
      if target.Some? && PaymentDateOf(p, target.value.1).Some? {
        var (i, row) := target.value;
        var date := PaymentDateOf(p, row);
        var paid, sub := Pay(row, date, p.netValue, now), Extended(s.subscriptions[k], date.value);
        TargetIsGood(s, k, p, now);
        if paid.Some? && sub.Some? && WriteBoth(s, k, sub.value, i, paid.value).Some? {
          WrittenRow(s, k, sub.value, i, paid.value);
        }
      }
    }
  }

  lemma LocatedKeepsStatus(s: Store, k: nat, p: Payload)
    requires AllDated(s.payments) && k < |s.subscriptions|
    ensures var r := Locate(s.payments, k, s.subscriptions[k].gatewaySubscriptionId, p.paymentId);
            r.Some? && r.value.1.status == Paid ==> s.payments[r.value.0].paidDate.Some?
  {
  }

  lemma ConfirmedNoticeBuilds(s: Store, p: Payload, id: string, now: DateTime)
    requires Good(s)
    ensures Builds(HandleConfirmed(s, p, id, now))
  {
    hide WriteBoth, Target, Extended, Valid, Locate;
    var found := FindSubscription(s.subscriptions, p.subscription);
    if found.Some? && Target(s, found.value, p, now).Some? {
      var k := found.value;
      var (i, row) := Target(s, k, p, now).value;
      TargetIsGood(s, k, p, now);
      var date := PaymentDateOf(p, row);
      if date.Some? && Confirm(row, date, p.netValue, now).Some? {
        var confirmed := Confirm(row, date, p.netValue, now).value;
        if confirmed.status == row.status { TargetUnchangedIsStored(s, k, p, now, confirmed); }
        var sub := if confirmed.paymentType == CreditCard then Extended(s.subscriptions[k], date.value)
                   else Some(s.subscriptions[k]);
        if sub.Some? && WriteBoth(s, k, sub.value, i, confirmed).Some? {
          WrittenRow(s, k, sub.value, i, confirmed);
        }
      }
    }
  }

  /** If confirming changes no status, the target is a stored row that has a date. */
  lemma TargetUnchangedIsStored(s: Store, k: nat, p: Payload, now: DateTime, confirmed: PaymentRow)
    requires Good(s) && k < |s.subscriptions| && Target(s, k, p, now).Some?
    requires var row := Target(s, k, p, now).value.1;
             Confirm(row, PaymentDateOf(p, row), p.netValue, now) == Some(confirmed) && confirmed.status == row.status
    ensures var i := Target(s, k, p, now).value.0; i < |s.payments| && s.payments[i].paidDate.Some?
  {
  }

  lemma OtherNoticesBuild(s: Store, p: Payload, id: string, now: DateTime)
    ensures Builds(HandleStandalone(s, p, id, now)) && Builds(HandleInactivated(s, p, id, now))
    ensures IsCheckoutEvent(p.event) ==> Builds(HandleCheckout(s, p, id, now))
    ensures p.event in {PaymentOverdue, PaymentRefunded, PaymentChargebackRequested} ==> Builds(HandleLifecycle(s, p, id, now))
  {
    hide HandleStandalone, HandleCheckout, HandleLifecycle;
    StandaloneNoticeBuilds(s, p, id, now);
    if IsCheckoutEvent(p.event) { CheckoutNoticeBuilds(s, p, id, now); }
    if p.event in {PaymentOverdue, PaymentRefunded, PaymentChargebackRequested} { LifecycleNoticeBuilds(s, p, id, now); }
  }

  lemma StandaloneNoticeBuilds(s: Store, p: Payload, id: string, now: DateTime)
    ensures Builds(HandleStandalone(s, p, id, now))
  {
    hide ApplyGatewayStatus;
  }

  lemma CheckoutNoticeBuilds(s: Store, p: Payload, id: string, now: DateTime)
    requires IsCheckoutEvent(p.event)
    ensures Builds(HandleCheckout(s, p, id, now))
  {
    hide Pay, Cancel, Expire;
  }

  lemma LifecycleNoticeBuilds(s: Store, p: Payload, id: string, now: DateTime)
    requires p.event in {PaymentOverdue, PaymentRefunded, PaymentChargebackRequested}
    ensures Builds(HandleLifecycle(s, p, id, now))
  {
    hide ApplyGatewayStatus;
  }
}
