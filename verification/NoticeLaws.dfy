/** A webhook's notice, built after its commit and whatever else commits before its
    delivery does. */
module NoticeLaws {
  import opened BillingCalendar
  import opened Entities
  import opened Storage
  import opened WebhookRules
  import opened Transactions
  import opened TransactionLaws
  import opened OperationLaws
  import opened PaymentRowLaws
  import opened RunLaws

  /** A renewal that has seen the paid date of the payment it rewrites, if there is one. */
  predicate SeesPaidDate(s: Store, t: Transaction) {
    t.IssueRenewal? && t.i < |s.payments| && s.payments[t.i].paidDate.Some? ==> t.read.paidDate.Some?
  }

  /** What may commit between a webhook and its delivery. */
  predicate Harmless(s: Store, ts: seq<Transaction>)
    decreases |ts|
  {
    ts == [] || (RenewsOwnRow(s, ts[0]) && SeesPaidDate(s, ts[0]) && Harmless(Apply(s, ts[0]), ts[1..]))
  }

  lemma {:induction false} HarmlessGrows(s: Store, ts: seq<Transaction>, t: Transaction)
    requires Harmless(s, ts) && RenewsOwnRow(Run(s, ts), t) && SeesPaidDate(Run(s, ts), t)
    ensures Harmless(s, ts + [t]) && Run(s, ts + [t]) == Apply(Run(s, ts), t)
    decreases |ts|
  {
    hide Apply, RenewsOwnRow, SeesPaidDate;
    if ts == [] {
      assert [t][1..] == [] && Harmless(Apply(s, t), []);
    } else {
      assert (ts + [t])[1..] == ts[1..] + [t];
      HarmlessGrows(Apply(s, ts[0]), ts[1..], t);
    }
  }

  /** What a webhook and its delivery leave, with other commits between the two. */
  function Told(s: Store, p: Payload, now: DateTime, between: seq<Transaction>): Store {
    var r, reached := Handle(s, p, now), Run(After(s, p, now), between);
    if r.Commit? && r.notice.Some? && NoticeFits(reached, r.notice.value)
    then Record(reached, BuildDelivery(reached, r.notice.value))
    else reached
  }

  /** With nothing in between, it is the rule's. */
  lemma ToldAtOnce(s: Store, p: Payload, now: DateTime)
    ensures Told(s, p, now, []) == Deliver(s, p, now)
  {
    hide Handle, BuildDelivery;
  }

  /** Paid dates stay: a commit takes one away exactly when it is a renewal of a
      reading without it. */
  lemma PaidDateStaysExactly(s: Store, t: Transaction)
    ensures |s.payments| <= |Apply(s, t).payments|
    ensures (forall i :: 0 <= i < |s.payments| && s.payments[i].paidDate.Some? ==> Apply(s, t).payments[i].paidDate.Some?)
            <==> Attempt(s, t).None? || SeesPaidDate(s, t)
  {
    hide Apply, RowMoves, CheckoutMovesRow, Attempt;
    PaymentsStay(s, t);
    if t.IssueRenewal? { RenewedPaidDate(s, t); }
    else if t.ReconcileCheckout? {
      ReconciledCheckoutMoves(s, t);
      forall i | 0 <= i < |s.payments| && s.payments[i].paidDate.Some? ensures Apply(s, t).payments[i].paidDate.Some? {
        assert CheckoutMovesRow(s, t, i, Apply(s, t).payments[i]);
        MovedRowIsDated(s, t, i, Apply(s, t).payments[i]);
      }
    } else {
      TransactionMoves(s, t);
      forall i | 0 <= i < |s.payments| && s.payments[i].paidDate.Some? ensures Apply(s, t).payments[i].paidDate.Some? {
        RowIsDated(s.payments[i], Apply(s, t).payments[i]);
      }
    }
  }

  lemma RowIsDated(a: PaymentRow, b: PaymentRow)
    requires RowMoves(a, b) && a.paidDate.Some?
    ensures b.paidDate.Some?
  {
  }

  lemma MovedRowIsDated(s: Store, t: Transaction, i: nat, b: PaymentRow)
    requires i < |s.payments| && CheckoutMovesRow(s, t, i, b) && s.payments[i].paidDate.Some?
    ensures b.paidDate.Some?
  {
  }

  lemma RenewedPaidDate(s: Store, t: Transaction)
    requires t.IssueRenewal?
    ensures |s.payments| <= |Apply(s, t).payments|
    ensures (forall i :: 0 <= i < |s.payments| && s.payments[i].paidDate.Some? ==> Apply(s, t).payments[i].paidDate.Some?)
            <==> Attempt(s, t).None? || SeesPaidDate(s, t)
  {
    hide PaymentClash;
  }

  lemma OneCommitStillBuilds(s: Store, t: Transaction, n: Notice)
    requires Good(s) && BuildsIn(s, n) && RenewsOwnRow(s, t) && SeesPaidDate(s, t)
    ensures Good(Apply(s, t)) && BuildsIn(Apply(s, t), n)
  {
    hide Apply, Good, Attempt;
    TransactionKeepsRows(s, t);
    PaidDateStaysExactly(s, t);
    if n.subscription.Some? {
      var k := n.subscription.value;
      assert SubscriptionStep(s.subscriptions[k], Apply(s, t).subscriptions[k]);
    }
  }

  /** The delivery of a committed webhook builds without either error after any run
      of other commits whose renewals have seen the paid dates they rewrite. */
  lemma NoticeStillBuilds(s: Store, p: Payload, now: DateTime, ts: seq<Transaction>)
    requires Good(s) && Handle(s, p, now).Commit? && Handle(s, p, now).notice.Some? && Harmless(After(s, p, now), ts)
    ensures Good(Run(After(s, p, now), ts)) && BuildsIn(Run(After(s, p, now), ts), Handle(s, p, now).notice.value)
  {
    hide Handle, Good, BuildsIn, Harmless;
    NoticeBuilds(s, p, now);
    WebhookKeeps(s, p, now);
    RunStillBuilds(After(s, p, now), ts, Handle(s, p, now).notice.value);
  }

  lemma {:induction false} RunStillBuilds(s: Store, ts: seq<Transaction>, n: Notice)
    requires Good(s) && BuildsIn(s, n) && Harmless(s, ts)
    ensures Good(Run(s, ts)) && BuildsIn(Run(s, ts), n)
    decreases |ts|
  {
    hide Apply, Good, BuildsIn;
    if ts != [] {
      OneCommitStillBuilds(s, ts[0], n);
      RunStillBuilds(Apply(s, ts[0]), ts[1..], n);
    }
  }
}
