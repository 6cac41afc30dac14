/** What commits do to the operations table and to the end of subscriptions. */
module OperationLaws {
  import opened BillingCalendar
  import opened Entities
  import opened Storage
  import opened EventIds
  import opened WebhookRules
  import opened WebhookFootprint
  import opened Transactions

  /** The one stored operation a commit may rewrite. */
  function Rewrites(t: Transaction): Option<nat> {
    match t
    case CloseOperation(o, _) => Some(o)
    case FinishCancellation(_, o, _, _, _, _) => Some(o)
    case IssueCheckout(o, _) => Some(o)
    case IssueRenewal(o, _, _, _, _, _, _, _) => Some(o)
    case BindSubscription(o, _, _) => Some(o)
    case ReconcileCreation(o, _) => Some(o)
    case ReconcileCancellation(o, _, _) => Some(o)
    case ReconcileCheckout(o, _, _) => Some(o)
    case _ => None
  }

  /** The same request, whatever became of it. */
  predicate SameRequest(a: OperationRow, b: OperationRow) {
    b.key == a.key && b.payload == a.payload && b.provider == a.provider
  }

  lemma WebhookKeepsOperations(s: Store, p: Payload, now: DateTime)
    ensures After(s, p, now).operations == s.operations && After(s, p, now).deliveries == s.deliveries
  {
    hide Handle;
    CommitFootprint(s, p, now);
  }

  /** Requests are never rewritten, and no commit touches another's operation. */
  lemma OperationsKept(s: Store, t: Transaction, o: nat)
    requires o < |s.operations|
    ensures o < |Apply(s, t).operations| && SameRequest(s.operations[o], Apply(s, t).operations[o])
    ensures Rewrites(t) != Some(o) ==> Apply(s, t).operations[o] == s.operations[o]
    ensures |Apply(s, t).operations| <= |s.operations| + 1
  {
    hide After, WritePayment, WriteSubscription, CheckoutTarget, MoveCheckout, BuildDelivery, RebuiltSubscription;
    if t.Webhook? { WebhookKeepsOperations(s, t.payload, t.now); }
  }

  /** A row the operations table gains is a request just opened. */
  lemma OperationsGained(s: Store, t: Transaction)
    ensures var ops := Apply(s, t).operations;
            |ops| > |s.operations| ==>
              && ops == s.operations + [ops[|s.operations|]] && ops[|s.operations|].status == InProgress
              && WellFormed(ops[|s.operations|]) && FindOperation(s.operations, ops[|s.operations|].key).None?
              && (t == OpenOperation(ops[|s.operations|])
                  || (t.BeginCancellation? && ops[|s.operations|].key == CancelSubscriptionKey(t.system, t.k)))
  {
    hide After, WritePayment, WriteSubscription, CheckoutTarget, MoveCheckout, BuildDelivery, RebuiltSubscription;
    if t.Webhook? { WebhookKeepsOperations(s, t.payload, t.now); }
  }

  /** A reconciled operation is completed, or it is left awaiting. */
  lemma ReconciledOrAwaiting(s: Store, t: Transaction)
    requires t.ReconcileCreation? || t.ReconcileCancellation? || t.ReconcileCheckout?
    ensures Apply(s, t) == s
            || (t.o < |s.operations| && s.operations[t.o].status == RequiresReconciliation
                && Apply(s, t).operations[t.o].status == Completed)
  {
    hide WritePayment, WriteSubscription, CheckoutTarget, MoveCheckout, BuildDelivery, RebuiltSubscription;
  }

  /** Payments are never removed. */
  lemma PaymentsStay(s: Store, t: Transaction)
    ensures |s.payments| <= |Apply(s, t).payments|
  {
    hide After, Pay, Cancel, Expire, ApplyGatewayStatus, RebuiltSubscription, CheckoutTarget, MoveCheckout, BuildDelivery,
         WriteSubscription, End, RequestEnd, Renew, PaymentClash;
    if t.Webhook? { WebhookAddsPayments(s, t.payload, t.now); }
  }

  lemma WebhookAddsPayments(s: Store, p: Payload, now: DateTime)
    ensures |s.payments| <= |After(s, p, now).payments|
  {
    hide Handle;
    CommitFootprint(s, p, now);
  }

  // ---------------------------------------------------------------- ends of subscriptions

  predicate EndsNone(s: Store, r: Reply, k: nat) {
    r.Commit? && k < |s.subscriptions| && k < |r.store.subscriptions| && r.store.subscriptions[k].status == Ended ==>
      s.subscriptions[k].status == Ended
  }

  lemma ExtendedEndsNone(s: Store, k: nat, date: DateTime, j: nat, i: nat, row: PaymentRow)
    requires j < |s.subscriptions| && i <= |s.payments| && Extended(s.subscriptions[j], date).Some?
    ensures var t := WriteBoth(s, j, Extended(s.subscriptions[j], date).value, i, row);
            t.Some? && k < |s.subscriptions| ==>
              k < |t.value.subscriptions| && (t.value.subscriptions[k].status == Ended ==> s.subscriptions[k].status == Ended)
  {
    hide PaymentClash, SubscriptionClash, Latest, AddBillingPeriod;
  }

  lemma ReceivedEndsNone(s: Store, p: Payload, id: string, now: DateTime, k: nat)
    ensures EndsNone(s, HandleReceived(s, p, id, now), k)
  {
    hide Target, Locate, WriteBoth, Pay, Extended;
    var j := FindSubscription(s.subscriptions, p.subscription);
    if j.Some? && Target(s, j.value, p, now).Some? {
      var (i, row) := Target(s, j.value, p, now).value;
      var date := PaymentDateOf(p, row);
      var paid := Pay(row, date, p.netValue, now);
      if date.Some? && paid.Some? && Extended(s.subscriptions[j.value], date.value).Some? {
        ExtendedEndsNone(s, k, date.value, j.value, i, paid.value);
      }
    }
  }

  lemma ConfirmedEndsNone(s: Store, p: Payload, id: string, now: DateTime, k: nat)
    ensures EndsNone(s, HandleConfirmed(s, p, id, now), k)
  {
    hide Target, Locate, WriteBoth, Confirm, Extended;
    var j := FindSubscription(s.subscriptions, p.subscription);
    if j.Some? && Target(s, j.value, p, now).Some? {
      var (i, row) := Target(s, j.value, p, now).value;
      var date := PaymentDateOf(p, row);
      var confirmed := Confirm(row, date, p.netValue, now);
      if date.Some? && confirmed.Some? {
        if Extended(s.subscriptions[j.value], date.value).Some? {
          ExtendedEndsNone(s, k, date.value, j.value, i, confirmed.value);
        }
        RewrittenIsSame(s, j.value, i, confirmed.value);
      }
    }
  }

  lemma RewrittenIsSame(s: Store, j: nat, i: nat, row: PaymentRow)
    requires j < |s.subscriptions| && i <= |s.payments|
    ensures var t := WriteBoth(s, j, s.subscriptions[j], i, row); t.Some? ==> t.value.subscriptions == s.subscriptions
  {
    hide PaymentClash, SubscriptionClash;
    assert s.subscriptions[j := s.subscriptions[j]] == s.subscriptions;
  }

  lemma OthersEndNone(s: Store, p: Payload, id: string, now: DateTime, k: nat)
    ensures EndsNone(s, HandleStandalone(s, p, id, now), k) && EndsNone(s, HandleDeleted(s, p, id, now), k)
    ensures IsCheckoutEvent(p.event) ==> EndsNone(s, HandleCheckout(s, p, id, now), k)
    ensures p.event in {PaymentOverdue, PaymentRefunded, PaymentChargebackRequested} ==>
              EndsNone(s, HandleLifecycle(s, p, id, now), k)
  {
    hide WritePayment, Pay, Cancel, Expire, ApplyGatewayStatus, FindPayment, FindByReference;
  }

  lemma InactivatedEndsNamed(s: Store, p: Payload, id: string, now: DateTime, k: nat)
    requires k < |s.subscriptions|
    ensures EndsNone(s, HandleInactivated(s, p, id, now), k)
            || (p.subscription == s.subscriptions[k].gatewaySubscriptionId && p.subscription != "")
  {
    hide SubscriptionClash;
  }

  /** A webhook ends a subscription only by naming it in an inactivation event. */
  lemma WebhookEnds(s: Store, p: Payload, now: DateTime, k: nat)
    requires k < |s.subscriptions|
    ensures |After(s, p, now).subscriptions| == |s.subscriptions|
    ensures After(s, p, now).subscriptions[k].status == Ended ==>
              s.subscriptions[k].status == Ended
              || (p.event in {SubscriptionDeleted, SubscriptionInactivated}
                  && p.subscription == s.subscriptions[k].gatewaySubscriptionId && p.subscription != "")
  {
    hide EventId, HandleStandalone, HandleReceived, HandleConfirmed, HandleDeleted, HandleInactivated, HandleCheckout,
         HandleLifecycle;
    WebhookAddsNoSubscription(s, p, now);
    if IdOf(p).Some? {
      var id := IdOf(p).value;
      ReceivedEndsNone(s, p, id, now, k);
      ConfirmedEndsNone(s, p, id, now, k);
      OthersEndNone(s, p, id, now, k);
      InactivatedEndsNamed(s, p, id, now, k);
    }
  }

  lemma WebhookAddsNoSubscription(s: Store, p: Payload, now: DateTime)
    ensures |After(s, p, now).subscriptions| == |s.subscriptions|
  {
    hide Handle;
    CommitFootprint(s, p, now);
  }

  // ---------------------------------------------------------------- lookup by key

  lemma {:induction false} FindStays(ops: seq<OperationRow>, next: seq<OperationRow>, key: OperationKey)
    requires |ops| <= |next| <= |ops| + 1
    requires forall o :: 0 <= o < |ops| ==> next[o].key == ops[o].key
    requires |next| > |ops| ==> next[|ops|].key != key
    ensures FindOperation(next, key) == FindOperation(ops, key)
    decreases |next|
  {
    if |next| > |ops| {
      FindStays(ops, next[..|ops|], key);
    } else if ops != [] {
      FindStays(ops[..|ops| - 1], next[..|ops| - 1], key);
    }
  }

  lemma FoundLast(ops: seq<OperationRow>, op: OperationRow)
    ensures FindOperation(ops + [op], op.key) == Some(|ops|)
  {
  }

  lemma FoundKey(ops: seq<OperationRow>, key: OperationKey)
    requires FindOperation(ops, key).Some?
    ensures FindOperation(ops, key).value < |ops| && ops[FindOperation(ops, key).value].key == key
  {
  }

  lemma FoundSubscription(subs: seq<SubscriptionRow>, row: SubscriptionRow)
    ensures FindSubscription(subs + [row], row.gatewaySubscriptionId) == Some(|subs|)
  {
  }
}
