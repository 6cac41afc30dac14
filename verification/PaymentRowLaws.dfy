/** What one commit may do to the dates of a stored payment: the date it was paid,
    and the time that marks its renewal. */
module PaymentRowLaws {
  import opened BillingCalendar
  import opened Entities
  import opened Storage
  import opened EventIds
  import opened WebhookRules
  import opened Transactions

  /** A payment that may be renewed before and after is marked by the same time. */
  predicate MarkStays(a: PaymentRow, b: PaymentRow) {
    Renewable(a) && Renewable(b) ==> b.updatedAt == a.updatedAt
  }

  /** The mark stays, and a payment that was paid once has a paid date. */
  predicate RowMoves(a: PaymentRow, b: PaymentRow) {
    MarkStays(a, b) && (a.paidDate.Some? ==> b.paidDate.Some?)
  }

  ghost predicate RowsMove(ps: seq<PaymentRow>, qs: seq<PaymentRow>) {
    |ps| <= |qs| && forall i :: 0 <= i < |ps| ==> RowMoves(ps[i], qs[i])
  }

  lemma WriteMoves(ps: seq<PaymentRow>, i: nat, row: PaymentRow)
    requires i <= |ps| && WritePayment(ps, i, row).Some? && (i < |ps| ==> RowMoves(ps[i], row))
    ensures RowsMove(ps, WritePayment(ps, i, row).value)
  {
    hide PaymentClash;
  }

  lemma UnmovedRowsMove(ps: seq<PaymentRow>)
    ensures RowsMove(ps, ps)
  {
  }

  lemma StatusRulesMove(p: PaymentRow, said: GatewayStatus, date: Option<DateTime>, net: Option<int>, now: DateTime)
    ensures var r := ApplyGatewayStatus(p, said, date, net, now); r.Some? ==> RowMoves(p, r.value)
  {
  }

  lemma PaymentRulesMove(p: PaymentRow, date: Option<DateTime>, net: Option<int>, now: DateTime)
    ensures Pay(p, date, net, now).Some? ==> RowMoves(p, Pay(p, date, net, now).value)
    ensures Confirm(p, date, net, now).Some? ==> RowMoves(p, Confirm(p, date, net, now).value)
    ensures Cancel(p, now).Some? ==> RowMoves(p, Cancel(p, now).value)
    ensures Expire(p, now).Some? ==> RowMoves(p, Expire(p, now).value)
  {
  }

  // ---------------------------------------------------------------- webhooks

  ghost predicate ReplyMoves(s: Store, r: Reply) {
    r.Commit? ==> RowsMove(s.payments, r.store.payments)
  }

  /** The target of a payment webhook has the dates of the stored row. */
  lemma TargetKeepsDates(s: Store, k: nat, p: Payload, now: DateTime, row: PaymentRow)
    requires k < |s.subscriptions|
    ensures var r := Target(s, k, p, now);
            r.Some? && r.value.0 < |s.payments| && RowMoves(r.value.1, row) ==> RowMoves(s.payments[r.value.0], row)
  {
  }

  lemma WriteBothMoves(s: Store, k: nat, sub: SubscriptionRow, i: nat, row: PaymentRow)
    requires k < |s.subscriptions| && i <= |s.payments| && (i < |s.payments| ==> RowMoves(s.payments[i], row))
    ensures var t := WriteBoth(s, k, sub, i, row); t.Some? ==> RowsMove(s.payments, t.value.payments)
  {
    hide WriteSubscription, WritePayment, RowMoves;
    if WritePayment(s.payments, i, row).Some? { WriteMoves(s.payments, i, row); }
  }

  lemma ReceivedMoves(s: Store, p: Payload, id: string, now: DateTime)
    ensures ReplyMoves(s, HandleReceived(s, p, id, now))
  {
    hide Target, Locate, WriteBoth, Pay, Extended, RowMoves;
    UnmovedRowsMove(s.payments);
    var k := FindSubscription(s.subscriptions, p.subscription);
    if k.Some? && Target(s, k.value, p, now).Some? {
      var (i, row) := Target(s, k.value, p, now).value;
      var date := PaymentDateOf(p, row);
      var paid := Pay(row, date, p.netValue, now);
      PaymentRulesMove(row, date, p.netValue, now);
      if date.Some? && paid.Some? && Extended(s.subscriptions[k.value], date.value).Some? {
        TargetKeepsDates(s, k.value, p, now, paid.value);
        WriteBothMoves(s, k.value, Extended(s.subscriptions[k.value], date.value).value, i, paid.value);
      }
    }
  }

  lemma ConfirmedMoves(s: Store, p: Payload, id: string, now: DateTime)
    ensures ReplyMoves(s, HandleConfirmed(s, p, id, now))
  {
    hide Target, Locate, WriteBoth, Confirm, Extended, RowMoves;
    UnmovedRowsMove(s.payments);
    var k := FindSubscription(s.subscriptions, p.subscription);
    if k.Some? && Target(s, k.value, p, now).Some? {
      var (i, row) := Target(s, k.value, p, now).value;
      var date := PaymentDateOf(p, row);
      var confirmed := Confirm(row, date, p.netValue, now);
      PaymentRulesMove(row, date, p.netValue, now);
      if date.Some? && confirmed.Some? {
        var sub := if confirmed.value.paymentType == CreditCard then Extended(s.subscriptions[k.value], date.value)
                   else Some(s.subscriptions[k.value]);
        TargetKeepsDates(s, k.value, p, now, confirmed.value);
        if sub.Some? { WriteBothMoves(s, k.value, sub.value, i, confirmed.value); }
      }
    }
  }

  lemma StandaloneMoves(s: Store, p: Payload, id: string, now: DateTime)
    ensures ReplyMoves(s, HandleStandalone(s, p, id, now))
  {
    hide ApplyGatewayStatus, WritePayment, FindPayment, FindByReference;
    UnmovedRowsMove(s.payments);
    var byId := FindPayment(s.payments, p.paymentId);
    var found := if byId.Some? then Only(byId.value)
                 else if p.externalReference == NoReference then Missing else FindByReference(s.payments, p.externalReference);
    if found.Only? && found.index < |s.payments| {
      var row := s.payments[found.index].(providerPaymentId := p.paymentId);
      StatusRulesMove(row, StatusOf(p), DayOf(p.paymentDate), p.netValue, now);
      var applied := ApplyGatewayStatus(row, StatusOf(p), DayOf(p.paymentDate), p.netValue, now);
      if applied.Some? && WritePayment(s.payments, found.index, applied.value).Some? {
        WriteMoves(s.payments, found.index, applied.value);
      }
    }
  }

  lemma DeletedMoves(s: Store, p: Payload, id: string, now: DateTime)
    ensures ReplyMoves(s, HandleDeleted(s, p, id, now))
  {
    hide WritePayment, RowMoves;
    UnmovedRowsMove(s.payments);
    var found := FindPayment(s.payments, p.paymentId);
    if found.Some? && Cancel(s.payments[found.value], now).Some? {
      var canceled := Cancel(s.payments[found.value], now).value;
      PaymentRulesMove(s.payments[found.value], None, None, now);
      if WritePayment(s.payments, found.value, canceled).Some? { WriteMoves(s.payments, found.value, canceled); }
    }
  }

  lemma LifecycleMoves(s: Store, p: Payload, id: string, now: DateTime)
    requires p.event in {PaymentOverdue, PaymentRefunded, PaymentChargebackRequested}
    ensures ReplyMoves(s, HandleLifecycle(s, p, id, now))
  {
    hide ApplyGatewayStatus, WritePayment, RowMoves;
    UnmovedRowsMove(s.payments);
    var i := if p.paymentId == "" then None else FindPayment(s.payments, p.paymentId);
    if i.Some? {
      StatusRulesMove(s.payments[i.value], StatusOf(p), DayOf(p.paymentDate), p.netValue, now);
      var applied := ApplyGatewayStatus(s.payments[i.value], StatusOf(p), DayOf(p.paymentDate), p.netValue, now);
      if applied.Some? && WritePayment(s.payments, i.value, applied.value).Some? {
        WriteMoves(s.payments, i.value, applied.value);
      }
    }
  }

  lemma CheckoutMoves(s: Store, p: Payload, id: string, now: DateTime)
    requires IsCheckoutEvent(p.event)
    ensures ReplyMoves(s, HandleCheckout(s, p, id, now))
  {
    hide Pay, Cancel, Expire, WritePayment, RowMoves, FindPayment, FindByReference;
    UnmovedRowsMove(s.payments);
    var byId := if p.paymentId == "" then None else FindPayment(s.payments, p.paymentId);
    var found := if byId.Some? then Only(byId.value)
                 else if p.externalReference == NoReference then Missing else FindByReference(s.payments, p.externalReference);
    if found.Only? && found.index < |s.payments| {
      var row := s.payments[found.index];
      PaymentRulesMove(row, p.paymentDate, p.netValue, now);
      var moved := match p.event
                   case CheckoutPaid => Pay(row, p.paymentDate, p.netValue, now)
                   case CheckoutCanceled => Cancel(row, now)
                   case _ => Expire(row, now);
      if moved.Some? && WritePayment(s.payments, found.index, moved.value).Some? {
        WriteMoves(s.payments, found.index, moved.value);
      }
    }
  }

  lemma InactivatedMoves(s: Store, p: Payload, id: string, now: DateTime)
    ensures ReplyMoves(s, HandleInactivated(s, p, id, now))
  {
    hide End, WriteSubscription, RowMoves;
    UnmovedRowsMove(s.payments);
  }

  lemma WebhookMoves(s: Store, p: Payload, now: DateTime)
    ensures RowsMove(s.payments, After(s, p, now).payments)
  {
    hide EventId, HandleStandalone, HandleReceived, HandleConfirmed, HandleDeleted, HandleInactivated, HandleCheckout,
         HandleLifecycle, RowsMove;
    UnmovedRowsMove(s.payments);
    if IdOf(p).Some? {
      var id := IdOf(p).value;
      StandaloneMoves(s, p, id, now);
      ReceivedMoves(s, p, id, now);
      ConfirmedMoves(s, p, id, now);
      DeletedMoves(s, p, id, now);
      InactivatedMoves(s, p, id, now);
      if IsCheckoutEvent(p.event) { CheckoutMoves(s, p, id, now); }
      if p.event in {PaymentOverdue, PaymentRefunded, PaymentChargebackRequested} { LifecycleMoves(s, p, id, now); }
    }
  }

  // ---------------------------------------------------------------- the other commits

  lemma CompletionKeepsPayments(s: Store, o: nat, reference: string)
    requires o < |s.operations|
    ensures var t := CompleteOperation(s, o, reference); t.Some? ==> t.value.payments == s.payments
  {
  }

  /** Every commit but a renewal and a reconciled checkout moves rows so. */
  lemma TransactionMoves(s: Store, t: Transaction)
    requires !t.IssueRenewal? && !t.ReconcileCheckout?
    ensures RowsMove(s.payments, Apply(s, t).payments)
  {
    hide After, WritePayment, WriteSubscription, CompleteOperation, RebuiltSubscription, BuildDelivery, RowMoves,
         ApplyGatewayStatus, End, RequestEnd;
    UnmovedRowsMove(s.payments);
    match t
    case Webhook(p, now) => WebhookMoves(s, p, now);
    case IssueCheckout(o, checkout) =>
      if DoIssueCheckout(s, o, checkout).Some? {
        WriteMoves(s.payments, |s.payments|, checkout);
        var issued := s.(payments := WritePayment(s.payments, |s.payments|, checkout).value);
        CompletionKeepsPayments(issued, o, checkout.providerPaymentId);
      }
    case BindSubscription(o, sub, invoice) => BindMoves(s, o, sub, invoice);
    case FinishCancellation(k, o, reference, reason, job, now) =>
      if DoFinishCancellation(s, k, o, reference, reason, job, now).Some? {
        var ended := WriteSubscription(s.subscriptions, k, End(s.subscriptions[k], None, reason, job, now)).value;
        CompletionKeepsPayments(s.(subscriptions := ended), o, reference);
      }
    case ReconcileCreation(o, remote) => CreationKeepsPayments(s, o, remote);
    case ReconcileCancellation(o, remote, now) => CancellationKeepsPayments(s, o, remote, now);
    case ReconcilePayment(i, said, date, net, now) =>
      if i < |s.payments| {
        StatusRulesMove(s.payments[i], said, date, net, now);
        var applied := ApplyGatewayStatus(s.payments[i], said, date, net, now);
        if applied.Some? && WritePayment(s.payments, i, applied.value).Some? { WriteMoves(s.payments, i, applied.value); }
      }
    case _ =>
  }

  lemma BindMoves(s: Store, o: nat, sub: SubscriptionRow, invoice: PaymentRow)
    ensures var t := DoBindSubscription(s, o, sub, invoice); t.Some? ==> RowsMove(s.payments, t.value.payments)
  {
    hide WritePayment, WriteSubscription, CompleteOperation, RowMoves;
    if DoBindSubscription(s, o, sub, invoice).Some? {
      var first := invoice.(subscription := Some(|s.subscriptions|));
      var bound := s.(subscriptions := WriteSubscription(s.subscriptions, |s.subscriptions|, sub).value,
                      payments := WritePayment(s.payments, |s.payments|, first).value);
      WriteMoves(s.payments, |s.payments|, first);
      CompletionKeepsPayments(bound, o, sub.gatewaySubscriptionId);
    }
  }

  lemma CreationKeepsPayments(s: Store, o: nat, remote: RemoteSubscription)
    ensures var t := DoReconcileCreation(s, o, remote); t.Some? ==> t.value.payments == s.payments
  {
    hide WriteSubscription, RebuiltSubscription;
  }

  lemma CancellationKeepsPayments(s: Store, o: nat, remote: RemoteSubscription, now: DateTime)
    ensures var t := DoReconcileCancellation(s, o, remote, now); t.Some? ==> t.value.payments == s.payments
  {
    hide WriteSubscription, BuildDelivery, End;
  }

  /** The row a renewal rewrites is pending after, and no other row moves. */
  lemma RenewalMoves(s: Store, t: Transaction)
    requires t.IssueRenewal?
    ensures Apply(s, t) != s ==>
              && t.i < |s.payments| && |Apply(s, t).payments| == |s.payments| && Renewable(t.read)
              && Apply(s, t).payments[t.i].status == Pending && Apply(s, t).payments[t.i].paidDate == t.read.paidDate
              && forall i :: 0 <= i < |s.payments| && i != t.i ==> Apply(s, t).payments[i] == s.payments[i]
  {
    hide PaymentClash;
  }

  // ---------------------------------------------------------------- reconciled checkouts

  /** The reconciliation renews payment `i`, before it moves it to what the gateway
      reported. */
  predicate RenewsFirst(s: Store, t: Transaction, i: nat) {
    && t.ReconcileCheckout? && t.o < |s.operations| && s.operations[t.o].payload.CheckoutPayload? && i < |s.payments|
    && var op := s.operations[t.o];
       && FindPaymentBySystemRef(s.payments, op.payload.systemPaymentId, op.key.system) == Some(i)
       && Renewable(s.payments[i]) && s.payments[i].externalReference != ExpectedReference(op)
  }

  /** A reconciled checkout moves rows so too, but for a payment that it renews. */
  predicate CheckoutMovesRow(s: Store, t: Transaction, i: nat, b: PaymentRow)
    requires i < |s.payments|
  {
    var a := s.payments[i];
    (a.paidDate.Some? ==> b.paidDate.Some?) && (MarkStays(a, b) || RenewsFirst(s, t, i))
  }

  lemma ReconciledCheckoutMoves(s: Store, t: Transaction)
    requires t.ReconcileCheckout?
    ensures |s.payments| <= |Apply(s, t).payments|
    ensures forall i :: 0 <= i < |s.payments| ==> CheckoutMovesRow(s, t, i, Apply(s, t).payments[i])
  {
    hide CheckoutTarget, MoveCheckout, BuildDelivery, Record, PaymentClash, CheckoutMovesRow;
    if Apply(s, t) == s {
      forall i | 0 <= i < |s.payments| ensures CheckoutMovesRow(s, t, i, s.payments[i]) { SameRowMoves(s, t, i); }
    } else {
      var op := s.operations[t.o];
      var (i, row, save) := CheckoutTarget(s, op, t.found, t.now).value;
      var moved := if save then MoveCheckout(row, t.found.status, t.now).value else row;
      var written := s.(payments := if save then WritePayment(s.payments, i, moved).value else s.payments);
      TargetMoves(s, t);
      RecordKeepsRows(written, BuildDelivery(written, Notice(NotifyStatusUpdated, Some(i), None)));
      assert Apply(s, t).payments == written.payments;
      forall j | 0 <= j < |s.payments| ensures CheckoutMovesRow(s, t, j, written.payments[j]) {
        if j != i { SameRowMoves(s, t, j); }
      }
    }
  }

  lemma RecordKeepsRows(s: Store, d: Draft)
    ensures Record(s, d).payments == s.payments
  {
  }

  lemma SameRowMoves(s: Store, t: Transaction, i: nat)
    requires i < |s.payments|
    ensures CheckoutMovesRow(s, t, i, s.payments[i])
  {
  }

  lemma TargetMoves(s: Store, t: Transaction)
    requires t.ReconcileCheckout? && t.o < |s.operations| && s.operations[t.o].payload.CheckoutPayload?
    requires t.found.status != CheckoutIsUnknown && CheckoutTarget(s, s.operations[t.o], t.found, t.now).Some?
    ensures var (i, row, save) := CheckoutTarget(s, s.operations[t.o], t.found, t.now).value;
            && (!save ==> i < |s.payments| && row == s.payments[i])
            && (i < |s.payments| && MoveCheckout(row, t.found.status, t.now).Some? ==>
                  CheckoutMovesRow(s, t, i, MoveCheckout(row, t.found.status, t.now).value))
            && (!save ==> CheckoutMovesRow(s, t, i, row))
  {
  }
}
