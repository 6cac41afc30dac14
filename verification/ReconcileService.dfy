/** `reconcile_gateway_operations_worker`: one transaction for each listed operation. */
module ReconcileService {
  import opened BillingCalendar
  import opened Entities
  import opened EntityObjects
  import opened Storage
  import opened WebhookRules
  import opened Transactions
  import opened TransactionLaws
  import opened OperationLaws
  import opened RunLaws

  predicate Reconciles(t: Transaction, o: nat) {
    match t
    case ReconcileCreation(p, _) => p == o
    case ReconcileCancellation(p, _, _) => p == o
    case ReconcileCheckout(p, _, _) => p == o
    case _ => false
  }

  /** The payment a checkout operation is for. */
  function PaymentOf(s: Store, op: OperationRow): Option<PaymentRow>
    requires op.payload.CheckoutPayload?
  {
    var i := FindPaymentBySystemRef(s.payments, op.payload.systemPaymentId, op.key.system);
    if i.None? then None else Some(s.payments[i.value])
  }

  /** The operation's payment exists, in the state the gateway reported if that is
      a settled one. */
  predicate Settles(s: Store, op: OperationRow, found: RemoteCheckout) {
    op.payload.CheckoutPayload? && found.status != CheckoutIsUnknown && PaymentOf(s, op).Some?
    && (found.status != CheckoutIsActive ==> PaymentOf(s, op).value.status == CheckoutStatusOf(found.status))
  }

  /** What a completed reconciliation is to have committed beside the operation:
      the remote object is mirrored by the local row, under its own id. */
  predicate HasEffect(t: Transaction, before: Store, after: Store) {
    match t
    case ReconcileCreation(o, _) =>
      o < |before.operations| && FindSubscription(after.subscriptions, before.operations[o].gatewayReference).Some?
    case ReconcileCancellation(o, remote, _) =>
      && o < |before.operations| && before.operations[o].payload.CancelPayload? && remote == RemoteCanceled
      && before.operations[o].payload.subscription < |after.subscriptions|
      && after.subscriptions[before.operations[o].payload.subscription].status == Ended
    case ReconcileCheckout(o, found, _) =>
      && o < |before.operations| && Settles(after, before.operations[o], found)
      && PaymentOf(after, before.operations[o]).value.providerPaymentId == found.id
    case _ => false
  }

  /** A recovered checkout can be bound to its payment: there is no payment yet, or
      it ended under another reference, or it carries the checkout already. */
  predicate CanBind(s: Store, t: Transaction) {
    t.ReconcileCheckout? && t.o < |s.operations| && s.operations[t.o].payload.CheckoutPayload? ==>
      var op := s.operations[t.o];
      var payment := PaymentOf(s, op);
      || payment.None?
      || (Renewable(payment.value) && payment.value.externalReference != ExpectedReference(op))
      || payment.value.providerPaymentId == t.found.id
  }

  /** A reconciliation changes nothing, or it completes its operation. Then the
      effect is in the same commit, exactly when a recovered checkout can be bound;
      otherwise the operation is completed without it. */
  lemma AllOrNothing(s: Store, t: Transaction, o: nat)
    requires Reconciles(t, o)
    ensures Apply(s, t) == s
            || (Awaiting(s, o) && Apply(s, t).operations[o].status == Completed
                && (HasEffect(t, s, Apply(s, t)) <==> CanBind(s, t))
                && (t.ReconcileCheckout? ==> Settles(Apply(s, t), s.operations[o], t.found)))
  {
    hide Apply, HasEffect, CanBind, Settles;
    ReconciledOrAwaiting(s, t);
    if Apply(s, t) != s {
      match t
      case ReconcileCreation(_, _) => CreationHasEffect(s, t);
      case ReconcileCancellation(_, _, _) => CancellationHasEffect(s, t);
      case _ => CheckoutHasEffect(s, t);
    }
  }

  lemma CreationHasEffect(s: Store, t: Transaction)
    requires t.ReconcileCreation? && Apply(s, t) != s
    ensures HasEffect(t, s, Apply(s, t)) && CanBind(s, t)
  {
    hide FindSubscription;
    var op := s.operations[t.o];
    var row := RebuiltSubscription(op, t.remote);
    if FindSubscription(s.subscriptions, op.gatewayReference).None? { FoundSubscription(s.subscriptions, row.value); }
  }

  lemma CancellationHasEffect(s: Store, t: Transaction)
    requires t.ReconcileCancellation? && Apply(s, t) != s
    ensures HasEffect(t, s, Apply(s, t)) && CanBind(s, t)
  {
    hide BuildDelivery;
  }

  lemma CheckoutHasEffect(s: Store, t: Transaction)
    requires t.ReconcileCheckout? && Apply(s, t) != s
    ensures t.o < |s.operations| && Settles(Apply(s, t), s.operations[t.o], t.found)
    ensures HasEffect(t, s, Apply(s, t)) <==> CanBind(s, t)
  {
    hide BuildDelivery, FindPaymentBySystemRef, CheckoutTarget, MoveCheckout, Record, CanBind;
    var op, found, now := s.operations[t.o], t.found, t.now;
    var (i, row, save) := CheckoutTarget(s, op, found, now).value;
    TargetIsTheOperations(s, t);
    ReportedStatus(row, found.status, now);
    var moved := if save then MoveCheckout(row, found.status, now).value else row;
    var written := s.(payments := if save then WritePayment(s.payments, i, moved).value else s.payments);
    FoundWhereWritten(s.payments, i, moved);
    RecordKeepsPayments(written, BuildDelivery(written, Notice(NotifyStatusUpdated, Some(i), None)));
    assert Apply(s, t).payments == written.payments;
    assert PaymentOf(Apply(s, t), op) == Some(moved);
  }

  /** A payment rewritten in place, or added as one that was not there, is found. */
  lemma FoundWhereWritten(ps: seq<PaymentRow>, i: nat, row: PaymentRow)
    ensures i == |ps| ==> FindPaymentBySystemRef(ps + [row], row.systemPaymentId, row.fromSystem) == Some(i)
    ensures FindPaymentBySystemRef(ps, row.systemPaymentId, row.fromSystem) == Some(i) ==>
              FindPaymentBySystemRef(ps[i := row], row.systemPaymentId, row.fromSystem) == Some(i)
    decreases |ps|
  {
    if i < |ps| - 1 && FindPaymentBySystemRef(ps, row.systemPaymentId, row.fromSystem) == Some(i) {
      FoundWhereWritten(ps[..|ps| - 1], i, row);
      assert ps[i := row][..|ps| - 1] == ps[..|ps| - 1][i := row];
    }
  }

  lemma RecordKeepsPayments(s: Store, d: Draft)
    ensures Record(s, d).payments == s.payments
  {
  }

  lemma TargetIsTheOperations(s: Store, t: Transaction)
    requires t.ReconcileCheckout? && t.o < |s.operations| && s.operations[t.o].payload.CheckoutPayload?
    requires t.found.status != CheckoutIsUnknown && CheckoutTarget(s, s.operations[t.o], t.found, t.now).Some?
    ensures var op := s.operations[t.o];
            var (i, row, save) := CheckoutTarget(s, op, t.found, t.now).value;
            && row.systemPaymentId == op.payload.systemPaymentId && row.fromSystem == op.key.system
            && (!save ==> i < |s.payments| && row == s.payments[i] && row.status == CheckoutStatusOf(t.found.status))
            && FindPaymentBySystemRef(s.payments, op.payload.systemPaymentId, op.key.system)
               == (if i == |s.payments| then None else Some(i))
            && (row.providerPaymentId == t.found.id <==> CanBind(s, t))
  {
  }

  lemma ReportedStatus(row: PaymentRow, status: RemoteCheckoutStatus, now: DateTime)
    requires status != CheckoutIsUnknown
    ensures var m := MoveCheckout(row, status, now);
            m.Some? ==> m.value.systemPaymentId == row.systemPaymentId && m.value.fromSystem == row.fromSystem
                        && m.value.providerPaymentId == row.providerPaymentId
                        && (status != CheckoutIsActive ==> m.value.status == CheckoutStatusOf(status))
  {
  }

  // ---------------------------------------------------------------- a recovered checkout lost

  /** The checkout that a renewal created before its commit failed. */
  function Stranded(at: DateTime): RemoteCheckout {
    RemoteCheckout("chk_2", "", CheckoutIsActive, RenewedCheckout(Marketfy, "order", at))
  }

  /** The old checkout becomes overdue while the renewal waits, the renewal's
      recovery sets its operation aside, and reconciliation takes it up. */
  function StrandingRun(at: DateTime, now: DateTime): seq<Transaction> {
    [PaidMeanwhile(now)[0], CloseOperation(0, SetAside(ExpiredCheckout(at).operations[0], "chk_2", "")),
     ReconcileCheckout(0, Stranded(at), now)]
  }

  lemma StrandedIsCompleted(s: Store, at: DateTime, now: DateTime)
    requires s.operations == [SetAside(ExpiredCheckout(at).operations[0], "chk_2", "")]
    requires s.payments == [ExpiredCheckout(at).payments[0].(status := Overdue, updatedAt := now)]
    ensures var t := ReconcileCheckout(0, Stranded(at), now);
            var end := Apply(s, t);
            && end.payments == s.payments && |end.operations| == 1
            && end.operations[0].status == Completed && end.operations[0].gatewayReference == "chk_2"
            && !CanBind(s, t)
  {
    hide BuildDelivery;
    var row := s.payments[0];
    assert row.providerPaymentId[4] != Stranded(at).id[4];
    assert FindPaymentBySystemRef(s.payments, "order", Marketfy) == Some(0);
  }

  /** Reconciliation does complete an operation whose checkout no payment carries:
      no row has its id or its reference, and nothing awaits any more. */
  lemma RecoveredCheckoutLost(at: DateTime, now: DateTime)
    ensures var s, ts := ExpiredCheckout(at), StrandingRun(at, now);
            var before, end := Run(s, ts[..2]), Run(s, ts);
            && Good(s) && end == Apply(before, ts[2])
            && |end.operations| == 1 && end.operations[0].status == Completed
            && end.operations[0].gatewayReference == Stranded(at).id
            && (forall i :: 0 <= i < |end.payments| ==>
                  end.payments[i].providerPaymentId != Stranded(at).id
                  && end.payments[i].externalReference != Stranded(at).reference)
            && (forall o: nat :: !Awaiting(end, o))
            && !HasEffect(ts[2], before, end)
  {
    hide Handle, Good, HasEffect, CanBind;
    var s, ts := ExpiredCheckout(at), StrandingRun(at, now);
    OverdueMeanwhile(at, now);
    var before := Apply(Apply(s, ts[0]), ts[1]);
    RunsTwo(s, ts[0], ts[1]);
    assert ts[..2] == [ts[0], ts[1]];
    RunAppends(s, ts[..2], ts[2]);
    assert ts == ts[..2] + [ts[2]];
    StrandedIsCompleted(before, at, now);
    AllOrNothing(before, ts[2], 0);
    assert s.payments[0].providerPaymentId[4] != Stranded(at).id[4];
  }

  // ---------------------------------------------------------------- the worker

  /** An operation after the worker's run: as it was, or completed. */
  predicate OperationLeft(before: OperationRow, after: OperationRow) {
    after == before || (before.status == RequiresReconciliation && after.status == Completed && SameRequest(before, after))
  }

  /** One iteration: what it found, what it committed, if anything, and what it left. */
  datatype Iteration = Iteration(found: Store, done: Option<Transaction>, left: Store)

  /** The iteration of operation `o` completed it, with its effect in the same
      commit exactly when a recovered checkout could be bound, or left everything;
      no other operation moved. */
  ghost predicate Iterated(it: Iteration, o: nat) {
    && it.left == (if it.done.None? then it.found else Apply(it.found, it.done.value))
    && (it.done.Some? ==> Reconciles(it.done.value, o))
    && (it.left != it.found ==>
          && it.done.Some? && (HasEffect(it.done.value, it.found, it.left) <==> CanBind(it.found, it.done.value))
          && o < |it.found.operations| && o < |it.left.operations|
          && it.found.operations[o].status == RequiresReconciliation && it.left.operations[o].status == Completed)
    && |it.left.operations| == |it.found.operations|
    && forall p :: 0 <= p < |it.found.operations| ==>
         && OperationLeft(it.found.operations[p], it.left.operations[p])
         && (p != o ==> it.left.operations[p] == it.found.operations[p])
  }

  /** What the iterations so far left. */
  function Left(start: Store, log: seq<Iteration>): Store {
    if log == [] then start else log[|log| - 1].left
  }

  /** Each iteration found what others made of what the one before had left. */
  ghost predicate Linked(start: Store, log: seq<Iteration>, others: seq<seq<Transaction>>) {
    |others| == |log| && forall i :: 0 <= i < |log| ==> log[i].found == Run(Left(start, log[..i]), others[i])
  }

  class ReconcileWorker {
    const uow: UnitOfWork

    constructor (uow: UnitOfWork)
      ensures this.uow == uow
    {
      this.uow := uow;
    }

    method CompleteWith(o: nat, reference: string) returns (ok: bool)
      requires o < |uow.working.operations|
      modifies uow`working
      ensures var done := CompleteOperation(old(uow.working), o, reference);
              ok == done.Some? && uow.working == if ok then done.value else old(uow.working)
    {
      var operation := new GatewayOperation(uow.working.operations[o], o);
      ok := operation.MarkCompleted(reference);
      if ok { uow.SaveOperation(operation); }
    }

    method PersistDelivery(notice: Notice)
      requires NoticeFits(uow.working, notice)
      modifies uow`working
      ensures uow.working == Record(old(uow.working), BuildDelivery(old(uow.working), notice))
    {
      var delivery := BuildDelivery(uow.working, notice);
      if delivery.Draft? && !HasDelivery(uow.working.deliveries, delivery.row.key) {
        uow.working := uow.working.(deliveries := uow.working.deliveries + [delivery.row]);
      }
    }

    /** Each branch leaves in `working` what it would commit; false is an exception. */
    method ReconcileCreation(o: nat, remote: RemoteSubscription) returns (ok: bool)
      requires Awaiting(uow.working, o) && uow.working.operations[o].payload.SubscriptionPayload?
      modifies uow`working
      ensures ok ==> DoReconcileCreation(old(uow.working), o, remote) == Some(uow.working)
      ensures !ok ==> DoReconcileCreation(old(uow.working), o, remote) == None
    {
      var op := uow.working.operations[o];
      var sub := uow.GetSubscriptionByProviderId(op.gatewayReference);
      if sub == null {
        var rebuilt := RebuiltSubscription(op, remote);
        if rebuilt.None? { return false; }
        var made := new Subscription(rebuilt.value, None);
        var saved, _ := uow.SaveSubscription(made);
        if !saved { return false; }
      }
      ok := CompleteWith(o, op.gatewayReference);
    }

    method ReconcileCancellation(o: nat, remote: RemoteSubscription, now: DateTime) returns (ok: bool)
      requires Awaiting(uow.working, o) && uow.working.operations[o].payload.CancelPayload?
      requires SubscriptionKeys(uow.working.subscriptions)
      modifies uow`working
      ensures ok ==> DoReconcileCancellation(old(uow.working), o, remote, now) == Some(uow.working)
      ensures !ok ==> DoReconcileCancellation(old(uow.working), o, remote, now) == None
    {
      hide BuildDelivery;
      var op := uow.working.operations[o];
      var k := op.payload.subscription;
      if k >= |uow.working.subscriptions| { return false; }
      if remote != RemoteCanceled { return true; }
      RewriteKept(uow.working.subscriptions, k);
      var sub := uow.GetSubscription(k);
      if sub.status != Ended {
        sub.Cancel(Some(now), "Reconciled cancellation", "", now);
        var saved, _ := uow.SaveSubscription(sub);
        if !saved { return false; }
      }
      ok := CompleteWith(o, op.gatewayReference);
      if ok { PersistDelivery(InactivationNotice(k)); }
    }

    method ReconcileCheckout(o: nat, found: RemoteCheckout, now: DateTime) returns (ok: bool)
      requires Awaiting(uow.working, o) && uow.working.operations[o].payload.CheckoutPayload?
      modifies uow`working
      ensures ok ==> DoReconcileCheckout(old(uow.working), o, found, now) == Some(uow.working)
      ensures !ok ==> DoReconcileCheckout(old(uow.working), o, found, now) == None
    {
      hide BuildDelivery, WritePayment, CompleteOperation, Record;
      var op := uow.working.operations[o];
      if op.gatewayReference == "" { return true; }
      if found.reference != ExpectedReference(op) || found.status == CheckoutIsUnknown { return false; }
      ghost var target := CheckoutTarget(uow.working, op, found, now);
      var payment, save := TargetPayment(op, found, now);
      if payment == null { return false; }
      var i := if payment.id.Some? then payment.id.value else |uow.working.payments|;
      ghost var row := payment.Row();
      assert target == Some((i, row, save));
      if save {
        var moved := Move(payment, found.status, now);
        if !moved { return false; }
        var saved, _ := uow.SavePayment(payment);
        if !saved { return false; }
        WrittenIsThere(old(uow.working).payments, i, payment.Row());
      }
      ghost var written := uow.working;
      if found.status != CheckoutIsActive {
        PersistDelivery(Notice(NotifyStatusUpdated, Some(i), None));
        RecordKeepsOperations(written, BuildDelivery(written, Notice(NotifyStatusUpdated, Some(i), None)));
      }
      ok := CompleteWith(o, found.id);
    }

    /** The payment to bring up to date, and whether it must be saved. */
    method TargetPayment(op: OperationRow, found: RemoteCheckout, now: DateTime) returns (payment: Payment?, save: bool)
      requires op.payload.CheckoutPayload? && found.status != CheckoutIsUnknown
      ensures var target := CheckoutTarget(uow.working, op, found, now);
              if payment == null then target.None?
              else fresh(payment) && (payment.id.Some? ==> payment.id.value < |uow.working.payments|)
                   && (payment.id.None? ==> save)
                   && target == Some((Or(payment.id, |uow.working.payments|), payment.Row(), save))
    {
      var reference := ExpectedReference(op);
      payment := uow.GetPaymentBySystemRef(op.payload.systemPaymentId, op.key.system);
      save := false;
      if payment == null {
        var made := NewCheckout(op.payload.systemPaymentId, found.id, op.key.system, op.provider, op.payload.value,
                                found.url, op.payload.webhookLink, reference, now);
        if made.None? { return null, false; }
        payment := new Payment(made.value, None);
        save := true;
      } else if payment.externalReference != reference && payment.status in {Expired, Canceled} {
        var renewed := payment.RenewCheckout(found.id, found.url, reference, now);
        if !renewed { return null, false; }
        save := true;
      } else {
        save := payment.status != CheckoutStatusOf(found.status);
      }
    }

    method Move(payment: Payment, status: RemoteCheckoutStatus, now: DateTime) returns (ok: bool)
      modifies payment
      ensures ok == MoveCheckout(old(payment.Row()), status, now).Some?
      ensures ok ==> payment.Row() == MoveCheckout(old(payment.Row()), status, now).value
    {
      ok := true;
      match status {
        case CheckoutIsPaid => ok := payment.MarkAsPaid(Some(now), None, now);
        case CheckoutIsCanceled => ok := payment.MarkAsCanceled(now);
        case CheckoutIsExpired => ok := payment.MarkAsExpired(now);
        case _ =>
      }
    }

    /** One iteration, with what the gateway reports if it answers: the transaction it
        stands for commits, unless commits fail. */
    method ReconcileOne(o: nat, report: Option<Report>) returns (ghost done: Option<Transaction>)
      requires uow.working == uow.committed && Good(uow.committed)
      modifies uow`committed, uow`working
      ensures uow.working == uow.committed && Good(uow.committed)
      ensures done.None? ==> uow.committed == old(uow.committed)
      ensures done.Some? ==> Reconciles(done.value, o) && uow.committed == Apply(old(uow.committed), done.value)
      ensures !uow.mayFail ==> uow.committed == Reconciled(old(uow.committed), o, report)
    {
      hide DoReconcileCreation, DoReconcileCancellation, DoReconcileCheckout, Good;
      done := None;
      if o >= |uow.working.operations| { return; }
      if uow.working.operations[o].status != RequiresReconciliation { return; }
      GoodHasKeys(uow.working);
      if report.None? { return; }
      var Report(remote, found, now) := report.value;
      var ok: bool;
      match uow.working.operations[o].payload {
        case SubscriptionPayload(_, _, _, _, _) =>
          done := Some(Transaction.ReconcileCreation(o, remote));
          ok := ReconcileCreation(o, remote);
        case CancelPayload(_) =>
          done := Some(Transaction.ReconcileCancellation(o, remote, now));
          ok := ReconcileCancellation(o, remote, now);
        case CheckoutPayload(_, _, _, _) =>
          done := Some(Transaction.ReconcileCheckout(o, found, now));
          ok := ReconcileCheckout(o, found, now);
      }
      TransactionKeeps(old(uow.committed), done.value);
      ReconcilingInsertsNoEvent(old(uow.committed), done.value, o);
      if ok {
        var landed := uow.TryCommit();
        if landed { return; }
      }
      uow.Rollback();
      done := None;
    }

    /** Between two iterations anything else commits. */
    method Others() returns (ghost ts: seq<Transaction>)
      requires uow.working == uow.committed && Good(uow.committed)
      modifies uow`committed, uow`working
      ensures uow.working == uow.committed == Run(old(uow.committed), ts) && Good(uow.committed)
    {
      hide Good, Apply;
      ts := [];
      var n: nat := *;
      while n > 0
        invariant uow.working == uow.committed == Run(old(uow.committed), ts) && Good(uow.committed)
      {
        var t: Transaction := *;
        if RenewsOwnRow(uow.committed, t) {
          TransactionKeepsRows(uow.committed, t);
          RunAppends(old(uow.committed), ts, t);
          ts := ts + [t];
          uow.committed := Apply(uow.committed, t);
          uow.working := uow.committed;
        }
        n := n - 1;
      }
    }

    /** The loop over any list, with anything committed between its iterations. */
    method ReconcileAll(ids: seq<nat>, reports: seq<Option<Report>>)
      returns (ghost log: seq<Iteration>, ghost others: seq<seq<Transaction>>)
      requires uow.working == uow.committed && Good(uow.committed) && |reports| == |ids|
      modifies uow`committed, uow`working
      ensures uow.working == uow.committed && Good(uow.committed)
      ensures |log| == |ids| && forall i :: 0 <= i < |ids| ==> Iterated(log[i], ids[i])
      ensures !uow.mayFail ==> forall i :: 0 <= i < |ids| ==> log[i].left == Reconciled(log[i].found, ids[i], reports[i])
      ensures Linked(old(uow.committed), log, others) && uow.committed == Left(old(uow.committed), log)
    {
      hide Good, Apply, Reconciles, Iterated, Run, Reconciled;
      log, others := [], [];
      var i := 0;
      while i < |ids|
        invariant 0 <= i <= |ids| && |log| == i && uow.working == uow.committed && Good(uow.committed)
        invariant forall j :: 0 <= j < i ==> Iterated(log[j], ids[j])
        invariant !uow.mayFail ==> forall j :: 0 <= j < i ==> log[j].left == Reconciled(log[j].found, ids[j], reports[j])
        invariant Linked(old(uow.committed), log, others) && uow.committed == Left(old(uow.committed), log)
      {
        ghost var between := Others();
        ghost var found := uow.committed;
        ghost var done := ReconcileOne(ids[i], reports[i]);
        ghost var it := Iteration(found, done, uow.committed);
        IterationLeaves(it, ids[i]);
        LinksOn(old(uow.committed), log, others, it, between);
        log, others := log + [it], others + [between];
        i := i + 1;
      }
    }
  }

  /** What the gateway reports of an operation's subscription or checkout, and when. */
  datatype Report = Report(remote: RemoteSubscription, found: RemoteCheckout, now: DateTime)

  /** The transaction that reconciles a request of this kind. */
  function Reconciling(payload: RequestPayload, o: nat, report: Report): Transaction {
    match payload
    case SubscriptionPayload(_, _, _, _, _) => Transaction.ReconcileCreation(o, report.remote)
    case CancelPayload(_) => Transaction.ReconcileCancellation(o, report.remote, report.now)
    case CheckoutPayload(_, _, _, _) => Transaction.ReconcileCheckout(o, report.found, report.now)
  }

  /** The state an iteration leaves when commits do not fail: an operation that awaits
      is reconciled if the gateway answers. */
  function Reconciled(s: Store, o: nat, report: Option<Report>): Store {
    if o < |s.operations| && s.operations[o].status == RequiresReconciliation && report.Some?
    then Apply(s, Reconciling(s.operations[o].payload, o, report.value))
    else s
  }

  lemma ReconcilingInsertsNoEvent(s: Store, t: Transaction, o: nat)
    requires Reconciles(t, o)
    ensures Apply(s, t).events == s.events
  {
    hide CheckoutTarget, BuildDelivery, WritePayment, WriteSubscription, RebuiltSubscription, MoveCheckout, End;
  }

  lemma IterationLeaves(it: Iteration, o: nat)
    requires it.left == (if it.done.None? then it.found else Apply(it.found, it.done.value))
    requires it.done.Some? ==> Reconciles(it.done.value, o)
    ensures Iterated(it, o)
  {
    hide Apply, HasEffect, CanBind, Settles;
    if it.done.Some? {
      AllOrNothing(it.found, it.done.value, o);
      ReconcileLeaves(it.found, it.done.value, o);
    }
  }

  lemma LinksOn(start: Store, log: seq<Iteration>, others: seq<seq<Transaction>>, it: Iteration, between: seq<Transaction>)
    requires Linked(start, log, others) && it.found == Run(Left(start, log), between)
    ensures Linked(start, log + [it], others + [between]) && Left(start, log + [it]) == it.left
  {
    hide Run;
    assert (log + [it])[..|log|] == log;
    forall i | 0 <= i < |log| ensures (log + [it])[..i] == log[..i] {}
  }

  /** When nothing else commits meanwhile: every listed operation is as it was, or
      completed; any other is untouched. */
  lemma {:induction false} QuietLoop(start: Store, log: seq<Iteration>, ids: seq<nat>)
    requires |log| == |ids| && forall i :: 0 <= i < |ids| ==> Iterated(log[i], ids[i])
    requires forall i :: 0 <= i < |ids| ==> log[i].found == Left(start, log[..i])
    ensures var end := Left(start, log);
            && |end.operations| == |start.operations|
            && forall o :: 0 <= o < |start.operations| ==>
                 && OperationLeft(start.operations[o], end.operations[o])
                 && (o !in ids ==> end.operations[o] == start.operations[o])
    decreases |log|
  {
    hide HasEffect, CanBind, Apply;
    if log != [] {
      var n := |log| - 1;
      forall i | 0 <= i < n ensures log[..n][..i] == log[..i] {}
      QuietLoop(start, log[..n], ids[..n]);
      assert Iterated(log[n], ids[n]) && log[n].found == Left(start, log[..n]);
    }
  }

  /** `ReconcilePayment.execute`, as one transaction. */
  class ReconcilePaymentService {
    const uow: UnitOfWork

    constructor (uow: UnitOfWork)
      ensures this.uow == uow
    {
      this.uow := uow;
    }

    method Execute(i: nat, said: GatewayStatus, date: Option<DateTime>, net: Option<int>, now: DateTime)
      returns (changed: bool)
      requires uow.working == uow.committed
      modifies uow`committed, uow`working
      ensures uow.committed == Apply(old(uow.committed), Transaction.ReconcilePayment(i, said, date, net, now))
      ensures uow.working == uow.committed
      ensures changed <==> i < |old(uow.committed).payments| && i < |uow.committed.payments|
                           && uow.committed.payments[i].status != old(uow.committed).payments[i].status
    {
      if i >= |uow.working.payments| { return false; }
      var payment := uow.GetPayment(i);
      if payment.status !in {Pending, Overdue, Confirmed} { return false; }
      var applied, moved := payment.ApplyGatewayStatus(said, date, net, now);
      if !applied || !moved { return false; }
      var saved, _ := uow.SavePayment(payment);
      if !saved { return false; }
      uow.Commit();
      changed := true;
    }
  }

  lemma GoodHasKeys(s: Store)
    requires Good(s)
    ensures SubscriptionKeys(s.subscriptions)
  {
  }

  lemma RewriteKept(subs: seq<SubscriptionRow>, k: nat)
    requires SubscriptionKeys(subs) && k < |subs|
    ensures WriteSubscription(subs, k, subs[k]) == Some(subs)
  {
    assert subs[k := subs[k]] == subs;
  }

  lemma WrittenIsThere(ps: seq<PaymentRow>, i: nat, row: PaymentRow)
    requires i <= |ps| && WritePayment(ps, i, row).Some?
    ensures i < |WritePayment(ps, i, row).value|
  {
  }

  lemma ReconcileLeaves(s: Store, t: Transaction, o: nat)
    requires Reconciles(t, o)
    ensures var next := Apply(s, t);
            && |next.operations| == |s.operations|
            && forall p :: 0 <= p < |s.operations| ==>
                 OperationLeft(s.operations[p], next.operations[p]) && (p != o ==> next.operations[p] == s.operations[p])
  {
    hide Apply;
    AllOrNothing(s, t, o);
    OperationsGained(s, t);
    if s.operations != [] { OperationsKept(s, t, |s.operations| - 1); }
    forall p | 0 <= p < |s.operations|
      ensures p < |Apply(s, t).operations| && OperationLeft(s.operations[p], Apply(s, t).operations[p])
      ensures p != o ==> Apply(s, t).operations[p] == s.operations[p]
    {
      OperationsKept(s, t, p);
    }
  }
}
