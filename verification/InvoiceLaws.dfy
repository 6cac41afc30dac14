/** A subscription's payment rows against the invoices it was charged by. */
module InvoiceLaws {
  import opened BillingCalendar
  import opened Entities
  import opened Storage
  import opened EventIds
  import opened WebhookRules
  import opened TransactionLaws
  import opened DuplicateLaws
  import opened ReorderLaws

  /** The invoice ids committed for one subscription, the first of them apart. */
  datatype Ledger = Ledger(store: Store, invoices: set<string>, first: string)

  predicate IsCharge(p: Payload) {
    p.event in {PaymentConfirmed, PaymentReceived} && p.subscription != ""
  }

  /** One arrival, entered in the ledger of the subscription `gatewayId` if it commits for it. */
  function Book(l: Ledger, gatewayId: string, a: Arrival): Ledger {
    var p := a.payload;
    var next := Arrive(l.store, a);
    if p.subscription == gatewayId && Handle(l.store, p, a.now).Commit? then
      Ledger(next, l.invoices + {p.paymentId}, if l.invoices == {} then p.paymentId else l.first)
    else l.(store := next)
  }

  function BookAll(l: Ledger, gatewayId: string, arrivals: seq<Arrival>): Ledger
    decreases |arrivals|
  {
    if arrivals == [] then l else BookAll(Book(l, gatewayId, arrivals[0]), gatewayId, arrivals[1..])
  }

  /** The arrivals are charges, and an invoice id of this subscription is never
      delivered for another, nor its own id for another's invoice. */
  predicate Separate(ids: set<string>, gatewayId: string, arrivals: seq<Arrival>) {
    forall a :: a in arrivals ==>
      IsCharge(a.payload) && (a.payload.subscription == gatewayId <==> a.payload.paymentId in ids)
  }

  predicate OwnedBy(p: PaymentRow, k: nat) {
    p.subscription == Some(k)
  }

  predicate HasPayment(ps: seq<PaymentRow>, id: string) {
    exists i :: 0 <= i < |ps| && ps[i].providerPaymentId == id
  }

  /** The subscription's rows and its invoices: before the first charge one
      pending provisional row under the subscription's own id; afterwards one
      settled row for each invoice, the provisional row being the first's. */
  ghost predicate Balanced(l: Ledger, k: nat, provisional: nat, ids: set<string>) {
    var ps := l.store.payments;
    && Good(l.store) && k < |l.store.subscriptions| && provisional < |ps|
    && l.store.subscriptions[k].gatewaySubscriptionId in ids && l.invoices <= ids
    && (forall i :: 0 <= i < |ps| ==> (OwnedBy(ps[i], k) <==> ps[i].providerPaymentId in ids))
    && OwnedBy(ps[provisional], k)
    && (l.invoices == {} ==>
          && ps[provisional].providerPaymentId == l.store.subscriptions[k].gatewaySubscriptionId
          && ps[provisional].status == Pending
          && (forall i :: 0 <= i < |ps| && OwnedBy(ps[i], k) ==> i == provisional))
    && (l.invoices != {} ==>
          && ps[provisional].providerPaymentId == l.first
          && (forall i :: 0 <= i < |ps| && OwnedBy(ps[i], k) ==>
                ps[i].providerPaymentId in l.invoices && ps[i].status != Pending)
          && (forall id :: id in l.invoices ==> HasPayment(ps, id)))
  }

  /** Where a charge lands: the row of its invoice, the provisional row of its
      subscription, or a new row. */
  lemma ChargeLands(s: Store, p: Payload, now: DateTime)
    requires Good(s) && IsCharge(p) && Handle(s, p, now).Commit?
    ensures var place := PlaceOf(s, p, now);
            var next := After(s, p, now);
            && place.Place? && place.i < |next.payments|
            && s.subscriptions[place.k].gatewaySubscriptionId == p.subscription
            && next.payments == (if place.i == |s.payments| then s.payments + [next.payments[place.i]]
                                 else s.payments[place.i := next.payments[place.i]])
            && next.payments[place.i].providerPaymentId == p.paymentId
            && next.payments[place.i].subscription == place.pair.payment.subscription
            && next.payments[place.i].status != Pending
            && (place.i == |s.payments| ==> next.payments[place.i].subscription == Some(place.k)
                                            && FindPayment(s.payments, p.paymentId).None?)
            && (place.i < |s.payments| ==>
                  && place.pair.payment.subscription == s.payments[place.i].subscription
                  && (s.payments[place.i].providerPaymentId == p.paymentId
                      || (s.payments[place.i].providerPaymentId == p.subscription
                          && OwnedBy(s.payments[place.i], place.k) && s.payments[place.i].status == Pending
                          && FindPayment(s.payments, p.paymentId).None?)))
            && (place.i == |s.payments| ==>
                  !(exists i :: 0 <= i < |s.payments| && s.payments[i].providerPaymentId == p.subscription
                                && OwnedBy(s.payments[i], place.k) && s.payments[i].status == Pending))
  {
    hide EventId, Handle, PairRule, SubscriptionKeys, OperationKeys, DeliveryKeys, Owned, AllDated;
    CommitRecordsItsEvent(s, p, now);
    OneWebhook(s, p, now);
    var place := PlaceOf(s, p, now);
    PairRuleKeepsIdentity(place.pair, p, now);
    TargetCarriesId(s, place.k, p, now);
    RuleSettles(place.pair, p, now);
  }

  lemma RuleSettles(x: Pair, p: Payload, now: DateTime)
    requires p.event in {PaymentConfirmed, PaymentReceived} && PairRule(x, p, now).Some?
    ensures PairRule(x, p, now).value.payment.status in {Confirmed, Paid}
    ensures PairRule(x, p, now).value.payment.subscription == x.payment.subscription
  {
    hide Latest, AddBillingPeriod;
  }

  /** `ChargeLands`, without the webhook: row `i` is written, as the row of the
      invoice, as the provisional row taken over, or as a new row. */
  ghost predicate Lands(ps: seq<PaymentRow>, qs: seq<PaymentRow>, i: nat, owner: nat, gatewayId: string, invoice: string) {
    && i <= |ps| && i < |qs|
    && qs == (if i == |ps| then ps + [qs[i]] else ps[i := qs[i]])
    && qs[i].providerPaymentId == invoice && qs[i].status != Pending
    && (i == |ps| ==> qs[i].subscription == Some(owner) && !HasPayment(ps, invoice)
                      && forall j :: 0 <= j < |ps| ==>
                           !(ps[j].providerPaymentId == gatewayId && OwnedBy(ps[j], owner) && ps[j].status == Pending))
    && (i < |ps| ==> qs[i].subscription == ps[i].subscription
                     && (ps[i].providerPaymentId == invoice
                         || (ps[i].providerPaymentId == gatewayId && OwnedBy(ps[i], owner) && ps[i].status == Pending)))
  }

  lemma CommitLands(s: Store, p: Payload, now: DateTime)
    requires Good(s) && IsCharge(p) && Handle(s, p, now).Commit?
    ensures var place := PlaceOf(s, p, now);
            && place.Place? && s.subscriptions[place.k].gatewaySubscriptionId == p.subscription
            && Lands(s.payments, After(s, p, now).payments, place.i, place.k, p.subscription, p.paymentId)
  {
    hide Handle, After, PlaceOf, Good;
    ChargeLands(s, p, now);
  }

  lemma OthersChargeKeepsBalance(l: Ledger, next: Store, k: nat, provisional: nat, ids: set<string>,
                                 i: nat, owner: nat, gatewayId: string, invoice: string)
    requires Balanced(l, k, provisional, ids) && Good(next)
    requires k < |next.subscriptions|
    requires next.subscriptions[k].gatewaySubscriptionId == l.store.subscriptions[k].gatewaySubscriptionId
    requires Lands(l.store.payments, next.payments, i, owner, gatewayId, invoice)
    requires owner != k && invoice !in ids
    ensures Balanced(l.(store := next), k, provisional, ids)
  {
    hide Owned, SubscriptionKeys, OperationKeys, DeliveryKeys, AllProcessed, AllDated;
    var ps, qs := l.store.payments, next.payments;
    forall id | id in l.invoices ensures HasPayment(qs, id) {
      if l.invoices != {} {
        var j :| 0 <= j < |ps| && ps[j].providerPaymentId == id;
        assert qs[j].providerPaymentId == id;
      }
    }
  }

  lemma OwnChargeKeepsBalance(l: Ledger, next: Store, k: nat, provisional: nat, ids: set<string>, i: nat, invoice: string)
    requires Balanced(l, k, provisional, ids) && Good(next)
    requires k < |next.subscriptions|
    requires next.subscriptions[k].gatewaySubscriptionId == l.store.subscriptions[k].gatewaySubscriptionId
    requires Lands(l.store.payments, next.payments, i, k, l.store.subscriptions[k].gatewaySubscriptionId, invoice)
    requires invoice in ids
    ensures Balanced(Ledger(next, l.invoices + {invoice}, if l.invoices == {} then invoice else l.first), k, provisional, ids)
  {
    hide Owned, SubscriptionKeys, OperationKeys, DeliveryKeys, AllProcessed, AllDated;
    var ps, qs := l.store.payments, next.payments;
    assert qs[i].providerPaymentId == invoice;
    if l.invoices == {} {
      assert i == provisional;
    } else {
      forall id | id in l.invoices + {invoice} ensures HasPayment(qs, id) {
        if id != invoice {
          var j :| 0 <= j < |ps| && ps[j].providerPaymentId == id;
          assert qs[j].providerPaymentId == id;
        }
      }
    }
  }

  lemma BookKeepsBalance(l: Ledger, k: nat, provisional: nat, ids: set<string>, a: Arrival)
    requires Balanced(l, k, provisional, ids) && IsCharge(a.payload)
    requires var gatewayId := l.store.subscriptions[k].gatewaySubscriptionId;
             a.payload.subscription == gatewayId <==> a.payload.paymentId in ids
    ensures var gatewayId := l.store.subscriptions[k].gatewaySubscriptionId;
            && Balanced(Book(l, gatewayId, a), k, provisional, ids)
            && Book(l, gatewayId, a).store.subscriptions[k].gatewaySubscriptionId == gatewayId
  {
    hide Handle, PlaceOf, Lands, Valid, AllDated, Arrive;
    var s, p := l.store, a.payload;
    var next := Arrive(s, a);
    ArriveKeeps(s, a);
    if Handle(s, p, a.now).Commit? {
      CommitLands(s, p, a.now);
      var place := PlaceOf(s, p, a.now);
      assert place.k == k <==> p.subscription == s.subscriptions[k].gatewaySubscriptionId by {
        DistinctGatewayIds(s, place.k, k);
      }
      if place.k == k {
        OwnChargeKeepsBalance(l, next, k, provisional, ids, place.i, p.paymentId);
      } else {
        OthersChargeKeepsBalance(l, next, k, provisional, ids, place.i, place.k, p.subscription, p.paymentId);
      }
    }
  }

  lemma ArriveKeeps(s: Store, a: Arrival)
    requires Good(s)
    ensures var after := After(s, a.payload, a.now);
            && Good(Arrive(s, a)) && StoreStep(s, after)
            && Arrive(s, a).payments == after.payments && Arrive(s, a).subscriptions == after.subscriptions
            && (!Handle(s, a.payload, a.now).Commit? ==> Arrive(s, a) == s)
  {
    hide Handle, Good, StoreStep, BuildDelivery;
    WebhookKeeps(s, a.payload, a.now);
    ArriveAddsDelivery(s, a);
    var r := Handle(s, a.payload, a.now);
    if r.Commit? && r.notice.Some? && NoticeFits(r.store, r.notice.value) {
      RecordKeeps(r.store, BuildDelivery(r.store, r.notice.value));
    }
  }

  lemma DistinctGatewayIds(s: Store, j: nat, k: nat)
    requires Valid(s) && j < |s.subscriptions| && k < |s.subscriptions|
    ensures j == k <==> s.subscriptions[j].gatewaySubscriptionId == s.subscriptions[k].gatewaySubscriptionId
  {
  }

  /** In every run of charges, rows and invoices stay balanced. */
  lemma {:induction false} RowsMatchInvoices(l: Ledger, k: nat, provisional: nat, ids: set<string>, arrivals: seq<Arrival>)
    requires Balanced(l, k, provisional, ids)
    requires Separate(ids, l.store.subscriptions[k].gatewaySubscriptionId, arrivals)
    ensures Balanced(BookAll(l, l.store.subscriptions[k].gatewaySubscriptionId, arrivals), k, provisional, ids)
    decreases |arrivals|
  {
    var gatewayId := l.store.subscriptions[k].gatewaySubscriptionId;
    hide Balanced, Book;
    if arrivals != [] {
      assert arrivals[0] in arrivals;
      BookKeepsBalance(l, k, provisional, ids, arrivals[0]);
      RowsMatchInvoices(Book(l, gatewayId, arrivals[0]), k, provisional, ids, arrivals[1..]);
    }
  }

  lemma {:induction false} BookingFollowsTheRun(l: Ledger, gatewayId: string, arrivals: seq<Arrival>)
    ensures BookAll(l, gatewayId, arrivals).store == RunWebhooks(l.store, arrivals)
    decreases |arrivals|
  {
    hide Handle, Arrive;
    if arrivals != [] { BookingFollowsTheRun(Book(l, gatewayId, arrivals[0]), gatewayId, arrivals[1..]); }
  }

  /** A subscription with nothing but its pending provisional row. */
  ghost predicate BornProvisional(s: Store, k: nat, provisional: nat, ids: set<string>) {
    var ps := s.payments;
    && Good(s) && k < |s.subscriptions| && provisional < |ps|
    && s.subscriptions[k].gatewaySubscriptionId in ids
    && OwnedBy(ps[provisional], k) && ps[provisional].status == Pending
    && ps[provisional].providerPaymentId == s.subscriptions[k].gatewaySubscriptionId
    && forall i :: 0 <= i < |ps| && i != provisional ==> !OwnedBy(ps[i], k) && ps[i].providerPaymentId !in ids
  }

  /** After any run of charges in which the subscription's own are not all
      rejected, its rows and the invoice ids committed for it are in bijection,
      and the provisional row carries the first invoice. */
  lemma InvoiceRowsAreConserved(s: Store, k: nat, provisional: nat, ids: set<string>, arrivals: seq<Arrival>)
    requires BornProvisional(s, k, provisional, ids)
    requires Separate(ids, s.subscriptions[k].gatewaySubscriptionId, arrivals)
    ensures var l := BookAll(Ledger(s, {}, ""), s.subscriptions[k].gatewaySubscriptionId, arrivals);
            var ps := RunWebhooks(s, arrivals).payments;
            l.invoices != {} ==>
              && (forall i :: 0 <= i < |ps| && OwnedBy(ps[i], k) ==> ps[i].providerPaymentId in l.invoices)
              && (forall id :: id in l.invoices ==>
                    exists i :: 0 <= i < |ps| && ps[i].providerPaymentId == id && OwnedBy(ps[i], k))
              && (forall i, j :: 0 <= i < j < |ps| ==> ps[i].providerPaymentId != ps[j].providerPaymentId)
              && provisional < |ps| && ps[provisional].providerPaymentId == l.first && l.first in l.invoices
  {
    hide Handle, RunWebhooks, Book;
    var l := Ledger(s, {}, "");
    var gatewayId := s.subscriptions[k].gatewaySubscriptionId;
    RowsMatchInvoices(l, k, provisional, ids, arrivals);
    BookingFollowsTheRun(l, gatewayId, arrivals);
    var end := BookAll(l, gatewayId, arrivals);
    forall id | id in end.invoices
      ensures exists i :: 0 <= i < |end.store.payments| && end.store.payments[i].providerPaymentId == id
                          && OwnedBy(end.store.payments[i], k)
    {
      assert HasPayment(end.store.payments, id);
    }
  }
}
