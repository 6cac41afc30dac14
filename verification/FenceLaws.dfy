/** Superseded checkouts of one payment: events of an older generation never
    reach the renewed one. */
module FenceLaws {
  import opened BillingCalendar
  import opened Entities
  import opened Storage
  import opened EventIds
  import opened WebhookRules
  import opened Transactions
  import opened TransactionLaws

  /** What a checkout's own events carry. */
  datatype Generation = Generation(checkoutId: string, reference: ExternalReference)

  /** The state, the generations of the payment before the current one, and the clock. */
  datatype Fence = Fence(store: Store, past: seq<Generation>, last: DateTime)

  datatype Action =
    | CheckoutEvent(payload: Payload, now: DateTime)
    | Renewal(o: nat, checkoutId: string, url: string, gateway: GatewayProvider, now: DateTime)

  function GenerationOf(p: PaymentRow): Generation {
    Generation(p.providerPaymentId, p.externalReference)
  }

  /** `CreateCheckout` names a renewal by the moment the old checkout ended. */
  function RenewalReference(p: PaymentRow): ExternalReference {
    RenewedCheckout(p.fromSystem, p.systemPaymentId, p.updatedAt)
  }

  function Step(f: Fence, i: nat, a: Action): Fence
    requires i < |f.store.payments|
  {
    match a
    case CheckoutEvent(p, now) => f.(store := After(f.store, p, now), last := now)
    case Renewal(o, checkoutId, url, gateway, now) =>
      var row := f.store.payments[i];
      var written := Attempt(f.store, IssueRenewal(o, i, row, checkoutId, url, RenewalReference(row), gateway, now));
      if written.None? then f.(last := now) else Fence(written.value, f.past + [GenerationOf(row)], now)
  }

  /** Checkout events and renewals in the order of the clock; the gateway never
      reuses a checkout id. */
  predicate Admissible(f: Fence, i: nat, a: Action)
    requires i < |f.store.payments|
  {
    && Before(f.last, a.now)
    && (a.CheckoutEvent? ==> IsCheckoutEvent(a.payload.event))
    && (a.Renewal? ==> a.checkoutId != f.store.payments[i].providerPaymentId
                       && forall g :: g in f.past ==> g.checkoutId != a.checkoutId)
  }

  predicate MarkedBefore(reference: ExternalReference, t: DateTime) {
    reference.RenewedCheckout? ==> Before(reference.marker, t)
  }

  /** The current generation shares neither id nor reference with an older one. */
  ghost predicate Fenced(f: Fence, i: nat) {
    && Good(f.store) && i < |f.store.payments|
    && AtMost(f.store.payments[i].updatedAt, f.last)
    && MarkedBefore(f.store.payments[i].externalReference, f.store.payments[i].updatedAt)
    && forall g :: g in f.past ==>
         && g.checkoutId != f.store.payments[i].providerPaymentId
         && g.reference != f.store.payments[i].externalReference
         && MarkedBefore(g.reference, f.store.payments[i].updatedAt)
  }

  // ---------------------------------------------------------------- one event

  predicate Live(p: PaymentRow) {
    p.status in {Pending, Overdue}
  }

  function EndOf(event: EventType): PaymentStatus
    requires event in {CheckoutPaid, CheckoutCanceled, CheckoutExpired}
  {
    match event
    case CheckoutPaid => Paid
    case CheckoutCanceled => Canceled
    case _ => Expired
  }

  /** An event touches a payment only if it carries its checkout id or its
      reference, and only while its checkout is live. */
  lemma EventTouches(s: Store, i: nat, p: Payload, now: DateTime)
    requires Good(s) && i < |s.payments| && IsCheckoutEvent(p.event)
    ensures var before, after := s.payments[i], After(s, p, now).payments[i];
            && GenerationOf(after) == GenerationOf(before)
            && (after != before ==>
                  && Live(before) && p.event != CheckoutCreated && after.status == EndOf(p.event) && after.updatedAt == now
                  && (p.paymentId == before.providerPaymentId
                      || (p.externalReference == before.externalReference && p.externalReference != NoReference)))
  {
    hide EventId;
    WebhookKeeps(s, p, now);
  }

  lemma StatusMoveIsWritten(s: Store, i: nat, row: PaymentRow)
    requires Valid(s) && i < |s.payments| && row.providerPaymentId == s.payments[i].providerPaymentId
    requires row.systemPaymentId == s.payments[i].systemPaymentId && row.fromSystem == s.payments[i].fromSystem
    ensures WritePayment(s.payments, i, row) == Some(s.payments[i := row])
  {
  }

  /** The event is for payment `i`: by its checkout id, or by its reference if no
      payment has the id. */
  predicate Reaches(s: Store, i: nat, p: Payload) {
    i < |s.payments| &&
    if p.paymentId != "" && FindPayment(s.payments, p.paymentId).Some? then p.paymentId == s.payments[i].providerPaymentId
    else p.externalReference != NoReference && FindByReference(s.payments, p.externalReference) == Only(i)
  }

  /** The first PAID, CANCELED or EXPIRED event of a live checkout ends it, if and
      only if it is for that payment; a negative net value is refused. */
  lemma FirstEndingEventEnds(s: Store, i: nat, p: Payload, now: DateTime)
    requires Good(s) && i < |s.payments| && p.event in {CheckoutPaid, CheckoutCanceled, CheckoutExpired}
    requires IdOf(p).Some? && IdOf(p).value !in s.events && Live(s.payments[i])
    ensures After(s, p, now).payments[i].status == EndOf(p.event)
            <==> Reaches(s, i, p) && (p.event == CheckoutPaid ==> !Negative(p.netValue))
    ensures Reaches(s, i, p) && (p.event == CheckoutPaid ==> !Negative(p.netValue)) ==> Handle(s, p, now).Commit?
  {
    hide EventId, FindByReference, PaymentClash;
    FoundById(s.payments, p.paymentId, i);
    var row := s.payments[i];
    var moved := match p.event
                 case CheckoutPaid => Pay(row, p.paymentDate, p.netValue, now)
                 case CheckoutCanceled => Cancel(row, now)
                 case _ => Expire(row, now);
    if moved.Some? { StatusMoveIsWritten(s, i, moved.value); }
  }

  lemma FoundById(ps: seq<PaymentRow>, id: string, i: nat)
    requires PaymentKeys(ps) && i < |ps|
    ensures FindPayment(ps, id) == Some(i) <==> ps[i].providerPaymentId == id
  {
  }

  /** A late event with an older generation's id or none, and its reference or
      none, leaves the payment as it is. */
  lemma LateEventChangesNothing(f: Fence, i: nat, g: Generation, p: Payload, now: DateTime)
    requires Fenced(f, i) && g in f.past && IsCheckoutEvent(p.event)
    requires p.paymentId in {g.checkoutId, ""} && p.externalReference in {g.reference, NoReference}
    ensures After(f.store, p, now).payments[i] == f.store.payments[i]
  {
    EventTouches(f.store, i, p, now);
  }

  // ---------------------------------------------------------------- runs

  lemma AtMostBefore(a: DateTime, b: DateTime, c: DateTime)
    requires AtMost(a, b) && Before(b, c)
    ensures Before(a, c)
  {
  }

  lemma EventKeepsFence(f: Fence, i: nat, p: Payload, now: DateTime)
    requires Fenced(f, i) && Admissible(f, i, CheckoutEvent(p, now))
    ensures Fenced(Step(f, i, CheckoutEvent(p, now)), i)
  {
    hide Good, After;
    WebhookKeepsRow(f.store, i, p, now);
    EventTouches(f.store, i, p, now);
    var row := f.store.payments[i];
    AtMostBefore(row.updatedAt, f.last, now);
    var after := After(f.store, p, now).payments[i];
    if after != row {
      MarkedLater(row.externalReference, row.updatedAt, now);
      forall g | g in f.past ensures MarkedBefore(g.reference, now) { MarkedLater(g.reference, row.updatedAt, now); }
    }
  }

  lemma WebhookKeepsRow(s: Store, i: nat, p: Payload, now: DateTime)
    requires Good(s) && i < |s.payments|
    ensures Good(After(s, p, now)) && i < |After(s, p, now).payments|
  {
    WebhookKeeps(s, p, now);
  }

  lemma MarkedLater(reference: ExternalReference, t: DateTime, u: DateTime)
    requires MarkedBefore(reference, t) && AtMost(t, u)
    ensures MarkedBefore(reference, u)
  {
  }

  lemma NotBeforeItself(t: DateTime)
    ensures !Before(t, t)
  {
  }

  lemma RenewalKeepsFence(f: Fence, i: nat, a: Action)
    requires Fenced(f, i) && a.Renewal? && Admissible(f, i, a)
    ensures Fenced(Step(f, i, a), i)
  {
    hide Good, Before;
    var row := f.store.payments[i];
    var t := IssueRenewal(a.o, i, row, a.checkoutId, a.url, RenewalReference(row), a.gateway, a.now);
    CurrentIsUnsettled(f.store, t);
    TransactionKeeps(f.store, t);
    AtMostBefore(row.updatedAt, f.last, a.now);
    NotBeforeItself(row.updatedAt);
    if Attempt(f.store, t).Some? {
      RenewalWrites(f.store, i, t);
      MarkedLater(row.externalReference, row.updatedAt, a.now);
      forall g | g in f.past ensures MarkedBefore(g.reference, a.now) { MarkedLater(g.reference, row.updatedAt, a.now); }
    }
  }

  lemma RenewalWrites(s: Store, i: nat, t: Transaction)
    requires i < |s.payments| && t.IssueRenewal? && t.i == i && t.read == s.payments[i] && Attempt(s, t).Some?
    ensures var row := Attempt(s, t).value.payments[i];
            && GenerationOf(row) == Generation(t.checkoutId, t.renewal) && row.updatedAt == t.now
            && row.status == Pending && s.payments[i].status in {Expired, Canceled}
  {
  }

  predicate AllAdmissible(f: Fence, i: nat, actions: seq<Action>)
    requires i < |f.store.payments|
    decreases |actions|
  {
    actions == [] ||
    (Admissible(f, i, actions[0]) && i < |Step(f, i, actions[0]).store.payments|
     && AllAdmissible(Step(f, i, actions[0]), i, actions[1..]))
  }

  function Steps(f: Fence, i: nat, actions: seq<Action>): Fence
    requires i < |f.store.payments| && AllAdmissible(f, i, actions)
    decreases |actions|
  {
    if actions == [] then f else Steps(Step(f, i, actions[0]), i, actions[1..])
  }

  /** In every run of checkout events and renewals the fence stands, and a
      generation that ended in PAID is the last: nothing changes any more. */
  lemma {:induction false} FenceStands(f: Fence, i: nat, actions: seq<Action>)
    requires Fenced(f, i) && AllAdmissible(f, i, actions)
    ensures Fenced(Steps(f, i, actions), i)
    ensures f.store.payments[i].status == Paid ==>
              Steps(f, i, actions).store.payments[i] == f.store.payments[i] && Steps(f, i, actions).past == f.past
    decreases |actions|
  {
    if actions != [] {
      var a := actions[0];
      match a {
        case CheckoutEvent(p, now) =>
          EventKeepsFence(f, i, p, now);
          EventTouches(f.store, i, p, now);
        case Renewal(_, _, _, _, _) => RenewalKeepsFence(f, i, a);
      }
      FenceStands(Step(f, i, a), i, actions[1..]);
    }
  }
}
