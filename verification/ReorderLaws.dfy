/** PAYMENT_CONFIRMED and PAYMENT_RECEIVED of one invoice, in either order. */
module ReorderLaws {
  import opened BillingCalendar
  import opened Entities
  import opened RowMeanings
  import opened Storage
  import opened EventIds
  import opened WebhookRules
  import opened TransactionLaws
  import opened RunLaws

  /** The two webhooks of one charge: same subscription, invoice, date and amounts. */
  predicate SameCharge(c: Payload, r: Payload) {
    && c.event == PaymentConfirmed && r.event == PaymentReceived
    && c.subscription == r.subscription != ""
    && c.paymentId == r.paymentId && c.paymentDate == r.paymentDate && c.netValue == r.netValue
    && c.value == r.value && c.billingType == r.billingType
  }

  /** A subscription and the payment of one invoice. */
  datatype Pair = Pair(sub: SubscriptionRow, payment: PaymentRow)

  /** What RECEIVED does to the two rows. */
  function ReceivedPair(x: Pair, p: Payload, now: DateTime): Option<Pair> {
    if x.payment.status == Paid then Some(x)
    else
      var date := PaymentDateOf(p, x.payment);
      var paid := Pay(x.payment, date, p.netValue, now);
      if date.None? || paid.None? || Extended(x.sub, date.value).None? then None
      else Some(Pair(Extended(x.sub, date.value).value, paid.value))
  }

  /** What CONFIRMED does to the two rows. */
  function ConfirmedPair(x: Pair, p: Payload, now: DateTime): Option<Pair> {
    var date := PaymentDateOf(p, x.payment);
    var confirmed := Confirm(x.payment, date, p.netValue, now);
    if date.None? || confirmed.None? then None
    else if confirmed.value.paymentType != CreditCard then Some(Pair(x.sub, confirmed.value))
    else if Extended(x.sub, date.value).None? then None
    else Some(Pair(Extended(x.sub, date.value).value, confirmed.value))
  }

  function PairRule(x: Pair, p: Payload, now: DateTime): Option<Pair> {
    if p.event == PaymentReceived then ReceivedPair(x, p, now) else ConfirmedPair(x, p, now)
  }

  /** Equal but for the moment of the last update. */
  predicate RowsAgree(a: PaymentRow, b: PaymentRow) {
    a.(updatedAt := b.updatedAt) == b
  }

  predicate PairsAgree(x: Pair, y: Pair) {
    x.sub == y.sub && RowsAgree(x.payment, y.payment)
  }

  predicate OutcomesAgree(x: Option<Pair>, y: Option<Pair>) {
    x.Some? == y.Some? && (x.Some? ==> PairsAgree(x.value, y.value))
  }

  function PairAfter(x: Pair, y: Option<Pair>): Pair {
    Or(y, x)
  }

  /** The rules see nothing of when a row was last updated. */
  lemma RulesIgnoreUpdateTimes(x: Pair, y: Pair, p: Payload, t: DateTime, u: DateTime)
    requires PairsAgree(x, y) && p.event in {PaymentConfirmed, PaymentReceived}
    ensures OutcomesAgree(PairRule(x, p, t), PairRule(y, p, u))
  {
    hide Latest, AddBillingPeriod;
  }

  /** The two rules commute on every pair of rows: neither decides whether the
      other applies, and together they give one result. */
  lemma PairsCommute(x: Pair, c: Payload, r: Payload, t: DateTime, u: DateTime)
    requires SameCharge(c, r)
    ensures var afterC, afterR := PairAfter(x, PairRule(x, c, t)), PairAfter(x, PairRule(x, r, t));
            && PairRule(afterC, r, u).Some? == PairRule(x, r, t).Some?
            && PairRule(afterR, c, u).Some? == PairRule(x, c, t).Some?
            && PairsAgree(PairAfter(afterC, PairRule(afterC, r, u)), PairAfter(afterR, PairRule(afterR, c, u)))
  {
    hide Latest, AddBillingPeriod;
  }

  /** On a card, two commits extend the subscription once if the date is new, and else not at all. */
  lemma PairsExtendOnce(x: Pair, c: Payload, r: Payload, t: DateTime, u: DateTime)
    requires SameCharge(c, r) && x.payment.paymentType == CreditCard && c.paymentDate.Some?
    requires PairRule(x, c, t).Some? && PairRule(PairRule(x, c, t).value, r, u).Some?
    ensures Extended(x.sub, c.paymentDate.value)
            == Some(PairRule(PairRule(x, c, t).value, r, u).value.sub)
  {
    hide Latest, AddBillingPeriod;
  }

  // ---------------------------------------------------------------- from pairs to the store

  predicate CanWrite(ps: seq<PaymentRow>, i: nat, row: PaymentRow) {
    row.providerPaymentId != "" && !PaymentClash(ps, i, row)
  }

  /** The state with these two rows in place. */
  function Put(s: Store, k: nat, i: nat, x: Pair): Store
    requires k < |s.subscriptions| && i <= |s.payments|
  {
    s.(subscriptions := s.subscriptions[k := x.sub],
       payments := if i == |s.payments| then s.payments + [x.payment] else s.payments[i := x.payment])
  }

  lemma PutIsWriteBoth(s: Store, k: nat, i: nat, x: Pair)
    requires Valid(s) && k < |s.subscriptions| && i <= |s.payments| && SameSubscription(s.subscriptions[k], x.sub)
    ensures WriteBoth(s, k, x.sub, i, x.payment) == if CanWrite(s.payments, i, x.payment) then Some(Put(s, k, i, x)) else None
  {
    assert !SubscriptionClash(s.subscriptions, k, x.sub);
  }

  lemma PairRuleKeepsIdentity(x: Pair, p: Payload, now: DateTime)
    ensures var y := PairRule(x, p, now);
            y.Some? ==>
              && SameSubscription(x.sub, y.value.sub) && y.value.sub.webhookLink == x.sub.webhookLink
              && y.value.payment.providerPaymentId == x.payment.providerPaymentId
              && y.value.payment.systemPaymentId == x.payment.systemPaymentId
              && y.value.payment.fromSystem == x.payment.fromSystem
              && y.value.payment.paymentType == x.payment.paymentType
  {
    hide Latest, AddBillingPeriod;
  }

  /** The pair a webhook works on, where it works. */
  datatype Place = Nowhere | Place(k: nat, i: nat, pair: Pair)

  function PlaceOf(s: Store, p: Payload, now: DateTime): (r: Place)
    ensures r.Place? ==> r.k < |s.subscriptions| && r.i <= |s.payments|
  {
    var k := FindSubscription(s.subscriptions, p.subscription);
    if k.None? then Nowhere
    else
      var target := Target(s, k.value, p, now);
      if target.None? then Nowhere
      else Place(k.value, target.value.0, Pair(s.subscriptions[k.value], target.value.1))
  }

  /** One webhook of the charge: its pair is moved by the rule, or nothing happens. */
  function Moved(s: Store, p: Payload, now: DateTime): Store {
    var place := PlaceOf(s, p, now);
    if place.Nowhere? || !CanWrite(s.payments, place.i, place.pair.payment) || PairRule(place.pair, p, now).None? then s
    else Put(s, place.k, place.i, PairRule(place.pair, p, now).value)
  }

  predicate Commits(s: Store, p: Payload, now: DateTime) {
    var place := PlaceOf(s, p, now);
    place.Place? && CanWrite(s.payments, place.i, place.pair.payment) && PairRule(place.pair, p, now).Some?
  }

  predicate FreshCharge(s: Store, p: Payload) {
    && p.event in {PaymentConfirmed, PaymentReceived} && p.subscription != ""
    && IdOf(p).Some? && IdOf(p).value !in s.events
  }

  lemma ReceivedMoves(s: Store, p: Payload, id: string, now: DateTime)
    requires Valid(s) && p.event == PaymentReceived
    ensures var r := HandleReceived(s, p, id, now);
            && r.Commit? == Commits(s, p, now)
            && (r.Commit? ==> r.store == MarkProcessed(Moved(s, p, now), id, p.event)
                              && r.notice == Some(Notice(NotifyReceived, Some(PlaceOf(s, p, now).i), Some(PlaceOf(s, p, now).k))))
  {
    hide Valid, CanWrite, WriteBoth, Extended, Pay;
    var place := PlaceOf(s, p, now);
    if place.Place? {
      PairRuleKeepsIdentity(place.pair, p, now);
      if PairRule(place.pair, p, now).Some? {
        var y := PairRule(place.pair, p, now).value;
        PutIsWriteBoth(s, place.k, place.i, y);
        SameIdsSameClash(s.payments, place.i, place.pair.payment, y.payment);
      }
      PaidPlaceIsStored(s, p, now);
    }
    LocatedHasPlace(s, p, now);
  }

  lemma SameIdsSameClash(ps: seq<PaymentRow>, i: nat, a: PaymentRow, b: PaymentRow)
    requires a.providerPaymentId == b.providerPaymentId && a.systemPaymentId == b.systemPaymentId
    requires a.fromSystem == b.fromSystem
    ensures CanWrite(ps, i, a) == CanWrite(ps, i, b)
  {
  }

  lemma LocatedHasPlace(s: Store, p: Payload, now: DateTime)
    ensures var k := FindSubscription(s.subscriptions, p.subscription);
            k.Some? && Locate(s.payments, k.value, s.subscriptions[k.value].gatewaySubscriptionId, p.paymentId).Some? ==>
              PlaceOf(s, p, now).Place?
  {
  }

  /** A row found paid, or found and left as it is, is the stored one. */
  lemma PaidPlaceIsStored(s: Store, p: Payload, now: DateTime)
    requires Valid(s) && PlaceOf(s, p, now).Place?
    ensures var place := PlaceOf(s, p, now);
            place.pair.payment.status != Pending ==>
              && place.i < |s.payments| && CanWrite(s.payments, place.i, place.pair.payment)
              && Put(s, place.k, place.i, place.pair) == s
  {
  }

  lemma ConfirmedMoves(s: Store, p: Payload, id: string, now: DateTime)
    requires Valid(s) && p.event == PaymentConfirmed
    ensures var r := HandleConfirmed(s, p, id, now);
            && r.Commit? == Commits(s, p, now)
            && (r.Commit? ==>
                  var place := PlaceOf(s, p, now);
                  && r.store == MarkProcessed(Moved(s, p, now), id, p.event)
                  && r.notice == Some(Notice(if place.pair.payment.paymentType == CreditCard then NotifyReceived
                                             else NotifyStatusUpdated, Some(place.i), Some(place.k))))
  {
    hide Valid, CanWrite, WriteBoth, Extended;
    var place := PlaceOf(s, p, now);
    if place.Place? {
      PairRuleKeepsIdentity(place.pair, p, now);
      if PairRule(place.pair, p, now).Some? {
        var y := PairRule(place.pair, p, now).value;
        PutIsWriteBoth(s, place.k, place.i, y);
        SameIdsSameClash(s.payments, place.i, place.pair.payment, y.payment);
      }
      PaidPlaceIsStored(s, p, now);
    }
  }

  lemma OneWebhook(s: Store, p: Payload, now: DateTime)
    requires Valid(s) && FreshCharge(s, p)
    ensures After(s, p, now) == if Commits(s, p, now) then MarkProcessed(Moved(s, p, now), IdOf(p).value, p.event) else s
    ensures Handle(s, p, now).Commit? == Commits(s, p, now)
  {
    hide EventId, Valid, HandleReceived, HandleConfirmed, Commits, Moved;
    if p.event == PaymentReceived { ReceivedMoves(s, p, IdOf(p).value, now); }
    else { ConfirmedMoves(s, p, IdOf(p).value, now); }
  }

  // ---------------------------------------------------------------- two webhooks

  /** After a commit, the charge's other webhook finds exactly the moved pair. */
  lemma PlaceAfterCommit(s: Store, p: Payload, q: Payload, t: DateTime, u: DateTime)
    requires Good(s) && FreshCharge(s, p) && Commits(s, p, t)
    requires q.subscription == p.subscription && q.paymentId == p.paymentId
    ensures var place := PlaceOf(s, p, t);
            var y := PairRule(place.pair, p, t).value;
            var next := After(s, p, t);
            && PlaceOf(next, q, u) == Place(place.k, place.i, y)
            && CanWrite(next.payments, place.i, y.payment)
            && place.i < |next.payments|
  {
    hide EventId, PairRule, Target;
    var place := PlaceOf(s, p, t);
    var y := PairRule(place.pair, p, t).value;
    OneWebhook(s, p, t);
    WebhookKeeps(s, p, t);
    PairRuleKeepsIdentity(place.pair, p, t);
    TargetCarriesId(s, place.k, p, t);
    FindsMoved(After(s, p, t), place.k, place.i, y, q, u);
  }

  lemma TargetCarriesId(s: Store, k: nat, p: Payload, now: DateTime)
    requires k < |s.subscriptions| && Target(s, k, p, now).Some?
    ensures Target(s, k, p, now).value.1.providerPaymentId == p.paymentId
  {
  }

  lemma FindsMoved(s: Store, k: nat, i: nat, y: Pair, q: Payload, now: DateTime)
    requires Valid(s) && k < |s.subscriptions| && i < |s.payments|
    requires s.subscriptions[k] == y.sub && s.payments[i] == y.payment
    requires y.sub.gatewaySubscriptionId == q.subscription && y.payment.providerPaymentId == q.paymentId
    ensures PlaceOf(s, q, now) == Place(k, i, y) && CanWrite(s.payments, i, y.payment)
  {
    assert FindSubscription(s.subscriptions, q.subscription) == Some(k);
    assert FindPayment(s.payments, q.paymentId) == Some(i);
  }

  /** Where nothing was committed, both webhooks find one place; a row made new
      differs only in its time. */
  lemma PlacesAgree(s: Store, p: Payload, q: Payload, t: DateTime, u: DateTime)
    requires q.subscription == p.subscription && q.paymentId == p.paymentId
    requires q.value == p.value && q.billingType == p.billingType
    ensures var a, b := PlaceOf(s, p, t), PlaceOf(s, q, u);
            a.Place? == b.Place?
            && (a.Place? ==> a.k == b.k && a.i == b.i && PairsAgree(a.pair, b.pair)
                             && CanWrite(s.payments, a.i, a.pair.payment) == CanWrite(s.payments, b.i, b.pair.payment))
  {
  }

  /** Equal states, but for the moments payments were last updated. */
  ghost predicate StoresAgree(a: Store, b: Store) {
    && a.subscriptions == b.subscriptions && a.operations == b.operations
    && a.events == b.events && a.deliveries == b.deliveries
    && |a.payments| == |b.payments|
    && forall i :: 0 <= i < |a.payments| ==> RowsAgree(a.payments[i], b.payments[i])
  }

  lemma PutsAgree(s: Store, k: nat, i: nat, x: Pair, y: Pair)
    requires k < |s.subscriptions| && i <= |s.payments| && PairsAgree(x, y)
    ensures StoresAgree(Put(s, k, i, x), Put(s, k, i, y))
  {
  }

  lemma ChargeIdsDiffer(c: Payload, r: Payload)
    requires SameCharge(c, r) && c.provider == r.provider && IdOf(c).Some? && IdOf(r).Some?
    ensures IdOf(c) != IdOf(r)
  {
    hide NoColon;
    ProviderNameHasNoColon(c.provider);
    EventNameHasNoColon(c.event);
    EventNameHasNoColon(r.event);
    var p := ProviderName(c.provider);
    var xc, xr := SourceOf(c.sourceEventId, c.paymentId), SourceOf(r.sourceEventId, r.paymentId);
    var k := SubscriptionPart(c.subscription);
    RegroupId(p, EventName(c.event), xc, k);
    RegroupId(p, EventName(r.event), xr, k);
    if IdOf(c) == IdOf(r) {
      SplitAtFirstColon(p, EventName(c.event) + ":" + (xc + ":" + k), p, EventName(r.event) + ":" + (xr + ":" + k));
      SplitAtFirstColon(EventName(c.event), xc + ":" + k, EventName(r.event), xr + ":" + k);
      EventNamesDiffer(c.event, r.event);
    }
  }

  /** The state after two webhooks of one charge, from the pair they share. */
  lemma TwoWebhooks(s: Store, p: Payload, q: Payload, t: DateTime, u: DateTime)
    requires Good(s) && FreshCharge(s, p) && FreshCharge(s, q) && IdOf(p) != IdOf(q)
    requires q.subscription == p.subscription && q.paymentId == p.paymentId
    requires q.value == p.value && q.billingType == p.billingType
    requires PlaceOf(s, p, t).Place? && CanWrite(s.payments, PlaceOf(s, p, t).i, PlaceOf(s, p, t).pair.payment)
    ensures var place := PlaceOf(s, p, t);
            var first := PairRule(place.pair, p, t);
            var between := PairAfter(place.pair, first);
            var second := PairRule(between, q, u);
            var end := After(After(s, p, t), q, u);
            && (first.None? && second.None? ==> end == s)
            && (first.Some? || second.Some? ==>
                  var events := end.events;
                  && StoresAgree(end, Put(s, place.k, place.i, PairAfter(between, second)).(events := events))
                  && events == (if second.Some? then WithEvent(if first.Some? then WithEvent(s.events, p) else s.events, q)
                                else WithEvent(s.events, p)))
  {
    hide EventId, PairRule, Target, Handle, CanWrite, Valid;
    var place := PlaceOf(s, p, t);
    var first := PairRule(place.pair, p, t);
    OneWebhook(s, p, t);
    var next := After(s, p, t);
    WebhookKeeps(s, p, t);
    if first.Some? {
      PlaceAfterCommit(s, p, q, t, u);
      StillFresh(s, p, q, t);
      OneWebhook(next, q, u);
    } else {
      PlacesAgree(s, p, q, t, u);
      RulesIgnoreUpdateTimes(place.pair, PlaceOf(s, q, u).pair, q, u, u);
      OneWebhook(s, q, u);
      if PairRule(place.pair, q, u).Some? {
        PutsAgree(s, place.k, place.i, PairRule(place.pair, q, u).value, PairRule(PlaceOf(s, q, u).pair, q, u).value);
      }
    }
  }

  function WithEvent(events: map<string, WebhookEvent>, p: Payload): map<string, WebhookEvent>
    requires IdOf(p).Some?
  {
    events[IdOf(p).value := WebhookEvent(p.event, true)]
  }

  lemma StillFresh(s: Store, p: Payload, q: Payload, t: DateTime)
    requires Good(s) && FreshCharge(s, p) && FreshCharge(s, q) && IdOf(p) != IdOf(q)
    ensures FreshCharge(After(s, p, t), q)
  {
    hide EventId;
    OneWebhook(s, p, t);
  }

  lemma ChargeHasOnePlace(s: Store, c: Payload, r: Payload, t: DateTime)
    requires SameCharge(c, r)
    ensures PlaceOf(s, c, t) == PlaceOf(s, r, t)
  {
  }

  lemma NothingToMove(s: Store, p: Payload, t: DateTime)
    requires Valid(s) && FreshCharge(s, p)
    requires PlaceOf(s, p, t).Nowhere? || !CanWrite(s.payments, PlaceOf(s, p, t).i, PlaceOf(s, p, t).pair.payment)
    ensures After(s, p, t) == s
  {
    hide EventId, PairRule, Target, Handle, CanWrite, Valid, After;
    OneWebhook(s, p, t);
  }

  /** Both orders of a charge's two webhooks commit the same payment,
      subscription and events, up to the payment's update time. */
  lemma ReorderingIsHarmless(s: Store, c: Payload, r: Payload, t: DateTime, u: DateTime)
    requires Good(s) && SameCharge(c, r) && c.provider == r.provider && FreshCharge(s, c) && FreshCharge(s, r)
    ensures StoresAgree(After(After(s, c, t), r, u), After(After(s, r, t), c, u))
  {
    hide EventId, PairRule, Target, Handle, CanWrite, Valid, After;
    ChargeIdsDiffer(c, r);
    ChargeHasOnePlace(s, c, r, t);
    var place := PlaceOf(s, c, t);
    if place.Place? && CanWrite(s.payments, place.i, place.pair.payment) {
      TwoWebhooks(s, c, r, t, u);
      TwoWebhooks(s, r, c, t, u);
      PairsCommute(place.pair, c, r, t, u);
      var afterC, afterR := PairAfter(place.pair, PairRule(place.pair, c, t)), PairAfter(place.pair, PairRule(place.pair, r, t));
      PutsAgree(s, place.k, place.i, PairAfter(afterC, PairRule(afterC, r, u)), PairAfter(afterR, PairRule(afterR, c, u)));
    } else {
      NothingToMove(s, c, t);
      NothingToMove(s, r, t);
      PlacesAgree(s, c, r, t, u);
      PlacesAgree(s, r, c, t, u);
      NothingToMove(s, r, u);
      NothingToMove(s, c, u);
    }
  }

  // ---------------------------------------------------------------- effects of the charge

  predicate OneCharge(p: Payload, q: Payload) {
    p.provider == q.provider && (SameCharge(p, q) || SameCharge(q, p))
  }

  predicate OnCard(s: Store, p: Payload, now: DateTime) {
    var place := PlaceOf(s, p, now);
    place.Place? && place.pair.payment.paymentType == CreditCard
  }

  /** In either order, the two commits of a card charge extend the subscription
      once when the date is new, and leave it as it was when it is not. */
  lemma ChargeExtendsOnce(s: Store, c: Payload, r: Payload, t: DateTime, u: DateTime)
    requires Good(s) && SameCharge(c, r) && c.provider == r.provider && FreshCharge(s, c) && FreshCharge(s, r)
    requires OnCard(s, c, t) && c.paymentDate.Some?
    requires Handle(s, c, t).Commit? && Handle(After(s, c, t), r, u).Commit?
    ensures var k := PlaceOf(s, c, t).k;
            var cr, rc := After(After(s, c, t), r, u).subscriptions, After(After(s, r, t), c, u).subscriptions;
            && cr == rc && k < |cr|
            && |cr| == |s.subscriptions| && (forall j :: 0 <= j < |cr| && j != k ==> cr[j] == s.subscriptions[j])
            && (if s.subscriptions[k].lastPaidDate == c.paymentDate then cr == s.subscriptions
                else s.subscriptions[k].status != Ended
                     && ExtendedByPeriod(s.subscriptions[k], cr[k], c.paymentDate.value))
  {
    hide EventId, PairRule, Target, Handle, CanWrite, Valid, After;
    ChargeIdsDiffer(c, r);
    ReorderingIsHarmless(s, c, r, t, u);
    var place := PlaceOf(s, c, t);
    OneWebhook(s, c, t);
    StillFresh(s, c, r, t);
    PlaceAfterCommit(s, c, r, t, u);
    WebhookKeeps(s, c, t);
    OneWebhook(After(s, c, t), r, u);
    PairsExtendOnce(place.pair, c, r, t, u);
    ExtendsByPeriod(s.subscriptions[place.k], c.paymentDate.value);
  }

  // ---------------------------------------------------------------- extensions by date

  /** A card charge's webhook finds a new date, and is not a repeated RECEIVED. */
  predicate FindsNewDate(x: Pair, p: Payload) {
    x.sub.lastPaidDate != p.paymentDate && !(p.event == PaymentReceived && x.payment.status == Paid)
  }

  lemma PairExtendsExactly(x: Pair, p: Payload, now: DateTime)
    requires p.event in {PaymentConfirmed, PaymentReceived} && p.paymentDate.Some?
    requires x.payment.paymentType == CreditCard && PairRule(x, p, now).Some?
    ensures var y := PairRule(x, p, now).value;
            && (Before(x.sub.expiresAt, y.sub.expiresAt) <==> FindsNewDate(x, p))
            && (if FindsNewDate(x, p) then ExtendedByPeriod(x.sub, y.sub, p.paymentDate.value) else y.sub == x.sub)
            && (x.payment.status != Paid ==> y.sub.lastPaidDate == p.paymentDate)
            && (y.payment.status == Paid <==> p.event == PaymentReceived || x.payment.status == Paid)
  {
    hide Latest, AddBillingPeriod, PeriodAfter;
    ExtendsByPeriod(x.sub, p.paymentDate.value);
    LatestThenExtended(p.paymentDate.value, x.sub.expiresAt, x.sub.subscriptionType);
    NeverBeforeItself(x.sub.expiresAt);
  }

  lemma NeverBeforeItself(t: DateTime)
    ensures !Before(t, t)
  {
  }

  /** One commit on a card extends the subscription exactly when its date is new
      to it and it is not a RECEIVED of a payment already paid. */
  lemma CommitExtendsExactly(s: Store, p: Payload, now: DateTime)
    requires Good(s) && FreshCharge(s, p) && OnCard(s, p, now) && p.paymentDate.Some? && Handle(s, p, now).Commit?
    ensures var place := PlaceOf(s, p, now);
            var after := After(s, p, now).subscriptions;
            && place.k < |after|
            && (Before(s.subscriptions[place.k].expiresAt, after[place.k].expiresAt) <==> FindsNewDate(place.pair, p))
            && (if FindsNewDate(place.pair, p)
                then ExtendedByPeriod(s.subscriptions[place.k], after[place.k], p.paymentDate.value)
                else after[place.k] == s.subscriptions[place.k])
  {
    hide EventId, PairRule, Target, Handle, CanWrite, Valid, After, Before, FindsNewDate, ExtendedByPeriod;
    OneWebhook(s, p, now);
    PairExtendsExactly(PlaceOf(s, p, now).pair, p, now);
    PlaceIsStored(s, p, now);
  }

  lemma PlaceIsStored(s: Store, p: Payload, now: DateTime)
    ensures var place := PlaceOf(s, p, now); place.Place? ==> place.pair.sub == s.subscriptions[place.k]
  {
    hide Target;
  }

  /** CONFIRMED and RECEIVED of one invoice, either way round, with whatever dates. */
  predicate OneInvoice(p: Payload, q: Payload) {
    && p.subscription == q.subscription != "" && p.paymentId == q.paymentId
    && p.event != q.event && p.event in {PaymentConfirmed, PaymentReceived} && q.event in {PaymentConfirmed, PaymentReceived}
  }

  /** The two webhooks of one card invoice that was not paid: the first extends
      exactly when its date is not the last one, and the second exactly when its
      date is not the first's. With three different dates one charge extends the
      subscription twice. */
  lemma TwoDatesExtendTwice(s: Store, p: Payload, q: Payload, t: DateTime, u: DateTime)
    requires Good(s) && OneInvoice(p, q) && FreshCharge(s, p) && FreshCharge(s, q) && IdOf(p) != IdOf(q)
    requires OnCard(s, p, t) && p.paymentDate.Some? && q.paymentDate.Some?
    requires PlaceOf(s, p, t).pair.payment.status != Paid
    requires Handle(s, p, t).Commit? && Handle(After(s, p, t), q, u).Commit?
    ensures var k := PlaceOf(s, p, t).k;
            var one, two := After(s, p, t).subscriptions, After(After(s, p, t), q, u).subscriptions;
            && k < |one| && k < |two|
            && (Before(s.subscriptions[k].expiresAt, one[k].expiresAt) <==> s.subscriptions[k].lastPaidDate != p.paymentDate)
            && (Before(one[k].expiresAt, two[k].expiresAt) <==> q.paymentDate != p.paymentDate)
            && (s.subscriptions[k].lastPaidDate != p.paymentDate ==>
                  ExtendedByPeriod(s.subscriptions[k], one[k], p.paymentDate.value))
            && (if q.paymentDate == p.paymentDate then two[k] == one[k]
                else ExtendedByPeriod(one[k], two[k], q.paymentDate.value))
  {
    hide EventId, PairRule, Target, Handle, CanWrite, Valid, After, Before, ExtendedByPeriod;
    var place := PlaceOf(s, p, t);
    CommitExtendsExactly(s, p, t);
    OneWebhook(s, p, t);
    PlaceAfterCommit(s, p, q, t, u);
    StillFresh(s, p, q, t);
    WebhookKeeps(s, p, t);
    PairExtendsExactly(place.pair, p, t);
    PairRuleKeepsIdentity(place.pair, p, t);
    PlaceIsStored(s, p, t);
    CommitExtendsExactly(After(s, p, t), q, u);
    PlaceIsStored(After(s, p, t), q, u);
  }

  lemma CommitNotice(s: Store, p: Payload, now: DateTime)
    requires Valid(s) && FreshCharge(s, p) && Handle(s, p, now).Commit? && OnCard(s, p, now)
    ensures var place := PlaceOf(s, p, now);
            Handle(s, p, now).notice == Some(Notice(NotifyReceived, Some(place.i), Some(place.k)))
  {
    hide EventId, PairRule, Target, CanWrite, Valid, HandleReceived, HandleConfirmed;
    if p.event == PaymentReceived { ReceivedMoves(s, p, IdOf(p).value, now); }
    else { ConfirmedMoves(s, p, IdOf(p).value, now); }
  }

  /** The deliveries with one more under `key`, unless one is there or nobody listens. */
  predicate NotifiedOnce(before: seq<DeliveryRow>, after: seq<DeliveryRow>, key: DeliveryKey, listener: string) {
    if listener == "" || HasDelivery(before, key) then after == before
    else |after| == |before| + 1 && after[..|before|] == before && after[|before|].key == key
  }

  function ReceivedKey(s: Store, p: Payload, now: DateTime): DeliveryKey
    requires PlaceOf(s, p, now).Place?
  {
    SubscriptionNotice(NotifyReceived, PlaceOf(s, p, now).k, Some(PlaceOf(s, p, now).i))
  }

  lemma CommitNotifies(s: Store, p: Payload, now: DateTime)
    requires Good(s) && FreshCharge(s, p) && Handle(s, p, now).Commit? && OnCard(s, p, now)
    ensures var after, end := After(s, p, now), Deliver(s, p, now);
            && Good(end) && end == after.(deliveries := end.deliveries)
            && NotifiedOnce(s.deliveries, end.deliveries, ReceivedKey(s, p, now),
                            s.subscriptions[PlaceOf(s, p, now).k].webhookLink)
  {
    hide EventId, PairRule, Target, Handle, CanWrite, Valid, AllDated, WriteBoth, StoreStep;
    var place := PlaceOf(s, p, now);
    OneWebhook(s, p, now);
    CommitNotice(s, p, now);
    NoticeBuilds(s, p, now);
    WebhookKeeps(s, p, now);
    PairRuleKeepsIdentity(place.pair, p, now);
    MovedKeepsDeliveries(s, p, now);
    var after := After(s, p, now);
    RecordKeeps(after, BuildDelivery(after, Handle(s, p, now).notice.value));
  }

  /** The two webhooks of a card charge, in either order, leave one delivery
      under the payment-received key: none if one was there, or nobody listens. */
  lemma ChargeNotifiesOnce(s: Store, p: Payload, q: Payload, t: DateTime, u: DateTime)
    requires Good(s) && OneCharge(p, q) && FreshCharge(s, p) && FreshCharge(s, q) && OnCard(s, p, t)
    requires Handle(s, p, t).Commit? && Handle(Deliver(s, p, t), q, u).Commit?
    ensures NotifiedOnce(s.deliveries, Deliver(Deliver(s, p, t), q, u).deliveries, ReceivedKey(s, p, t),
                         s.subscriptions[PlaceOf(s, p, t).k].webhookLink)
  {
    hide EventId, PairRule, Target, Handle, CanWrite, Valid, AllDated, Deliver;
    if SameCharge(p, q) { ChargeIdsDiffer(p, q); } else { ChargeIdsDiffer(q, p); }
    var place := PlaceOf(s, p, t);
    OneWebhook(s, p, t);
    CommitNotifies(s, p, t);
    PairRuleKeepsIdentity(place.pair, p, t);
    StillFresh(s, p, q, t);
    TargetCarriesId(s, place.k, p, t);
    FindsMoved(Deliver(s, p, t), place.k, place.i, PairRule(place.pair, p, t).value, q, u);
    CommitNotifies(Deliver(s, p, t), q, u);
  }

  lemma MovedKeepsDeliveries(s: Store, p: Payload, now: DateTime)
    ensures Moved(s, p, now).deliveries == s.deliveries
  {
  }
}
