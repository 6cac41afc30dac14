/** The identity under which a webhook is processed at most once. */
module EventIds {
  import opened Entities
  import opened Storage

  function ProviderName(g: GatewayProvider): string {
    match g
    case Asaas => "asaas"
    case MercadoPago => "mercadopago"
  }

  function EventName(e: EventType): string {
    match e
    case CheckoutCreated => "CHECKOUT_CREATED"
    case CheckoutPaid => "CHECKOUT_PAID"
    case CheckoutCanceled => "CHECKOUT_CANCELED"
    case CheckoutExpired => "CHECKOUT_EXPIRED"
    case PaymentConfirmed => "PAYMENT_CONFIRMED"
    case PaymentReceived => "PAYMENT_RECEIVED"
    case PaymentOverdue => "PAYMENT_OVERDUE"
    case PaymentRefunded => "PAYMENT_REFUNDED"
    case PaymentChargebackRequested => "PAYMENT_CHARGEBACK_REQUESTED"
    case PaymentDeleted => "PAYMENT_DELETED"
    case SubscriptionInactivated => "SUBSCRIPTION_INACTIVATED"
    case SubscriptionDeleted => "SUBSCRIPTION_DELETED"
    case UnknownEvent => "__UNKNOWN__"
  }

  const PLACEHOLDER := "no-subscription"

  function SourceOf(sourceEventId: string, paymentId: string): string {
    if sourceEventId != "" then sourceEventId else paymentId
  }

  function SubscriptionPart(subscription: string): string {
    if subscription == "" then PLACEHOLDER else subscription
  }

  /** `WebhookPayload.event_id_for`: no id when nothing identifies the event. */
  function EventId(provider: GatewayProvider, event: EventType, sourceEventId: string, paymentId: string,
                   subscription: string)
    : Option<string>
  {
    var source := SourceOf(sourceEventId, paymentId);
    if source == "" then None
    else Some(ProviderName(provider) + ":" + EventName(event) + ":" + source + ":" + SubscriptionPart(subscription))
  }

  /** The parts in their order, with the payment's id and the placeholder standing in. */
  lemma EventIdsRead(source: string, payment: string, subscription: string)
    requires source != "" && payment != "" && subscription != ""
    ensures EventId(Asaas, PaymentReceived, source, payment, subscription)
            == Some("asaas" + ":" + "PAYMENT_RECEIVED" + ":" + source + ":" + subscription)
    ensures EventId(MercadoPago, CheckoutPaid, "", payment, "")
            == Some("mercadopago" + ":" + "CHECKOUT_PAID" + ":" + payment + ":" + "no-subscription")
    ensures EventId(Asaas, CheckoutPaid, "", "", subscription) == None
  {
  }

  predicate NoColon(s: string) {
    forall i :: 0 <= i < |s| ==> s[i] != ':'
  }

  /** A subscription id whose event ids cannot be read in two ways. */
  predicate PlainSubscription(s: string) {
    NoColon(s) && s != PLACEHOLDER
  }

  /** Texts split at their first colon in one way. */
  lemma SplitAtFirstColon(a: string, x: string, b: string, y: string)
    requires NoColon(a) && NoColon(b) && a + ":" + x == b + ":" + y
    ensures a == b && x == y
  {
    var s := a + ":" + x;
    assert s[|a|] == ':' && s[|b|] == ':';
    assert forall i :: 0 <= i < |a| ==> s[i] == a[i];
    assert forall i :: 0 <= i < |b| ==> s[i] == b[i];
    assert a == s[..|a|] && b == s[..|b|];
    assert x == s[|a| + 1..] && y == s[|b| + 1..];
  }

  /** Texts split at their last colon in one way. */
  lemma SplitAtLastColon(x: string, a: string, y: string, b: string)
    requires NoColon(a) && NoColon(b) && x + ":" + a == y + ":" + b
    ensures a == b && x == y
  {
    var s := x + ":" + a;
    assert s[|x|] == ':' && s[|y|] == ':';
    assert forall i :: |x| < i < |s| ==> s[i] == a[i - |x| - 1];
    assert forall i :: |y| < i < |s| ==> s[i] == b[i - |y| - 1];
    assert x == s[..|x|] && y == s[..|y|];
    assert a == s[|x| + 1..] && b == s[|y| + 1..];
  }

  lemma ProviderNameHasNoColon(g: GatewayProvider)
    ensures NoColon(ProviderName(g))
  {
    match g
    case Asaas =>
    case MercadoPago =>
  }

  lemma PaymentEventNameHasNoColon(e: EventType)
    requires e in {PaymentConfirmed, PaymentReceived, PaymentOverdue, PaymentRefunded, PaymentDeleted}
    ensures NoColon(EventName(e))
  {
  }

  lemma CheckoutEventNameHasNoColon(e: EventType)
    requires e in {CheckoutCreated, CheckoutPaid, CheckoutCanceled, CheckoutExpired}
    ensures NoColon(EventName(e))
  {
  }

  lemma OtherEventNameHasNoColon(e: EventType)
    requires e in {PaymentChargebackRequested, SubscriptionInactivated, SubscriptionDeleted, UnknownEvent}
    ensures NoColon(EventName(e))
  {
  }

  lemma EventNameHasNoColon(e: EventType)
    ensures NoColon(EventName(e))
  {
    hide NoColon, EventName;
    if e in {CheckoutCreated, CheckoutPaid, CheckoutCanceled, CheckoutExpired} { CheckoutEventNameHasNoColon(e); }
    else if e in {PaymentChargebackRequested, SubscriptionInactivated, SubscriptionDeleted, UnknownEvent} {
      OtherEventNameHasNoColon(e);
    }
    else { PaymentEventNameHasNoColon(e); }
  }

  lemma EventNamesDiffer(d: EventType, e: EventType)
    requires EventName(d) == EventName(e)
    ensures d == e
  {
    var n := EventName(d);
    assert |n| > 10;
    if n[0] == 'C' { assert n[9] == EventName(e)[9] && n[10] == EventName(e)[10]; }
    else if n[0] == 'P' { assert n[8] == EventName(e)[8] && n[10] == EventName(e)[10]; }
    else if n[0] == 'S' { assert n[13] == EventName(e)[13]; }
  }

  lemma ProviderNamesDiffer(g: GatewayProvider, h: GatewayProvider)
    requires ProviderName(g) == ProviderName(h)
    ensures g == h
  {
    assert ProviderName(g)[0] == ProviderName(h)[0];
  }

  lemma RegroupId(p: string, n: string, s: string, k: string)
    ensures p + ":" + n + ":" + s + ":" + k == p + ":" + (n + ":" + (s + ":" + k))
  {
  }

  lemma PartsOfId(p: string, n: string, s: string, k: string, p': string, n': string, s': string, k': string)
    requires NoColon(p) && NoColon(p') && NoColon(n) && NoColon(n') && NoColon(k) && NoColon(k')
    requires p + ":" + n + ":" + s + ":" + k == p' + ":" + n' + ":" + s' + ":" + k'
    ensures p == p' && n == n' && s == s' && k == k'
  {
    hide NoColon;
    RegroupId(p, n, s, k);
    RegroupId(p', n', s', k');
    SplitAtFirstColon(p, n + ":" + (s + ":" + k), p', n' + ":" + (s' + ":" + k'));
    SplitAtFirstColon(n, s + ":" + k, n', s' + ":" + k');
    SplitAtLastColon(s, k, s', k');
  }

  lemma SubscriptionPartIsPlain(sub: string)
    requires PlainSubscription(sub)
    ensures NoColon(SubscriptionPart(sub))
  {
  }

  lemma SubscriptionPartsDiffer(sub: string, sub': string)
    requires PlainSubscription(sub) && PlainSubscription(sub') && SubscriptionPart(sub) == SubscriptionPart(sub')
    ensures sub == sub'
  {
  }

  /** Two webhooks share an event id only if they agree on the gateway, the
      event, the source and the subscription. */
  lemma EventIdsAreInjective(
    g: GatewayProvider, e: EventType, source: string, payment: string, sub: string,
    g': GatewayProvider, e': EventType, source': string, payment': string, sub': string)
    requires PlainSubscription(sub) && PlainSubscription(sub')
    requires EventId(g, e, source, payment, sub).Some?
    requires EventId(g, e, source, payment, sub) == EventId(g', e', source', payment', sub')
    ensures g == g' && e == e' && sub == sub' && SourceOf(source, payment) == SourceOf(source', payment')
  {
    hide EventName, ProviderName, NoColon, PlainSubscription, SubscriptionPart, SourceOf;
    ProviderNameHasNoColon(g);
    ProviderNameHasNoColon(g');
    EventNameHasNoColon(e);
    EventNameHasNoColon(e');
    SubscriptionPartIsPlain(sub);
    SubscriptionPartIsPlain(sub');
    PartsOfId(ProviderName(g), EventName(e), SourceOf(source, payment), SubscriptionPart(sub),
              ProviderName(g'), EventName(e'), SourceOf(source', payment'), SubscriptionPart(sub'));
    SubscriptionPartsDiffer(sub, sub');
    EventNamesDiffer(e, e');
    ProviderNamesDiffer(g, g');
  }

  /** A colon in a subscription id, or the placeholder itself, makes two
      different webhooks share an id. */
  lemma AmbiguousEventIds(g: GatewayProvider, e: EventType)
    ensures EventId(g, e, "a:b", "", "c") == EventId(g, e, "a", "", "b:c")
    ensures EventId(g, e, "a", "", PLACEHOLDER) == EventId(g, e, "a", "", "")
  {
    var p, n := ProviderName(g), EventName(e);
    assert p + ":" + n + ":" + "a:b" + ":" + "c" == p + ":" + n + ":" + "a" + ":" + "b:c";
  }
}
