/** The event router of internal/processor/handler.go.

    `Step` is the specification: what one ProcessEvent call does to the
    observable `World` (the processor's calls to its collaborators, the
    dialer's log and the store) and what it returns. The class
    `NotificationProcessor` implements it statement by statement. */
module Processor {
  import opened Wrappers
  import opened Events
  import opened Models
  import opened Templates
  import opened Senders
  import opened Store

  const OrderCreatedTopic := "order.created"
  const PaymentSuccessTopic := "payment.success"
  const OrderCancelledTopic := "order.cancelled"
  const PaymentFailedTopic := "payment.failed"

  /** The address used when an event names no recipient. */
  const FallbackRecipient := "customer@example.com"

  /** What the payment-success body shows as the amount. */
  const PaidAmount := "PAID"

  /** A call the processor makes to one of its collaborators. */
  datatype Call =
    | EmailCall(to: string, subject: string, body: string)
    | SmsCall(to: string, message: string)
    | CreateCall(record: Record)

  /** What a ProcessEvent call can change. */
  datatype World = World(calls: seq<Call>, sent: seq<Mail>, store: StoreState)

  /** What a ProcessEvent call depends on besides the world: the JSON parser,
      the configuration, and the outcomes of transport, inserts and clock. */
  datatype Wiring = Wiring(parse: Parser, settings: Settings, sendFate: (nat, Mail) -> Option<string>,
                           insertFate: (nat, Record) -> Option<string>, tick: nat -> nat)

  /** The branches of the switch on the topic. */
  datatype Branch = OrderCreatedBranch | PaymentSuccessBranch | NotYetHandled | UnknownTopic

  function BranchOf(topic: string): (b: Branch)
    ensures b == OrderCreatedBranch <==> topic == OrderCreatedTopic
    ensures b == PaymentSuccessBranch <==> topic == PaymentSuccessTopic
    ensures b == NotYetHandled <==> topic == OrderCancelledTopic || topic == PaymentFailedTopic
  {
    if topic == OrderCreatedTopic then OrderCreatedBranch
    else if topic == PaymentSuccessTopic then PaymentSuccessBranch
    else if topic == OrderCancelledTopic || topic == PaymentFailedTopic then NotYetHandled
    else UnknownTopic
  }

  /** The recipient of an order-created email. */
  function OrderCreatedRecipient(e: OrderCreatedEvent): string {
    if e.userEmail == "" then FallbackRecipient else e.userEmail
  }

  /** The status and error text a send outcome is recorded as. */
  function Outcome(sendErr: Option<string>): (Status, string) {
    match sendErr
    case None => (Sent, "")
    case Some(text) => (Failed, text)
  }

  /** The record handleOrderCreated builds. */
  function OrderCreatedRecord(e: OrderCreatedEvent, sendErr: Option<string>): Record {
    Record(None, OrderCreatedTopic, e.orderId, e.userId, OrderCreatedPayload(e), Email,
           Outcome(sendErr).0, Outcome(sendErr).1, ZeroTime, ZeroTime)
  }

  /** The record handlePaymentSuccess builds. */
  function PaymentSuccessRecord(e: PaymentEvent, sendErr: Option<string>): Record {
    Record(None, PaymentSuccessTopic, e.orderId, "", PaymentPayload(e), Email,
           Outcome(sendErr).0, Outcome(sendErr).1, ZeroTime, ZeroTime)
  }

  /** The record reflects the send outcome: SENT with no error text exactly when
      the send returned nil, FAILED with the send error's text otherwise. It
      names the handled topic and the order (never the payment), goes by
      email, and carries the user only for an order-created event. */
  lemma RecordsReflectDelivery(o: OrderCreatedEvent, p: PaymentEvent, sendErr: Option<string>)
    ensures var r := OrderCreatedRecord(o, sendErr);
            && (r.status == Sent <==> sendErr.None?)
            && (r.status == Failed ==> r.error == sendErr.value)
            && (r.status == Sent ==> r.error == "")
            && r.eventType == OrderCreatedTopic && r.reference == o.orderId && r.userId == o.userId
            && r.channel == Email && r.id.None? && r.payload == OrderCreatedPayload(o)
    ensures var r := PaymentSuccessRecord(p, sendErr);
            && (r.status == Sent <==> sendErr.None?)
            && (r.status == Failed ==> r.error == sendErr.value)
            && (r.status == Sent ==> r.error == "")
            && r.eventType == PaymentSuccessTopic && r.reference == p.orderId && r.userId == ""
            && r.channel == Email && r.id.None? && r.payload == PaymentPayload(p)
  {
  }

  /** The email sender's call, as seen in the world. */
  function Deliver(w: World, c: Wiring, to: string, subject: string, body: string): (World, Option<string>) {
    var (sent, err) := EmailEffect(c.settings, c.sendFate, w.sent, to, subject, body);
    (w.(calls := w.calls + [EmailCall(to, subject, body)], sent := sent), err)
  }

  /** The repository's Create call, as seen in the world. */
  function Persist(w: World, c: Wiring, rec: Record): (World, Option<string>) {
    var (store, _, err) := CreateEffect(w.store, c.insertFate, c.tick, rec);
    (w.(calls := w.calls + [CreateCall(rec)], store := store), err)
  }

  /** The subject and body of an order-created email. */
  function OrderCreatedMail(e: OrderCreatedEvent): (string, string) {
    SubjectsEndWithOrderId(e.orderId);
    OrderCreatedBodyRenders(e.orderId);
    (Sprintf(OrderCreatedSubject, [e.orderId]), Sprintf(OrderCreatedBody, [e.orderId]))
  }

  /** The subject and body of a payment-success email. */
  function PaymentSuccessMail(e: PaymentEvent): (string, string) {
    SubjectsEndWithOrderId(e.orderId);
    PaymentSuccessBodyRenders(e.orderId, PaidAmount);
    (Sprintf(PaymentSuccessSubject, [e.orderId]), Sprintf(PaymentSuccessBody, [e.orderId, PaidAmount]))
  }

  /** handleOrderCreated: a decode error changes nothing and is returned with
      the `invalid payload: ` prefix; a decoded event adds one email call and
      then one Create call, and only extends the transport log and the store. */
  function OrderCreatedStep(w: World, c: Wiring, payload: Bytes): (r: (World, Option<string>))
    ensures DecodeOrderCreated(c.parse, payload).Err? ==>
              r == (w, Some("invalid payload: " + DecodeOrderCreated(c.parse, payload).error))
    ensures DecodeOrderCreated(c.parse, payload).Ok? ==>
              && |r.0.calls| == |w.calls| + 2 && r.0.calls[..|w.calls|] == w.calls
              && r.0.calls[|w.calls|].EmailCall? && r.0.calls[|w.calls| + 1].CreateCall?
              && r.0.store.attempts == w.store.attempts + 1
              && w.sent <= r.0.sent && w.store.docs <= r.0.store.docs
  {
    match DecodeOrderCreated(c.parse, payload)
    case Err(e) => (w, Some("invalid payload: " + e))
    case Ok(event) =>
      var (subject, body) := OrderCreatedMail(event);
      var (w1, sendErr) := Deliver(w, c, OrderCreatedRecipient(event), subject, body);
      Persist(w1, c, OrderCreatedRecord(event, sendErr))
  }

  /** handlePaymentSuccess, with the same shape of effects as OrderCreatedStep. */
  function PaymentSuccessStep(w: World, c: Wiring, payload: Bytes): (r: (World, Option<string>))
    ensures DecodePayment(c.parse, payload).Err? ==>
              r == (w, Some("invalid payload: " + DecodePayment(c.parse, payload).error))
    ensures DecodePayment(c.parse, payload).Ok? ==>
              && |r.0.calls| == |w.calls| + 2 && r.0.calls[..|w.calls|] == w.calls
              && r.0.calls[|w.calls|].EmailCall? && r.0.calls[|w.calls| + 1].CreateCall?
              && r.0.store.attempts == w.store.attempts + 1
              && w.sent <= r.0.sent && w.store.docs <= r.0.store.docs
  {
    match DecodePayment(c.parse, payload)
    case Err(e) => (w, Some("invalid payload: " + e))
    case Ok(event) =>
      var (subject, body) := PaymentSuccessMail(event);
      var (w1, sendErr) := Deliver(w, c, FallbackRecipient, subject, body);
      Persist(w1, c, PaymentSuccessRecord(event, sendErr))
  }

  /** ProcessEvent: only a decoded event on a routed topic changes the world,
      and then only by extending the calls, the transport log and the store. */
  function Step(w: World, c: Wiring, topic: string, payload: Bytes): (r: (World, Option<string>))
    ensures topic != OrderCreatedTopic && topic != PaymentSuccessTopic ==> r == (w, None)
    ensures !Dispatched(c, (topic, payload)) ==> r.0 == w
    ensures w.calls <= r.0.calls && w.sent <= r.0.sent && w.store.docs <= r.0.store.docs
  {
    match BranchOf(topic)
    case OrderCreatedBranch => OrderCreatedStep(w, c, payload)
    case PaymentSuccessBranch => PaymentSuccessStep(w, c, payload)
    case NotYetHandled => (w, None)
    case UnknownTopic => (w, None)
  }

  /** Processing a sequence of (topic, payload) deliveries one after another,
      whatever each call returns. */
  function Run(w: World, c: Wiring, deliveries: seq<(string, Bytes)>): (r: World)
    ensures w.calls <= r.calls && w.sent <= r.sent && w.store.docs <= r.store.docs
    decreases |deliveries|
  {
    if deliveries == [] then w
    else Run(Step(w, c, deliveries[0].0, deliveries[0].1).0, c, deliveries[1..])
  }

  /** A run in which no delivery is dispatched leaves the world unchanged. */
  lemma {:induction false} IdleRun(w: World, c: Wiring, deliveries: seq<(string, Bytes)>)
    requires forall i | 0 <= i < |deliveries| :: !Dispatched(c, deliveries[i])
    ensures Run(w, c, deliveries) == w
    decreases |deliveries|
  {
    if deliveries != [] {
      assert !Dispatched(c, deliveries[0]);
      IdleRun(w, c, deliveries[1..]);
    }
  }

  /** Whether ProcessEvent would decode this delivery and dispatch it. */
  predicate Dispatched(c: Wiring, d: (string, Bytes)) {
    || (d.0 == OrderCreatedTopic && DecodeOrderCreated(c.parse, d.1).Ok?)
    || (d.0 == PaymentSuccessTopic && DecodePayment(c.parse, d.1).Ok?)
  }

  /** Any topic but order.created and payment.success (order.cancelled and
      payment.failed included) changes nothing and returns nil. */
  lemma OtherTopicsAreIgnored(w: World, c: Wiring, topic: string, payload: Bytes)
    requires topic != OrderCreatedTopic && topic != PaymentSuccessTopic
    ensures Step(w, c, topic, payload) == (w, None)
  {
  }

  /** A payload that does not decode on a handled topic sends nothing, records
      nothing, and returns an error starting `invalid payload: `. */
  lemma DecodeErrorsChangeNothing(w: World, c: Wiring, topic: string, payload: Bytes)
    requires topic == OrderCreatedTopic || topic == PaymentSuccessTopic
    requires !Dispatched(c, (topic, payload))
    ensures Step(w, c, topic, payload).0 == w
    ensures var err := Step(w, c, topic, payload).1;
            err.Some? && |err.value| >= 17 && err.value[..17] == "invalid payload: "
  {
  }

  /** A decoded order-created event leads to exactly one email call, to the
      event's address or the fallback when it has none, and then exactly one
      Create call with the record of that send's outcome. The result is the
      Create call's result: a delivery failure is not returned. */
  lemma OrderCreatedEffects(w: World, c: Wiring, payload: Bytes)
    requires DecodeOrderCreated(c.parse, payload).Ok?
    ensures var e := DecodeOrderCreated(c.parse, payload).value;
            var to := if e.userEmail != "" then e.userEmail else FallbackRecipient;
            var subject := OrderCreatedSubjectPrefix + e.orderId;
            var body := OrderCreatedBodyHead + e.orderId + OrderCreatedBodyTail;
            var (w1, sendErr) := Deliver(w, c, to, subject, body);
            var rec := OrderCreatedRecord(e, sendErr);
            && Step(w, c, OrderCreatedTopic, payload).0.calls == w.calls + [EmailCall(to, subject, body), CreateCall(rec)]
            && Step(w, c, OrderCreatedTopic, payload).0.store.attempts == w.store.attempts + 1
            && Step(w, c, OrderCreatedTopic, payload).1 == c.insertFate(w.store.attempts, Stamp(w.store, c.tick, rec))
  {
    var e := DecodeOrderCreated(c.parse, payload).value;
    SubjectsEndWithOrderId(e.orderId);
    OrderCreatedBodyRenders(e.orderId);
  }

  /** A decoded payment-success event leads to exactly one email call, always
      to the fallback address, with the order id and `PAID` in the body, and
      then exactly one Create call; the result is the Create call's result. */
  lemma PaymentSuccessEffects(w: World, c: Wiring, payload: Bytes)
    requires DecodePayment(c.parse, payload).Ok?
    ensures var e := DecodePayment(c.parse, payload).value;
            var subject := PaymentSuccessSubjectPrefix + e.orderId;
            var body := PaymentSuccessBodyHead + e.orderId + PaymentSuccessBodyMiddle + PaidAmount + PaymentSuccessBodyTail;
            var (w1, sendErr) := Deliver(w, c, FallbackRecipient, subject, body);
            var rec := PaymentSuccessRecord(e, sendErr);
            && Step(w, c, PaymentSuccessTopic, payload).0.calls == w.calls + [EmailCall(FallbackRecipient, subject, body), CreateCall(rec)]
            && Step(w, c, PaymentSuccessTopic, payload).0.store.attempts == w.store.attempts + 1
            && Step(w, c, PaymentSuccessTopic, payload).1 == c.insertFate(w.store.attempts, Stamp(w.store, c.tick, rec))
  {
    var e := DecodePayment(c.parse, payload).value;
    SubjectsEndWithOrderId(e.orderId);
    PaymentSuccessBodyRenders(e.orderId, PaidAmount);
  }

  /** What every stored notification satisfies: the store is consistent, and
      every document is an email notification for a handled topic whose
      error text is empty exactly when it is SENT. */
  ghost predicate Audited(w: World) {
    && Consistent(w.store)
    && (forall i | 0 <= i < |w.store.docs| ::
          && w.store.docs[i].channel == Email
          && (w.store.docs[i].eventType == OrderCreatedTopic || w.store.docs[i].eventType == PaymentSuccessTopic)
          && (w.store.docs[i].status == Sent <==> w.store.docs[i].error == ""))
    && (forall i | 0 <= i < |w.calls| :: !w.calls[i].SmsCall?)
  }

  lemma StepKeepsAudited(w: World, c: Wiring, topic: string, payload: Bytes)
    requires Audited(w)
    ensures Audited(Step(w, c, topic, payload).0)
    ensures w.store.docs <= Step(w, c, topic, payload).0.store.docs
    ensures w.sent <= Step(w, c, topic, payload).0.sent
    ensures w.calls <= Step(w, c, topic, payload).0.calls
  {
    if topic == OrderCreatedTopic {
      OrderCreatedKeepsAudited(w, c, payload);
    } else if topic == PaymentSuccessTopic {
      PaymentSuccessKeepsAudited(w, c, payload);
    }
  }

  lemma OrderCreatedKeepsAudited(w: World, c: Wiring, payload: Bytes)
    requires Audited(w)
    ensures var w' := OrderCreatedStep(w, c, payload).0;
            Audited(w') && w.store.docs <= w'.store.docs && w.sent <= w'.sent && w.calls <= w'.calls
  {
    if DecodeOrderCreated(c.parse, payload).Ok? {
      var e := DecodeOrderCreated(c.parse, payload).value;
      var (subject, body) := OrderCreatedMail(e);
      var (w1, sendErr) := Deliver(w, c, OrderCreatedRecipient(e), subject, body);
      CreateKeepsConsistent(w1.store, c.insertFate, c.tick, OrderCreatedRecord(e, sendErr));
    }
  }

  lemma PaymentSuccessKeepsAudited(w: World, c: Wiring, payload: Bytes)
    requires Audited(w)
    ensures var w' := PaymentSuccessStep(w, c, payload).0;
            Audited(w') && w.store.docs <= w'.store.docs && w.sent <= w'.sent && w.calls <= w'.calls
  {
    if DecodePayment(c.parse, payload).Ok? {
      var e := DecodePayment(c.parse, payload).value;
      var (subject, body) := PaymentSuccessMail(e);
      var (w1, sendErr) := Deliver(w, c, FallbackRecipient, subject, body);
      CreateKeepsConsistent(w1.store, c.insertFate, c.tick, PaymentSuccessRecord(e, sendErr));
    }
  }

  /** Over any run: the store stays consistent and append-only, no stored
      record has channel SMS or an unhandled event type, FAILED records always
      carry their error text, and the SMS sender is never called. */
  lemma {:induction false} RunKeepsAudited(w: World, c: Wiring, deliveries: seq<(string, Bytes)>)
    requires Audited(w)
    ensures Audited(Run(w, c, deliveries))
    ensures w.store.docs <= Run(w, c, deliveries).store.docs
    decreases |deliveries|
  {
    if deliveries != [] {
      var w1 := Step(w, c, deliveries[0].0, deliveries[0].1).0;
      StepKeepsAudited(w, c, deliveries[0].0, deliveries[0].1);
      RunKeepsAudited(w1, c, deliveries[1..]);
    }
  }

  /** The number of deliveries ProcessEvent would dispatch. */
  function DispatchedCount(c: Wiring, deliveries: seq<(string, Bytes)>): nat
    decreases |deliveries|
  {
    if deliveries == [] then 0
    else (if Dispatched(c, deliveries[0]) then 1 else 0) + DispatchedCount(c, deliveries[1..])
  }

  /** Exactly one Create call, and one email call, per dispatched delivery;
      with email disabled, the transport is never called. */
  lemma {:induction false} RunCounts(w: World, c: Wiring, deliveries: seq<(string, Bytes)>)
    ensures Run(w, c, deliveries).store.attempts == w.store.attempts + DispatchedCount(c, deliveries)
    ensures |Run(w, c, deliveries).calls| == |w.calls| + 2 * DispatchedCount(c, deliveries)
    ensures |Run(w, c, deliveries).sent|
            == |w.sent| + if FlagOn(c.settings.featureFlags, EmailFlag) then DispatchedCount(c, deliveries) else 0
    decreases |deliveries|
  {
    if deliveries != [] {
      var (topic, payload) := deliveries[0];
      if topic == OrderCreatedTopic && DecodeOrderCreated(c.parse, payload).Ok? {
        OrderCreatedEffects(w, c, payload);
      } else if topic == PaymentSuccessTopic && DecodePayment(c.parse, payload).Ok? {
        PaymentSuccessEffects(w, c, payload);
      }
      RunCounts(Step(w, c, topic, payload).0, c, deliveries[1..]);
    }
  }

  /** The router. The SMS sender is held but never called. */
  class NotificationProcessor {
    const repo: Repository
    const emailSender: EmailSender
    const smsSender: SMSSender
    const settings: Settings
    const parse: Parser
    ghost var calls: seq<Call>

    constructor (repo: Repository, emailSender: EmailSender, smsSender: SMSSender, settings: Settings, parse: Parser)
      ensures this.repo == repo && this.emailSender == emailSender && this.smsSender == smsSender
      ensures this.settings == settings && this.parse == parse && calls == []
    {
      this.repo := repo;
      this.emailSender := emailSender;
      this.smsSender := smsSender;
      this.settings := settings;
      this.parse := parse;
      calls := [];
    }

    ghost function Observed(): World
      reads this, emailSender.dialer, repo.collection, repo.clock
    {
      World(calls, emailSender.dialer.sent, repo.State())
    }

    function Wired(): Wiring {
      Wiring(parse, settings, emailSender.dialer.fate, repo.collection.fate, repo.clock.tick)
    }

    method ProcessEvent(topic: string, payload: Bytes) returns (err: Option<string>)
      modifies this, emailSender.dialer, repo.collection, repo.clock
      ensures (Observed(), err) == Step(old(Observed()), Wired(), topic, payload)
    {
      err := None;
      match BranchOf(topic)
      case OrderCreatedBranch =>
        err := HandleOrderCreated(payload);
      case PaymentSuccessBranch =>
        err := HandlePaymentSuccess(payload);
      case NotYetHandled =>
      case UnknownTopic =>
    }

    method HandleOrderCreated(payload: Bytes) returns (err: Option<string>)
      modifies this, emailSender.dialer, repo.collection, repo.clock
      ensures (Observed(), err) == OrderCreatedStep(old(Observed()), Wired(), payload)
    {
      var decoded := DecodeOrderCreated(parse, payload);
      if decoded.Err? {
        return Some("invalid payload: " + decoded.error);
      }
      var event := decoded.value;
      var emailTo := event.userEmail;
      if emailTo == "" {
        emailTo := FallbackRecipient;
      }
      SubjectsEndWithOrderId(event.orderId);
      OrderCreatedBodyRenders(event.orderId);
      var subject := Sprintf(OrderCreatedSubject, [event.orderId]);
      var body := Sprintf(OrderCreatedBody, [event.orderId]);
      calls := calls + [EmailCall(emailTo, subject, body)];
      var sendErr := emailSender.Send(settings, emailTo, subject, body);

      var status := Sent;
      var errorMsg := "";
      if sendErr.Some? {
        status := Failed;
        errorMsg := sendErr.value;
      }

      var notif := new Notification(OrderCreatedTopic, event.orderId, event.userId, OrderCreatedPayload(event),
                                    Email, status, errorMsg);
      calls := calls + [CreateCall(notif.Value())];
      err := repo.Create(notif);
    }

    method HandlePaymentSuccess(payload: Bytes) returns (err: Option<string>)
      modifies this, emailSender.dialer, repo.collection, repo.clock
      ensures (Observed(), err) == PaymentSuccessStep(old(Observed()), Wired(), payload)
    {
      var decoded := DecodePayment(parse, payload);
      if decoded.Err? {
        return Some("invalid payload: " + decoded.error);
      }
      var event := decoded.value;
      SubjectsEndWithOrderId(event.orderId);
      PaymentSuccessBodyRenders(event.orderId, PaidAmount);
      var subject := Sprintf(PaymentSuccessSubject, [event.orderId]);
      var body := Sprintf(PaymentSuccessBody, [event.orderId, PaidAmount]);
      calls := calls + [EmailCall(FallbackRecipient, subject, body)];
      var sendErr := emailSender.Send(settings, FallbackRecipient, subject, body);

      var status := Sent;
      var errorMsg := "";
      if sendErr.Some? {
        status := Failed;
        errorMsg := sendErr.value;
      }

      var notif := new Notification(PaymentSuccessTopic, event.orderId, "", PaymentPayload(event),
                                    Email, status, errorMsg);
      calls := calls + [CreateCall(notif.Value())];
      err := repo.Create(notif);
    }
  }
}
