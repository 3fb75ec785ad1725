/** The Notification record of models/notification.go and its two enums. */
module Models {
  import opened Wrappers
  import opened Events

  /** NotificationStatus. */
  datatype Status = Sent | Failed {
    function Text(): (t: string)
      ensures t == "SENT" <==> this == Sent
      ensures t == "FAILED" <==> this == Failed
    {
      match this
      case Sent => "SENT"
      case Failed => "FAILED"
    }
  }

  /** ChannelType. */
  datatype Channel = Email | Sms {
    function Text(): (t: string)
      ensures t == "EMAIL" <==> this == Email
      ensures t == "SMS" <==> this == Sms
    {
      match this
      case Email => "EMAIL"
      case Sms => "SMS"
    }
  }

  /** The `Payload interface{}` field: always one of the two decoded events. */
  datatype Payload = OrderCreatedPayload(order: OrderCreatedEvent) | PaymentPayload(payment: PaymentEvent)

  /** A Mongo ObjectID; `None` in a record stands for the zero ObjectID. */
  type ObjectId = nat

  /** Instants; `ZeroTime` is Go's zero `time.Time`. */
  type Time = int

  const ZeroTime: Time := 0

  /** The value of a Notification struct. */
  datatype Record = Record(
    id: Option<ObjectId>,
    eventType: string,
    reference: string,
    userId: string,
    payload: Payload,
    channel: Channel,
    status: Status,
    error: string,
    createdAt: Time,
    updatedAt: Time)

  /** The keys of the BSON document a record is stored as, in field order:
      `_id`, `user_id` and `error` are `omitempty`. */
  function StoredKeys(r: Record): (keys: seq<string>)
    ensures "_id" in keys <==> r.id.Some?
    ensures "user_id" in keys <==> r.userId != ""
    ensures "error" in keys <==> r.error != ""
    ensures forall k | k in ["event_type", "reference_id", "payload", "channel", "status", "created_at", "updated_at"] :: k in keys
  {
    (if r.id.Some? then ["_id"] else [])
    + ["event_type", "reference_id"]
    + (if r.userId != "" then ["user_id"] else [])
    + ["payload", "channel", "status"]
    + (if r.error != "" then ["error"] else [])
    + ["created_at", "updated_at"]
  }
}
