/** The event payload shapes of internal/processor/handler.go and how
    `json.Unmarshal` fills them.

    Parsing the bytes into a JSON value is a foreign call: the model takes it
    as a parameter (`Parser`). What is modelled is how encoding/json maps a
    parsed value onto the Go struct: a member that is absent or `null` leaves
    the field at its zero value, a member of the wrong kind is a type error,
    and unknown members are ignored. */
module Events {
  import opened Wrappers
  import opened Numerals

  newtype byte = x: int | 0 <= x < 256

  type Bytes = seq<byte>

  /** A parsed JSON document. Numbers keep their literal text. */
  datatype JsonValue =
    | JNull
    | JBool(b: bool)
    | JNumber(literal: string)
    | JString(text: string)
    | JArray(items: seq<JsonValue>)
    | JObject(members: map<string, JsonValue>)

  /** The JSON syntax check: either a document or the syntax error's text. */
  type Parser = Bytes -> Result<JsonValue>

  /** The word encoding/json uses for a value's kind in a type error. */
  function KindName(v: JsonValue): string {
    match v
    case JNull => "null"
    case JBool(_) => "bool"
    case JNumber(_) => "number"
    case JString(_) => "string"
    case JArray(_) => "array"
    case JObject(_) => "object"
  }

  /** OrderCreatedEvent. `amount` is a float64 in Go; it keeps the number's
      literal text here, "0" when absent. */
  datatype OrderCreatedEvent = OrderCreatedEvent(orderId: string, userId: string, amount: string, userEmail: string)

  /** PaymentEvent. */
  datatype PaymentEvent = PaymentEvent(orderId: string, paymentId: string, status: string)

  function FieldTypeError(kind: string, structName: string, key: string, goType: string): string {
    "json: cannot unmarshal " + kind + " into Go struct field " + structName + "." + key + " of type " + goType
  }

  function ValueTypeError(kind: string, goType: string): string {
    "json: cannot unmarshal " + kind + " into Go value of type " + goType
  }

  /** A `string` struct field tagged `key`. */
  function StringField(members: map<string, JsonValue>, structName: string, key: string): (r: Result<string>)
    ensures key !in members ==> r == Ok("")
    ensures key in members && members[key].JString? ==> r == Ok(members[key].text)
    ensures key in members && members[key].JNull? ==> r == Ok("")
    ensures r.Err? <==> key in members && !members[key].JString? && !members[key].JNull?
  {
    if key !in members then Ok("")
    else match members[key]
      case JString(s) => Ok(s)
      case JNull => Ok("")
      case other => Err(FieldTypeError(KindName(other), structName, key, "string"))
  }

  /** The decimal digits of `s`, in order, other characters dropped. */
  function Digits(s: string): (ds: string)
    ensures |ds| <= |s|
    ensures forall i | 0 <= i < |ds| :: IsDigit(ds[i])
  {
    if s == [] then [] else (if IsDigit(s[0]) then [s[0]] else []) + Digits(s[1..])
  }

  /** The position of the first `e` or `E` in `s`, or |s| when there is none. */
  function ExponentStart(s: string): (i: nat)
    ensures i <= |s|
    ensures i < |s| ==> s[i] == 'e' || s[i] == 'E'
    ensures forall j | 0 <= j < i :: s[j] != 'e' && s[j] != 'E'
  {
    if s == [] || s[0] == 'e' || s[0] == 'E' then 0 else 1 + ExponentStart(s[1..])
  }

  /** The position of the first `.` in `s`, or |s| when there is none. */
  function FractionStart(s: string): (i: nat)
    ensures i <= |s|
    ensures i < |s| ==> s[i] == '.'
    ensures forall j | 0 <= j < i :: s[j] != '.'
  {
    if s == [] || s[0] == '.' then 0 else 1 + FractionStart(s[1..])
  }

  /** The magnitude of a JSON number literal `-? int frac? exp?` as
      mantissa × 10^scale: the mantissa is the digits of the integer and
      fraction parts, the scale the exponent less the number of fraction
      digits. */
  function DecimalParts(lit: string): (nat, int) {
    var e := ExponentStart(lit);
    var mantissa := lit[..e];
    var exponentText := if e < |lit| then lit[e + 1..] else "";
    var magnitude := DigitsValue(Digits(exponentText));
    var exponent: int := if exponentText != [] && exponentText[0] == '-' then -(magnitude as int) else magnitude;
    var fraction := mantissa[FractionStart(mantissa)..];
    (DigitsValue(Digits(mantissa)), exponent - |Digits(fraction)|)
  }

  /** The midpoint between the largest float64, 2^1024 - 2^971, and 2^1024
      (Float64LimitIsMidpoint proves the value). */
  const Float64Limit: int := 179769313486231580793728971405303415079934132710037826936173778980444968292764750946649017977587207096330286416692887910946555547851940402630657488671505820681908902000708383676273854845817711531764475730270069855571366959622842914819860834936475292719074168444365510704342711559699508093042880177904174497792

  /** Whether strconv.ParseFloat(lit, 64) fails with a range error: the
      magnitude, rounded to nearest with ties to even, is beyond the largest
      float64, that is, it is at least Float64Limit (the largest float64 has
      an odd mantissa, so the midpoint itself rounds up). A magnitude too small
      for float64 rounds to zero, which is not an error. */
  predicate OverflowsFloat64(lit: string) {
    var (m, scale) := DecimalParts(lit);
    if scale >= 0 then m * Pow(10, scale) >= Float64Limit else m >= Float64Limit * Pow(10, -scale)
  }

  /** A `float64` struct field tagged `key`. A number outside the float64 range
      is a type error that names the literal. */
  function NumberField(members: map<string, JsonValue>, structName: string, key: string): (r: Result<string>)
    ensures key !in members ==> r == Ok("0")
    ensures key in members && members[key].JNull? ==> r == Ok("0")
    ensures key in members && members[key].JNumber? && !OverflowsFloat64(members[key].literal) ==>
              r == Ok(members[key].literal)
    ensures key in members && members[key].JNumber? && OverflowsFloat64(members[key].literal) ==>
              r == Err(FieldTypeError("number " + members[key].literal, structName, key, "float64"))
    ensures r.Err? <==> key in members && !members[key].JNull? &&
                        !(members[key].JNumber? && !OverflowsFloat64(members[key].literal))
  {
    if key !in members then Ok("0")
    else match members[key]
      case JNumber(n) =>
        if OverflowsFloat64(n) then Err(FieldTypeError("number " + n, structName, key, "float64")) else Ok(n)
      case JNull => Ok("0")
      case other => Err(FieldTypeError(KindName(other), structName, key, "float64"))
  }

  /** A decoded string field holds the member's text, or "" when the member is
      absent or null. */
  predicate Carries(m: map<string, JsonValue>, key: string, s: string) {
    && (key in m && m[key].JString? ==> s == m[key].text)
    && (key !in m || m[key].JNull? ==> s == "")
  }

  /** json.Unmarshal of a parsed document into an OrderCreatedEvent. */
  function OrderCreatedFromJson(v: JsonValue): (r: Result<OrderCreatedEvent>)
    ensures v.JNull? ==> r == Ok(OrderCreatedEvent("", "", "0", ""))
    ensures !v.JNull? && !v.JObject? ==> r == Err(ValueTypeError(KindName(v), "processor.OrderCreatedEvent"))
    ensures v.JObject? && r.Ok? ==>
              && Carries(v.members, "order_id", r.value.orderId)
              && Carries(v.members, "user_id", r.value.userId)
              && Carries(v.members, "user_email", r.value.userEmail)
              && ("amount" in v.members && v.members["amount"].JNumber? ==> r.value.amount == v.members["amount"].literal)
  {
    match v
    case JNull => Ok(OrderCreatedEvent("", "", "0", ""))
    case JObject(m) =>
      var orderId :- StringField(m, "OrderCreatedEvent", "order_id");
      var userId :- StringField(m, "OrderCreatedEvent", "user_id");
      var amount :- NumberField(m, "OrderCreatedEvent", "amount");
      var userEmail :- StringField(m, "OrderCreatedEvent", "user_email");
      Ok(OrderCreatedEvent(orderId, userId, amount, userEmail))
    case other => Err(ValueTypeError(KindName(other), "processor.OrderCreatedEvent"))
  }

  /** json.Unmarshal of a parsed document into a PaymentEvent. */
  function PaymentFromJson(v: JsonValue): (r: Result<PaymentEvent>)
    ensures v.JNull? ==> r == Ok(PaymentEvent("", "", ""))
    ensures !v.JNull? && !v.JObject? ==> r == Err(ValueTypeError(KindName(v), "processor.PaymentEvent"))
    ensures v.JObject? && r.Ok? ==>
              && Carries(v.members, "order_id", r.value.orderId)
              && Carries(v.members, "payment_id", r.value.paymentId)
              && Carries(v.members, "status", r.value.status)
  {
    match v
    case JNull => Ok(PaymentEvent("", "", ""))
    case JObject(m) =>
      var orderId :- StringField(m, "PaymentEvent", "order_id");
      var paymentId :- StringField(m, "PaymentEvent", "payment_id");
      var status :- StringField(m, "PaymentEvent", "status");
      Ok(PaymentEvent(orderId, paymentId, status))
    case other => Err(ValueTypeError(KindName(other), "processor.PaymentEvent"))
  }

  /** json.Unmarshal(payload, &event) for an OrderCreatedEvent. */
  function DecodeOrderCreated(parse: Parser, payload: Bytes): (r: Result<OrderCreatedEvent>)
    ensures parse(payload).Err? ==> r == Err(parse(payload).error)
    ensures parse(payload).Ok? ==> r == OrderCreatedFromJson(parse(payload).value)
  {
    var v :- parse(payload);
    OrderCreatedFromJson(v)
  }

  /** json.Unmarshal(payload, &event) for a PaymentEvent. */
  function DecodePayment(parse: Parser, payload: Bytes): (r: Result<PaymentEvent>)
    ensures parse(payload).Err? ==> r == Err(parse(payload).error)
    ensures parse(payload).Ok? ==> r == PaymentFromJson(parse(payload).value)
  {
    var v :- parse(payload);
    PaymentFromJson(v)
  }

  /** The JSON object a producer writes for an OrderCreatedEvent. */
  function OrderCreatedJson(e: OrderCreatedEvent): JsonValue {
    JObject(map["order_id" := JString(e.orderId), "user_id" := JString(e.userId),
                "amount" := JNumber(e.amount), "user_email" := JString(e.userEmail)])
  }

  /** The JSON object a producer writes for a PaymentEvent. */
  function PaymentJson(e: PaymentEvent): JsonValue {
    JObject(map["order_id" := JString(e.orderId), "payment_id" := JString(e.paymentId),
                "status" := JString(e.status)])
  }

  /** Decoding what a producer wrote gives back the event; a producer's
      float64 amount is always in range. */
  lemma OrderCreatedRoundTrip(e: OrderCreatedEvent)
    requires !OverflowsFloat64(e.amount)
    ensures OrderCreatedFromJson(OrderCreatedJson(e)) == Ok(e)
  {
  }

  /** Decoding what a producer wrote gives back the event. */
  lemma PaymentRoundTrip(e: PaymentEvent)
    ensures PaymentFromJson(PaymentJson(e)) == Ok(e)
  {
  }

  /** An object decodes into an OrderCreatedEvent exactly when none of its four
      members has the wrong kind and its amount is within the float64 range;
      an absent member leaves the field empty. */
  lemma OrderCreatedLenient(m: map<string, JsonValue>)
    ensures OrderCreatedFromJson(JObject(m)).Ok? <==>
            (forall k | k in ["order_id", "user_id", "user_email"] && k in m :: m[k].JString? || m[k].JNull?) &&
            ("amount" in m ==> m["amount"].JNull? || (m["amount"].JNumber? && !OverflowsFloat64(m["amount"].literal)))
    ensures OrderCreatedFromJson(JObject(m)).Ok? && "user_email" !in m ==>
            OrderCreatedFromJson(JObject(m)).value.userEmail == ""
    ensures OrderCreatedFromJson(JObject(m)).Ok? && "order_id" !in m ==>
            OrderCreatedFromJson(JObject(m)).value.orderId == ""
  {
  }

  lemma LargeLiteralParts()
    ensures DecimalParts("1e400") == (1, 400)
  {
    assert ExponentStart("1e400") == 1;
    assert "1e400"[..1] == "1" && "1e400"[2..] == "400";
    assert Digits("1") == "1" && FractionStart("1") == 1 && "1"[1..] == [];
    assert Digits("400") == "400";
    assert DigitsValue("400") == 400 by {
      assert "400"[..2] == "40" && "40"[..1] == "4" && "4"[..0] == [];
    }
  }

  lemma SmallLiteralParts()
    ensures DecimalParts("1e-400") == (1, -400)
  {
    assert ExponentStart("1e-400") == 1;
    assert "1e-400"[..1] == "1" && "1e-400"[2..] == "-400";
    assert Digits("1") == "1" && FractionStart("1") == 1 && "1"[1..] == [];
    assert Digits("-400") == "400";
    assert DigitsValue("400") == 400 by {
      assert "400"[..2] == "40" && "40"[..1] == "4" && "4"[..0] == [];
    }
  }

  lemma TwoTo1024()
    ensures Pow(2, 1024) == 179769313486231590772930519078902473361797697894230657273430081157732675805500963132708477322407536021120113879871393357658789768814416622492847430639474124377767893424865485276302219601246094119453082952085005768838150682342462881473913110540827237163350510684586298239947245938479716304835356329624224137216
  {
  }

  lemma TwoTo970()
    ensures Pow(2, 970) == 9979201547673599058281863565184192830337256302177287707512736212186059459344820328924789827463178505446712234220962476219862189941967968303695858991424157101600028364755428382587688607221814935913266783722719619966654052275604351944444276342240220787535604534378780208211792476151720049639424
  {
    assert Pow(2, 15) == 32768;
    assert Pow(2, 30) == 1073741824;
    assert Pow(2, 60) == 1152921504606846976;
    assert Pow(2, 120) == 1329227995784915872903807060280344576;
    assert Pow(2, 121) == 2658455991569831745807614120560689152;
    assert Pow(2, 242) == 7067388259113537318333190002971674063309935587502475832486424805170479104;
    assert Pow(2, 484) == 49947976805055875702105555676690660891977570282639538413746511354005947821116249921924897649015871538557230897942505966327167610868612564900642816;
    assert Pow(2, 485) == 99895953610111751404211111353381321783955140565279076827493022708011895642232499843849795298031743077114461795885011932654335221737225129801285632;
  }

  /** The constant is 2^1024 - 2^970, and it has 309 digits. */
  lemma Float64LimitIsMidpoint()
    ensures Float64Limit == Pow(2, 1024) - Pow(2, 970)
    ensures Pow(10, 308) <= Float64Limit < Pow(10, 309)
  {
    TwoTo1024();
    TwoTo970();
    TenTo309();
  }

  lemma TenTo309()
    ensures Pow(10, 309) == 1000000000000000000000000000000000000000000000000000000000000000000000000000000000000000000000000000000000000000000000000000000000000000000000000000000000000000000000000000000000000000000000000000000000000000000000000000000000000000000000000000000000000000000000000000000000000000000000000000000000000000000000
  {
    assert Pow(10, 9) == 1000000000;
    assert Pow(10, 18) == 1000000000000000000;
    assert Pow(10, 19) == 10000000000000000000;
    assert Pow(10, 38) == 100000000000000000000000000000000000000;
    assert Pow(10, 76) == 10000000000000000000000000000000000000000000000000000000000000000000000000000;
    assert Pow(10, 77) == 100000000000000000000000000000000000000000000000000000000000000000000000000000;
    assert Pow(10, 154) == 10000000000000000000000000000000000000000000000000000000000000000000000000000000000000000000000000000000000000000000000000000000000000000000000000000000000;
    assert Pow(10, 308) == 100000000000000000000000000000000000000000000000000000000000000000000000000000000000000000000000000000000000000000000000000000000000000000000000000000000000000000000000000000000000000000000000000000000000000000000000000000000000000000000000000000000000000000000000000000000000000000000000000000000000000000000;
  }

  lemma TenTo400()
    ensures Pow(10, 400) == 10000000000000000000000000000000000000000000000000000000000000000000000000000000000000000000000000000000000000000000000000000000000000000000000000000000000000000000000000000000000000000000000000000000000000000000000000000000000000000000000000000000000000000000000000000000000000000000000000000000000000000000000000000000000000000000000000000000000000000000000000000000000000000000000000000000000000000
  {
    assert Pow(10, 3) == 1000;
    assert Pow(10, 6) == 1000000;
    assert Pow(10, 12) == 1000000000000;
    assert Pow(10, 24) == 1000000000000000000000000;
    assert Pow(10, 25) == 10000000000000000000000000;
    assert Pow(10, 50) == 100000000000000000000000000000000000000000000000000;
    assert Pow(10, 100) == 10000000000000000000000000000000000000000000000000000000000000000000000000000000000000000000000000000;
    assert Pow(10, 200) == 100000000000000000000000000000000000000000000000000000000000000000000000000000000000000000000000000000000000000000000000000000000000000000000000000000000000000000000000000000000000000000000000000000000;
  }

  /** 1e400 is beyond the float64 range; 1e-400 is below it and rounds to zero,
      which is not an error. */
  lemma LargeAmountOverflows()
    ensures OverflowsFloat64("1e400")
  {
    LargeLiteralParts();
    TenTo400();
  }

  lemma SmallAmountFits()
    ensures !OverflowsFloat64("1e-400")
  {
    SmallLiteralParts();
    TenTo400();
  }

  /** When the fields before it decode, an amount beyond the float64 range is
      the error, and the message names the literal. */
  lemma OverflowingAmountIsRejected(m: map<string, JsonValue>)
    requires forall k | k in ["order_id", "user_id"] && k in m :: m[k].JString? || m[k].JNull?
    requires "amount" in m && m["amount"].JNumber? && OverflowsFloat64(m["amount"].literal)
    ensures OrderCreatedFromJson(JObject(m))
            == Err(FieldTypeError("number " + m["amount"].literal, "OrderCreatedEvent", "amount", "float64"))
  {
  }

  /** An object decodes into a PaymentEvent exactly when none of its three
      members has the wrong kind. */
  lemma PaymentLenient(m: map<string, JsonValue>)
    ensures PaymentFromJson(JObject(m)).Ok? <==>
            (forall k | k in ["order_id", "payment_id", "status"] && k in m :: m[k].JString? || m[k].JNull?)
  {
  }
}
