/** The notification templates of internal/notification/templates.go and the
    `fmt.Sprintf` substitution the handlers apply to them.

    Each constant is written as a concatenation of short literal pieces; the
    concatenation is the same string as the Go constant. */
module Templates {

  /** The text every subject ends with before the order id. */
  const OrderRef := "Order #"

  const OrderCreatedSubjectPrefix := "Order Confirmation - " + OrderRef
  const OrderCreatedSubject := OrderCreatedSubjectPrefix + "%s"
  const OrderCreatedBodyHead := "<h1>Order Confirmation</h1>" + "<p>Thank you for your order!</p>" + "<p>Order ID: <strong>"
  const OrderCreatedBodyTail := "</strong></p>" + "<p>We will process it " + "shortly.</p>"
  const OrderCreatedBody := OrderCreatedBodyHead + "%s" + OrderCreatedBodyTail

  const PaymentSuccessSubjectPrefix := "Payment Receipt - " + OrderRef
  const PaymentSuccessSubject := PaymentSuccessSubjectPrefix + "%s"
  const PaymentSuccessBodyHead := "<h1>Payment Successful</h1>" + "<p>We received your " + "payment for Order ID: " + "<strong>"
  const PaymentSuccessBodyMiddle := "</strong></p><p>Amount: "
  const PaymentSuccessBodyTail := "</p>"
  const PaymentSuccessBody := PaymentSuccessBodyHead + "%s" + PaymentSuccessBodyMiddle + "%s" + PaymentSuccessBodyTail

  const OrderCancelledSubjectPrefix := "Order Cancelled - " + OrderRef
  const OrderCancelledSubject := OrderCancelledSubjectPrefix + "%s"
  const OrderCancelledBodyHead := "<h1>Order Cancelled</h1>" + "<p>Your order #"
  const OrderCancelledBodyTail := " has been cancelled " + "as requested.</p>"
  const OrderCancelledBody := OrderCancelledBodyHead + "%s" + OrderCancelledBodyTail

  const PaymentFailedSubjectPrefix := "Payment Failed - " + OrderRef
  const PaymentFailedSubject := PaymentFailedSubjectPrefix + "%s"
  const PaymentFailedBodyHead := "<h1>Payment Failed</h1>" + "<p>We could not process " + "payment for order #"
  const PaymentFailedBodyTail := ". Please try again.</p>"
  const PaymentFailedBody := PaymentFailedBodyHead + "%s" + PaymentFailedBodyTail

  /** What fmt prints for a `%s` verb that has no operand left. */
  const Missing := "%!s(MISSING)"

  /** Every `%` in `f` opens a `%s` verb, the only verb the templates use. */
  predicate OnlyStringVerbs(f: string)
    decreases |f|
  {
    if f == [] then true
    else if f[0] == '%' then |f| >= 2 && f[1] == 's' && OnlyStringVerbs(f[2..])
    else OnlyStringVerbs(f[1..])
  }

  /** The number of `%s` verbs in `f`. */
  function Verbs(f: string): nat
    requires OnlyStringVerbs(f)
    decreases |f|
  {
    if f == [] then 0
    else if f[0] == '%' then 1 + Verbs(f[2..])
    else Verbs(f[1..])
  }

  /** The operands left once a verb has consumed one (none left stays none). */
  function Rest(args: seq<string>): seq<string> {
    if args == [] then [] else args[1..]
  }

  /** The text of `f` with its verbs replaced left to right by the operands in
      `args`; a verb with no operand left prints `Missing`. */
  function Render(f: string, args: seq<string>): string
    requires OnlyStringVerbs(f)
    decreases |f|
  {
    if f == [] then ""
    else if f[0] == '%' then (if args == [] then Missing else args[0]) + Render(f[2..], Rest(args))
    else [f[0]] + Render(f[1..], args)
  }

  /** The operands no verb of `f` consumed. */
  function Leftover(f: string, args: seq<string>): seq<string>
    requires OnlyStringVerbs(f)
    decreases |f|
  {
    if f == [] then args
    else if f[0] == '%' then Leftover(f[2..], Rest(args))
    else Leftover(f[1..], args)
  }

  /** `string=a, string=b, ...`: how fmt lists unused string operands. */
  function ExtraItems(rest: seq<string>): string
    decreases |rest|
  {
    if rest == [] then ""
    else if |rest| == 1 then "string=" + rest[0]
    else "string=" + rest[0] + ", " + ExtraItems(rest[1..])
  }

  /** The verbs consume the operands in order, so the ones left over are those
      past the number of verbs. */
  lemma {:induction false} LeftoverIsUnused(f: string, args: seq<string>)
    requires OnlyStringVerbs(f)
    ensures Leftover(f, args) == if |args| <= Verbs(f) then [] else args[Verbs(f)..]
    decreases |f|
  {
    if f == [] {
      assert args[0..] == args;
    } else if f[0] == '%' {
      LeftoverIsUnused(f[2..], Rest(args));
      if args != [] {
        assert Rest(args) == args[1..];
        if |args| > Verbs(f) {
          assert args[1..][Verbs(f[2..])..] == args[Verbs(f)..];
        }
      }
    } else {
      LeftoverIsUnused(f[1..], args);
    }
  }

  /** fmt.Sprintf(f, args...) for a format whose verbs are all `%s` and whose
      operands are all strings: the rendered format, followed by an EXTRA list
      of the operands past the number of verbs when there are any. */
  function Sprintf(f: string, args: seq<string>): (r: string)
    requires OnlyStringVerbs(f)
    ensures |args| <= Verbs(f) ==> r == Render(f, args)
    ensures |args| > Verbs(f) ==> r == Render(f, args) + "%!(EXTRA " + ExtraItems(args[Verbs(f)..]) + ")"
  {
    LeftoverIsUnused(f, args);
    var rest := Leftover(f, args);
    Render(f, args) + (if rest == [] then "" else "%!(EXTRA " + ExtraItems(rest) + ")")
  }

  /** A piece without `%` is copied through and consumes no operand. */
  lemma {:induction false} LiteralPiece(a: string, args: seq<string>)
    requires '%' !in a
    ensures OnlyStringVerbs(a) && Verbs(a) == 0
    ensures Render(a, args) == a && Leftover(a, args) == args
    decreases |a|
  {
    if a != [] {
      LiteralPiece(a[1..], args);
      assert [a[0]] + a[1..] == a;
    }
  }

  lemma {:induction false} LiteralPrefixVerbs(p: string, tail: string)
    requires '%' !in p && OnlyStringVerbs(tail)
    ensures OnlyStringVerbs(p + tail) && Verbs(p + tail) == Verbs(tail)
    decreases |p|
  {
    if p == [] {
      assert p + tail == tail;
    } else {
      assert (p + tail)[0] == p[0] && (p + tail)[1..] == p[1..] + tail;
      LiteralPrefixVerbs(p[1..], tail);
    }
  }

  lemma {:induction false} LiteralPrefixRender(p: string, tail: string, args: seq<string>)
    requires '%' !in p && OnlyStringVerbs(tail)
    ensures OnlyStringVerbs(p + tail)
    ensures Render(p + tail, args) == p + Render(tail, args)
    decreases |p|
  {
    LiteralPrefixVerbs(p, tail);
    if p == [] {
      assert p + tail == tail;
    } else {
      assert (p + tail)[0] == p[0] && (p + tail)[1..] == p[1..] + tail;
      LiteralPrefixRender(p[1..], tail, args);
      assert [p[0]] + (p[1..] + Render(tail, args)) == p + Render(tail, args);
    }
  }

  lemma {:induction false} LiteralPrefixLeftover(p: string, tail: string, args: seq<string>)
    requires '%' !in p && OnlyStringVerbs(tail)
    ensures OnlyStringVerbs(p + tail)
    ensures Leftover(p + tail, args) == Leftover(tail, args)
    decreases |p|
  {
    LiteralPrefixVerbs(p, tail);
    if p == [] {
      assert p + tail == tail;
    } else {
      assert (p + tail)[0] == p[0] && (p + tail)[1..] == p[1..] + tail;
      LiteralPrefixLeftover(p[1..], tail, args);
    }
  }

  /** A `%`-free piece in front of a format is copied through and consumes
      no operand. */
  lemma LiteralPrefix(p: string, tail: string, args: seq<string>)
    requires '%' !in p && OnlyStringVerbs(tail)
    ensures OnlyStringVerbs(p + tail) && Verbs(p + tail) == Verbs(tail)
    ensures Render(p + tail, args) == p + Render(tail, args)
    ensures Leftover(p + tail, args) == Leftover(tail, args)
  {
    LiteralPrefixVerbs(p, tail);
    LiteralPrefixRender(p, tail, args);
    LiteralPrefixLeftover(p, tail, args);
  }

  /** A `%s` in front of a format consumes the first operand. */
  lemma VerbPrefix(tail: string, x: string, rest: seq<string>)
    requires OnlyStringVerbs(tail)
    ensures OnlyStringVerbs("%s" + tail) && Verbs("%s" + tail) == Verbs(tail) + 1
    ensures Render("%s" + tail, [x] + rest) == x + Render(tail, rest)
    ensures Leftover("%s" + tail, [x] + rest) == Leftover(tail, rest)
  {
    var f := "%s" + tail;
    assert f[0] == '%' && f[1] == 's' && f[2..] == tail;
    assert Rest([x] + rest) == rest;
  }

  /** A format with one `%s` between two literal pieces consumes one operand
      and renders as the pieces around it. */
  lemma Fill(pre: string, post: string, x: string, rest: seq<string>)
    requires '%' !in pre && '%' !in post
    ensures OnlyStringVerbs(pre + "%s" + post) && Verbs(pre + "%s" + post) == 1
    ensures Render(pre + "%s" + post, [x] + rest) == pre + x + post
    ensures Leftover(pre + "%s" + post, [x] + rest) == rest
  {
    LiteralPiece(post, rest);
    VerbPrefix(post, x, rest);
    LiteralPrefix(pre, "%s" + post, [x] + rest);
    Assoc(pre, "%s", post);
    Assoc(pre, x, post);
  }

  /** Given one operand, such a format renders with no trailing list. */
  lemma OneVerb(pre: string, post: string, x: string)
    requires '%' !in pre && '%' !in post
    ensures OnlyStringVerbs(pre + "%s" + post) && Verbs(pre + "%s" + post) == 1
    ensures Sprintf(pre + "%s" + post, [x]) == pre + x + post
  {
    Fill(pre, post, x, []);
    assert [x] + [] == [x];
  }

  /** A format with two `%s` verbs among literal pieces, given two operands,
      renders the first operand at the first verb and the second at the second. */
  lemma TwoVerbs(p0: string, p1: string, p2: string, x: string, y: string)
    requires '%' !in p0 && '%' !in p1 && '%' !in p2
    ensures OnlyStringVerbs(p0 + "%s" + p1 + "%s" + p2)
    ensures Verbs(p0 + "%s" + p1 + "%s" + p2) == 2
    ensures Sprintf(p0 + "%s" + p1 + "%s" + p2, [x, y]) == p0 + x + p1 + y + p2
  {
    var second := p1 + "%s" + p2;
    Fill(p1, p2, y, []);
    VerbPrefix(second, x, [y]);
    assert [x] + [y] == [x, y] && [y] + [] == [y];
    LiteralPrefix(p0, "%s" + second, [x, y]);
    Assoc(p0, "%s", second);
    Assoc(p0 + "%s", p1 + "%s", p2);
    Assoc(p0 + "%s", p1, "%s");
    Assoc(p0, x, p1 + y + p2);
    Assoc(p0 + x, p1 + y, p2);
    Assoc(p0 + x, p1, y);
  }

  lemma Assoc(a: string, b: string, c: string)
    ensures a + (b + c) == a + b + c
  {
  }

  /** A subject is a lead, `Order #` and one verb: it renders as its prefix
      followed by the order id, and its prefix ends in `Order #`. */
  lemma SubjectRenders(lead: string, id: string)
    requires '%' !in lead
    ensures var prefix := lead + OrderRef;
            && OnlyStringVerbs(prefix + "%s") && Verbs(prefix + "%s") == 1
            && Sprintf(prefix + "%s", [id]) == prefix + id
            && prefix[|prefix| - 7..] == OrderRef
  {
    var prefix := lead + OrderRef;
    OneVerb(prefix, "", id);
    assert prefix + "%s" + "" == prefix + "%s";
    assert prefix + id + "" == prefix + id;
  }

  /** Each subject has exactly one verb, at its end after `Order #`: rendering
      it with an order id yields the fixed prefix followed by the id. */
  lemma SubjectsEndWithOrderId(id: string)
    ensures OnlyStringVerbs(OrderCreatedSubject) && Verbs(OrderCreatedSubject) == 1
    ensures OnlyStringVerbs(PaymentSuccessSubject) && Verbs(PaymentSuccessSubject) == 1
    ensures OnlyStringVerbs(OrderCancelledSubject) && Verbs(OrderCancelledSubject) == 1
    ensures OnlyStringVerbs(PaymentFailedSubject) && Verbs(PaymentFailedSubject) == 1
    ensures Sprintf(OrderCreatedSubject, [id]) == OrderCreatedSubjectPrefix + id
    ensures Sprintf(PaymentSuccessSubject, [id]) == PaymentSuccessSubjectPrefix + id
    ensures Sprintf(OrderCancelledSubject, [id]) == OrderCancelledSubjectPrefix + id
    ensures Sprintf(PaymentFailedSubject, [id]) == PaymentFailedSubjectPrefix + id
    ensures && OrderCreatedSubjectPrefix[|OrderCreatedSubjectPrefix| - 7..] == OrderRef
            && PaymentSuccessSubjectPrefix[|PaymentSuccessSubjectPrefix| - 7..] == OrderRef
            && OrderCancelledSubjectPrefix[|OrderCancelledSubjectPrefix| - 7..] == OrderRef
            && PaymentFailedSubjectPrefix[|PaymentFailedSubjectPrefix| - 7..] == OrderRef
  {
    SubjectRenders("Order Confirmation - ", id);
    SubjectRenders("Payment Receipt - ", id);
    SubjectRenders("Order Cancelled - ", id);
    SubjectRenders("Payment Failed - ", id);
  }

  /** The order-created body holds one verb, filled with the order id. */
  lemma OrderCreatedBodyRenders(id: string)
    ensures OnlyStringVerbs(OrderCreatedBody) && Verbs(OrderCreatedBody) == 1
    ensures Sprintf(OrderCreatedBody, [id]) == OrderCreatedBodyHead + id + OrderCreatedBodyTail
  {
    OneVerb(OrderCreatedBodyHead, OrderCreatedBodyTail, id);
  }

  /** The order-cancelled body holds one verb, filled with the order id. */
  lemma OrderCancelledBodyRenders(id: string)
    ensures OnlyStringVerbs(OrderCancelledBody) && Verbs(OrderCancelledBody) == 1
    ensures Sprintf(OrderCancelledBody, [id]) == OrderCancelledBodyHead + id + OrderCancelledBodyTail
  {
    OneVerb(OrderCancelledBodyHead, OrderCancelledBodyTail, id);
  }

  /** The payment-failed body holds one verb, filled with the order id. */
  lemma PaymentFailedBodyRenders(id: string)
    ensures OnlyStringVerbs(PaymentFailedBody) && Verbs(PaymentFailedBody) == 1
    ensures Sprintf(PaymentFailedBody, [id]) == PaymentFailedBodyHead + id + PaymentFailedBodyTail
  {
    OneVerb(PaymentFailedBodyHead, PaymentFailedBodyTail, id);
  }

  /** The payment-success body holds two verbs: the order id fills the first,
      the amount the second. */
  lemma PaymentSuccessBodyRenders(id: string, amount: string)
    ensures OnlyStringVerbs(PaymentSuccessBody) && Verbs(PaymentSuccessBody) == 2
    ensures Sprintf(PaymentSuccessBody, [id, amount])
            == PaymentSuccessBodyHead + id + PaymentSuccessBodyMiddle + amount + PaymentSuccessBodyTail
  {
    TwoVerbs(PaymentSuccessBodyHead, PaymentSuccessBodyMiddle, PaymentSuccessBodyTail, id, amount);
  }
}
