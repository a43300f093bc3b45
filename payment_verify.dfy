/**
 * /api/payments/razorpay/verify: checks the gateway's signature over
 * "orderId|paymentId", then records the payment and confirms the booking
 * in one transaction.
 */
module RazorpayVerify {
  import opened Wrappers
  import opened Http
  import opened Text
  import opened Externals
  import opened Database
  import opened AuthUtils

  datatype VerifyRequest = VerifyRequest(
    orderCreationId: Json, razorpayPaymentId: Json, razorpaySignature: Json, bookingId: Json)

  /** The reply body: the id of the payment row just written. */
  datatype Verified = Verified(success: bool, paymentId: Id)

  /** How a template literal renders a JSON value. */
  function Shown(env: Env, v: Json): (t: string)
    ensures v.Str? ==> t == v.s
  {
    match v
    case Absent => "undefined"
    case Null => "null"
    case Bool(b) => if b then "true" else "false"
    case Num(n) => env.numberText(n)
    case Str(s) => s
    case Compound(text) => text
  }

  /** The text the gateway signs: order id, a bar, payment id. */
  function SignedText(env: Env, orderId: Json, paymentId: Json): (t: string)
    ensures orderId.Str? && paymentId.Str? ==> t == orderId.s + "|" + paymentId.s
  {
    Shown(env, orderId) + "|" + Shown(env, paymentId)
  }

  /**
   * The signed text names its pair of ids: two string pairs whose order ids
   * hold no bar give the same text only when both ids agree.
   */
  lemma SignedTextIdentifiesPair(env: Env, o1: string, p1: string, o2: string, p2: string)
    requires '|' !in o1 && '|' !in o2
    ensures SignedText(env, Str(o1), Str(p1)) == SignedText(env, Str(o2), Str(p2)) <==> o1 == o2 && p1 == p2
  {
    if SignedText(env, Str(o1), Str(p1)) == SignedText(env, Str(o2), Str(p2)) {
      BarJoinedPairIsInjective(o1, p1, o2, p2);
    }
  }

  /** Every field is present and truthy. */
  predicate Complete(req: VerifyRequest) {
    Truthy(req.orderCreationId) && Truthy(req.razorpayPaymentId) &&
    Truthy(req.razorpaySignature) && Truthy(req.bookingId)
  }

  /** The hex digest the server expects, under the configured key secret. */
  function Digest(env: Env, req: VerifyRequest): (d: string)
    requires env.razorpayKeySecret.Some?
    ensures req.orderCreationId.Str? && req.razorpayPaymentId.Str? ==>
      d == env.hmacSha256Hex(env.razorpayKeySecret.value, req.orderCreationId.s + "|" + req.razorpayPaymentId.s)
  {
    env.hmacSha256Hex(env.razorpayKeySecret.value, SignedText(env, req.orderCreationId, req.razorpayPaymentId))
  }

  /** The payment row the transaction creates. */
  function NewPayment(db: Db, payer: Id, providerId: string, amountCents: int, orderId: Json, digest: string): (p: Payment)
    ensures KeysBelow(db) ==> !HasPayment(db.payments, p.id)
    ensures p.status == SUCCEEDED && p.currency == Rupees && p.amountCents == amountCents && p.userId == payer
  {
    Payment(NewKey(db.nextKey), RAZORPAY, providerId, payer, amountCents, Rupees, SUCCEEDED,
            PaymentMetadata(orderId, digest))
  }

  /** The booking as the transaction leaves it: confirmed and linked to the payment. */
  function Confirmed(b: Booking, paymentId: Id): (r: Booking)
    ensures r.id == b.id && r.userId == b.userId && r.classId == b.classId && r.createdAt == b.createdAt
    ensures r.status == CONFIRMED && r.paymentId == Some(paymentId)
  {
    b.(status := CONFIRMED, paymentId := Some(paymentId))
  }

  /** POST /api/payments/razorpay/verify: its reply and the database it leaves. */
  function VerifySpec(env: Env, db: Db, authorization: Option<string>, body: Body<VerifyRequest>): (r: Step<Verified>)
    ensures r.reply.status in {200, 400, 401, 404, 500}
    ensures r.reply.Ok? <==> r.reply.status == 200
  {
    var caller := Authenticate(env, db, authorization);
    if caller.None? then Step(Fail(401, "Unauthorized"), db)
    else if body.Unparsable? then Step(Internal(), db)
    else
      var req := body.fields;
      if !Complete(req) then Step(Fail(400, "Missing required fields"), db)
      // the HMAC cannot be keyed with an unset secret
      else if env.razorpayKeySecret.None? then Step(Internal(), db)
      else if req.razorpaySignature != Str(Digest(env, req)) then Step(Fail(400, "Invalid transaction signature"), db)
      else if !req.bookingId.Str? then Step(Internal(), db)
      else
        match BookingIndex(db.bookings, req.bookingId.s)
        case None => Step(Fail(404, "Booking not found"), db)
        case Some(k) =>
          match ClassById(db.classes, db.bookings[k].classId)
          case None => Step(Internal(), db)
          case Some(c) =>
            // a provider id that is not a string makes the insert throw
            if !req.razorpayPaymentId.Str? then Step(Internal(), db)
            else
              var p := NewPayment(db, caller.value.user.id, req.razorpayPaymentId.s, c.priceCents,
                                  req.orderCreationId, Digest(env, req));
              Step(Ok(200, Verified(true, p.id)),
                   db.(payments := db.payments + [p], bookings := db.bookings[k := Confirmed(db.bookings[k], p.id)],
                       nextKey := db.nextKey + 1))
  }

  /**
   * The transaction is all or nothing: every reply but 200 leaves the
   * database as it was, and a 200 adds exactly one SUCCEEDED payment by the
   * caller, at the class price in rupees with the order id and digest in
   * its metadata, and confirms exactly the named booking, linked to it.
   */
  lemma VerifyIsAtomic(env: Env, db: Db, authorization: Option<string>, body: Body<VerifyRequest>)
    ensures var s := VerifySpec(env, db, authorization, body);
      s.reply.status != 200 ==> s.db == db
    ensures var s := VerifySpec(env, db, authorization, body);
      s.reply.status == 200 ==>
        && s.reply.Ok? && body.Parsed? && env.razorpayKeySecret.Some?
        && var req := body.fields;
        && req.razorpaySignature == Str(Digest(env, req))
        && req.bookingId.Str? && req.razorpayPaymentId.Str?
        && var k := BookingIndex(db.bookings, req.bookingId.s);
        && k.Some?
        && var c := ClassById(db.classes, db.bookings[k.value].classId);
        && c.Some?
        && var p := NewPayment(db, Authenticate(env, db, authorization).value.user.id, req.razorpayPaymentId.s,
                               c.value.priceCents, req.orderCreationId, Digest(env, req));
        && s.reply.value == Verified(true, p.id)
        && s.db.payments == db.payments + [p]
        && s.db.bookings == db.bookings[k.value := Confirmed(db.bookings[k.value], p.id)]
        && s.db.users == db.users && s.db.trainers == db.trainers && s.db.classes == db.classes
  {
  }

  /**
   * The guards in order: no caller is 401 before anything else, then any
   * missing field is 400, and a correctly signed request for a booking that
   * does not exist is 404; none of them writes.
   */
  lemma VerifyRefusals(env: Env, db: Db, authorization: Option<string>, body: Body<VerifyRequest>)
    ensures Authenticate(env, db, authorization).None? ==>
      VerifySpec(env, db, authorization, body) == Step(Fail(401, "Unauthorized"), db)
    ensures Authenticate(env, db, authorization).Some? && body.Parsed? && !Complete(body.fields) ==>
      VerifySpec(env, db, authorization, body) == Step(Fail(400, "Missing required fields"), db)
    ensures Authenticate(env, db, authorization).Some? && body.Parsed? && Complete(body.fields) &&
            env.razorpayKeySecret.Some? && body.fields.razorpaySignature == Str(Digest(env, body.fields)) &&
            body.fields.bookingId.Str? && (forall b :: b in db.bookings ==> b.id != body.fields.bookingId.s) ==>
      VerifySpec(env, db, authorization, body) == Step(Fail(404, "Booking not found"), db)
  {
  }

  /**
   * The signature is checked before the booking is looked up: a request
   * whose signature is not the expected digest gets 400 and writes nothing,
   * whether or not the booking exists.
   */
  lemma ForgedSignatureIsRefused(env: Env, db: Db, authorization: Option<string>, req: VerifyRequest)
    requires Authenticate(env, db, authorization).Some?
    requires Complete(req) && env.razorpayKeySecret.Some?
    requires req.razorpaySignature != Str(Digest(env, req))
    ensures VerifySpec(env, db, authorization, Parsed(req)) == Step(Fail(400, "Invalid transaction signature"), db)
  {
  }

  /**
   * A correctly signed request for a booking whose class is there confirms
   * it, whoever owns it and whatever its status: the route checks neither
   * ownership nor that the booking is still PENDING, and the payment is
   * recorded against the caller.
   */
  lemma SignedRequestConfirmsAnyBooking(env: Env, db: Db, authorization: Option<string>, req: VerifyRequest, k: nat)
    requires Authenticate(env, db, authorization).Some?
    requires env.razorpayKeySecret.Some? && Complete(req)
    requires req.razorpaySignature == Str(Digest(env, req))
    requires req.bookingId.Str? && req.razorpayPaymentId.Str?
    requires BookingIndex(db.bookings, req.bookingId.s) == Some(k)
    requires ClassById(db.classes, db.bookings[k].classId).Some?
    ensures var s := VerifySpec(env, db, authorization, Parsed(req));
      && s.reply.Ok? && s.reply.status == 200
      && s.db.bookings[k].status == CONFIRMED
      && s.db.payments[|db.payments|].userId == Authenticate(env, db, authorization).value.user.id
      && s.db.payments[|db.payments|].amountCents == ClassById(db.classes, db.bookings[k].classId).value.priceCents
  {
  }

  /** Verifying keeps the database constraints and one booking per user and class. */
  lemma VerifyKeepsInvariants(env: Env, db: Db, authorization: Option<string>, body: Body<VerifyRequest>)
    requires Wf(db) && OneBookingPerPair(db.bookings)
    ensures var s := VerifySpec(env, db, authorization, body);
      Wf(s.db) && OneBookingPerPair(s.db.bookings)
  {
    var s := VerifySpec(env, db, authorization, body);
    VerifyIsAtomic(env, db, authorization, body);
    if s.reply.status == 200 {
      var req := body.fields;
      var caller := Authenticate(env, db, authorization).value;
      var k := BookingIndex(db.bookings, req.bookingId.s).value;
      var c := ClassById(db.classes, db.bookings[k].classId).value;
      var p := NewPayment(db, caller.user.id, req.razorpayPaymentId.s, c.priceCents, req.orderCreationId, Digest(env, req));
      var b := Confirmed(db.bookings[k], p.id);
      assert HasUser(db.users, p.userId);
      AddPaymentAndLinkKeepsWf(db, p, k, b);
      assert s.db == db.(payments := db.payments + [p], bookings := db.bookings[k := b], nextKey := db.nextKey + 1);
      var after := db.bookings[k := b];
      forall i, j | 0 <= i < j < |after|
        ensures !(after[i].userId == after[j].userId && after[i].classId == after[j].classId)
      {
        assert !(db.bookings[i].userId == db.bookings[j].userId && db.bookings[i].classId == db.bookings[j].classId);
      }
    }
  }

  /**
   * The verify handler against the store: guards, then the transaction,
   * whose two writes happen together or not at all.
   */
  method Verify(env: Env, store: Store, authorization: Option<string>, body: Body<VerifyRequest>)
    returns (r: Reply<Verified>)
    requires store.Valid()
    modifies store`payments, store`bookings, store`nextKey
    ensures store.Valid()
    ensures r == VerifySpec(env, old(store.Snapshot()), authorization, body).reply
    ensures store.Snapshot() == VerifySpec(env, old(store.Snapshot()), authorization, body).db
  {
    ghost var before := store.Snapshot();
    VerifyKeepsInvariants(env, before, authorization, body);
    var caller := Authenticate(env, store.Snapshot(), authorization);
    if caller.None? {
      return Fail(401, "Unauthorized");
    }
    if body.Unparsable? {
      return Internal();
    }
    var req := body.fields;
    if !Complete(req) {
      return Fail(400, "Missing required fields");
    }
    if env.razorpayKeySecret.None? {
      return Internal();
    }
    var digest := Digest(env, req);
    if req.razorpaySignature != Str(digest) {
      return Fail(400, "Invalid transaction signature");
    }
    if !req.bookingId.Str? {
      return Internal();
    }
    var k := BookingIndex(store.bookings, req.bookingId.s);
    if k.None? {
      return Fail(404, "Booking not found");
    }
    var c := ClassById(store.classes, store.bookings[k.value].classId);
    if c.None? {
      return Internal();
    }
    if !req.razorpayPaymentId.Str? {
      return Internal();
    }
    var paymentId := RecordPayment(store, caller.value.user.id, req.razorpayPaymentId.s, c.value.priceCents,
                                   req.orderCreationId, digest, k.value);
    r := Ok(200, Verified(true, paymentId));
  }

  /** The transaction: create the payment, then confirm booking `k` and link it. */
  method RecordPayment(store: Store, payer: Id, providerId: string, amountCents: int, orderId: Json, digest: string, k: nat)
    returns (paymentId: Id)
    requires k < |store.bookings|
    modifies store`payments, store`bookings, store`nextKey
    ensures var p := NewPayment(old(store.Snapshot()), payer, providerId, amountCents, orderId, digest);
      && paymentId == p.id
      && store.Snapshot() == old(store.Snapshot()).(payments := old(store.payments) + [p],
           bookings := old(store.bookings)[k := Confirmed(old(store.bookings)[k], p.id)],
           nextKey := old(store.nextKey) + 1)
  {
    paymentId := store.FreshKey();
    var p := Payment(paymentId, RAZORPAY, providerId, payer, amountCents, Rupees, SUCCEEDED, PaymentMetadata(orderId, digest));
    store.payments := store.payments + [p];
    store.bookings := store.bookings[k := Confirmed(store.bookings[k], paymentId)];
  }
}
