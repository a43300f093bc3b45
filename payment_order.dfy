/**
 * /api/payments/razorpay/order: opens a gateway order for one of the
 * caller's bookings, priced at the booked class. It writes nothing.
 */
module RazorpayOrder {
  import opened Wrappers
  import opened Http
  import opened Externals
  import opened Database
  import opened AuthUtils

  datatype OrderRequest = OrderRequest(bookingId: Json)

  /** The reply body: the gateway's order id and what the checkout needs. */
  datatype OrderCreated = OrderCreated(orderId: string, amount: int, currency: string, keyId: string)

  /** The order's receipt reference for a booking. */
  function Receipt(bookingId: Id): (r: string)
    ensures |r| == |bookingId| + 8 && r[..8] == "receipt_" && r[8..] == bookingId
  {
    "receipt_" + bookingId
  }

  /**
   * POST /api/payments/razorpay/order. The gateway client cannot be built
   * without a key id (unset or empty), and the class is read through the booking's relation,
   * so a missing key id or a dangling class both end in 500.
   */
  function CreateOrder(env: Env, db: Db, authorization: Option<string>, body: Body<OrderRequest>): (r: Reply<OrderCreated>)
    ensures Authenticate(env, db, authorization).None? <==> r == Fail(401, "Unauthorized")
    ensures r.Ok? ==>
      && r.status == 200 && body.Parsed? && body.fields.bookingId.Str?
      && var booking := BookingById(db.bookings, body.fields.bookingId.s);
      && booking.Some? && booking.value.userId == Authenticate(env, db, authorization).value.user.id
      && var c := ClassById(db.classes, booking.value.classId);
      && c.Some?
      && env.razorpayKeyId != ""
      && env.createOrder(OrderOptions(c.value.priceCents, Rupees, Receipt(booking.value.id))).Some?
      && r.value == OrderCreated(env.createOrder(OrderOptions(c.value.priceCents, Rupees, Receipt(booking.value.id))).value,
                                 c.value.priceCents, Rupees, env.razorpayKeyId)
  {
    var caller := Authenticate(env, db, authorization);
    if caller.None? then Fail(401, "Unauthorized")
    else if body.Unparsable? then Internal()
    else
      var bookingId := body.fields.bookingId;
      if !Truthy(bookingId) then Fail(400, "Booking ID is required")
      // a booking id that is not a string makes the lookup throw
      else if !bookingId.Str? then Internal()
      else
        match BookingById(db.bookings, bookingId.s)
        case None => Fail(404, "Booking not found")
        case Some(booking) =>
          match ClassById(db.classes, booking.classId)
          case None => Internal()
          case Some(c) =>
            if booking.userId != caller.value.user.id then Fail(403, "Unauthorized access to this booking")
            else if env.razorpayKeyId == "" then Internal()
            else
              match env.createOrder(OrderOptions(c.priceCents, Rupees, Receipt(bookingId.s)))
              case None => Internal()
              case Some(orderId) => Ok(200, OrderCreated(orderId, c.priceCents, Rupees, env.razorpayKeyId))
  }

  /**
   * The guards in order: a missing booking id is 400, an unknown booking
   * 404, and only a booking that exists is checked for its owner.
   */
  lemma OrderRefusals(env: Env, db: Db, authorization: Option<string>, body: Body<OrderRequest>)
    requires Authenticate(env, db, authorization).Some? && body.Parsed?
    ensures !Truthy(body.fields.bookingId) ==>
      CreateOrder(env, db, authorization, body) == Fail(400, "Booking ID is required")
    ensures Truthy(body.fields.bookingId) && body.fields.bookingId.Str? &&
            (forall b :: b in db.bookings ==> b.id != body.fields.bookingId.s) ==>
      CreateOrder(env, db, authorization, body) == Fail(404, "Booking not found")
    ensures CreateOrder(env, db, authorization, body).status == 403 ==>
      body.fields.bookingId.Str? &&
      exists b :: b in db.bookings && b.id == body.fields.bookingId.s &&
        b.userId != Authenticate(env, db, authorization).value.user.id
  {
  }

  /**
   * The owner of a booking whose class is there, with the key id set and
   * the gateway answering, gets an order for exactly the class price.
   */
  lemma OrderForFoundBooking(env: Env, db: Db, authorization: Option<string>, b: Booking, c: YogaClass, orderId: string)
    requires b.id != "" && BookingById(db.bookings, b.id) == Some(b) && ClassById(db.classes, b.classId) == Some(c)
    requires var caller := Authenticate(env, db, authorization); caller.Some? && caller.value.user.id == b.userId
    requires env.razorpayKeyId != ""
    requires env.createOrder(OrderOptions(c.priceCents, Rupees, Receipt(b.id))) == Some(orderId)
    ensures CreateOrder(env, db, authorization, Parsed(OrderRequest(Str(b.id))))
            == Ok(200, OrderCreated(orderId, c.priceCents, Rupees, env.razorpayKeyId))
  {
  }

  /**
   * In a consistent database the owner of any booking, with the key id set
   * and the gateway answering, gets an order for exactly the class price.
   */
  lemma OwnerGetsOrderAtClassPrice(env: Env, db: Db, authorization: Option<string>, i: nat, orderId: string)
    requires Wf(db) && i < |db.bookings|
    requires var caller := Authenticate(env, db, authorization);
      caller.Some? && caller.value.user.id == db.bookings[i].userId
    requires env.razorpayKeyId != ""
    requires var b := db.bookings[i];
      forall c :: c in db.classes && c.id == b.classId ==>
        env.createOrder(OrderOptions(c.priceCents, Rupees, Receipt(b.id))) == Some(orderId)
    ensures var b := db.bookings[i];
      exists c :: c in db.classes && c.id == b.classId &&
        CreateOrder(env, db, authorization, Parsed(OrderRequest(Str(b.id))))
          == Ok(200, OrderCreated(orderId, c.priceCents, Rupees, env.razorpayKeyId))
  {
    var b := db.bookings[i];
    BookingLookup(db, i);
    var c := ClassById(db.classes, b.classId).value;
    OrderForFoundBooking(env, db, authorization, b, c, orderId);
  }

  /** Someone else's booking is refused with 403, whatever the gateway and the configuration. */
  lemma OrderForOthersBooking(env: Env, db: Db, authorization: Option<string>, b: Booking)
    requires b.id != "" && BookingById(db.bookings, b.id) == Some(b) && ClassById(db.classes, b.classId).Some?
    requires var caller := Authenticate(env, db, authorization); caller.Some? && caller.value.user.id != b.userId
    ensures CreateOrder(env, db, authorization, Parsed(OrderRequest(Str(b.id))))
            == Fail(403, "Unauthorized access to this booking")
  {
  }

  /**
   * In a consistent database someone else's booking is refused with 403,
   * whatever the gateway and the configuration.
   */
  lemma OthersBookingIsForbidden(env: Env, db: Db, authorization: Option<string>, i: nat)
    requires Wf(db) && i < |db.bookings|
    requires var caller := Authenticate(env, db, authorization);
      caller.Some? && caller.value.user.id != db.bookings[i].userId
    ensures CreateOrder(env, db, authorization, Parsed(OrderRequest(Str(db.bookings[i].id))))
            == Fail(403, "Unauthorized access to this booking")
  {
    BookingLookup(db, i);
    OrderForOthersBooking(env, db, authorization, db.bookings[i]);
  }
}
