/**
 * Properties that span several routes: the booking, ordering and payment
 * sequence a member goes through, and how the two token readers treat the
 * tokens the auth routes issue.
 */
module Flows {
  import opened Wrappers
  import opened Http
  import opened Text
  import opened Externals
  import opened Database
  import opened AuthUtils
  import opened Authorise
  import opened Login
  import opened Bookings
  import opened RazorpayOrder
  import opened RazorpayVerify

  /**
   * A login token carries only `userId`: the routes that call
   * `authenticate` accept it as the stored user, while `withAuth`, which
   * reads `sub`, refuses it with 401 whatever roles it allows. This holds
   * for any token library whose `verify` hands back what `sign` was given.
   */
  lemma LoginTokenOnlyServesAuthenticate<R>(env: Env, db: Db, user: User, handler: User -> R, roles: Option<seq<string>>)
    requires PrimaryKeys(db) && user in db.users && user.id != ""
    requires env.jwtSecret != ""
    requires var token := env.jwtSign(LoginClaims(user.id), env.jwtSecret, OneHour);
      ' ' !in token && env.jwtVerify(token, env.jwtSecret) == Some(LoginClaims(user.id))
    ensures var header := BearerPrefix + env.jwtSign(LoginClaims(user.id), env.jwtSecret, OneHour);
      && Authenticate(env, db, Some(header)).Some?
      && Authenticate(env, db, Some(header)).value.user == user
      && WithAuth(env, db, handler, roles, Some(header)) == Rejected(401, "Invalid token payload")
  {
    var token := env.jwtSign(LoginClaims(user.id), env.jwtSecret, OneHour);
    var header := BearerPrefix + token;
    BearerTokenRoundTrip(token);
    AuthenticatesClaimedUser(env, db, header, user);
    assert SecondField(header) == Some(token);
    PayloadWithoutSubIsRefused(env, db, handler, roles, header);
  }

  /**
   * The first booking of a class answers 201 with a PENDING booking placed
   * after the existing ones, and leaves a consistent database.
   */
  lemma FirstBookingIsPending(env: Env, db: Db, authorization: Option<string>, classId: Id, now: int)
    requires Wf(db) && OneBookingPerPair(db.bookings)
    requires var caller := Authenticate(env, db, authorization);
      caller.Some? && BookingFor(db.bookings, caller.value.user.id, classId).None?
    requires classId != "" && ClassById(db.classes, classId).Some?
    ensures var s := PostSpec(env, db, authorization, Parsed(BookingRequest(Str(classId))), now);
      && s.reply.Ok? && s.reply.status == 201
      && |s.db.bookings| == |db.bookings| + 1
      && s.db.bookings[|db.bookings|] == s.reply.value
      && s.reply.value.classId == classId && s.reply.value.status == PENDING
      && s.reply.value.userId == Authenticate(env, db, authorization).value.user.id
      && s.db.users == db.users && s.db.trainers == db.trainers && s.db.classes == db.classes && s.db.payments == db.payments
      && Wf(s.db) && OneBookingPerPair(s.db.bookings)
  {
    var body := Parsed(BookingRequest(Str(classId)));
    FreeClassIsBooked(env, db, authorization, classId, now);
    PostWritesOnlyOnCreate(env, db, authorization, body, now);
    PostKeepsInvariants(env, db, authorization, body, now);
  }

  /**
   * A correctly signed payment for the caller's own booking confirms it,
   * links it to a payment of the class price, and from then on booking the
   * same class again is refused with 409.
   */
  lemma PaymentConfirmsBooking(env: Env, db: Db, authorization: Option<string>, k: nat,
                               orderId: string, paymentRef: string, later: int)
    requires Wf(db) && OneBookingPerPair(db.bookings) && k < |db.bookings|
    requires var caller := Authenticate(env, db, authorization);
      caller.Some? && caller.value.user.id == db.bookings[k].userId
    requires env.razorpayKeySecret.Some? && orderId != "" && paymentRef != ""
    requires env.hmacSha256Hex(env.razorpayKeySecret.value, orderId + "|" + paymentRef) != ""
    ensures
      var b := db.bookings[k];
      var digest := env.hmacSha256Hex(env.razorpayKeySecret.value, orderId + "|" + paymentRef);
      var paid := VerifySpec(env, db, authorization,
                             Parsed(VerifyRequest(Str(orderId), Str(paymentRef), Str(digest), Str(b.id))));
      && paid.reply.Ok? && paid.reply.status == 200
      && |paid.db.bookings| == |db.bookings| && |paid.db.payments| == |db.payments| + 1
      && paid.db.bookings[k] == Confirmed(b, paid.reply.value.paymentId)
      && ClassById(db.classes, b.classId).Some?
      && paid.db.payments[|db.payments|].amountCents == ClassById(db.classes, b.classId).value.priceCents
      && PostSpec(env, paid.db, authorization, Parsed(BookingRequest(Str(b.classId))), later)
           == Step(Fail(409, "You have already booked this class"), paid.db)
  {
    var b := db.bookings[k];
    var digest := env.hmacSha256Hex(env.razorpayKeySecret.value, orderId + "|" + paymentRef);
    var req := VerifyRequest(Str(orderId), Str(paymentRef), Str(digest), Str(b.id));
    assert Digest(env, req) == digest;
    BookingLookup(db, k);
    SignedRequestConfirmsAnyBooking(env, db, authorization, req, k);
    VerifyIsAtomic(env, db, authorization, Parsed(req));
    VerifyKeepsInvariants(env, db, authorization, Parsed(req));
    var paid := VerifySpec(env, db, authorization, Parsed(req));
    AuthenticateReadsOnlyIdentities(env, db, paid.db, authorization);
    ConfirmedBookingConflicts(env, paid.db, authorization, later, k);
  }

  /**
   * Booking, ordering and paying, in that order: the member books a class,
   * the order for the new booking is for the class price, and a correctly
   * signed payment for that order confirms the booking with a payment of
   * the same amount, the class price; booking the class again is then
   * refused with 409.
   */
  lemma BookOrderPayConfirms(env: Env, db: Db, authorization: Option<string>, classId: Id, now: int, later: int,
                             orderId: string, paymentRef: string)
    requires Wf(db) && OneBookingPerPair(db.bookings)
    requires var caller := Authenticate(env, db, authorization);
      caller.Some? && BookingFor(db.bookings, caller.value.user.id, classId).None?
    requires classId != "" && ClassById(db.classes, classId).Some?
    requires env.razorpayKeyId != "" && env.razorpayKeySecret.Some?
    requires env.createOrder(OrderOptions(ClassById(db.classes, classId).value.priceCents, Rupees,
                                          Receipt(NewKey(db.nextKey)))) == Some(orderId)
    requires orderId != "" && paymentRef != ""
    requires env.hmacSha256Hex(env.razorpayKeySecret.value, orderId + "|" + paymentRef) != ""
    ensures var booked := PostSpec(env, db, authorization, Parsed(BookingRequest(Str(classId))), now);
      && booked.reply.Ok? && booked.reply.status == 201
      && |booked.db.bookings| == |db.bookings| + 1 && booked.db.bookings[|db.bookings|] == booked.reply.value
      && booked.db.payments == db.payments && booked.reply.value.classId == classId
    ensures var booked := PostSpec(env, db, authorization, Parsed(BookingRequest(Str(classId))), now);
      CreateOrder(env, booked.db, authorization, Parsed(OrderRequest(Str(booked.reply.value.id))))
         == Ok(200, OrderCreated(orderId, ClassById(db.classes, classId).value.priceCents, Rupees, env.razorpayKeyId))
    ensures var booked := PostSpec(env, db, authorization, Parsed(BookingRequest(Str(classId))), now);
      var b := booked.db.bookings[|db.bookings|];
      var digest := env.hmacSha256Hex(env.razorpayKeySecret.value, orderId + "|" + paymentRef);
      var paid := VerifySpec(env, booked.db, authorization,
                             Parsed(VerifyRequest(Str(orderId), Str(paymentRef), Str(digest), Str(b.id))));
      && paid.reply.Ok? && paid.reply.status == 200
      && |paid.db.bookings| == |booked.db.bookings| && |paid.db.payments| == |booked.db.payments| + 1
      && paid.db.bookings[|db.bookings|] == Confirmed(b, paid.reply.value.paymentId)
      && ClassById(booked.db.classes, b.classId).Some?
      && paid.db.payments[|booked.db.payments|].amountCents == ClassById(booked.db.classes, b.classId).value.priceCents
      && PostSpec(env, paid.db, authorization, Parsed(BookingRequest(Str(b.classId))), later)
           == Step(Fail(409, "You have already booked this class"), paid.db)
  {
    var c := ClassById(db.classes, classId).value;
    var booked := PostSpec(env, db, authorization, Parsed(BookingRequest(Str(classId))), now);
    FirstBookingIsPending(env, db, authorization, classId, now);
    var b := booked.reply.value;
    var k := |db.bookings|;
    AuthenticateReadsOnlyIdentities(env, db, booked.db, authorization);
    BookingLookup(booked.db, k);
    assert b.id == NewKey(db.nextKey) by {
      PostWritesOnlyOnCreate(env, db, authorization, Parsed(BookingRequest(Str(classId))), now);
    }
    assert booked.db.bookings[k] == b && b.classId == classId && booked.db.classes == db.classes;
    OrderForFoundBooking(env, booked.db, authorization, b, c, orderId);
    PaymentConfirmsBooking(env, booked.db, authorization, k, orderId, paymentRef, later);
  }
}
