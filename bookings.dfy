/**
 * /api/bookings: POST books the caller onto a class (or hands back the
 * pending booking they already hold); GET lists the caller's bookings,
 * newest first.
 */
module Bookings {
  import opened Wrappers
  import opened Http
  import opened Sorting
  import opened Externals
  import opened Database
  import opened AuthUtils

  datatype BookingRequest = BookingRequest(classId: Json)

  /** POST /api/bookings at time `now`: its reply and the database it leaves. */
  function PostSpec(env: Env, db: Db, authorization: Option<string>, body: Body<BookingRequest>, now: int): (r: Step<Booking>)
    ensures r.reply.status in {200, 201, 400, 401, 404, 409, 500}
    ensures r.reply.Ok? <==> r.reply.status in {200, 201}
  {
    var caller := Authenticate(env, db, authorization);
    if caller.None? then Step(Fail(401, "Unauthorized"), db)
    else if body.Unparsable? then Step(Internal(), db)
    else
      var classId := body.fields.classId;
      if !Truthy(classId) then Step(Fail(400, "Class ID is required"), db)
      // a class id that is not a string makes the lookup throw
      else if !classId.Str? then Step(Internal(), db)
      else if ClassById(db.classes, classId.s).None? then Step(Fail(404, "Class not found"), db)
      else
        var userId := caller.value.user.id;
        match BookingFor(db.bookings, userId, classId.s)
        case Some(existing) =>
          if existing.status == CONFIRMED then Step(Fail(409, "You have already booked this class"), db)
          else Step(Ok(200, existing), db)
        case None =>
          var b := Booking(NewKey(db.nextKey), userId, classId.s, PENDING, None, now);
          Step(Ok(201, b), db.(bookings := db.bookings + [b], nextKey := db.nextKey + 1))
  }

  /**
   * The guards in order: no caller is 401 whatever the body, then a missing
   * class id is 400, then an unknown class is 404; none of them writes.
   */
  lemma PostRefusals(env: Env, db: Db, authorization: Option<string>, body: Body<BookingRequest>, now: int)
    ensures Authenticate(env, db, authorization).None? ==>
      PostSpec(env, db, authorization, body, now) == Step(Fail(401, "Unauthorized"), db)
    ensures Authenticate(env, db, authorization).Some? && body.Parsed? && !Truthy(body.fields.classId) ==>
      PostSpec(env, db, authorization, body, now) == Step(Fail(400, "Class ID is required"), db)
    ensures Authenticate(env, db, authorization).Some? && body.Parsed? && Truthy(body.fields.classId) &&
            body.fields.classId.Str? && !HasClass(db.classes, body.fields.classId.s) ==>
      PostSpec(env, db, authorization, body, now) == Step(Fail(404, "Class not found"), db)
  {
  }

  /**
   * Only a 201 writes, and then exactly one PENDING booking, unpaid, for
   * the caller and the requested class, under a fresh id; every other
   * reply leaves the database as it was.
   */
  lemma PostWritesOnlyOnCreate(env: Env, db: Db, authorization: Option<string>, body: Body<BookingRequest>, now: int)
    ensures var s := PostSpec(env, db, authorization, body, now);
      s.reply.status != 201 ==> s.db == db
    ensures var s := PostSpec(env, db, authorization, body, now);
      s.reply.status == 201 ==>
        && s.reply.Ok?
        && s.db == db.(bookings := db.bookings + [s.reply.value], nextKey := db.nextKey + 1)
        && var b := s.reply.value;
        && b.id == NewKey(db.nextKey) && b.status == PENDING && b.paymentId.None? && b.createdAt == now
        && b.userId == Authenticate(env, db, authorization).value.user.id
        && body.Parsed? && body.fields.classId == Str(b.classId) && HasClass(db.classes, b.classId)
        && BookingFor(db.bookings, b.userId, b.classId).None?
  {
  }

  /** An authenticated caller with no booking for an existing class gets one: the reply is 201. */
  lemma FreeClassIsBooked(env: Env, db: Db, authorization: Option<string>, classId: Id, now: int)
    requires var caller := Authenticate(env, db, authorization);
      caller.Some? && BookingFor(db.bookings, caller.value.user.id, classId).None?
    requires classId != "" && ClassById(db.classes, classId).Some?
    ensures PostSpec(env, db, authorization, Parsed(BookingRequest(Str(classId))), now).reply.status == 201
  {
  }

  /** POST keeps the database constraints and one booking per user and class. */
  lemma PostKeepsInvariants(env: Env, db: Db, authorization: Option<string>, body: Body<BookingRequest>, now: int)
    requires Wf(db) && OneBookingPerPair(db.bookings)
    ensures var s := PostSpec(env, db, authorization, body, now);
      Wf(s.db) && OneBookingPerPair(s.db.bookings)
  {
    var s := PostSpec(env, db, authorization, body, now);
    PostWritesOnlyOnCreate(env, db, authorization, body, now);
    if s.reply.status == 201 {
      var b := s.reply.value;
      var caller := Authenticate(env, db, authorization).value;
      AddBookingKeepsWf(db, b);
      var after := db.bookings + [b];
      forall i, j | 0 <= i < j < |after|
        ensures !(after[i].userId == after[j].userId && after[i].classId == after[j].classId)
      {
        if j == |db.bookings| {
          assert after[i] in db.bookings;
        }
      }
    }
  }

  /**
   * Booking again while the first booking is still PENDING is harmless:
   * the same request against the new database returns that booking with
   * 200 and writes nothing.
   */
  lemma RepeatedPostReturnsPendingBooking(env: Env, db: Db, authorization: Option<string>, body: Body<BookingRequest>, now: int, later: int)
    requires PostSpec(env, db, authorization, body, now).reply.status == 201
    ensures var first := PostSpec(env, db, authorization, body, now);
      PostSpec(env, first.db, authorization, body, later) == Step(Ok(200, first.reply.value), first.db)
  {
    var first := PostSpec(env, db, authorization, body, now);
    PostWritesOnlyOnCreate(env, db, authorization, body, now);
    var b := first.reply.value;
    AuthenticateReadsOnlyIdentities(env, db, first.db, authorization);
    var found := BookingFor(first.db.bookings, b.userId, b.classId);
    assert b in first.db.bookings;
    assert found.Some?;
    assert found.value !in db.bookings;
  }

  /**
   * A CONFIRMED booking blocks booking the same class again: the caller
   * who holds it gets 409 and nothing is written.
   */
  lemma ConfirmedBookingConflicts(env: Env, db: Db, authorization: Option<string>, now: int, i: nat)
    requires Wf(db) && OneBookingPerPair(db.bookings)
    requires i < |db.bookings| && db.bookings[i].status == CONFIRMED
    requires var caller := Authenticate(env, db, authorization);
      caller.Some? && caller.value.user.id == db.bookings[i].userId
    ensures PostSpec(env, db, authorization, Parsed(BookingRequest(Str(db.bookings[i].classId))), now)
            == Step(Fail(409, "You have already booked this class"), db)
  {
    var b := db.bookings[i];
    assert b in db.bookings;
    assert HasClass(db.classes, b.classId);
    var c :| c in db.classes && c.id == b.classId;
    assert b.classId != "";
    BookingForIsTheOnlyOne(db.bookings, i);
  }

  /**
   * A PENDING booking is handed back: the caller who holds it gets it again
   * with 200 for that class, and nothing is written.
   */
  lemma PendingBookingIsReturned(env: Env, db: Db, authorization: Option<string>, now: int, i: nat)
    requires Wf(db) && OneBookingPerPair(db.bookings)
    requires i < |db.bookings| && db.bookings[i].status == PENDING
    requires var caller := Authenticate(env, db, authorization);
      caller.Some? && caller.value.user.id == db.bookings[i].userId
    ensures PostSpec(env, db, authorization, Parsed(BookingRequest(Str(db.bookings[i].classId))), now)
            == Step(Ok(200, db.bookings[i]), db)
  {
    var b := db.bookings[i];
    assert b in db.bookings;
    assert HasClass(db.classes, b.classId);
    var c :| c in db.classes && c.id == b.classId;
    assert b.classId != "";
    BookingForIsTheOnlyOne(db.bookings, i);
  }

  /** The caller's bookings, in table order. */
  function Mine(bookings: seq<Booking>, userId: Id): (r: seq<Booking>)
    ensures forall b :: b in r <==> b in bookings && b.userId == userId
    ensures multiset(r) <= multiset(bookings)
  {
    if bookings == [] then []
    else
      var rest := Mine(bookings[1..], userId);
      assert bookings == [bookings[0]] + bookings[1..];
      if bookings[0].userId == userId then [bookings[0]] + rest else rest
  }

  /**
   * GET /api/bookings: 401 without a valid token, otherwise exactly the
   * caller's bookings, newest first.
   */
  function ListBookings(env: Env, db: Db, authorization: Option<string>): (r: Reply<seq<Booking>>)
    ensures Authenticate(env, db, authorization).None? <==> r == Fail(401, "Unauthorized")
    ensures Authenticate(env, db, authorization).Some? ==> r.Ok? && r.status == 200
    ensures r.Ok? ==> forall b :: b in r.value <==>
      b in db.bookings && b.userId == Authenticate(env, db, authorization).value.user.id
    ensures r.Ok? ==> multiset(r.value) <= multiset(db.bookings)
    ensures r.Ok? ==> forall i, j :: 0 <= i < j < |r.value| ==> r.value[i].createdAt >= r.value[j].createdAt
  {
    var caller := Authenticate(env, db, authorization);
    if caller.None? then Fail(401, "Unauthorized")
    else
      var key := (b: Booking) => -b.createdAt;
      var newestFirst := SortBy(Mine(db.bookings, caller.value.user.id), key);
      assert forall i, j :: 0 <= i < j < |newestFirst| ==> key(newestFirst[i]) <= key(newestFirst[j]);
      assert forall b :: b in newestFirst <==> b in multiset(newestFirst);
      Ok(200, newestFirst)
  }

  /** The POST handler against the store; the clock reading is `now`. */
  method Post(env: Env, store: Store, authorization: Option<string>, body: Body<BookingRequest>, now: int)
    returns (r: Reply<Booking>)
    requires store.Valid()
    modifies store`bookings, store`nextKey
    ensures store.Valid()
    ensures r == PostSpec(env, old(store.Snapshot()), authorization, body, now).reply
    ensures store.Snapshot() == PostSpec(env, old(store.Snapshot()), authorization, body, now).db
  {
    ghost var before := store.Snapshot();
    PostKeepsInvariants(env, before, authorization, body, now);
    var caller := Authenticate(env, store.Snapshot(), authorization);
    if caller.None? {
      return Fail(401, "Unauthorized");
    }
    if body.Unparsable? {
      return Internal();
    }
    var classId := body.fields.classId;
    if !Truthy(classId) {
      return Fail(400, "Class ID is required");
    }
    if !classId.Str? {
      return Internal();
    }
    if ClassById(store.classes, classId.s).None? {
      return Fail(404, "Class not found");
    }
    var existing := BookingFor(store.bookings, caller.value.user.id, classId.s);
    if existing.Some? {
      if existing.value.status == CONFIRMED {
        return Fail(409, "You have already booked this class");
      }
      return Ok(200, existing.value);
    }
    var id := store.FreshKey();
    var b := Booking(id, caller.value.user.id, classId.s, PENDING, None, now);
    store.bookings := store.bookings + [b];
    r := Ok(201, b);
  }
}
