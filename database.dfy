/**
 * The rows the route handlers read and write (users, trainer profiles,
 * classes, bookings, payments), the queries they make, the constraints the
 * database keeps, and the store object the writing handlers update.
 */
module Database {
  import opened Wrappers
  import opened Http

  type Id = string

  datatype Role = USER | TRAINER | ADMIN
  datatype BookingStatus = PENDING | CONFIRMED
  datatype PaymentProvider = RAZORPAY
  datatype PaymentStatus = SUCCEEDED

  /** The name a role has in the database and in role lists. */
  function RoleName(r: Role): string {
    match r
    case USER => "USER"
    case TRAINER => "TRAINER"
    case ADMIN => "ADMIN"
  }

  datatype User = User(id: Id, name: string, email: string, password: string, role: Role)
  datatype Trainer = Trainer(id: Id, userId: Id, specialties: seq<string>)
  datatype YogaClass = YogaClass(
    id: Id, title: string, description: Option<string>, startAt: int, endAt: int,
    capacity: int, priceCents: int, location: Option<string>, trainerId: Id)
  datatype Booking = Booking(
    id: Id, userId: Id, classId: Id, status: BookingStatus, paymentId: Option<Id>, createdAt: int)
  datatype PaymentMetadata = PaymentMetadata(orderId: Json, signature: string)
  datatype Payment = Payment(
    id: Id, provider: PaymentProvider, providerId: string, userId: Id,
    amountCents: int, currency: string, status: PaymentStatus, metadata: PaymentMetadata)

  /** The contents of the database, each table in insertion order; `nextKey` drives id generation. */
  datatype Db = Db(
    users: seq<User>, trainers: seq<Trainer>, classes: seq<YogaClass>,
    bookings: seq<Booking>, payments: seq<Payment>, nextKey: nat)

  /** What a writing handler answers together with the database it leaves. */
  datatype Step<T> = Step(reply: Reply<T>, db: Db)

  /** The id the database gives the next row: longer than every id handed out so far. */
  function NewKey(n: nat): (k: Id)
    ensures |k| == n + 1
  {
    seq(n + 1, i => 'k')
  }

  // ---------------------------------------------------------------- queries

  /** Index of the first row satisfying `p`: what a unique or first-match lookup finds. */
  function FindFirst<T>(rows: seq<T>, p: T -> bool): (r: Option<nat>)
    ensures r.Some? ==> r.value < |rows| && p(rows[r.value])
    ensures r.Some? ==> forall k :: 0 <= k < r.value ==> !p(rows[k])
    ensures r.None? ==> forall k :: 0 <= k < |rows| ==> !p(rows[k])
    decreases |rows|
  {
    if rows == [] then None
    else if p(rows[0]) then Some(0)
    else
      match FindFirst(rows[1..], p)
      case None => None
      case Some(k) => Some(k + 1)
  }

  ghost predicate HasUser(users: seq<User>, id: Id) { exists u :: u in users && u.id == id }
  ghost predicate HasTrainer(trainers: seq<Trainer>, id: Id) { exists t :: t in trainers && t.id == id }
  ghost predicate HasClass(classes: seq<YogaClass>, id: Id) { exists c :: c in classes && c.id == id }
  ghost predicate HasPayment(payments: seq<Payment>, id: Id) { exists p :: p in payments && p.id == id }

  /** `user.findUnique({where: {id}})`. */
  function UserById(users: seq<User>, id: Id): (r: Option<User>)
    ensures r.Some? ==> r.value in users && r.value.id == id
    ensures r.None? <==> !HasUser(users, id)
  {
    match FindFirst(users, (u: User) => u.id == id)
    case None => None
    case Some(k) => Some(users[k])
  }

  /** `user.findUnique({where: {email}})`. */
  function UserByEmail(users: seq<User>, email: string): (r: Option<User>)
    ensures r.Some? ==> r.value in users && r.value.email == email
    ensures r.None? <==> forall u :: u in users ==> u.email != email
  {
    match FindFirst(users, (u: User) => u.email == email)
    case None => None
    case Some(k) => Some(users[k])
  }

  /** The trainer profile of a user: the `trainer` relation of a User row. */
  function TrainerOfUser(trainers: seq<Trainer>, userId: Id): (r: Option<Trainer>)
    ensures r.Some? ==> r.value in trainers && r.value.userId == userId
    ensures r.None? <==> forall t :: t in trainers ==> t.userId != userId
  {
    match FindFirst(trainers, (t: Trainer) => t.userId == userId)
    case None => None
    case Some(k) => Some(trainers[k])
  }

  /** `trainer.findUnique({where: {id}})`. */
  function TrainerById(trainers: seq<Trainer>, id: Id): (r: Option<Trainer>)
    ensures r.Some? ==> r.value in trainers && r.value.id == id
    ensures r.None? <==> !HasTrainer(trainers, id)
  {
    match FindFirst(trainers, (t: Trainer) => t.id == id)
    case None => None
    case Some(k) => Some(trainers[k])
  }

  /** `yogaClass.findUnique({where: {id}})`, and the `yogaClass` relation of a booking. */
  function ClassById(classes: seq<YogaClass>, id: Id): (r: Option<YogaClass>)
    ensures r.Some? ==> r.value in classes && r.value.id == id
    ensures r.None? <==> !HasClass(classes, id)
  {
    match FindFirst(classes, (c: YogaClass) => c.id == id)
    case None => None
    case Some(k) => Some(classes[k])
  }

  /** Position of the row `booking.findUnique({where: {id}})` finds, which `booking.update` rewrites. */
  function BookingIndex(bookings: seq<Booking>, id: Id): (r: Option<nat>)
    ensures r.Some? ==> r.value < |bookings| && bookings[r.value].id == id
    ensures r.None? <==> forall b :: b in bookings ==> b.id != id
  {
    FindFirst(bookings, (b: Booking) => b.id == id)
  }

  /** `booking.findUnique({where: {id}})`. */
  function BookingById(bookings: seq<Booking>, id: Id): (r: Option<Booking>)
    ensures r.Some? ==> r.value in bookings && r.value.id == id
    ensures r.None? <==> forall b :: b in bookings ==> b.id != id
  {
    match BookingIndex(bookings, id)
    case None => None
    case Some(k) => Some(bookings[k])
  }

  /**
   * `booking.findFirst` for a user and a class with status PENDING or
   * CONFIRMED; every status the model has is one of those two.
   */
  function BookingFor(bookings: seq<Booking>, userId: Id, classId: Id): (r: Option<Booking>)
    ensures r.Some? ==> r.value in bookings && r.value.userId == userId && r.value.classId == classId
    ensures r.None? <==> forall b :: b in bookings ==> !(b.userId == userId && b.classId == classId)
  {
    match FindFirst(bookings, (b: Booking) => b.userId == userId && b.classId == classId)
    case None => None
    case Some(k) => Some(bookings[k])
  }

  // ------------------------------------------------------------ constraints

  /** Every id in the database is non-empty and no longer than `nextKey`, so `NewKey(nextKey)` is unused. */
  ghost predicate KeysBelow(db: Db) {
    && (forall u :: u in db.users ==> 1 <= |u.id| <= db.nextKey)
    && (forall t :: t in db.trainers ==> 1 <= |t.id| <= db.nextKey)
    && (forall c :: c in db.classes ==> 1 <= |c.id| <= db.nextKey)
    && (forall b :: b in db.bookings ==> 1 <= |b.id| <= db.nextKey)
    && (forall p :: p in db.payments ==> 1 <= |p.id| <= db.nextKey)
  }

  /** Ids are primary keys. */
  ghost predicate PrimaryKeys(db: Db) {
    && (forall i, j :: 0 <= i < j < |db.users| ==> db.users[i].id != db.users[j].id)
    && (forall i, j :: 0 <= i < j < |db.trainers| ==> db.trainers[i].id != db.trainers[j].id)
    && (forall i, j :: 0 <= i < j < |db.classes| ==> db.classes[i].id != db.classes[j].id)
    && (forall i, j :: 0 <= i < j < |db.bookings| ==> db.bookings[i].id != db.bookings[j].id)
    && (forall i, j :: 0 <= i < j < |db.payments| ==> db.payments[i].id != db.payments[j].id)
  }

  /** Every reference names an existing row. */
  ghost predicate ForeignKeys(db: Db) {
    && (forall t :: t in db.trainers ==> HasUser(db.users, t.userId))
    && (forall c :: c in db.classes ==> HasTrainer(db.trainers, c.trainerId))
    && (forall b :: b in db.bookings ==> HasUser(db.users, b.userId) && HasClass(db.classes, b.classId))
    && (forall b :: b in db.bookings && b.paymentId.Some? ==> HasPayment(db.payments, b.paymentId.value))
    && (forall p :: p in db.payments ==> HasUser(db.users, p.userId))
  }

  /** A user's e-mail is unique. */
  ghost predicate UniqueEmails(users: seq<User>) {
    forall i, j :: 0 <= i < j < |users| ==> users[i].email != users[j].email
  }

  /** A user has at most one trainer profile. */
  ghost predicate OneTrainerPerUser(trainers: seq<Trainer>) {
    forall i, j :: 0 <= i < j < |trainers| ==> trainers[i].userId != trainers[j].userId
  }

  /** The constraints the database itself keeps. */
  ghost predicate Wf(db: Db) {
    KeysBelow(db) && PrimaryKeys(db) && ForeignKeys(db) && UniqueEmails(db.users) && OneTrainerPerUser(db.trainers)
  }

  /**
   * At most one PENDING-or-CONFIRMED booking per (user, class): kept only by
   * the booking route's look-up-then-create, not by the database.
   */
  ghost predicate OneBookingPerPair(bookings: seq<Booking>) {
    forall i, j :: 0 <= i < j < |bookings| ==>
      !(bookings[i].userId == bookings[j].userId && bookings[i].classId == bookings[j].classId)
  }

  /**
   * In a consistent database a booking is found by its id, its id and
   * class id are non-empty, and its class is there to be read.
   */
  lemma BookingLookup(db: Db, i: nat)
    requires Wf(db) && i < |db.bookings|
    ensures BookingById(db.bookings, db.bookings[i].id) == Some(db.bookings[i])
    ensures BookingIndex(db.bookings, db.bookings[i].id) == Some(i)
    ensures db.bookings[i].id != "" && db.bookings[i].classId != ""
    ensures ClassById(db.classes, db.bookings[i].classId).Some?
  {
    var b := db.bookings[i];
    assert b in db.bookings;
    var c :| c in db.classes && c.id == b.classId;
    var k := BookingIndex(db.bookings, b.id);
    if k.value != i {
      assert false;
    }
  }

  /** Under the invariant, the booking a user holds for a class is the one `BookingFor` finds. */
  lemma BookingForIsTheOnlyOne(bookings: seq<Booking>, i: nat)
    requires OneBookingPerPair(bookings)
    requires i < |bookings|
    ensures BookingFor(bookings, bookings[i].userId, bookings[i].classId) == Some(bookings[i])
  {
    var b := bookings[i];
    var p := (x: Booking) => x.userId == b.userId && x.classId == b.classId;
    var k := FindFirst(bookings, p);
    assert p(bookings[i]);
    assert k.Some?;
    assert k.value == i;
  }

  /** Under unique e-mails, the user a stored e-mail is looked up by is the one that has it. */
  lemma UserByEmailFindsTheUser(users: seq<User>, user: User)
    requires UniqueEmails(users) && user in users
    ensures UserByEmail(users, user.email) == Some(user)
  {
    var found := UserByEmail(users, user.email);
    assert found.Some?;
    var i :| 0 <= i < |users| && users[i] == found.value;
    var j :| 0 <= j < |users| && users[j] == user;
    assert !(i < j) && !(j < i);
  }

  // ------------------------------------------------- inserts keep constraints

  /** A fresh key names no row, so no row can reference it. */
  lemma NewKeyUnused(db: Db)
    requires Wf(db)
    ensures forall u :: u in db.users ==> u.id != NewKey(db.nextKey)
    ensures forall t :: t in db.trainers ==> t.id != NewKey(db.nextKey) && t.userId != NewKey(db.nextKey)
  {
    forall t | t in db.trainers ensures t.userId != NewKey(db.nextKey) {
      var u :| u in db.users && u.id == t.userId;
    }
  }

  /** Inserting a user with a fresh id and an unused e-mail keeps the constraints. */
  lemma AddUserKeepsWf(db: Db, user: User)
    requires Wf(db)
    requires user.id == NewKey(db.nextKey)
    requires forall u :: u in db.users ==> u.email != user.email
    ensures Wf(db.(users := db.users + [user], nextKey := db.nextKey + 1))
  {
    var after := db.(users := db.users + [user], nextKey := db.nextKey + 1);
    forall i | 0 <= i < |db.users| ensures db.users[i].id != user.id && db.users[i].email != user.email {
      assert db.users[i] in db.users;
    }
    assert PrimaryKeys(after);
    assert UniqueEmails(after.users);
    assert KeysBelow(after);
    assert ForeignKeys(after) by {
      forall t | t in after.trainers ensures HasUser(after.users, t.userId) {
        var u :| u in db.users && u.id == t.userId;
        assert u in after.users;
      }
      forall b | b in after.bookings ensures HasUser(after.users, b.userId) {
        var u :| u in db.users && u.id == b.userId;
        assert u in after.users;
      }
      forall p | p in after.payments ensures HasUser(after.users, p.userId) {
        var u :| u in db.users && u.id == p.userId;
        assert u in after.users;
      }
    }
  }

  /** Inserting a trainer profile with a fresh id for a user without one keeps the constraints. */
  lemma AddTrainerKeepsWf(db: Db, trainer: Trainer)
    requires Wf(db)
    requires trainer.id == NewKey(db.nextKey)
    requires HasUser(db.users, trainer.userId)
    requires forall t :: t in db.trainers ==> t.userId != trainer.userId
    ensures Wf(db.(trainers := db.trainers + [trainer], nextKey := db.nextKey + 1))
  {
    var after := db.(trainers := db.trainers + [trainer], nextKey := db.nextKey + 1);
    forall i | 0 <= i < |db.trainers| ensures db.trainers[i].id != trainer.id && db.trainers[i].userId != trainer.userId {
      assert db.trainers[i] in db.trainers;
    }
    assert PrimaryKeys(after);
    assert OneTrainerPerUser(after.trainers);
    assert KeysBelow(after);
    assert ForeignKeys(after) by {
      forall c | c in after.classes ensures HasTrainer(after.trainers, c.trainerId) {
        var t :| t in db.trainers && t.id == c.trainerId;
        assert t in after.trainers;
      }
    }
  }

  /** Inserting a class with a fresh id and an existing trainer keeps the constraints. */
  lemma AddClassKeepsWf(db: Db, c: YogaClass)
    requires Wf(db)
    requires c.id == NewKey(db.nextKey)
    requires HasTrainer(db.trainers, c.trainerId)
    ensures Wf(db.(classes := db.classes + [c], nextKey := db.nextKey + 1))
  {
    var after := db.(classes := db.classes + [c], nextKey := db.nextKey + 1);
    forall i | 0 <= i < |db.classes| ensures db.classes[i].id != c.id {
      assert db.classes[i] in db.classes;
    }
    assert PrimaryKeys(after);
    assert KeysBelow(after);
    assert ForeignKeys(after) by {
      forall b | b in after.bookings ensures HasClass(after.classes, b.classId) {
        var x :| x in db.classes && x.id == b.classId;
        assert x in after.classes;
      }
    }
  }

  /** Inserting a booking with a fresh id, an existing user and an existing class keeps the constraints. */
  lemma AddBookingKeepsWf(db: Db, b: Booking)
    requires Wf(db)
    requires b.id == NewKey(db.nextKey) && b.paymentId.None?
    requires HasUser(db.users, b.userId) && HasClass(db.classes, b.classId)
    ensures Wf(db.(bookings := db.bookings + [b], nextKey := db.nextKey + 1))
  {
    var after := db.(bookings := db.bookings + [b], nextKey := db.nextKey + 1);
    forall i | 0 <= i < |db.bookings| ensures db.bookings[i].id != b.id {
      assert db.bookings[i] in db.bookings;
    }
    assert PrimaryKeys(after);
    assert KeysBelow(after);
    assert ForeignKeys(after);
  }

  /**
   * Inserting a payment with a fresh id and an existing user, and pointing
   * the booking at position k to it without changing its id, user or
   * class, keeps the constraints.
   */
  lemma AddPaymentAndLinkKeepsWf(db: Db, p: Payment, k: nat, b: Booking)
    requires Wf(db)
    requires p.id == NewKey(db.nextKey) && HasUser(db.users, p.userId)
    requires k < |db.bookings|
    requires b.id == db.bookings[k].id && b.userId == db.bookings[k].userId && b.classId == db.bookings[k].classId
    requires b.paymentId == Some(p.id)
    ensures Wf(db.(payments := db.payments + [p], bookings := db.bookings[k := b], nextKey := db.nextKey + 1))
  {
    var after := db.(payments := db.payments + [p], bookings := db.bookings[k := b], nextKey := db.nextKey + 1);
    forall i | 0 <= i < |db.payments| ensures db.payments[i].id != p.id {
      assert db.payments[i] in db.payments;
    }
    assert db.bookings[k] in db.bookings;
    assert KeysBelow(after) by {
      forall x | x in after.bookings ensures |x.id| <= after.nextKey {
        var i :| 0 <= i < |after.bookings| && after.bookings[i] == x;
        assert db.bookings[i] in db.bookings;
      }
    }
    assert PrimaryKeys(after) by {
      forall i, j | 0 <= i < j < |after.bookings| ensures after.bookings[i].id != after.bookings[j].id {
        assert after.bookings[i].id == db.bookings[i].id;
        assert after.bookings[j].id == db.bookings[j].id;
      }
    }
    assert ForeignKeys(after) by {
      forall x | x in after.bookings
        ensures HasUser(after.users, x.userId) && HasClass(after.classes, x.classId)
        ensures x.paymentId.Some? ==> HasPayment(after.payments, x.paymentId.value)
      {
        var i :| 0 <= i < |after.bookings| && after.bookings[i] == x;
        assert db.bookings[i] in db.bookings;
        if i == k {
          assert p in after.payments;
        } else if x.paymentId.Some? {
          var q :| q in db.payments && q.id == x.paymentId.value;
          assert q in after.payments;
        }
      }
      forall q | q in after.payments ensures HasUser(after.users, q.userId) {}
    }
  }

  // ------------------------------------------------------------------ store

  /** The database the handlers share, one field per table. */
  class Store {
    var users: seq<User>
    var trainers: seq<Trainer>
    var classes: seq<YogaClass>
    var bookings: seq<Booking>
    var payments: seq<Payment>
    var nextKey: nat

    function Snapshot(): Db
      reads this
    {
      Db(users, trainers, classes, bookings, payments, nextKey)
    }

    /** The database constraints and the one-booking-per-pair invariant. */
    ghost predicate Valid()
      reads this
    {
      Wf(Snapshot()) && OneBookingPerPair(bookings)
    }

    constructor ()
      ensures Valid()
      ensures Snapshot() == Db([], [], [], [], [], 0)
    {
      users, trainers, classes, bookings, payments, nextKey := [], [], [], [], [], 0;
    }

    /** Hands out the id of a new row. */
    method FreshKey() returns (k: Id)
      modifies this`nextKey
      ensures k == NewKey(old(nextKey))
      ensures nextKey == old(nextKey) + 1
    {
      k := NewKey(nextKey);
      nextKey := nextKey + 1;
    }
  }
}
