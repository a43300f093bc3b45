/**
 * /api/classes: GET lists every class by start time; POST lets an ADMIN or
 * a TRAINER create a class, a trainer always for their own profile and an
 * admin for a trainer they name.
 */
module Classes {
  import opened Wrappers
  import opened Http
  import opened Sorting
  import opened Externals
  import opened Database
  import opened AuthUtils

  datatype ClassRequest = ClassRequest(
    title: Json, description: Json, startAt: Json, endAt: Json,
    capacity: Json, priceCents: Json, location: Json, trainerId: Json)

  // `createClassSchema`, field by field.
  predicate IsInteger(n: real) { n.Floor as real == n }
  predicate OptionalString(v: Json) { v.Absent? || v.Str? }
  predicate TitleOk(v: Json) { v.Str? && |v.s| >= 1 }
  predicate CapacityOk(v: Json) { v.Num? && IsInteger(v.n) && v.n > 0.0 }
  predicate PriceOk(v: Json) { v.Num? && IsInteger(v.n) && v.n >= 0.0 }

  /** Every field of the body meets `createClassSchema`. */
  predicate ClassSchema(req: ClassRequest) {
    && TitleOk(req.title) && OptionalString(req.description)
    && req.startAt.Str? && req.endAt.Str?
    && CapacityOk(req.capacity) && PriceOk(req.priceCents)
    && OptionalString(req.location) && OptionalString(req.trainerId)
  }

  /** The field's name when its check fails, nothing otherwise. */
  function Issue(ok: bool, field: string): (r: seq<string>)
    ensures r == [] <==> ok
  {
    if ok then [] else [field]
  }

  /** The fields `createClassSchema` rejects, in schema order. */
  function ClassIssues(req: ClassRequest): (issues: seq<string>)
    ensures issues == [] <==> ClassSchema(req)
    ensures !TitleOk(req.title) ==> issues[0] == "title"
  {
    Issue(TitleOk(req.title), "title") +
    Issue(OptionalString(req.description), "description") +
    Issue(req.startAt.Str?, "startAt") +
    Issue(req.endAt.Str?, "endAt") +
    Issue(CapacityOk(req.capacity), "capacity") +
    Issue(PriceOk(req.priceCents), "priceCents") +
    Issue(OptionalString(req.location), "location") +
    Issue(OptionalString(req.trainerId), "trainerId")
  }

  /** An optional string field as the column stores it. */
  function OptionalText(v: Json): Option<string> {
    if v.Str? then Some(v.s) else None
  }

  /** How the route settles the owning trainer: a trainer id, or the refusal it answers. */
  datatype Resolution = Resolved(trainerId: Id) | Refused(status: int, error: string)

  /**
   * The `let trainerId` logic: a TRAINER always gets their own profile id,
   * whatever was sent, and 400 without a profile; an ADMIN must send a
   * trainer id (400) that names a trainer (404).
   */
  function ResolveTrainer(db: Db, caller: AuthenticatedUser, requested: Json): (r: Resolution)
    requires caller.user.role == TRAINER || caller.user.role == ADMIN
    requires OptionalString(requested)
    ensures caller.user.role == TRAINER ==>
      r == (if caller.trainerId.Some? then Resolved(caller.trainerId.value)
            else Refused(400, "Trainer profile not found"))
    ensures caller.user.role == ADMIN && !Truthy(requested) ==> r == Refused(400, "Trainer ID is required for Admin")
    ensures caller.user.role == ADMIN && r.Resolved? ==> requested == Str(r.trainerId) && HasTrainer(db.trainers, r.trainerId)
    ensures caller.user.role == ADMIN && Truthy(requested) && r.Refused? ==>
      r == Refused(404, "Trainer not found") && !HasTrainer(db.trainers, requested.s)
  {
    if caller.user.role == TRAINER then
      if caller.trainerId.None? then Refused(400, "Trainer profile not found")
      else Resolved(caller.trainerId.value)
    else if !Truthy(requested) then Refused(400, "Trainer ID is required for Admin")
    else if TrainerById(db.trainers, requested.s).None? then Refused(404, "Trainer not found")
    else Resolved(requested.s)
  }

  /** The row a successful POST inserts. */
  function NewClass(db: Db, req: ClassRequest, startAt: int, endAt: int, trainerId: Id): (c: YogaClass)
    requires ClassSchema(req)
    ensures KeysBelow(db) ==> !HasClass(db.classes, c.id)
    ensures c.capacity > 0 && c.capacity as real == req.capacity.n
    ensures c.priceCents >= 0 && c.priceCents as real == req.priceCents.n
  {
    YogaClass(NewKey(db.nextKey), req.title.s, OptionalText(req.description), startAt, endAt,
              req.capacity.n.Floor, req.priceCents.n.Floor, OptionalText(req.location), trainerId)
  }

  /** The callers allowed to create classes. */
  const Staff := [ADMIN, TRAINER]

  /** POST /api/classes: its reply and the database it leaves. */
  function CreateClassSpec(env: Env, db: Db, authorization: Option<string>, body: Body<ClassRequest>): (r: Step<YogaClass>)
    ensures r.reply.status in {201, 400, 401, 404, 500}
    ensures r.reply.Ok? ==> r.reply.status == 201
  {
    var caller := Authenticate(env, db, authorization);
    if caller.None? || !IsAuthorized(caller.value, Staff) then Step(Fail(401, "Unauthorized"), db)
    else if body.Unparsable? then Step(Internal(), db)
    else
      var req := body.fields;
      var issues := ClassIssues(req);
      if issues != [] then Step(Invalid(400, "", issues), db)
      else
        match ResolveTrainer(db, caller.value, req.trainerId)
        case Refused(status, error) => Step(Fail(status, error), db)
        case Resolved(trainerId) =>
          var startAt, endAt := env.parseDate(req.startAt.s), env.parseDate(req.endAt.s);
          if startAt.None? || endAt.None? then Step(Internal(), db)
          else
            var c := NewClass(db, req, startAt.value, endAt.value, trainerId);
            Step(Ok(201, c), db.(classes := db.classes + [c], nextKey := db.nextKey + 1))
  }

  /**
   * A caller who is not authenticated, or whose role is USER, gets 401
   * (not 403) before the body is even read, and nothing is written.
   */
  lemma OnlyStaffMayCreate(env: Env, db: Db, authorization: Option<string>, body: Body<ClassRequest>)
    requires var caller := Authenticate(env, db, authorization); caller.None? || caller.value.user.role == USER
    ensures CreateClassSpec(env, db, authorization, body) == Step(Fail(401, "Unauthorized"), db)
  {
  }

  /** A body the schema rejects gets 400 with the failing fields, and nothing is written. */
  lemma InvalidClassIsRefused(env: Env, db: Db, authorization: Option<string>, req: ClassRequest)
    requires var caller := Authenticate(env, db, authorization); caller.Some? && caller.value.user.role != USER
    requires !ClassSchema(req)
    ensures CreateClassSpec(env, db, authorization, Parsed(req)) == Step(Invalid(400, "", ClassIssues(req)), db)
  {
  }

  /**
   * For a TRAINER the trainer id in the body makes no difference: any
   * value the schema admits gives the same reply and the same database, and a
   * created class belongs to the caller's own profile.
   */
  lemma TrainerCreatesForOwnProfile(env: Env, db: Db, authorization: Option<string>, req: ClassRequest, other: Json)
    requires var caller := Authenticate(env, db, authorization); caller.Some? && caller.value.user.role == TRAINER
    requires OptionalString(req.trainerId) && OptionalString(other)
    ensures CreateClassSpec(env, db, authorization, Parsed(req)) ==
            CreateClassSpec(env, db, authorization, Parsed(req.(trainerId := other)))
    ensures var s := CreateClassSpec(env, db, authorization, Parsed(req));
      s.reply.Ok? ==> s.reply.value.trainerId == Authenticate(env, db, authorization).value.trainerId.value
  {
    var req' := req.(trainerId := other);
    assert ClassIssues(req) == ClassIssues(req');
  }

  /**
   * An ADMIN with a valid body must name a trainer: no trainer id is 400,
   * one that names no trainer is 404, and neither writes.
   */
  lemma AdminMustNameTrainer(env: Env, db: Db, authorization: Option<string>, req: ClassRequest)
    requires var caller := Authenticate(env, db, authorization); caller.Some? && caller.value.user.role == ADMIN
    requires ClassSchema(req)
    ensures !Truthy(req.trainerId) ==>
      CreateClassSpec(env, db, authorization, Parsed(req)) == Step(Fail(400, "Trainer ID is required for Admin"), db)
    ensures Truthy(req.trainerId) && !HasTrainer(db.trainers, req.trainerId.s) ==>
      CreateClassSpec(env, db, authorization, Parsed(req)) == Step(Fail(404, "Trainer not found"), db)
  {
  }

  /**
   * When the caller is staff, the body is valid, the trainer resolves and
   * both dates parse, exactly one class is inserted with the validated
   * fields and the resolved trainer, and the reply is 201. Nothing requires
   * the start to come before the end.
   */
  lemma CreateClassInserts(env: Env, db: Db, authorization: Option<string>, req: ClassRequest)
    requires var caller := Authenticate(env, db, authorization); caller.Some? && caller.value.user.role != USER
    requires ClassSchema(req)
    requires ResolveTrainer(db, Authenticate(env, db, authorization).value, req.trainerId).Resolved?
    requires env.parseDate(req.startAt.s).Some? && env.parseDate(req.endAt.s).Some?
    ensures var s := CreateClassSpec(env, db, authorization, Parsed(req));
      var c := s.db.classes[|db.classes|];
      && s.reply == Ok(201, c)
      && s.db == db.(classes := db.classes + [c], nextKey := db.nextKey + 1)
      && c.id == NewKey(db.nextKey)
      && c.title == req.title.s && c.capacity as real == req.capacity.n && c.priceCents as real == req.priceCents.n
      && c.description == OptionalText(req.description) && c.location == OptionalText(req.location)
      && c.startAt == env.parseDate(req.startAt.s).value && c.endAt == env.parseDate(req.endAt.s).value
      && c.trainerId == ResolveTrainer(db, Authenticate(env, db, authorization).value, req.trainerId).trainerId
  {
  }

  /** Creating a class keeps the database constraints. */
  lemma CreateClassKeepsWf(env: Env, db: Db, authorization: Option<string>, body: Body<ClassRequest>)
    requires Wf(db)
    ensures Wf(CreateClassSpec(env, db, authorization, body).db)
  {
    var s := CreateClassSpec(env, db, authorization, body);
    if s.db != db {
      var caller := Authenticate(env, db, authorization).value;
      var req := body.fields;
      var trainerId := ResolveTrainer(db, caller, req.trainerId).trainerId;
      var c := NewClass(db, req, env.parseDate(req.startAt.s).value, env.parseDate(req.endAt.s).value, trainerId);
      assert s.db == db.(classes := db.classes + [c], nextKey := db.nextKey + 1);
      if caller.user.role == TRAINER {
        var t :| t in db.trainers && t.userId == caller.user.id && t.id == caller.trainerId.value;
      }
      AddClassKeepsWf(db, c);
    }
  }

  /** GET /api/classes: every class, in ascending order of start time. */
  function ListClasses(db: Db): (r: Reply<seq<YogaClass>>)
    ensures r.Ok? && r.status == 200
    ensures multiset(r.value) == multiset(db.classes)
    ensures forall i, j :: 0 <= i < j < |r.value| ==> r.value[i].startAt <= r.value[j].startAt
  {
    var key := (c: YogaClass) => c.startAt;
    var sorted := SortBy(db.classes, key);
    assert forall i, j :: 0 <= i < j < |sorted| ==> key(sorted[i]) <= key(sorted[j]);
    Ok(200, sorted)
  }

  /**
   * The route's `let trainerId`, reassigned by role: the caller's own
   * profile for a TRAINER, the requested id, once found, for an ADMIN.
   */
  method Resolve(store: Store, caller: AuthenticatedUser, requested: Json) returns (r: Resolution)
    requires caller.user.role == TRAINER || caller.user.role == ADMIN
    requires OptionalString(requested)
    ensures r == ResolveTrainer(store.Snapshot(), caller, requested)
  {
    var trainerId := requested;
    if caller.user.role == TRAINER {
      if caller.trainerId.None? {
        return Refused(400, "Trainer profile not found");
      }
      trainerId := Str(caller.trainerId.value);
    } else {
      if !Truthy(trainerId) {
        return Refused(400, "Trainer ID is required for Admin");
      }
      if TrainerById(store.trainers, trainerId.s).None? {
        return Refused(404, "Trainer not found");
      }
    }
    r := Resolved(trainerId.s);
  }

  /**
   * The POST handler against the store: guards, the reassigned trainer id,
   * then one insert.
   */
  method CreateClass(env: Env, store: Store, authorization: Option<string>, body: Body<ClassRequest>)
    returns (r: Reply<YogaClass>)
    requires store.Valid()
    modifies store`classes, store`nextKey
    ensures store.Valid()
    ensures r == CreateClassSpec(env, old(store.Snapshot()), authorization, body).reply
    ensures store.Snapshot() == CreateClassSpec(env, old(store.Snapshot()), authorization, body).db
  {
    ghost var before := store.Snapshot();
    CreateClassKeepsWf(env, before, authorization, body);
    var caller := Authenticate(env, store.Snapshot(), authorization);
    assert caller == Authenticate(env, before, authorization);
    if caller.None? || !IsAuthorized(caller.value, Staff) {
      return Fail(401, "Unauthorized");
    }
    var user := caller.value;
    if body.Unparsable? {
      return Internal();
    }
    var req := body.fields;
    var issues := ClassIssues(req);
    if issues != [] {
      return Invalid(400, "", issues);
    }
    var resolution := Resolve(store, user, req.trainerId);
    if resolution.Refused? {
      return Fail(resolution.status, resolution.error);
    }
    var startAt, endAt := env.parseDate(req.startAt.s), env.parseDate(req.endAt.s);
    if startAt.None? || endAt.None? {
      return Internal();
    }
    CreateClassInserts(env, before, authorization, req);
    var id := store.FreshKey();
    var c := YogaClass(id, req.title.s, OptionalText(req.description), startAt.value, endAt.value,
                       req.capacity.n.Floor, req.priceCents.n.Floor, OptionalText(req.location), resolution.trainerId);
    store.classes := store.classes + [c];
    r := Ok(201, c);
  }
}
