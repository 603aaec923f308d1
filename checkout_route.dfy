/** The older JSON checkout endpoint, `POST /api/checkout`
    (app/api/checkout/route.ts:5-73): it inserts a pending registration
    with no capacity or duplicate check and opens a Stripe session whose
    metadata uses snake_case keys. */
module CheckoutRoute {
  import opened Types
  import opened Store
  import Registrations

  /** The request body (app/api/checkout/route.ts:17). */
  datatype CheckoutBody = CheckoutBody(classId: Id, studentId: Id, isOneOnOne: bool, price: real)

  /** The JSON response and its HTTP status. */
  datatype Response =
    | Created(sessionId: string, url: Option<string>)
    | Error(httpStatus: int, message: string)

  /** The metadata of this route's session (app/api/checkout/route.ts:60-65). */
  function SessionMetadata(registrationId: Id, body: CheckoutBody, userId: Id): (m: map<string, string>)
    ensures "registration_id" in m && m["registration_id"] == registrationId
    ensures "registrationId" !in m && "type" !in m
  {
    map["registration_id" := registrationId, "class_id" := body.classId,
        "student_id" := body.studentId, "user_id" := userId]
  }

  /** The row inserted (app/api/checkout/route.ts:22-31): the caller goes in
      user_id, not parent_id, and the row is pending in both status columns. */
  function PendingRow(body: CheckoutBody, userId: Id): (r: Registration)
    ensures r.userId == Some(userId) && r.parentId.None?
    ensures r.paymentStatus == Pending && r.status == Some("pending") && r.paymentMethod == Stripe
    ensures r.classId == body.classId && r.studentId == body.studentId && r.amountPaid == body.price
  {
    Registration(body.classId, body.studentId, None, Some(userId), body.isOneOnOne, Stripe, Pending,
                 Some("pending"), None, None, None, body.price)
  }

  /** `body` is the parsed request body (None: `request.json()` threw or
      the body is not an object to destructure), `insertFails` the
      database's answer and `session` Stripe's (None: the call threw). The
      insert runs whatever the class's capacity and whatever rows already
      exist for the same class and student. */
  method Post(db: Database, user: Option<Id>, body: Option<CheckoutBody>, insertFails: bool,
              session: Option<Registrations.CheckoutSession>)
    returns (resp: Response, stripeCall: Option<Registrations.SessionRequest>, ghost newId: Option<Id>)
    modifies db
    ensures db.classes == old(db.classes)
    ensures user.None? ==> resp == Error(401, "Unauthorized") && db.Snapshot() == old(db.Snapshot())
                           && stripeCall.None? && newId.None?
    ensures user.Some? && body.None? ==>
              resp == Error(500, "Internal server error") && db.Snapshot() == old(db.Snapshot())
              && stripeCall.None? && newId.None?
    ensures user.Some? && body.Some? && insertFails ==>
              resp == Error(500, "Failed to create registration") && db.Snapshot() == old(db.Snapshot())
              && stripeCall.None? && newId.None?
    ensures user.Some? && body.Some? && !insertFails ==>
              newId.Some? && newId.value !in old(db.registrations)
              && db.Snapshot() == old(db.Snapshot()).(registrations := old(db.registrations)[newId.value := PendingRow(body.value, user.value)])
              && stripeCall == Some(Registrations.SessionRequest(Registrations.Cents(body.value.price), newId.value,
                                                                SessionMetadata(newId.value, body.value, user.value)))
              && resp == (if session.Some? then Created(session.value.id, session.value.url)
                          else Error(500, "Internal server error"))
  {
    newId := None;
    stripeCall := None;
    if user.None? {
      return Error(401, "Unauthorized"), stripeCall, newId;
    }
    if body.None? {
      return Error(500, "Internal server error"), stripeCall, newId;
    }
    if insertFails {
      return Error(500, "Failed to create registration"), stripeCall, newId;
    }
    FreshIdExists(db.registrations);
    var id :| id !in db.registrations;
    db.registrations := db.registrations[id := PendingRow(body.value, user.value)];
    newId := Some(id);
    stripeCall := Some(Registrations.SessionRequest(Registrations.Cents(body.value.price), id,
                                                    SessionMetadata(id, body.value, user.value)));
    if session.None? {
      return Error(500, "Internal server error"), stripeCall, newId;
    }
    resp := Created(session.value.id, session.value.url);
  }
}
