/** `registerForClass` (app/actions/registrations.ts:7-152), the server
    action behind the class registration form: guards in a fixed order,
    then either a pending card registration followed by a Stripe checkout
    session, or a charter-school registration followed by an email. */
module Registrations {
  import opened Types
  import opened Store
  import opened Lifecycle
  import Forms

  /** The fields the action reads from its form data
      (app/actions/registrations.ts:20-24, 115-116). */
  datatype RegisterRequest = RegisterRequest(
    classId: Id,
    studentId: Id,
    paymentMethod: string,
    isOneOnOne: bool,
    amount: real,
    charterSchoolName: Option<string>,
    charterSchoolContact: Option<string>)

  /** What `stripe.checkout.sessions.create` returned. */
  datatype CheckoutSession = CheckoutSession(id: string, url: Option<string>)

  /** The parts of the session request the rest of the site depends on:
      the price in cents, the registration id carried back on the success
      and cancel URLs, and the metadata the webhook reads. */
  datatype SessionRequest = SessionRequest(unitAmount: int, returnRegistrationId: Id, metadata: map<string, string>)

  /** `Math.round(amount * 100)`: halves round up. */
  function Cents(amount: real): (c: int)
    ensures c as real <= amount * 100.0 + 0.5 < c as real + 1.0
  {
    (amount * 100.0 + 0.5).Floor
  }

  /** The metadata of the card path's session (app/actions/registrations.ts:96-102). */
  function SessionMetadata(registrationId: Id, req: RegisterRequest, parentId: Id): (m: map<string, string>)
    ensures "registrationId" in m && m["registrationId"] == registrationId
    ensures "type" !in m
  {
    map["registrationId" := registrationId, "classId" := req.classId, "studentId" := req.studentId,
        "parentId" := parentId, "isOneOnOne" := Forms.BoolText(req.isOneOnOne)]
  }

  /** The error of the first guard that stops the action, or None when it
      goes on to insert: no user, no class, no free spot, then exactly one
      existing row for the same class and student, in that order
      (app/actions/registrations.ts:14-47). */
  function GuardError(user: Option<Id>, classes: map<Id, ClassRow>, regs: map<Id, Registration>,
                      req: RegisterRequest): (e: Option<string>)
    ensures e.None? <==> user.Some? && req.classId in classes
                         && classes[req.classId].spotsTaken < classes[req.classId].maxSpots
                         && !AlreadyRegistered(regs, req.classId, req.studentId)
    ensures user.None? ==> e == Some("Not authenticated")
    ensures user.Some? && req.classId !in classes ==> e == Some("Class not found")
    ensures user.Some? && req.classId in classes && classes[req.classId].spotsTaken >= classes[req.classId].maxSpots
            ==> e == Some("Class is full")
    ensures e == Some("Student is already registered for this class") <==>
              user.Some? && req.classId in classes
              && classes[req.classId].spotsTaken < classes[req.classId].maxSpots
              && AlreadyRegistered(regs, req.classId, req.studentId)
  {
    if user.None? then Some("Not authenticated")
    else if req.classId !in classes then Some("Class not found")
    else if classes[req.classId].spotsTaken >= classes[req.classId].maxSpots then Some("Class is full")
    else if AlreadyRegistered(regs, req.classId, req.studentId) then Some("Student is already registered for this class")
    else None
  }

  /** Inserting a row for a class and student adds exactly that row to
      the duplicate check's selection, and the check then sees an existing
      registration only if the row was the first one. */
  lemma {:induction false} DuplicateCheckAfterInsert(regs: map<Id, Registration>, id: Id, row: Registration)
    requires id !in regs
    ensures RowsFor(regs[id := row], row.classId, row.studentId) == RowsFor(regs, row.classId, row.studentId) + {id}
    ensures AlreadyRegistered(regs[id := row], row.classId, row.studentId) <==> RowsFor(regs, row.classId, row.studentId) == {}
  {
    var before := RowsFor(regs, row.classId, row.studentId);
    var after := RowsFor(regs[id := row], row.classId, row.studentId);
    assert after == before + {id} by {
      forall k | k in after ensures k in before + {id} {
        if k != id { assert k in regs; }
      }
    }
    assert id !in before;
    assert |after| == |before| + 1;
  }

  /** The `.single()` hole: a second registration for the same class and
      student is refused, but once two rows exist a third is let through
      (when the class has a free spot). */
  lemma {:induction false} DuplicateRefusedOnlyOnce(user: Id, classes: map<Id, ClassRow>, regs: map<Id, Registration>,
                                                    req: RegisterRequest, id: Id, row: Registration)
    requires id !in regs && row.classId == req.classId && row.studentId == req.studentId
    requires req.classId in classes && classes[req.classId].spotsTaken < classes[req.classId].maxSpots
    ensures GuardError(Some(user), classes, regs[id := row], req) == Some("Student is already registered for this class")
            <==> RowsFor(regs, req.classId, req.studentId) == {}
    ensures |RowsFor(regs, req.classId, req.studentId)| == 1 ==> GuardError(Some(user), classes, regs[id := row], req).None?
  {
    DuplicateCheckAfterInsert(regs, id, row);
  }

  /** The row the card path inserts (app/actions/registrations.ts:60-68). */
  function CardRow(req: RegisterRequest, parentId: Id): (r: Registration)
    ensures r.paymentMethod == Stripe && r.paymentStatus == Pending
    ensures r.parentId == Some(parentId) && r.amountPaid == req.amount
    ensures r.classId == req.classId && r.studentId == req.studentId
  {
    Registration(req.classId, req.studentId, Some(parentId), None, req.isOneOnOne, Stripe, Pending,
                 None, None, None, None, req.amount)
  }

  /** The row the charter path inserts (app/actions/registrations.ts:119-129). */
  function CharterRow(req: RegisterRequest, parentId: Id): (r: Registration)
    ensures r.paymentMethod == CharterSchool && r.paymentStatus == CharterPending
    ensures r.charterSchoolName == req.charterSchoolName && r.charterSchoolContact == req.charterSchoolContact
    ensures r.parentId == Some(parentId) && r.amountPaid == req.amount
  {
    Registration(req.classId, req.studentId, Some(parentId), None, req.isOneOnOne, CharterSchool, CharterPending,
                 None, None, req.charterSchoolName, req.charterSchoolContact, req.amount)
  }

  /** The mail the charter path sends: to the parent, when the parent has
      an address and the student exists (app/actions/registrations.ts:133-147). */
  function PendingMail(t: Tables, parentId: Id, req: RegisterRequest): seq<Email>
    requires req.classId in t.classes
  {
    if parentId in t.profiles && t.profiles[parentId].email != "" && req.studentId in t.students
    then [Email(t.profiles[parentId].email, "Registration Pending - " + t.classes[req.classId].name)]
    else []
  }

  /** What registerForClass answers, the session request it makes and the
      tables it leaves, where `created` is the id the database gives the
      inserted row. */
  function RegisterEffect(before: Tables, user: Option<Id>, req: RegisterRequest, insertFails: bool,
                          session: Option<CheckoutSession>, created: Id): (ActionResult, Option<SessionRequest>, Tables)
  {
    var guard := GuardError(user, before.classes, before.registrations, req);
    if guard.Some? then (Failure(guard.value), None, before)
    else if insertFails then
      (Failure(if req.paymentMethod == "stripe" then "Failed to create registration" else "Registration failed"), None, before)
    else if req.paymentMethod == "stripe" then
      var inserted := before.registrations[created := CardRow(req, user.value)];
      var call := Some(SessionRequest(Cents(req.amount), created, SessionMetadata(created, req, user.value)));
      if session.None? then (Failure("Payment processing failed"), call, before.(registrations := inserted))
      else (Success(session.value.url), call, before.(registrations := SetIntent(inserted, created, session.value.id)))
    else
      (Success(None), None, before.(registrations := before.registrations[created := CharterRow(req, user.value)],
                                   outbox := before.outbox + PendingMail(before, user.value, req)))
  }

  /** The outcome of registerForClass: `newId` names the inserted row,
      which is fresh and exists exactly when the guards pass and the insert
      succeeds, and the answer, session request and new tables are
      RegisterEffect's. */
  ghost predicate RegisterOutcome(before: Tables, after: Tables, user: Option<Id>, req: RegisterRequest,
                                  insertFails: bool, session: Option<CheckoutSession>,
                                  res: ActionResult, stripeCall: Option<SessionRequest>, newId: Option<Id>)
  {
    (newId.Some? <==> GuardError(user, before.classes, before.registrations, req).None? && !insertFails)
    && (newId.Some? ==> newId.value !in before.registrations)
    && (res, stripeCall, after) == RegisterEffect(before, user, req, insertFails, session,
                                                  if newId.Some? then newId.value else "")
  }

  /** `insertFails` is the database's answer to the insert and `session`
      is Stripe's answer to the session request (None: the call threw).
      `stripeCall` is the session request the action makes, if any, and
      `newId` the id of the row it inserted, if any. */
  method RegisterForClass(db: Database, user: Option<Id>, req: RegisterRequest,
                          insertFails: bool, session: Option<CheckoutSession>)
    returns (res: ActionResult, stripeCall: Option<SessionRequest>, ghost newId: Option<Id>)
    modifies db
    // spots_taken (and every other column of classes) is never written
    ensures db.classes == old(db.classes)
    ensures GuardError(user, old(db.classes), old(db.registrations), req).Some? ==>
              res == Failure(GuardError(user, old(db.classes), old(db.registrations), req).value)
              && db.Snapshot() == old(db.Snapshot()) && stripeCall.None?
    ensures GuardError(user, old(db.classes), old(db.registrations), req).None? && insertFails ==>
              res == Failure(if req.paymentMethod == "stripe" then "Failed to create registration" else "Registration failed")
              && db.Snapshot() == old(db.Snapshot()) && stripeCall.None?
    ensures newId.Some? <==> GuardError(user, old(db.classes), old(db.registrations), req).None? && !insertFails
    // card path: one pending row, a session request naming it, then the session id written to that row only
    ensures newId.Some? && req.paymentMethod == "stripe" ==>
              var id := newId.value;
              var inserted := old(db.registrations)[id := CardRow(req, user.value)];
              id !in old(db.registrations)
              && stripeCall == Some(SessionRequest(Cents(req.amount), id, SessionMetadata(id, req, user.value)))
              && (session.None? ==> res == Failure("Payment processing failed")
                                     && db.Snapshot() == old(db.Snapshot()).(registrations := inserted))
              && (session.Some? ==> res == Success(session.value.url)
                                     && db.Snapshot() == old(db.Snapshot()).(registrations := SetIntent(inserted, id, session.value.id)))
    // charter path: one charter_pending row, and an email when the parent has an address and the student exists
    ensures newId.Some? && req.paymentMethod != "stripe" ==>
              var id := newId.value;
              var mail := PendingMail(old(db.Snapshot()), user.value, req);
              id !in old(db.registrations) && res == Success(None) && stripeCall.None?
              && db.Snapshot() == old(db.Snapshot()).(registrations := old(db.registrations)[id := CharterRow(req, user.value)],
                                                     outbox := old(db.outbox) + mail)
    ensures RegisterOutcome(old(db.Snapshot()), db.Snapshot(), user, req, insertFails, session, res, stripeCall, newId)
  {
    newId := None;
    stripeCall := None;
    var guard := GuardError(user, db.classes, db.registrations, req);
    if guard.Some? {
      return Failure(guard.value), stripeCall, newId;
    }
    var parentId := user.value;
    var classItem := db.classes[req.classId];
    if req.paymentMethod == "stripe" {
      if insertFails {
        return Failure("Failed to create registration"), stripeCall, newId;
      }
      FreshIdExists(db.registrations);
      var id :| id !in db.registrations;
      db.registrations := db.registrations[id := CardRow(req, parentId)];
      newId := Some(id);
      stripeCall := Some(SessionRequest(Cents(req.amount), id, SessionMetadata(id, req, parentId)));
      if session.None? {
        return Failure("Payment processing failed"), stripeCall, newId;
      }
      db.registrations := SetIntent(db.registrations, id, session.value.id);
      res := Success(session.value.url);
    } else {
      if insertFails {
        return Failure("Registration failed"), stripeCall, newId;
      }
      FreshIdExists(db.registrations);
      var id :| id !in db.registrations;
      db.registrations := db.registrations[id := CharterRow(req, parentId)];
      newId := Some(id);
      if parentId in db.profiles && db.profiles[parentId].email != "" && req.studentId in db.students {
        SendEmail(db, db.profiles[parentId].email, "Registration Pending - " + classItem.name);
      }
      res := Success(None);
    }
  }
}
