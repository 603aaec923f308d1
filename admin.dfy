/** The admin server actions of app/actions/admin.ts: saving classes and
    events from form data, changing a registration's payment status,
    deleting a gallery item and marking a contact message read. */
module AdminActions {
  import opened Types
  import opened Store
  import opened Lifecycle
  import Forms
  import Json
  import Numbers

  /** The role gate of saveClass and saveEvent (app/actions/admin.ts:13-22):
      a signed-in user whose profile says admin or instructor. */
  function StaffGate(user: Option<Id>, profiles: map<Id, Profile>): (e: Option<string>)
    ensures e.None? <==> user.Some? && user.value in profiles && profiles[user.value].role in {Admin, Instructor}
    ensures user.None? ==> e == Some("Not authenticated")
    ensures user.Some? && e.Some? ==> e == Some("Not authorized")
  {
    if user.None? then Some("Not authenticated")
    else if user.value !in profiles || profiles[user.value].role !in {Admin, Instructor} then Some("Not authorized")
    else None
  }

  /** The stricter gate of updateRegistrationStatus and deleteGalleryItem
      (app/actions/admin.ts:125-133): admins only, so an instructor is
      "Not authorized". */
  function AdminGate(user: Option<Id>, profiles: map<Id, Profile>): (e: Option<string>)
    ensures e.None? <==> user.Some? && user.value in profiles && profiles[user.value].role == Admin
    ensures user.None? ==> e == Some("Not authenticated")
    ensures user.Some? && e.Some? ==> e == Some("Not authorized")
  {
    if user.None? then Some("Not authenticated")
    else if user.value !in profiles || profiles[user.value].role != Admin then Some("Not authorized")
    else None
  }

  /** Every caller the admin gate lets through, the staff gate lets through. */
  lemma {:induction false} AdminGateStricter(user: Option<Id>, profiles: map<Id, Profile>)
    ensures AdminGate(user, profiles).None? ==> StaffGate(user, profiles).None?
    ensures user.Some? && user.value in profiles && profiles[user.value].role == Instructor ==>
              StaffGate(user, profiles).None? && AdminGate(user, profiles) == Some("Not authorized")
  {
  }

  /** `JSON.parse(formData.get("gradeLevels"))` for the values the class
      form sends: a missing field is coerced to the text "null", which
      parses to null; None means JSON.parse threw. */
  function ParseGradeLevels(v: Option<string>): Option<Option<seq<string>>> {
    if v.None? || v.value == "null" then Some(None)
    else
      match Json.ParseStringArray(v.value)
      case Some(xs) => Some(Some(xs))
      case None => None
  }

  /** `formData.get(name) ? Number.parseFloat(...) : null`; NaN is sent to
      the database as null, as JSON.stringify writes it. */
  function OptionalFloat(v: Option<string>): (r: Option<real>)
    ensures !Forms.Truthy(v) ==> r.None?
  {
    if Forms.Truthy(v) then Numbers.ParseFloat(v.value) else None
  }

  function OptionalInt(v: Option<string>): (r: Option<int>)
    ensures !Forms.Truthy(v) ==> r.None?
  {
    if Forms.Truthy(v) then Numbers.ParseInt(v.value) else None
  }

  /** `Number.parseFloat(v)` on a field that may be absent: null is coerced
      to the text "null", which has no digits. */
  function Float(v: Option<string>): Option<real> {
    if v.Some? then Numbers.ParseFloat(v.value) else None
  }

  function Int(v: Option<string>): Option<int> {
    if v.Some? then Numbers.ParseInt(v.value) else None
  }

  /** The `data` record of saveClass (app/actions/admin.ts:25-42), before
      the database sees it. NaN numbers are None. */
  datatype ClassData = ClassData(
    name: Option<string>,
    description: Option<string>,
    gradeLevels: Option<seq<string>>,
    startDate: Option<string>,
    endDate: Option<string>,
    startTime: Option<string>,
    endTime: Option<string>,
    price: Option<real>,
    charterPrice: Option<real>,
    oneOnOnePrice: Option<real>,
    maxSpots: Option<int>,
    isOnline: bool,
    isIndividual: bool,
    isPublished: bool,
    zoomLink: Option<string>,
    location: Option<string>)

  /** The record built from the form, or None when JSON.parse throws. */
  function BuildClassData(entries: seq<(string, string)>): (d: Option<ClassData>)
    ensures d.Some? <==> ParseGradeLevels(Forms.Lookup(entries, "gradeLevels")).Some?
    ensures d.Some? ==> d.value.gradeLevels == ParseGradeLevels(Forms.Lookup(entries, "gradeLevels")).value
    ensures d.Some? ==> d.value.isOnline == Forms.IsTrueText(Forms.Lookup(entries, "isOnline"))
                        && d.value.isIndividual == Forms.IsTrueText(Forms.Lookup(entries, "isIndividual"))
                        && d.value.isPublished == Forms.IsTrueText(Forms.Lookup(entries, "isPublished"))
    ensures d.Some? ==> d.value.endDate == Forms.OrNull(Forms.Lookup(entries, "endDate"))
                        && d.value.zoomLink == Forms.OrNull(Forms.Lookup(entries, "zoomLink"))
                        && d.value.location == Forms.OrNull(Forms.Lookup(entries, "location"))
    ensures d.Some? && !Forms.Truthy(Forms.Lookup(entries, "charterPrice")) ==> d.value.charterPrice.None?
    ensures d.Some? && !Forms.Truthy(Forms.Lookup(entries, "oneOnOnePrice")) ==> d.value.oneOnOnePrice.None?
  {
    var grades := ParseGradeLevels(Forms.Lookup(entries, "gradeLevels"));
    if grades.None? then None
    else
      Some(ClassData(
        Forms.Lookup(entries, "name"),
        Forms.Lookup(entries, "description"),
        grades.value,
        Forms.Lookup(entries, "startDate"),
        Forms.OrNull(Forms.Lookup(entries, "endDate")),
        Forms.Lookup(entries, "startTime"),
        Forms.Lookup(entries, "endTime"),
        Float(Forms.Lookup(entries, "price")),
        OptionalFloat(Forms.Lookup(entries, "charterPrice")),
        OptionalFloat(Forms.Lookup(entries, "oneOnOnePrice")),
        Int(Forms.Lookup(entries, "maxSpots")),
        Forms.IsTrueText(Forms.Lookup(entries, "isOnline")),
        Forms.IsTrueText(Forms.Lookup(entries, "isIndividual")),
        Forms.IsTrueText(Forms.Lookup(entries, "isPublished")),
        Forms.OrNull(Forms.Lookup(entries, "zoomLink")),
        Forms.OrNull(Forms.Lookup(entries, "location"))))
  }

  /** The classes table refuses a null in a column lib/types.ts declares
      non-null (name, dates, times, price, max_spots). */
  predicate ClassRefused(d: ClassData) {
    d.name.None? || d.startDate.None? || d.startTime.None? || d.endTime.None?
    || d.price.None? || d.maxSpots.None?
  }

  /** Whether the table refuses the write saveClass makes. An UPDATE whose
      id matches no row writes nothing, and Postgres checks its NOT NULL
      columns only on rows it writes, so only the update of an existing
      row and the insert can be refused. */
  predicate ClassWriteRefused(classes: map<Id, ClassRow>, d: ClassData, id: Option<string>) {
    ClassRefused(d) && (!Forms.Truthy(id) || id.value in classes)
  }

  /** The stored row: the data plus the spots_taken it is given. */
  function ClassRowOf(d: ClassData, spotsTaken: int): (r: ClassRow)
    requires !ClassRefused(d)
    ensures r.spotsTaken == spotsTaken && r.price == d.price.value && r.maxSpots == d.maxSpots.value
    ensures r.isOnline == d.isOnline && r.isIndividual == d.isIndividual && r.isPublished == d.isPublished
    ensures r.gradeLevels == d.gradeLevels && r.zoomLink == d.zoomLink && r.location == d.location
    ensures r.endDate == d.endDate && r.charterPrice == d.charterPrice && r.oneOnOnePrice == d.oneOnOnePrice
  {
    ClassRow(d.name.value, d.description, d.gradeLevels, d.startDate.value, d.endDate, d.startTime.value,
             d.endTime.value, d.price.value, d.charterPrice, d.oneOnOnePrice, d.maxSpots.value, spotsTaken,
             d.isOnline, d.isIndividual, d.isPublished, d.zoomLink, d.location)
  }

  /** What saveClass promises, as a relation between the tables before
      and after, the caller, the form entries, the database's answer, the
      result and the id of an inserted class: the staff gate, a grade list
      JSON.parse rejects (a throw), a refused write, and otherwise an
      update of the class the id names, keeping its spots_taken, or an
      insert with spots_taken 0. Nothing but the classes table changes. */
  /** What saveClass answers and leaves in the tables, where `created` is
      the id the database gives a newly inserted row. */
  function ClassSaveEffect(before: Tables, user: Option<Id>, entries: seq<(string, string)>,
                           dbFails: bool, created: Id): (ActionResult, Tables)
  {
    var gate := StaffGate(user, before.profiles);
    var d := BuildClassData(entries);
    var id := Forms.Lookup(entries, "id");
    if gate.Some? then (Failure(gate.value), before)
    else if d.None? then (Threw, before)
    else if dbFails || ClassWriteRefused(before.classes, d.value, id) then
      (Failure("Failed to save class"), before)
    else if Forms.Truthy(id) then
      (Success(None), before.(classes :=
         if id.value in before.classes
         then before.classes[id.value := ClassRowOf(d.value, before.classes[id.value].spotsTaken)]
         else before.classes))
    else
      (Success(None), before.(classes := before.classes[created := ClassRowOf(d.value, 0)]))
  }

  /** saveClass inserts a row exactly when the form is valid, the user is
      staff, the write succeeds and the form carries no id. */
  predicate InsertsClass(before: Tables, user: Option<Id>, entries: seq<(string, string)>, dbFails: bool)
  {
    var d := BuildClassData(entries);
    StaffGate(user, before.profiles).None? && d.Some? && !dbFails
    && !ClassWriteRefused(before.classes, d.value, Forms.Lookup(entries, "id"))
    && !Forms.Truthy(Forms.Lookup(entries, "id"))
  }

  /** The outcome of saveClass: `newId` names the inserted row, which is
      fresh, and the answer and new tables are ClassSaveEffect's. */
  ghost predicate ClassSaveOutcome(before: Tables, after: Tables, user: Option<Id>, entries: seq<(string, string)>,
                                   dbFails: bool, res: ActionResult, newId: Option<Id>)
  {
    (newId.Some? <==> InsertsClass(before, user, entries, dbFails))
    && (newId.Some? ==> newId.value !in before.classes)
    && (res, after) == ClassSaveEffect(before, user, entries, dbFails, if newId.Some? then newId.value else "")
  }

  /** saveClass (app/actions/admin.ts:6-63). `dbFails` is the database's
      answer. */
  method SaveClass(db: Database, user: Option<Id>, form: Forms.FormData, dbFails: bool)
    returns (res: ActionResult, ghost newId: Option<Id>)
    modifies db
    ensures db.registrations == old(db.registrations)
    ensures ClassSaveOutcome(old(db.Snapshot()), db.Snapshot(), user, form.entries, dbFails, res, newId)
  {
    newId := None;
    var gate := StaffGate(user, db.profiles);
    if gate.Some? {
      return Failure(gate.value), newId;
    }
    var d := BuildClassData(form.entries);
    if d.None? {
      return Threw, newId;
    }
    var id := form.Get("id");
    if dbFails || ClassWriteRefused(db.classes, d.value, id) {
      return Failure("Failed to save class"), newId;
    }
    if Forms.Truthy(id) {
      if id.value in db.classes {
        db.classes := db.classes[id.value := ClassRowOf(d.value, db.classes[id.value].spotsTaken)];
      }
    } else {
      FreshIdExists(db.classes);
      var created :| created !in db.classes;
      db.classes := db.classes[created := ClassRowOf(d.value, 0)];
      newId := Some(created);
    }
    res := Success(None);
  }

  /** The `data` record of saveEvent (app/actions/admin.ts:83-95). */
  datatype EventData = EventData(
    name: Option<string>,
    description: Option<string>,
    eventDate: Option<string>,
    startTime: Option<string>,
    endTime: Option<string>,
    location: Option<string>,
    isOnline: bool,
    isFree: bool,
    price: Option<real>,
    maxAttendees: Option<int>,
    isPublished: bool)

  function BuildEventData(entries: seq<(string, string)>): (d: EventData)
    ensures d.startTime == Forms.OrNull(Forms.Lookup(entries, "startTime"))
            && d.endTime == Forms.OrNull(Forms.Lookup(entries, "endTime"))
            && d.location == Forms.OrNull(Forms.Lookup(entries, "location"))
    ensures d.isOnline == Forms.IsTrueText(Forms.Lookup(entries, "isOnline"))
            && d.isFree == Forms.IsTrueText(Forms.Lookup(entries, "isFree"))
            && d.isPublished == Forms.IsTrueText(Forms.Lookup(entries, "isPublished"))
    ensures !Forms.Truthy(Forms.Lookup(entries, "price")) ==> d.price.None?
    ensures !Forms.Truthy(Forms.Lookup(entries, "maxAttendees")) ==> d.maxAttendees.None?
  {
    EventData(
      Forms.Lookup(entries, "name"),
      Forms.Lookup(entries, "description"),
      Forms.Lookup(entries, "eventDate"),
      Forms.OrNull(Forms.Lookup(entries, "startTime")),
      Forms.OrNull(Forms.Lookup(entries, "endTime")),
      Forms.OrNull(Forms.Lookup(entries, "location")),
      Forms.IsTrueText(Forms.Lookup(entries, "isOnline")),
      Forms.IsTrueText(Forms.Lookup(entries, "isFree")),
      OptionalFloat(Forms.Lookup(entries, "price")),
      OptionalInt(Forms.Lookup(entries, "maxAttendees")),
      Forms.IsTrueText(Forms.Lookup(entries, "isPublished")))
  }

  /** The events table refuses a null name or event date. */
  predicate EventRefused(d: EventData) {
    d.name.None? || d.eventDate.None?
  }

  /** As ClassWriteRefused: only a write that reaches a row is refused. */
  predicate EventWriteRefused(events: map<Id, EventRow>, d: EventData, id: Option<string>) {
    EventRefused(d) && (!Forms.Truthy(id) || id.value in events)
  }

  function EventRowOf(d: EventData, attendees: int): (r: EventRow)
    requires !EventRefused(d)
    ensures r.currentAttendees == attendees && r.price == d.price && r.maxAttendees == d.maxAttendees
    ensures r.isOnline == d.isOnline && r.isFree == d.isFree && r.isPublished == d.isPublished
  {
    EventRow(d.name.value, d.description, d.eventDate.value, d.startTime, d.endTime, d.location,
             d.isOnline, d.isFree, d.price, d.maxAttendees, d.isPublished, attendees)
  }

  /** saveEvent (app/actions/admin.ts:65-116): as saveClass, with
      current_attendees 0 on insert and left alone on update. */
  method SaveEvent(db: Database, user: Option<Id>, form: Forms.FormData, dbFails: bool)
    returns (res: ActionResult, ghost newId: Option<Id>)
    modifies db
    ensures StaffGate(user, old(db.profiles)).Some? ==>
              res == Failure(StaffGate(user, old(db.profiles)).value) && db.Snapshot() == old(db.Snapshot())
    ensures StaffGate(user, old(db.profiles)).None? ==>
              var d := BuildEventData(form.entries);
              var id := form.Get("id");
              if dbFails || EventWriteRefused(old(db.events), d, id) then
                res == Failure("Failed to save event") && db.Snapshot() == old(db.Snapshot())
              else if Forms.Truthy(id) then
                res == Success(None) && newId.None?
                && db.Snapshot() == old(db.Snapshot()).(events :=
                     if id.value in old(db.events)
                     then old(db.events)[id.value := EventRowOf(d, old(db.events)[id.value].currentAttendees)]
                     else old(db.events))
              else
                res == Success(None) && newId.Some? && newId.value !in old(db.events)
                && db.Snapshot() == old(db.Snapshot()).(events := old(db.events)[newId.value := EventRowOf(d, 0)])
  {
    newId := None;
    var gate := StaffGate(user, db.profiles);
    if gate.Some? {
      return Failure(gate.value), newId;
    }
    var d := BuildEventData(form.entries);
    var id := form.Get("id");
    if dbFails || EventWriteRefused(db.events, d, id) {
      return Failure("Failed to save event"), newId;
    }
    if Forms.Truthy(id) {
      if id.value in db.events {
        db.events := db.events[id.value := EventRowOf(d, db.events[id.value].currentAttendees)];
      }
    } else {
      FreshIdExists(db.events);
      var created :| created !in db.events;
      db.events := db.events[created := EventRowOf(d, 0)];
      newId := Some(created);
    }
    res := Success(None);
  }

  /** updateRegistrationStatus (app/actions/admin.ts:118-145). The status
      text is written to the row whatever its current status; the column's
      type refuses a text that names none of the five statuses, which the
      action reports like any other database error. */
  method UpdateRegistrationStatus(db: Database, user: Option<Id>, registrationId: Id, status: string, dbFails: bool)
    returns (res: ActionResult)
    modifies db
    ensures db.classes == old(db.classes)
    ensures AdminGate(user, old(db.profiles)).Some? ==>
              res == Failure(AdminGate(user, old(db.profiles)).value) && db.Snapshot() == old(db.Snapshot())
    ensures AdminGate(user, old(db.profiles)).None? && (dbFails || ParseStatus(status).None?) ==>
              res == Failure("Failed to update registration") && db.Snapshot() == old(db.Snapshot())
    ensures AdminGate(user, old(db.profiles)).None? && !dbFails && ParseStatus(status).Some? ==>
              res == Success(None)
              && db.Snapshot() == old(db.Snapshot()).(registrations :=
                   SetStatus(old(db.registrations), registrationId, ParseStatus(status).value))
  {
    var gate := AdminGate(user, db.profiles);
    if gate.Some? {
      return Failure(gate.value);
    }
    var st := ParseStatus(status);
    if dbFails || st.None? {
      return Failure("Failed to update registration");
    }
    db.registrations := SetStatus(db.registrations, registrationId, st.value);
    res := Success(None);
  }

  /** deleteGalleryItem (app/actions/admin.ts:147-175). */
  method DeleteGalleryItem(db: Database, user: Option<Id>, id: Id, dbFails: bool) returns (res: ActionResult)
    modifies db
    ensures AdminGate(user, old(db.profiles)).Some? ==>
              res == Failure(AdminGate(user, old(db.profiles)).value) && db.Snapshot() == old(db.Snapshot())
    ensures AdminGate(user, old(db.profiles)).None? && dbFails ==>
              res == Failure("Failed to delete item") && db.Snapshot() == old(db.Snapshot())
    ensures AdminGate(user, old(db.profiles)).None? && !dbFails ==>
              res == Success(None) && db.Snapshot() == old(db.Snapshot()).(gallery := old(db.gallery) - {id})
  {
    var gate := AdminGate(user, db.profiles);
    if gate.Some? {
      return Failure(gate.value);
    }
    if dbFails {
      return Failure("Failed to delete item");
    }
    db.gallery := db.gallery - {id};
    res := Success(None);
  }

  /** The read flag set on one message; nothing else changes. */
  function MarkRead(messages: map<Id, ContactSubmission>, id: Id): (r: map<Id, ContactSubmission>)
    ensures r.Keys == messages.Keys
    ensures id in messages ==> r[id].isRead && r[id].(isRead := messages[id].isRead) == messages[id]
    ensures forall k :: k in messages && k != id ==> r[k] == messages[k]
  {
    if id in messages then messages[id := messages[id].(isRead := true)] else messages
  }

  /** Marking a message read twice is marking it once. */
  lemma {:induction false} MarkReadIdempotent(messages: map<Id, ContactSubmission>, id: Id)
    ensures MarkRead(MarkRead(messages, id), id) == MarkRead(messages, id)
  {
  }

  /** markMessageAsRead (app/actions/admin.ts:177-189): no sign-in or role
      check at all. */
  method MarkMessageAsRead(db: Database, id: Id, dbFails: bool) returns (res: ActionResult)
    modifies db
    ensures dbFails ==> res == Failure("Failed to update message") && db.Snapshot() == old(db.Snapshot())
    ensures !dbFails ==> res == Success(None) && db.Snapshot() == old(db.Snapshot()).(messages := MarkRead(old(db.messages), id))
  {
    if dbFails {
      return Failure("Failed to update message");
    }
    db.messages := MarkRead(db.messages, id);
    res := Success(None);
  }
}
