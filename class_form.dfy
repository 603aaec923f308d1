/** The admin class editor (components/admin/class-form.tsx): its toggle
    and grade state, and the form data it hands to saveClass. The flags go
    over the wire as "true"/"false" and the grades as JSON, and saveClass
    recovers exactly what the editor showed. */
module ClassForm {
  import opened Types
  import opened Store
  import Forms
  import Json
  import MultiSelect
  import AdminActions

  /** The texts in the form's named inputs. */
  datatype Inputs = Inputs(
    name: string,
    description: string,
    startDate: string,
    endDate: string,
    startTime: string,
    endTime: string,
    price: string,
    charterPrice: string,
    oneOnOnePrice: string,
    maxSpots: string,
    zoomLink: string,
    location: string)

  /** `new FormData(form)`: the named inputs in document order. The zoom
      link input is rendered only for an online class and the location
      input only for the others (components/admin/class-form.tsx:188-211). */
  function InputEntries(f: Inputs, isOnline: bool): seq<(string, string)> {
    [("name", f.name), ("description", f.description), ("startDate", f.startDate), ("endDate", f.endDate),
     ("startTime", f.startTime), ("endTime", f.endTime), ("price", f.price), ("charterPrice", f.charterPrice),
     ("oneOnOnePrice", f.oneOnOnePrice), ("maxSpots", f.maxSpots)]
    + (if isOnline then [("zoomLink", f.zoomLink)] else [("location", f.location)])
  }

  /** What handleSubmit appends (components/admin/class-form.tsx:31-38). */
  function Appended(isOnline: bool, isIndividual: bool, isPublished: bool, grades: seq<string>,
                    classItemId: Option<Id>): seq<(string, string)> {
    [("isOnline", Forms.BoolText(isOnline)), ("isIndividual", Forms.BoolText(isIndividual)),
     ("isPublished", Forms.BoolText(isPublished)), ("gradeLevels", Json.Stringify(grades))]
    + (if Forms.Truthy(classItemId) then [("id", classItemId.value)] else [])
  }

  /** Everything handleSubmit sends. */
  function Submitted(f: Inputs, isOnline: bool, isIndividual: bool, isPublished: bool,
                     grades: seq<string>, classItemId: Option<Id>): seq<(string, string)> {
    InputEntries(f, isOnline) + Appended(isOnline, isIndividual, isPublished, grades, classItemId)
  }

  lemma {:induction false} AppendedValues(f: Inputs, isOnline: bool, isIndividual: bool, isPublished: bool,
                       grades: seq<string>, classItemId: Option<Id>)
    ensures var e := Submitted(f, isOnline, isIndividual, isPublished, grades, classItemId);
            Forms.Lookup(e, "isOnline") == Some(Forms.BoolText(isOnline))
            && Forms.Lookup(e, "isIndividual") == Some(Forms.BoolText(isIndividual))
            && Forms.Lookup(e, "isPublished") == Some(Forms.BoolText(isPublished))
            && Forms.Lookup(e, "gradeLevels") == Some(Json.Stringify(grades))
  {
    var e := Submitted(f, isOnline, isIndividual, isPublished, grades, classItemId);
    Forms.LookupAt(e, 11, "isOnline");
    Forms.LookupAt(e, 12, "isIndividual");
    Forms.LookupAt(e, 13, "isPublished");
    Forms.LookupAt(e, 14, "gradeLevels");
  }

  lemma {:induction false} PlacementValues(f: Inputs, isOnline: bool, isIndividual: bool, isPublished: bool,
                        grades: seq<string>, classItemId: Option<Id>)
    ensures var e := Submitted(f, isOnline, isIndividual, isPublished, grades, classItemId);
            (isOnline ==> Forms.Lookup(e, "zoomLink") == Some(f.zoomLink) && Forms.Lookup(e, "location").None?)
            && (!isOnline ==> Forms.Lookup(e, "location") == Some(f.location) && Forms.Lookup(e, "zoomLink").None?)
            && (Forms.Truthy(classItemId) ==> Forms.Lookup(e, "id") == classItemId)
            && (!Forms.Truthy(classItemId) ==> Forms.Lookup(e, "id").None?)
  {
    var e := Submitted(f, isOnline, isIndividual, isPublished, grades, classItemId);
    if isOnline {
      Forms.LookupAt(e, 10, "zoomLink");
      Forms.LookupFirst(e, "location");
    } else {
      Forms.LookupAt(e, 10, "location");
      Forms.LookupFirst(e, "zoomLink");
    }
    if Forms.Truthy(classItemId) {
      Forms.LookupAt(e, 15, "id");
    } else {
      Forms.LookupFirst(e, "id");
    }
  }

  /** What saveClass reads back from the submitted form: the three flags
      and the grade list as the editor held them, null for the input that
      was not rendered, and an id exactly when an existing class is being
      edited, which makes saveClass update rather than insert. */
  lemma {:induction false} SubmitRoundTrip(f: Inputs, isOnline: bool, isIndividual: bool, isPublished: bool,
                        grades: seq<string>, classItemId: Option<Id>)
    ensures var d := AdminActions.BuildClassData(Submitted(f, isOnline, isIndividual, isPublished, grades, classItemId));
            d.Some? && d.value.isOnline == isOnline && d.value.isIndividual == isIndividual
            && d.value.isPublished == isPublished && d.value.gradeLevels == Some(grades)
            && (!isOnline ==> d.value.zoomLink.None?) && (isOnline ==> d.value.location.None?)
    ensures Forms.Truthy(Forms.Lookup(Submitted(f, isOnline, isIndividual, isPublished, grades, classItemId), "id"))
            <==> Forms.Truthy(classItemId)
  {
    AppendedValues(f, isOnline, isIndividual, isPublished, grades, classItemId);
    PlacementValues(f, isOnline, isIndividual, isPublished, grades, classItemId);
    var text := Json.Stringify(grades);
    Json.StringifyRoundTrip(grades);
    assert text[0] == '[';
    Forms.BoolRoundTrip(isOnline);
    Forms.BoolRoundTrip(isIndividual);
    Forms.BoolRoundTrip(isPublished);
  }

  /** What SubmitRoundTrip and PlacementValues give handleSubmit: the
      data saveClass builds, and the id it reads, which is the edited
      class's id whenever that id is non-empty. */
  lemma {:induction false} SendsWhatIsShown(f: Inputs, isOnline: bool, isIndividual: bool, isPublished: bool,
                         grades: seq<string>, classItemId: Option<Id>)
    ensures var e := Submitted(f, isOnline, isIndividual, isPublished, grades, classItemId);
            var d := AdminActions.BuildClassData(e);
            d.Some? && d.value.isOnline == isOnline && d.value.isIndividual == isIndividual
            && d.value.isPublished == isPublished && d.value.gradeLevels == Some(grades)
            && Forms.Lookup(e, "id") == (if Forms.Truthy(classItemId) then classItemId else None)
  {
    SubmitRoundTrip(f, isOnline, isIndividual, isPublished, grades, classItemId);
    PlacementValues(f, isOnline, isIndividual, isPublished, grades, classItemId);
  }

  /** The toast handleSubmit shows for saveClass's outcome
      (components/admin/class-form.tsx:42-51). */
  function SubmitToast(res: ActionResult, editing: bool): (t: Forms.Toast)
    ensures t.ToastSuccess? <==> res.Success?
    ensures res.Failure? && res.error != "" ==> t == Forms.ToastError(res.error)
  {
    match res
    case Success(_) => Forms.ToastSuccess(if editing then "Class updated!" else "Class created!")
    case Failure(e) => Forms.ToastError(Forms.ErrorOr(res, "Failed to save class"))
    case Threw => Forms.ToastError("Something went wrong")
  }

  /** The form data handleSubmit builds (components/admin/class-form.tsx:30-38). */
  method NewSubmission(f: Inputs, isOnline: bool, isIndividual: bool, isPublished: bool,
                       grades: seq<string>, classItemId: Option<Id>) returns (form: Forms.FormData)
    ensures fresh(form)
    ensures form.entries == Submitted(f, isOnline, isIndividual, isPublished, grades, classItemId)
  {
    form := new Forms.FormData(InputEntries(f, isOnline));
    form.Append("isOnline", Forms.BoolText(isOnline));
    form.Append("isIndividual", Forms.BoolText(isIndividual));
    form.Append("isPublished", Forms.BoolText(isPublished));
    form.Append("gradeLevels", Json.Stringify(grades));
    if Forms.Truthy(classItemId) {
      form.Append("id", classItemId.value);
    }
  }

  class ClassFormState {
    var isSubmitting: bool
    var isOnline: bool
    var isIndividual: bool
    var isPublished: bool
    var selectedGrades: seq<string>
    var toast: Option<Forms.Toast>
    var navigatedTo: Option<string>
    /** The id of the class being edited; None for a new class. */
    const classItemId: Option<Id>

    /** The initial state (components/admin/class-form.tsx:22-26): the
        edited class's values, or everything off and no grades. */
    constructor (classItem: Option<(Id, ClassRow)>)
      ensures classItem.None? ==> !isOnline && !isIndividual && !isPublished && selectedGrades == []
      ensures classItem.Some? ==>
                var c := classItem.value.1;
                isOnline == c.isOnline && isIndividual == c.isIndividual && isPublished == c.isPublished
                && selectedGrades == c.gradeLevels.GetOr([])
      ensures classItemId == (if classItem.Some? then Some(classItem.value.0) else None)
      ensures !isSubmitting && toast.None? && navigatedTo.None?
    {
      isSubmitting := false;
      toast, navigatedTo := None, None;
      if classItem.Some? {
        var c := classItem.value.1;
        isOnline, isIndividual, isPublished := c.isOnline, c.isIndividual, c.isPublished;
        selectedGrades := c.gradeLevels.GetOr([]);
        classItemId := Some(classItem.value.0);
      } else {
        isOnline, isIndividual, isPublished := false, false, false;
        selectedGrades := [];
        classItemId := None;
      }
    }

    /** A grade checkbox changed (components/admin/class-form.tsx:82-87). */
    method OnGradeCheckedChange(grade: string, checked: bool)
      modifies this
      ensures selectedGrades == MultiSelect.CheckedChange(old(selectedGrades), grade, checked)
      ensures isSubmitting == old(isSubmitting) && isOnline == old(isOnline) && isIndividual == old(isIndividual)
              && isPublished == old(isPublished) && toast == old(toast) && navigatedTo == old(navigatedTo)
    {
      selectedGrades := MultiSelect.CheckedChange(selectedGrades, grade, checked);
    }

    /** handleSubmit (components/admin/class-form.tsx:28-54): builds the
        form data, calls saveClass, shows a toast and clears the busy
        flag whatever the outcome. saveClass never throws on what the
        editor sends, and it stores the flags and grades the editor showed;
        `newId` is the id of an inserted class. */
    method HandleSubmit(db: Database, user: Option<Id>, f: Inputs, dbFails: bool)
      returns (form: Forms.FormData, res: ActionResult, ghost newId: Option<Id>)
      modifies this, db
      ensures fresh(form)
      ensures form.entries == Submitted(f, isOnline, isIndividual, isPublished, selectedGrades, classItemId)
      ensures isOnline == old(isOnline) && isIndividual == old(isIndividual) && isPublished == old(isPublished)
              && selectedGrades == old(selectedGrades)
      ensures !isSubmitting && toast == Some(SubmitToast(res, classItemId.Some?))
      ensures navigatedTo == (if res.Success? then Some("/admin/classes") else old(navigatedTo))
      // saveClass's outcome on what was sent, which is what the editor shows
      ensures AdminActions.ClassSaveOutcome(old(db.Snapshot()), db.Snapshot(), user, form.entries, dbFails, res, newId)
      ensures var d := AdminActions.BuildClassData(form.entries);
              d.Some? && d.value.isOnline == isOnline && d.value.isIndividual == isIndividual
              && d.value.isPublished == isPublished && d.value.gradeLevels == Some(selectedGrades)
      ensures Forms.Lookup(form.entries, "id") == (if Forms.Truthy(classItemId) then classItemId else None)
    {
      isSubmitting := true;
      form := NewSubmission(f, isOnline, isIndividual, isPublished, selectedGrades, classItemId);
      SendsWhatIsShown(f, isOnline, isIndividual, isPublished, selectedGrades, classItemId);
      res, newId := AdminActions.SaveClass(db, user, form, dbFails);
      Notify(res);
    }

    /** The toast, the navigation on success and the cleared busy flag. */
    method Notify(res: ActionResult)
      modifies this
      ensures isOnline == old(isOnline) && isIndividual == old(isIndividual) && isPublished == old(isPublished)
              && selectedGrades == old(selectedGrades)
      ensures !isSubmitting && toast == Some(SubmitToast(res, classItemId.Some?))
      ensures navigatedTo == (if res.Success? then Some("/admin/classes") else old(navigatedTo))
    {
      toast := Some(SubmitToast(res, classItemId.Some?));
      if res.Success? {
        navigatedTo := Some("/admin/classes");
      }
      isSubmitting := false;
    }
  }
}
