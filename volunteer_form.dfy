/** The volunteer application form (components/volunteer-form.tsx): the
    availability checkboxes, the JSON hand-off of the chosen slots to the
    server action, and what the form does with the action's answer. */
module VolunteerForm {
  import opened Types
  import Forms
  import Json
  import MultiSelect

  /** The checkbox ids (components/volunteer-form.tsx:12-17). */
  function AvailabilityOptions(): seq<string> {
    ["weekday-morning", "weekday-afternoon", "weekday-evening", "weekend"]
  }

  /** What the server action reads back: `JSON.parse(formData.get("availability"))`
      (app/actions/volunteer.ts:13); None when the entry is missing or is
      not a JSON array of strings. */
  function ReceivedAvailability(entries: seq<(string, string)>): Option<seq<string>> {
    var v := Forms.Lookup(entries, "availability");
    if v.Some? then Json.ParseStringArray(v.value) else None
  }

  /** The form's own controls have no "availability" entry, so the one
      handleSubmit appends is the one read, and it parses back to exactly
      the list the checkboxes held, in order and with any repeats. */
  lemma {:induction false} HandOffRoundTrip(entries: seq<(string, string)>, availability: seq<string>)
    requires Forms.Lookup(entries, "availability").None?
    ensures ReceivedAvailability(entries + [("availability", Json.Stringify(availability))]) == Some(availability)
  {
    Forms.LookupAppend(entries, "availability", Json.Stringify(availability), "availability");
    Json.StringifyRoundTrip(availability);
  }

  /** The toast for the action's answer (components/volunteer-form.tsx:29-38). */
  function ResultToast(res: ActionResult): (t: Forms.Toast)
    ensures t.ToastSuccess? <==> res.Success?
    ensures res.Failure? && res.error != "" ==> t == Forms.ToastError(res.error)
    ensures !res.Success? && !(res.Failure? && res.error != "") ==>
              t == Forms.ToastError("Something went wrong. Please try again.")
  {
    if res.Success? then Forms.ToastSuccess("Application submitted! We'll be in touch soon.")
    else Forms.ToastError(Forms.ErrorOr(res, "Something went wrong. Please try again."))
  }

  class VolunteerFormState {
    var isSubmitting: bool
    var availability: seq<string>
    var toast: Option<Forms.Toast>

    /** components/volunteer-form.tsx:20-21. */
    constructor ()
      ensures !isSubmitting && availability == [] && toast.None?
    {
      isSubmitting, availability, toast := false, [], None;
    }

    /** A checkbox's change (components/volunteer-form.tsx:75-80). */
    method OnCheckedChange(optionId: string, checked: bool)
      modifies this
      ensures availability == MultiSelect.CheckedChange(old(availability), optionId, checked)
      ensures isSubmitting == old(isSubmitting) && toast == old(toast)
    {
      availability := MultiSelect.CheckedChange(availability, optionId, checked);
    }

    /** handleSubmit (components/volunteer-form.tsx:23-42). `res` is the
        server action's answer (Threw: the call threw). The list goes out
        as JSON; a success clears it, anything else keeps it. */
    method HandleSubmit(form: Forms.FormData, res: ActionResult)
      modifies this, form
      ensures form.entries == old(form.entries) + [("availability", Json.Stringify(old(availability)))]
      ensures toast == Some(ResultToast(res)) && !isSubmitting
      ensures res.Success? ==> availability == []
      ensures !res.Success? ==> availability == old(availability)
    {
      isSubmitting := true;
      form.Append("availability", Json.Stringify(availability));
      toast := Some(ResultToast(res));
      if res.Success? {
        availability := [];
      }
      isSubmitting := false;
    }
  }
}
