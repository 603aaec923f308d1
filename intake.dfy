/** The web-design intake page (app/intake/page.tsx): its checkbox grids,
    which toggle an option in or out of a list, the empty lists the form
    starts with, and what a submit does with the endpoint's answer. */
module Intake {
  import opened Types
  import MultiSelect

  /** The seven multi-select fields (app/intake/page.tsx:184-187). */
  function ListFields(): seq<string> {
    ["goals", "brand_vibes", "pages_needed", "features_needed", "integrations", "access_needed", "ongoing_services"]
  }

  /** The endpoint's answer: `json.success`, or None when the request or
      its JSON failed. */
  datatype Reply = Reply(success: bool)

  const FailureMessage := "Something went wrong. Please try again or email us directly."
  const NetworkMessage := "Network error. Please check your connection and try again."

  class IntakeState {
    var lists: map<string, seq<string>>
    var submitted: bool
    var submitting: bool
    var errorMsg: string

    /** `watch(field) || []`. */
    function Current(field: string): seq<string>
      reads this
    {
      if field in lists then lists[field] else []
    }

    /** The form's defaults: every multi-select list empty, nothing sent. */
    constructor ()
      ensures lists.Keys == set f | f in ListFields()
      ensures forall f :: f in ListFields() ==> Current(f) == []
      ensures !submitted && !submitting && errorMsg == ""
    {
      lists := map f | f in ListFields() :: [];
      submitted, submitting, errorMsg := false, false, "";
    }

    /** CheckboxGrid's `toggle` (app/intake/page.tsx:115-116): the option's
        membership flips, every other option's membership and order stay,
        and the other fields are untouched. */
    method Toggle(field: string, opt: string)
      modifies this
      ensures Current(field) == MultiSelect.Toggle(old(Current(field)), opt)
      ensures opt in Current(field) <==> opt !in old(Current(field))
      ensures MultiSelect.IsSubsequence(MultiSelect.Without(Current(field), opt), old(Current(field)))
      ensures forall f :: f != field ==> Current(f) == old(Current(f))
      ensures submitted == old(submitted) && submitting == old(submitting) && errorMsg == old(errorMsg)
    {
      MultiSelect.ToggleKeepsOrder(Current(field), opt);
      lists := lists[field := MultiSelect.Toggle(Current(field), opt)];
    }

    /** onSubmit (app/intake/page.tsx:205-223). */
    method OnSubmit(reply: Option<Reply>)
      modifies this
      ensures !submitting && lists == old(lists)
      ensures reply.Some? && reply.value.success ==> submitted && errorMsg == ""
      ensures reply.Some? && !reply.value.success ==> submitted == old(submitted) && errorMsg == FailureMessage
      ensures reply.None? ==> submitted == old(submitted) && errorMsg == NetworkMessage
    {
      submitting := true;
      errorMsg := "";
      match reply {
        case None =>
          errorMsg := NetworkMessage;
        case Some(r) =>
          if r.success {
            submitted := true;
          } else {
            errorMsg := FailureMessage;
          }
      }
      submitting := false;
    }
  }
}
