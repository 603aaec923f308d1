/** The approve / reject buttons next to a charter-school registration
    (components/admin/registration-actions.tsx). Each writes one fixed
    status through updateRegistrationStatus without looking at the current
    one, and the buttons are disabled while the call is in flight. */
module RegistrationActions {
  import opened Types
  import opened Store
  import opened Lifecycle
  import Forms
  import AdminActions

  /** The status each button writes (components/admin/registration-actions.tsx:18, 29). */
  const ApproveStatus := "charter_approved"
  const RejectStatus := "refunded"

  /** Both button statuses are statuses the column accepts. */
  lemma {:induction false} ButtonStatusesParse()
    ensures ParseStatus(ApproveStatus) == Some(CharterApproved)
    ensures ParseStatus(RejectStatus) == Some(Refunded)
  {
  }

  /** The toast a handler shows: the success text, or the action's error
      with a fixed fallback for an empty one. */
  function ResultToast(res: ActionResult, success: string, fallback: string): (t: Forms.Toast)
    ensures res.Success? ==> t == Forms.ToastSuccess(success)
    ensures res.Failure? && res.error != "" ==> t == Forms.ToastError(res.error)
    ensures !res.Success? && !(res.Failure? && res.error != "") ==> t == Forms.ToastError(fallback)
  {
    if res.Success? then Forms.ToastSuccess(success) else Forms.ToastError(Forms.ErrorOr(res, fallback))
  }

  class RegistrationActionsState {
    var isLoading: bool
    var toast: Option<Forms.Toast>
    const registrationId: Id

    constructor (registrationId: Id)
      ensures this.registrationId == registrationId && !isLoading && toast.None?
    {
      this.registrationId := registrationId;
      isLoading := false;
      toast := None;
    }

    /** The buttons are disabled while a call is in flight. */
    predicate ButtonsDisabled()
      reads this
    {
      isLoading
    }

    /** handleApprove (components/admin/registration-actions.tsx:16-25). */
    method HandleApprove(db: Database, user: Option<Id>, dbFails: bool) returns (res: ActionResult)
      modifies this, db
      ensures !isLoading
      ensures toast == Some(ResultToast(res, "Registration approved!", "Failed to approve"))
      ensures res.Success? <==> AdminActions.AdminGate(user, old(db.profiles)).None? && !dbFails
      ensures res.Success? ==> db.Snapshot() == old(db.Snapshot()).(registrations :=
                SetStatus(old(db.registrations), registrationId, CharterApproved))
      ensures !res.Success? ==> db.Snapshot() == old(db.Snapshot())
    {
      isLoading := true;
      ButtonStatusesParse();
      res := AdminActions.UpdateRegistrationStatus(db, user, registrationId, ApproveStatus, dbFails);
      toast := Some(ResultToast(res, "Registration approved!", "Failed to approve"));
      isLoading := false;
    }

    /** handleReject (components/admin/registration-actions.tsx:27-36). */
    method HandleReject(db: Database, user: Option<Id>, dbFails: bool) returns (res: ActionResult)
      modifies this, db
      ensures !isLoading
      ensures toast == Some(ResultToast(res, "Registration rejected", "Failed to reject"))
      ensures res.Success? <==> AdminActions.AdminGate(user, old(db.profiles)).None? && !dbFails
      ensures res.Success? ==> db.Snapshot() == old(db.Snapshot()).(registrations :=
                SetStatus(old(db.registrations), registrationId, Refunded))
      ensures !res.Success? ==> db.Snapshot() == old(db.Snapshot())
    {
      isLoading := true;
      ButtonStatusesParse();
      res := AdminActions.UpdateRegistrationStatus(db, user, registrationId, RejectStatus, dbFails);
      toast := Some(ResultToast(res, "Registration rejected", "Failed to reject"));
      isLoading := false;
    }
  }
}
