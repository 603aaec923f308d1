/** The sponsor page's form (components/sponsor/sponsorship-form.tsx): the
    checks a submit makes, the body it posts to the sponsorship checkout
    endpoint, and what it does with the answer. */
module SponsorshipForm {
  import opened Types
  import Text
  import Forms
  import Registrations
  import AmountSelection
  import CheckoutRoute
  import SponsorCheckout
  import StripeWebhook

  /** The first failed check, in the order of
      components/sponsor/sponsorship-form.tsx:60-78, or None. */
  function SubmitCheck(total: real, isDedicatedToStudent: bool, studentName: string,
                       isFromOrganization: bool, organizationName: string): (e: Option<string>)
    ensures e.None? <==> total >= 1.0 && !(isDedicatedToStudent && Text.IsBlank(studentName))
                         && !(isFromOrganization && Text.IsBlank(organizationName))
    ensures total <= 0.0 ==> e == Some("Please select or enter a sponsorship amount")
    ensures 0.0 < total < 1.0 ==> e == Some("Minimum sponsorship amount is $1")
    ensures total >= 1.0 && isDedicatedToStudent && Text.IsBlank(studentName) ==>
              e == Some("Please enter the student's name")
    ensures total >= 1.0 && !(isDedicatedToStudent && Text.IsBlank(studentName))
            && isFromOrganization && Text.IsBlank(organizationName) ==>
              e == Some("Please enter the organization name")
  {
    if total <= 0.0 then Some("Please select or enter a sponsorship amount")
    else if total < 1.0 then Some("Minimum sponsorship amount is $1")
    else if isDedicatedToStudent && Text.IsBlank(studentName) then Some("Please enter the student's name")
    else if isFromOrganization && Text.IsBlank(organizationName) then Some("Please enter the organization name")
    else None
  }

  /** The JSON body posted (components/sponsor/sponsorship-form.tsx:89-96):
      the names go as null unless their checkbox is ticked. */
  function Payload(total: real, isDedicatedToStudent: bool, studentName: string,
                   isFromOrganization: bool, organizationName: string,
                   email: string, firstName: string, lastName: string): (b: SponsorCheckout.Body)
    ensures b.amount == Some(total)
    ensures b.studentName.Some? <==> isDedicatedToStudent
    ensures b.organizationName.Some? <==> isFromOrganization
    ensures b.studentName.Some? ==> b.studentName.value == studentName
    ensures b.organizationName.Some? ==> b.organizationName.value == organizationName
    ensures b.sponsorEmail == Some(email) && b.sponsorFirstName == Some(firstName) && b.sponsorLastName == Some(lastName)
  {
    SponsorCheckout.Body(Some(total),
                         if isDedicatedToStudent then Some(studentName) else None,
                         if isFromOrganization then Some(organizationName) else None,
                         Some(email), Some(firstName), Some(lastName))
  }

  /** What the page ends with: the browser sent to Stripe, or an error
      toast. */
  datatype Outcome = Rejected(message: string) | Redirect(url: string) | ShowError(message: string)

  /** The handling of the endpoint's answer
      (components/sponsor/sponsorship-form.tsx:100-115). `reply` is None
      when the request or its JSON failed. */
  function ReplyOutcome(reply: Option<CheckoutRoute.Response>): (o: Outcome)
    ensures reply.None? ==> o == ShowError("Something went wrong. Please try again.")
    ensures o.Redirect? <==> reply.Some? && reply.value.Created? && Forms.Truthy(reply.value.url)
    ensures o.Redirect? ==> o.url == reply.value.url.value
    ensures reply.Some? && reply.value.Error? && reply.value.message != "" ==> o == ShowError(reply.value.message)
    ensures !o.Rejected?
  {
    match reply
    case None => ShowError("Something went wrong. Please try again.")
    case Some(r) =>
      if r.Error? && r.message != "" then ShowError(r.message)
      else if r.Created? && Forms.Truthy(r.url) then Redirect(r.url.value)
      else ShowError("Failed to create checkout session")
  }

  /** The submit button is disabled while submitting and with no amount
      (components/sponsor/sponsorship-form.tsx:364); amounts between 0 and 1
      are let through to the minimum check. */
  predicate SubmitDisabled(isSubmitting: bool, total: real) {
    isSubmitting || total <= 0.0
  }

  /** A body that passes the form's checks always passes the endpoint's
      amount check, and the sponsorship the webhook records from the
      resulting session names the student and the organization exactly
      when their boxes were ticked. */
  lemma {:induction false} CheckedSubmitIsRecorded(total: real, isDedicatedToStudent: bool, studentName: string,
                                isFromOrganization: bool, organizationName: string,
                                email: string, firstName: string, lastName: string,
                                s: StripeWebhook.CompletedSession)
    requires SubmitCheck(total, isDedicatedToStudent, studentName, isFromOrganization, organizationName).None?
    requires s.metadata == SponsorCheckout.SponsorMetadata(Payload(total, isDedicatedToStudent, studentName,
                                                                   isFromOrganization, organizationName,
                                                                   email, firstName, lastName))
    ensures SponsorCheckout.ValidAmount(Some(total))
    ensures StripeWebhook.Dispatch(StripeWebhook.Event("checkout.session.completed", s)) == StripeWebhook.ToSponsorship
    ensures var r := StripeWebhook.SponsorshipRow(s);
            r.studentName == (if isDedicatedToStudent then Some(studentName) else None)
            && r.organizationName == (if isFromOrganization then Some(organizationName) else None)
  {
    var b := Payload(total, isDedicatedToStudent, studentName, isFromOrganization, organizationName,
                     email, firstName, lastName);
    SponsorCheckout.SessionsReachSponsorship(b, s);
    if isDedicatedToStudent {
      assert studentName != "" by { assert !Text.IsBlank(studentName); }
    }
    if isFromOrganization {
      assert organizationName != "" by { assert !Text.IsBlank(organizationName); }
    }
  }

  class SponsorshipFormState {
    var isSubmitting: bool
    var isDedicatedToStudent: bool
    var studentName: string
    var isFromOrganization: bool
    var organizationName: string
    var firstName: string
    var lastName: string
    var email: string
    var outcome: Option<Outcome>
    const amount: AmountSelection.AmountState

    /** The initial state (components/sponsor/sponsorship-form.tsx:19-39). */
    constructor ()
      ensures fresh(amount) && amount.Total() == 0.0
      ensures !isSubmitting && !isDedicatedToStudent && studentName == "" && !isFromOrganization
              && organizationName == "" && firstName == "" && lastName == "" && email == "" && outcome.None?
    {
      isSubmitting, isDedicatedToStudent, studentName := false, false, "";
      isFromOrganization, organizationName := false, "";
      firstName, lastName, email := "", "", "";
      outcome := None;
      amount := new AmountSelection.AmountState();
    }

    function Body(): SponsorCheckout.Body
      reads this, amount
    {
      Payload(amount.Total(), isDedicatedToStudent, studentName, isFromOrganization, organizationName,
              email, firstName, lastName)
    }

    /** handleSubmit (components/sponsor/sponsorship-form.tsx:57-118).
        `networkFails` says whether the fetch or its JSON threw, and
        `session` is Stripe's answer to the endpoint; `reply` is the
        endpoint's answer as the page reads it (None when the fetch threw). */
    method HandleSubmit(networkFails: bool, session: Option<Registrations.CheckoutSession>)
      returns (posted: Option<SponsorCheckout.Body>, reply: Option<CheckoutRoute.Response>,
               stripeCall: Option<SponsorCheckout.SponsorSessionRequest>)
      modifies this
      ensures outcome.Some?
      ensures var e := SubmitCheck(old(amount.Total()), old(isDedicatedToStudent), old(studentName),
                                   old(isFromOrganization), old(organizationName));
              (e.Some? ==> outcome == Some(Rejected(e.value)) && posted.None? && reply.None? && stripeCall.None?
                           && isSubmitting == old(isSubmitting))
              && (e.None? ==> posted == Some(old(Body())) && !isSubmitting
                              && outcome == Some(ReplyOutcome(reply)) && (reply.None? <==> networkFails))
              && (e.None? && networkFails ==>
                    outcome == Some(ShowError("Something went wrong. Please try again.")) && stripeCall.None?)
              && (e.None? && !networkFails ==>
                    var b := old(Body());
                    stripeCall == Some(SponsorCheckout.SponsorSessionRequest(
                      Registrations.Cents(b.amount.value), SponsorCheckout.Description(b.studentName),
                      if Forms.Truthy(b.sponsorEmail) then b.sponsorEmail else None,
                      SponsorCheckout.SponsorMetadata(b), SponsorCheckout.SponsorMetadata(b)))
                    && reply == Some(if session.Some? then CheckoutRoute.Created(session.value.id, session.value.url)
                                     else CheckoutRoute.Error(500, "Failed to create checkout session")))
              && (e.None? && !networkFails && session.Some? ==>
                    stripeCall.Some? && stripeCall.value.unitAmount == Registrations.Cents(old(amount.Total()))
                    && stripeCall.value.metadata == SponsorCheckout.SponsorMetadata(old(Body()))
                    && (outcome.value.Redirect? <==> Forms.Truthy(session.value.url)))
      ensures isDedicatedToStudent == old(isDedicatedToStudent) && studentName == old(studentName)
              && isFromOrganization == old(isFromOrganization) && organizationName == old(organizationName)
              && firstName == old(firstName) && lastName == old(lastName) && email == old(email)
    {
      posted, reply, stripeCall := None, None, None;
      var e := SubmitCheck(amount.Total(), isDedicatedToStudent, studentName, isFromOrganization, organizationName);
      if e.Some? {
        Show(Rejected(e.value), isSubmitting);
        return;
      }
      isSubmitting := true;
      var body := Body();
      posted := Some(body);
      if !networkFails {
        var resp;
        resp, stripeCall := SponsorCheckout.Post(Some(body), session);
        reply := Some(resp);
      }
      Show(ReplyOutcome(reply), false);
    }

    /** The page's outcome and busy flag after a submit. */
    method Show(o: Outcome, submitting: bool)
      modifies this
      ensures outcome == Some(o) && isSubmitting == submitting
      ensures isDedicatedToStudent == old(isDedicatedToStudent) && studentName == old(studentName)
              && isFromOrganization == old(isFromOrganization) && organizationName == old(organizationName)
              && firstName == old(firstName) && lastName == old(lastName) && email == old(email)
    {
      outcome, isSubmitting := Some(o), submitting;
    }
  }
}
