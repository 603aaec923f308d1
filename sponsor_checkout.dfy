/** The sponsorship checkout endpoint, `POST /api/checkout/sponsor`
    (app/api/checkout/sponsor/route.ts): it validates the amount and opens a
    Stripe session whose metadata marks it as a sponsorship, so that the
    webhook records it in the sponsorships table. */
module SponsorCheckout {
  import opened Types
  import Forms
  import Registrations
  import CheckoutRoute
  import StripeWebhook

  /** The JSON body (app/api/checkout/sponsor/route.ts:8-15). A missing or
      null field is None; `amount` is taken to be a number or absent. */
  datatype Body = Body(
    amount: Option<real>,
    studentName: Option<string>,
    organizationName: Option<string>,
    sponsorEmail: Option<string>,
    sponsorFirstName: Option<string>,
    sponsorLastName: Option<string>)

  /** What the route asks Stripe for: one line item of `unitAmount` cents,
      its description, the customer e-mail and the metadata, which is
      copied onto the session and onto its payment intent. */
  datatype SponsorSessionRequest = SponsorSessionRequest(
    unitAmount: int,
    description: string,
    customerEmail: Option<string>,
    metadata: map<string, string>,
    intentMetadata: map<string, string>)

  /** `!amount || amount <= 0` (app/api/checkout/sponsor/route.ts:17). */
  predicate ValidAmount(amount: Option<real>) {
    amount.Some? && amount.value > 0.0
  }

  /** `x || ""`. */
  function OrEmpty(x: Option<string>): (r: string)
    ensures Forms.Truthy(x) ==> r == x.value
    ensures !Forms.Truthy(x) ==> r == ""
  {
    if Forms.Truthy(x) then x.value else ""
  }

  /** The "" the route stores for a missing sponsor field reads as absent
      when the webhook applies its own `metadata.x || fallback`, so the
      webhook falls back exactly as if the field had not been sent. */
  lemma {:induction false} EmptyDefaultReadsAsAbsent(x: Option<string>, fallback: string)
    ensures StripeWebhook.Or(Some(OrEmpty(x)), fallback) == StripeWebhook.Or(x, fallback)
  {
  }

  /** The metadata as a whole (app/api/checkout/sponsor/route.ts:25-38): the
      sponsorship marker, the sponsor's names and e-mail (empty when not
      given), and the student and organization names only when given. */
  function SponsorMetadata(b: Body): (m: map<string, string>)
    ensures "type" in m && m["type"] == "sponsorship"
    ensures "registrationId" !in m
    ensures "sponsor_first_name" in m && "sponsor_last_name" in m && "sponsor_email" in m
    ensures m["sponsor_first_name"] == OrEmpty(b.sponsorFirstName)
    ensures m["sponsor_last_name"] == OrEmpty(b.sponsorLastName)
    ensures m["sponsor_email"] == OrEmpty(b.sponsorEmail)
    ensures "student_name" in m <==> Forms.Truthy(b.studentName)
    ensures "student_name" in m ==> m["student_name"] == b.studentName.value
    ensures "organization_name" in m <==> Forms.Truthy(b.organizationName)
    ensures "organization_name" in m ==> m["organization_name"] == b.organizationName.value
    ensures m.Keys <= {"type", "sponsor_first_name", "sponsor_last_name", "sponsor_email", "student_name", "organization_name"}
  {
    var base := map["type" := "sponsorship", "sponsor_first_name" := OrEmpty(b.sponsorFirstName),
                    "sponsor_last_name" := OrEmpty(b.sponsorLastName), "sponsor_email" := OrEmpty(b.sponsorEmail)];
    var withStudent := if Forms.Truthy(b.studentName) then base["student_name" := b.studentName.value] else base;
    if Forms.Truthy(b.organizationName) then withStudent["organization_name" := b.organizationName.value] else withStudent
  }

  /** The line item's description (app/api/checkout/sponsor/route.ts:49-51). */
  function Description(studentName: Option<string>): (d: string)
    ensures Forms.Truthy(studentName) ==> d == "Sponsorship for " + studentName.value
    ensures !Forms.Truthy(studentName) ==> d == "Sponsoring a student's coding education"
  {
    if Forms.Truthy(studentName) then "Sponsorship for " + studentName.value
    else "Sponsoring a student's coding education"
  }

  /** POST (app/api/checkout/sponsor/route.ts:4-77). `body` is None when the
      request is not JSON, and `session` is Stripe's answer (None: the call
      threw); both failures end in the same 500. The metadata is built up
      field by field, as the route does. */
  method Post(body: Option<Body>, session: Option<Registrations.CheckoutSession>)
    returns (resp: CheckoutRoute.Response, stripeCall: Option<SponsorSessionRequest>)
    ensures body.None? ==> resp == CheckoutRoute.Error(500, "Failed to create checkout session") && stripeCall.None?
    ensures body.Some? && !ValidAmount(body.value.amount) ==>
              resp == CheckoutRoute.Error(400, "Invalid sponsorship amount") && stripeCall.None?
    ensures body.Some? && ValidAmount(body.value.amount) ==>
              var b := body.value;
              stripeCall == Some(SponsorSessionRequest(
                Registrations.Cents(b.amount.value), Description(b.studentName),
                if Forms.Truthy(b.sponsorEmail) then b.sponsorEmail else None,
                SponsorMetadata(b), SponsorMetadata(b)))
              && resp == (if session.Some? then CheckoutRoute.Created(session.value.id, session.value.url)
                          else CheckoutRoute.Error(500, "Failed to create checkout session"))
  {
    stripeCall := None;
    if body.None? {
      return CheckoutRoute.Error(500, "Failed to create checkout session"), stripeCall;
    }
    var b := body.value;
    if !ValidAmount(b.amount) {
      return CheckoutRoute.Error(400, "Invalid sponsorship amount"), stripeCall;
    }
    var metadata := map["type" := "sponsorship", "sponsor_first_name" := OrEmpty(b.sponsorFirstName),
                        "sponsor_last_name" := OrEmpty(b.sponsorLastName), "sponsor_email" := OrEmpty(b.sponsorEmail)];
    if Forms.Truthy(b.studentName) {
      metadata := metadata["student_name" := b.studentName.value];
    }
    if Forms.Truthy(b.organizationName) {
      metadata := metadata["organization_name" := b.organizationName.value];
    }
    var email := if Forms.Truthy(b.sponsorEmail) then b.sponsorEmail else None;
    stripeCall := Some(SponsorSessionRequest(Registrations.Cents(b.amount.value), Description(b.studentName),
                                             email, metadata, metadata));
    if session.None? {
      return CheckoutRoute.Error(500, "Failed to create checkout session"), stripeCall;
    }
    resp := CheckoutRoute.Created(session.value.id, session.value.url);
  }

  /** A completed session opened by this route comes back to the webhook's
      sponsorship handler, never to the registration handler, and the row it
      writes keeps the sponsor's names and e-mail and the student and
      organization exactly when they were given. */
  lemma {:induction false} SessionsReachSponsorship(b: Body, s: StripeWebhook.CompletedSession)
    requires s.metadata == SponsorMetadata(b)
    ensures StripeWebhook.Dispatch(StripeWebhook.Event("checkout.session.completed", s)) == StripeWebhook.ToSponsorship
    ensures var r := StripeWebhook.SponsorshipRow(s);
            r.studentName == (if Forms.Truthy(b.studentName) then b.studentName else None)
            && r.organizationName == (if Forms.Truthy(b.organizationName) then b.organizationName else None)
            && (Forms.Truthy(b.sponsorFirstName) ==> r.sponsorFirstName == b.sponsorFirstName.value)
            && (Forms.Truthy(b.sponsorLastName) ==> r.sponsorLastName == b.sponsorLastName.value)
            && (Forms.Truthy(b.sponsorEmail) ==> r.sponsorEmail == b.sponsorEmail.value)
  {
    var m := SponsorMetadata(b);
    assert StripeWebhook.Meta(m, "type") == Some("sponsorship");
    assert Forms.Truthy(b.studentName) ==> StripeWebhook.Meta(m, "student_name") == b.studentName;
    assert !Forms.Truthy(b.studentName) ==> StripeWebhook.Meta(m, "student_name") == None;
    assert Forms.Truthy(b.organizationName) ==> StripeWebhook.Meta(m, "organization_name") == b.organizationName;
    assert !Forms.Truthy(b.organizationName) ==> StripeWebhook.Meta(m, "organization_name") == None;
    assert Forms.Truthy(b.sponsorFirstName) ==> StripeWebhook.Meta(m, "sponsor_first_name") == b.sponsorFirstName;
    assert Forms.Truthy(b.sponsorLastName) ==> StripeWebhook.Meta(m, "sponsor_last_name") == b.sponsorLastName;
    assert Forms.Truthy(b.sponsorEmail) ==> StripeWebhook.Meta(m, "sponsor_email") == b.sponsorEmail;
  }

  /** When Stripe charges the requested unit amount, the amount the webhook
      records is within half a cent of the amount asked for. */
  lemma {:induction false} RecordedAmountWithinHalfCent(amount: real, s: StripeWebhook.CompletedSession)
    requires s.amountTotal == Some(Registrations.Cents(amount))
    ensures var recorded := StripeWebhook.SponsorshipRow(s).amount;
            amount - 0.005 < recorded <= amount + 0.005
  {
    var c := Registrations.Cents(amount);
    var recorded := StripeWebhook.SponsorshipRow(s).amount;
    assert recorded * 100.0 == c as real;
  }
}
