/** The Stripe webhook, `POST /api/webhooks/stripe`
    (app/api/webhooks/stripe/route.ts): after the signature is checked, a
    completed checkout session is routed either to the sponsorship handler
    or to the class registration handler, and the event is acknowledged
    whatever happens next. */
module StripeWebhook {
  import opened Types
  import opened Text
  import opened Store
  import opened Lifecycle
  import Forms
  import Registrations
  import CheckoutRoute

  /** `session.customer_details`, with its address flattened. */
  datatype CustomerDetails = CustomerDetails(
    name: Option<string>,
    email: Option<string>,
    line1: Option<string>,
    city: Option<string>,
    state: Option<string>,
    postalCode: Option<string>)

  /** The parts of a checkout session the handlers read. A null metadata
      object is the empty map. */
  datatype CompletedSession = CompletedSession(
    id: string,
    metadata: map<string, string>,
    amountTotal: Option<int>,
    paymentIntent: Option<string>,
    customer: Option<CustomerDetails>)

  datatype Event = Event(kind: string, session: CompletedSession)

  /** Where a verified event goes. */
  datatype Route = ToSponsorship | ToRegistration(registrationId: Id) | Ignored

  datatype Response = Received | Rejected(httpStatus: int, error: string)

  /** `session.metadata?.[key]`. */
  function Meta(m: map<string, string>, key: string): Option<string> {
    if key in m then Some(m[key]) else None
  }

  /** `a || b` for text. */
  function Or(a: Option<string>, b: string): (r: string)
    ensures Forms.Truthy(a) ==> r == a.value
    ensures !Forms.Truthy(a) ==> r == b
  {
    if Forms.Truthy(a) then a.value else b
  }

  /** The dispatch of app/api/webhooks/stripe/route.ts:27-45: a sponsorship
      marker wins over a registration id, and only completed sessions are
      handled. */
  function Dispatch(e: Event): (r: Route)
    ensures r == ToSponsorship <==>
              e.kind == "checkout.session.completed" && Meta(e.session.metadata, "type") == Some("sponsorship")
    ensures r.ToRegistration? <==>
              e.kind == "checkout.session.completed" && Meta(e.session.metadata, "type") != Some("sponsorship")
              && Forms.Truthy(Meta(e.session.metadata, "registrationId"))
    ensures r.ToRegistration? ==> r.registrationId == e.session.metadata["registrationId"]
  {
    if e.kind != "checkout.session.completed" then Ignored
    else if Meta(e.session.metadata, "type") == Some("sponsorship") then ToSponsorship
    else if Forms.Truthy(Meta(e.session.metadata, "registrationId")) then ToRegistration(e.session.metadata["registrationId"])
    else Ignored
  }

  /** The customer's name, when Stripe has one. */
  function CustomerName(s: CompletedSession): Option<string> {
    if s.customer.Some? then s.customer.value.name else None
  }

  /** `name.split(" ")[0]`. */
  function FirstWord(name: string): string {
    Split(name, ' ')[0]
  }

  /** `name.split(" ").slice(1).join(" ")`. */
  function RestWords(name: string): string {
    Join(Split(name, ' ')[1..], " ")
  }

  /** The first and last names the webhook derives from a customer name
      put the name back together. */
  lemma {:induction false} CustomerNameSplit(name: string)
    ensures ' ' in name ==> FirstWord(name) + " " + RestWords(name) == name
    ensures ' ' !in name ==> FirstWord(name) == name && RestWords(name) == ""
  {
    SplitPieces(name, ' ');
    JoinSplit(name, ' ');
    var parts := Split(name, ' ');
    if ' ' in name {
      assert Join(parts, " ") == parts[0] + " " + Join(parts[1..], " ");
    }
  }

  /** `(session.amount_total || 0) / 100`: cents to dollars, nothing
      treated as zero. */
  function Amount(s: CompletedSession): (a: real)
    ensures s.amountTotal.Some? ==> a * 100.0 == s.amountTotal.value as real
    ensures s.amountTotal.None? ==> a == 0.0
  {
    (if s.amountTotal.Some? then s.amountTotal.value else 0) as real / 100.0
  }

  /** sponsor_first_name: the metadata, else the first word of the
      customer's name, else "" (app/api/webhooks/stripe/route.ts:60). */
  function SponsorFirstName(s: CompletedSession): (n: string)
    ensures Forms.Truthy(Meta(s.metadata, "sponsor_first_name")) ==> n == s.metadata["sponsor_first_name"]
    ensures !Forms.Truthy(Meta(s.metadata, "sponsor_first_name")) && CustomerName(s).Some? ==>
              n == FirstWord(CustomerName(s).value)
    ensures !Forms.Truthy(Meta(s.metadata, "sponsor_first_name")) && CustomerName(s).None? ==> n == ""
  {
    var fromName := if CustomerName(s).Some? then Some(FirstWord(CustomerName(s).value)) else None;
    Or(Meta(s.metadata, "sponsor_first_name"), Or(fromName, ""))
  }

  /** sponsor_last_name: the metadata, else the rest of the customer's
      name, else "" (app/api/webhooks/stripe/route.ts:61). */
  function SponsorLastName(s: CompletedSession): (n: string)
    ensures Forms.Truthy(Meta(s.metadata, "sponsor_last_name")) ==> n == s.metadata["sponsor_last_name"]
    ensures !Forms.Truthy(Meta(s.metadata, "sponsor_last_name")) && CustomerName(s).Some? ==>
              n == RestWords(CustomerName(s).value)
    ensures !Forms.Truthy(Meta(s.metadata, "sponsor_last_name")) && CustomerName(s).None? ==> n == ""
  {
    var fromName := if CustomerName(s).Some? then Some(RestWords(CustomerName(s).value)) else None;
    Or(Meta(s.metadata, "sponsor_last_name"), Or(fromName, ""))
  }

  /** The address the thank-you email goes to, if any
      (app/api/webhooks/stripe/route.ts:80). */
  function SponsorEmail(s: CompletedSession): (e: Option<string>)
    ensures e.Some? ==> e.value != ""
    ensures Forms.Truthy(Meta(s.metadata, "sponsor_email")) ==> e == Meta(s.metadata, "sponsor_email")
    ensures !Forms.Truthy(Meta(s.metadata, "sponsor_email")) ==>
              e == (if s.customer.Some? && Forms.Truthy(s.customer.value.email) then s.customer.value.email else None)
  {
    var fromCustomer := if s.customer.Some? then s.customer.value.email else None;
    if Forms.Truthy(Meta(s.metadata, "sponsor_email")) then Meta(s.metadata, "sponsor_email")
    else Forms.OrNull(fromCustomer)
  }

  function Field(c: Option<CustomerDetails>, f: CustomerDetails -> Option<string>): Option<string> {
    if c.Some? then Forms.OrNull(f(c.value)) else None
  }

  /** The row the sponsorship handler inserts (app/api/webhooks/stripe/route.ts:58-72). */
  function SponsorshipRow(s: CompletedSession): (r: Sponsorship)
    ensures r.amount == Amount(s) && r.status == "completed" && r.paymentMethod == "stripe"
    ensures r.sponsorFirstName == SponsorFirstName(s) && r.sponsorLastName == SponsorLastName(s)
    ensures r.sponsorEmail == (if SponsorEmail(s).Some? then SponsorEmail(s).value else "")
    ensures r.studentName == Forms.OrNull(Meta(s.metadata, "student_name"))
    ensures r.organizationName == Forms.OrNull(Meta(s.metadata, "organization_name"))
    ensures r.paymentIntentId == s.paymentIntent
    ensures s.customer.None? ==> r.billingAddress.None? && r.billingCity.None? && r.billingState.None? && r.billingZip.None?
    ensures s.customer.Some? ==>
              r.billingAddress == Forms.OrNull(s.customer.value.line1) && r.billingCity == Forms.OrNull(s.customer.value.city)
              && r.billingState == Forms.OrNull(s.customer.value.state) && r.billingZip == Forms.OrNull(s.customer.value.postalCode)
  {
    Sponsorship(
      Amount(s), SponsorFirstName(s), SponsorLastName(s),
      if SponsorEmail(s).Some? then SponsorEmail(s).value else "",
      Forms.OrNull(Meta(s.metadata, "student_name")),
      Forms.OrNull(Meta(s.metadata, "organization_name")),
      Field(s.customer, (c: CustomerDetails) => c.line1), Field(s.customer, (c: CustomerDetails) => c.city),
      Field(s.customer, (c: CustomerDetails) => c.state), Field(s.customer, (c: CustomerDetails) => c.postalCode),
      "completed", "stripe", s.paymentIntent)
  }

  /** The subject of the thank-you email exactly as the source file spells
      it: its seedling emoji is stored as the four characters U+00F0 U+0178
      U+0152 U+00B1 (UTF-8 bytes read as Windows-1252). */
  const ThankYouSubject: string := "Thank You for Sponsoring a Student! \U{00F0}\U{0178}\U{0152}\U{00B1}"

  /** The emails the class registration handler sends for row `id` of the
      updated table: none unless the row exists and its parent has an
      address, then "Payment Received" and "Class Registration Confirmed"
      (app/api/webhooks/stripe/route.ts:119-160). A missing class shows as
      "undefined" in the subjects, as the template literal prints it. */
  function RegistrationMails(t: Tables, id: Id): (mails: seq<Email>)
    ensures |mails| == 0 || |mails| == 2
    ensures |mails| == 2 <==> id in t.registrations && t.registrations[id].parentId.Some?
                               && t.registrations[id].parentId.value in t.profiles
                               && t.profiles[t.registrations[id].parentId.value].email != ""
    ensures |mails| == 2 ==> mails[0].to == mails[1].to
                             && mails[0].to == t.profiles[t.registrations[id].parentId.value].email
  {
    if id !in t.registrations then []
    else
      var r := t.registrations[id];
      if r.parentId.None? || r.parentId.value !in t.profiles || t.profiles[r.parentId.value].email == "" then []
      else
        var to := t.profiles[r.parentId.value].email;
        var className := if r.classId in t.classes then t.classes[r.classId].name else "undefined";
        [Email(to, "Payment Received - " + className), Email(to, "Class Registration Confirmed - " + className)]
  }

  /** handleClassRegistration (app/api/webhooks/stripe/route.ts:98-165).
      `dbFails` is the database's answer to the update. */
  method HandleClassRegistration(db: Database, s: CompletedSession, registrationId: Id, dbFails: bool)
    modifies db
    ensures dbFails ==> db.Snapshot() == old(db.Snapshot())
    ensures !dbFails ==>
              var regs := SetPaidWithIntent(old(db.registrations), registrationId, s.paymentIntent);
              db.Snapshot() == old(db.Snapshot()).(registrations := regs,
                outbox := old(db.outbox) + RegistrationMails(old(db.Snapshot()).(registrations := regs), registrationId))
  {
    if dbFails {
      return;
    }
    db.registrations := SetPaidWithIntent(db.registrations, registrationId, s.paymentIntent);
    var mails := RegistrationMails(db.Snapshot(), registrationId);
    if |mails| == 2 {
      SendEmail(db, mails[0].to, mails[0].subject);
      SendEmail(db, mails[1].to, mails[1].subject);
      assert db.outbox == old(db.outbox) + mails;
    }
  }

  /** handleSponsorship (app/api/webhooks/stripe/route.ts:53-93).
      `dbFails` is the database's answer to the insert. */
  method HandleSponsorship(db: Database, s: CompletedSession, dbFails: bool) returns (ghost newId: Option<Id>)
    modifies db
    ensures dbFails ==> db.Snapshot() == old(db.Snapshot()) && newId.None?
    ensures !dbFails ==>
              newId.Some? && newId.value !in old(db.sponsorships)
              && db.Snapshot() == old(db.Snapshot()).(
                   sponsorships := old(db.sponsorships)[newId.value := SponsorshipRow(s)],
                   outbox := old(db.outbox) + (if SponsorEmail(s).Some? then [Email(SponsorEmail(s).value, ThankYouSubject)] else []))
  {
    newId := None;
    if dbFails {
      return;
    }
    FreshIdExists(db.sponsorships);
    var id :| id !in db.sponsorships;
    db.sponsorships := db.sponsorships[id := SponsorshipRow(s)];
    newId := Some(id);
    var to := SponsorEmail(s);
    if to.Some? {
      SendEmail(db, to.value, ThankYouSubject);
    }
  }

  /** POST (app/api/webhooks/stripe/route.ts:10-48). `signature` is the
      stripe-signature header and `verified` the event
      `stripe.webhooks.constructEvent` returns for it (None: it threw). */
  method Post(db: Database, signature: Option<string>, verified: Option<Event>, dbFails: bool)
    returns (resp: Response, ghost newSponsorship: Option<Id>)
    modifies db
    ensures db.classes == old(db.classes)
    ensures !Forms.Truthy(signature) ==> resp == Rejected(400, "No signature") && db.Snapshot() == old(db.Snapshot())
    ensures Forms.Truthy(signature) && verified.None? ==>
              resp == Rejected(400, "Invalid signature") && db.Snapshot() == old(db.Snapshot())
    ensures Forms.Truthy(signature) && verified.Some? ==> resp == Received
    ensures newSponsorship.Some? ==> Forms.Truthy(signature) && verified.Some? && Dispatch(verified.value) == ToSponsorship && !dbFails
    // a handler whose database call fails leaves everything as it was; so does an ignored event
    ensures Forms.Truthy(signature) && verified.Some? && (dbFails || Dispatch(verified.value) == Ignored) ==>
              db.Snapshot() == old(db.Snapshot())
    ensures Forms.Truthy(signature) && verified.Some? && Dispatch(verified.value).ToRegistration? && !dbFails ==>
              var id := Dispatch(verified.value).registrationId;
              var regs := SetPaidWithIntent(old(db.registrations), id, verified.value.session.paymentIntent);
              db.Snapshot() == old(db.Snapshot()).(registrations := regs,
                outbox := old(db.outbox) + RegistrationMails(old(db.Snapshot()).(registrations := regs), id))
    ensures Forms.Truthy(signature) && verified.Some? && Dispatch(verified.value) == ToSponsorship && !dbFails ==>
              var s := verified.value.session;
              newSponsorship.Some? && newSponsorship.value !in old(db.sponsorships)
              && db.Snapshot() == old(db.Snapshot()).(
                   sponsorships := old(db.sponsorships)[newSponsorship.value := SponsorshipRow(s)],
                   outbox := old(db.outbox) + (if SponsorEmail(s).Some? then [Email(SponsorEmail(s).value, ThankYouSubject)] else []))
  {
    newSponsorship := None;
    if !Forms.Truthy(signature) {
      return Rejected(400, "No signature"), newSponsorship;
    }
    if verified.None? {
      return Rejected(400, "Invalid signature"), newSponsorship;
    }
    var route := Dispatch(verified.value);
    match route {
      case ToSponsorship =>
        newSponsorship := HandleSponsorship(db, verified.value.session, dbFails);
      case ToRegistration(id) =>
        HandleClassRegistration(db, verified.value.session, id, dbFails);
      case Ignored =>
    }
    resp := Received;
  }

  /** Sessions opened by registerForClass come back to the registration
      handler with the row they name. */
  lemma {:induction false} CardSessionsReachRegistration(id: Id, req: Registrations.RegisterRequest, parentId: Id, s: CompletedSession)
    requires id != ""
    requires s.metadata == Registrations.SessionMetadata(id, req, parentId)
    ensures Dispatch(Event("checkout.session.completed", s)) == ToRegistration(id)
  {
    assert Meta(s.metadata, "type") == None;
    assert Meta(s.metadata, "registrationId") == Some(id);
  }

  /** Sessions opened by the older checkout route never reach the
      registration handler: their id travels as registration_id, and the
      webhook reads registrationId. */
  lemma {:induction false} OldRouteSessionsIgnored(id: Id, body: CheckoutRoute.CheckoutBody, userId: Id, s: CompletedSession, kind: string)
    requires s.metadata == CheckoutRoute.SessionMetadata(id, body, userId)
    ensures Dispatch(Event(kind, s)) == Ignored
  {
    assert Meta(s.metadata, "type") == None;
    assert Meta(s.metadata, "registrationId") == None;
  }
}
