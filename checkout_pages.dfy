/** The two pages Stripe sends the customer back to. The success page
    marks the registration paid (app/checkout/success/page.tsx:8-44); the
    cancel page deletes it while it is still pending
    (app/checkout/cancel/page.tsx:7-18). */
module CheckoutSuccess {
  import opened Types
  import opened Store
  import opened Lifecycle
  import Forms

  datatype Page = RedirectTo(path: string) | Show(registration: Registration)

  /** `registrationId` and `sessionId` are the query parameters
      registration_id and session_id; an empty one counts as missing. */
  method Render(db: Database, registrationId: Option<string>, sessionId: Option<string>) returns (page: Page)
    modifies db
    ensures !Forms.Truthy(registrationId) ==> page == RedirectTo("/classes") && db.Snapshot() == old(db.Snapshot())
    ensures Forms.Truthy(registrationId) && !Forms.Truthy(sessionId) ==> db.Snapshot() == old(db.Snapshot())
    ensures Forms.Truthy(registrationId) && Forms.Truthy(sessionId) ==>
              db.Snapshot() == old(db.Snapshot()).(registrations := SetPaid(old(db.registrations), registrationId.value))
    ensures Forms.Truthy(registrationId) ==>
              if registrationId.value in db.registrations then page == Show(db.registrations[registrationId.value])
              else page == RedirectTo("/classes")
  {
    if !Forms.Truthy(registrationId) {
      return RedirectTo("/classes");
    }
    var id := registrationId.value;
    if Forms.Truthy(sessionId) {
      db.registrations := SetPaid(db.registrations, id);
    }
    if id in db.registrations {
      page := Show(db.registrations[id]);
    } else {
      page := RedirectTo("/classes");
    }
  }
}

module CheckoutCancel {
  import opened Types
  import opened Store
  import opened Lifecycle
  import Forms

  /** `registrationId` is the query parameter registration_id. */
  method Render(db: Database, registrationId: Option<string>)
    modifies db
    ensures !Forms.Truthy(registrationId) ==> db.Snapshot() == old(db.Snapshot())
    ensures Forms.Truthy(registrationId) ==>
              db.Snapshot() == old(db.Snapshot()).(registrations := DeleteIfPending(old(db.registrations), registrationId.value))
    // rows that are not pending, and rows with other ids, are kept as they were
    ensures forall k :: k in old(db.registrations) && (old(db.registrations)[k].paymentStatus != Pending
                          || !Forms.Truthy(registrationId) || k != registrationId.value) ==>
              k in db.registrations && db.registrations[k] == old(db.registrations)[k]
  {
    if Forms.Truthy(registrationId) {
      db.registrations := DeleteIfPending(db.registrations, registrationId.value);
    }
  }
}
