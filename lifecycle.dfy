/** The writes the payment lifecycle makes to the registrations table, as
    functions of the table. Each is a single Supabase statement keyed by
    the row id: `.update(...).eq("id", id)` changes at most that row and
    `.delete().eq("id", id).eq("payment_status", "pending")` removes at
    most that row. None of them reads the row's current status except the
    cancel page's delete. */
module Lifecycle {
  import opened Types

  /** The rows of a class that belong to a student: what the duplicate
      check of registerForClass selects (app/actions/registrations.ts:38-43). */
  function RowsFor(regs: map<Id, Registration>, classId: Id, studentId: Id): (ids: set<Id>)
    ensures forall k :: k in ids <==> k in regs && regs[k].classId == classId && regs[k].studentId == studentId
  {
    set k | k in regs && regs[k].classId == classId && regs[k].studentId == studentId
  }

  /** `.single()` on that selection yields a row only when exactly one row
      matches; none and several both read as "no existing registration". */
  predicate AlreadyRegistered(regs: map<Id, Registration>, classId: Id, studentId: Id) {
    |RowsFor(regs, classId, studentId)| == 1
  }

  /** The paid/confirmed update of the success page
      (app/checkout/success/page.tsx:22-28): the row called `id`, whatever
      its status, becomes paid and confirmed; no other row changes and no
      row appears or disappears. */
  function SetPaid(regs: map<Id, Registration>, id: Id): (r: map<Id, Registration>)
    ensures r.Keys == regs.Keys
    ensures id in regs ==> r[id].paymentStatus == Paid && r[id].status == Some("confirmed")
    ensures id in regs ==> r[id].(paymentStatus := regs[id].paymentStatus, status := regs[id].status) == regs[id]
    ensures forall k :: k in regs && k != id ==> r[k] == regs[k]
  {
    if id in regs then regs[id := regs[id].(paymentStatus := Paid, status := Some("confirmed"))] else regs
  }

  /** The webhook's completion update (app/api/webhooks/stripe/route.ts:101-108):
      as SetPaid, and the payment intent id is recorded as well. */
  function SetPaidWithIntent(regs: map<Id, Registration>, id: Id, intent: Option<string>): (r: map<Id, Registration>)
    ensures r.Keys == regs.Keys
    ensures id in regs ==> r[id].paymentStatus == Paid && r[id].status == Some("confirmed")
                           && r[id].stripePaymentIntentId == intent
    ensures id in regs ==> r[id].(paymentStatus := regs[id].paymentStatus, status := regs[id].status,
                                  stripePaymentIntentId := regs[id].stripePaymentIntentId) == regs[id]
    ensures forall k :: k in regs && k != id ==> r[k] == regs[k]
  {
    if id in regs then
      regs[id := regs[id].(paymentStatus := Paid, status := Some("confirmed"), stripePaymentIntentId := intent)]
    else regs
  }

  /** The admin status change (app/actions/admin.ts:135): the given status
      is written to the row whatever it was before. */
  function SetStatus(regs: map<Id, Registration>, id: Id, st: PaymentStatus): (r: map<Id, Registration>)
    ensures r.Keys == regs.Keys
    ensures id in regs ==> r[id].paymentStatus == st
    ensures id in regs ==> r[id].(paymentStatus := regs[id].paymentStatus) == regs[id]
    ensures forall k :: k in regs && k != id ==> r[k] == regs[k]
  {
    if id in regs then regs[id := regs[id].(paymentStatus := st)] else regs
  }

  /** The follow-up write of the card path (app/actions/registrations.ts:106):
      only the session id column of that row changes. */
  function SetIntent(regs: map<Id, Registration>, id: Id, intent: string): (r: map<Id, Registration>)
    ensures r.Keys == regs.Keys
    ensures id in regs ==> r[id] == regs[id].(stripePaymentIntentId := Some(intent))
    ensures forall k :: k in regs && k != id ==> r[k] == regs[k]
  {
    if id in regs then regs[id := regs[id].(stripePaymentIntentId := Some(intent))] else regs
  }

  /** The cancel page's delete (app/checkout/cancel/page.tsx:17): the row
      called `id` goes only while it is still pending. */
  function DeleteIfPending(regs: map<Id, Registration>, id: Id): (r: map<Id, Registration>)
    ensures forall k :: k in r <==> k in regs && !(k == id && regs[k].paymentStatus == Pending)
    ensures forall k :: k in r ==> r[k] == regs[k]
  {
    if id in regs && regs[id].paymentStatus == Pending then regs - {id} else regs
  }

  /** Cancelling twice is the same as cancelling once. */
  lemma {:induction false} DeleteIfPendingIdempotent(regs: map<Id, Registration>, id: Id)
    ensures DeleteIfPending(DeleteIfPending(regs, id), id) == DeleteIfPending(regs, id)
  {
    var once := DeleteIfPending(regs, id);
    assert forall k :: k in DeleteIfPending(once, id) <==> k in once;
  }

  /** A pending row that was just inserted is removed by the cancel page,
      which gives back the table as it was before the insert. */
  lemma {:induction false} CancelUndoesPendingInsert(regs: map<Id, Registration>, id: Id, row: Registration)
    requires id !in regs && row.paymentStatus == Pending
    ensures DeleteIfPending(regs[id := row], id) == regs
  {
    var r := DeleteIfPending(regs[id := row], id);
    assert forall k :: k in r <==> k in regs;
  }

  /** Once paid, a row survives the cancel page: returning to the cancel
      URL after paying deletes nothing. */
  lemma {:induction false} CancelAfterPaymentKeepsRow(regs: map<Id, Registration>, id: Id, intent: Option<string>)
    ensures DeleteIfPending(SetPaidWithIntent(regs, id, intent), id) == SetPaidWithIntent(regs, id, intent)
    ensures DeleteIfPending(SetPaid(regs, id), id) == SetPaid(regs, id)
  {
    var paid := SetPaidWithIntent(regs, id, intent);
    assert forall k :: k in DeleteIfPending(paid, id) <==> k in paid;
    var paid2 := SetPaid(regs, id);
    assert forall k :: k in DeleteIfPending(paid2, id) <==> k in paid2;
  }

  /** A repeated completion for the same session leaves the table as the
      first one left it (the emails, however, are sent again). */
  lemma {:induction false} SetPaidWithIntentIdempotent(regs: map<Id, Registration>, id: Id, intent: Option<string>)
    ensures SetPaidWithIntent(SetPaidWithIntent(regs, id, intent), id, intent) == SetPaidWithIntent(regs, id, intent)
  {
  }

  /** The webhook and the success page agree on the status columns: after
      both, in either order, the row is paid and confirmed, and only the
      webhook's intent id differs from the original row. */
  lemma {:induction false} SuccessAndWebhookCommute(regs: map<Id, Registration>, id: Id, intent: Option<string>)
    ensures SetPaid(SetPaidWithIntent(regs, id, intent), id) == SetPaidWithIntent(SetPaid(regs, id), id, intent)
    ensures SetPaid(SetPaidWithIntent(regs, id, intent), id) == SetPaidWithIntent(regs, id, intent)
  {
  }

  /** Status changes by the admin leave every other column alone, so an
      approve followed by a reject is the same as the reject alone. */
  lemma {:induction false} SetStatusLastWins(regs: map<Id, Registration>, id: Id, a: PaymentStatus, b: PaymentStatus)
    ensures SetStatus(SetStatus(regs, id, a), id, b) == SetStatus(regs, id, b)
  {
  }
}
