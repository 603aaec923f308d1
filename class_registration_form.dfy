/** The parent's registration form on a class page
    (components/classes/class-registration-form.tsx): the price tier it
    shows and submits, the charter discount notice, when the one-on-one
    choice appears, and what a submit does with registerForClass's answer. */
module ClassRegistrationForm {
  import opened Types
  import opened Store
  import Forms
  import Registrations
  import ClassesGrid

  /** JavaScript truthiness of an optional price: null and 0 are falsy. */
  predicate TruthyPrice(p: Option<real>) {
    p.Some? && p.value != 0.0
  }

  /** The total shown and submitted
      (components/classes/class-registration-form.tsx:29-34). */
  function Price(c: ClassRow, isOneOnOne: bool, paymentMethod: PaymentMethod): (r: real)
    ensures r == c.price || (c.charterPrice.Some? && r == c.charterPrice.value)
            || (c.oneOnOnePrice.Some? && r == c.oneOnOnePrice.value)
  {
    if isOneOnOne && TruthyPrice(c.oneOnOnePrice) then c.oneOnOnePrice.value
    else if paymentMethod == CharterSchool && TruthyPrice(c.charterPrice) then c.charterPrice.value
    else c.price
  }

  /** A one-on-one price, when it applies, wins over the charter price: the
      payment method then makes no difference. */
  lemma {:induction false} OneOnOneFirst(c: ClassRow, m: PaymentMethod)
    requires TruthyPrice(c.oneOnOnePrice)
    ensures Price(c, true, m) == c.oneOnOnePrice.value
    ensures Price(c, true, Stripe) == Price(c, true, CharterSchool)
  {
  }

  /** A null or zero optional price falls through to the next tier, so the
      total is 0 only when the base price is; and a card payment without
      one-on-one is always the base price. */
  lemma {:induction false} PriceFallsThrough(c: ClassRow, isOneOnOne: bool, m: PaymentMethod)
    ensures Price(c, isOneOnOne, m) == 0.0 ==> c.price == 0.0
    ensures !TruthyPrice(c.oneOnOnePrice) && !TruthyPrice(c.charterPrice) ==> Price(c, isOneOnOne, m) == c.price
    ensures !isOneOnOne && m == Stripe ==> Price(c, isOneOnOne, m) == c.price
  {
  }

  /** The middle tier: without an applicable one-on-one price, a charter
      school payment is charged a nonzero charter price. */
  lemma {:induction false} CharterTierApplies(c: ClassRow, isOneOnOne: bool)
    requires !(isOneOnOne && TruthyPrice(c.oneOnOnePrice))
    ensures TruthyPrice(c.charterPrice) ==> Price(c, isOneOnOne, CharterSchool) == c.charterPrice.value
    ensures !TruthyPrice(c.charterPrice) ==> Price(c, isOneOnOne, CharterSchool) == c.price
  {
  }

  /** The charter note on a class card shows the group total this form
      charges a charter school, and a card that prints the stray "0" or no
      note at all means the charter school pays the base price. */
  lemma {:induction false} CharterNoteIsCharterTotal(c: ClassRow)
    ensures ClassesGrid.CharterNote(c).Note? ==> Price(c, false, CharterSchool) == ClassesGrid.CharterNote(c).charterPrice
    ensures !ClassesGrid.CharterNote(c).Note? ==> Price(c, false, CharterSchool) == c.price
  {
    CharterTierApplies(c, false);
  }

  /** "Charter school discount applied!"
      (components/classes/class-registration-form.tsx:175). */
  predicate ShowsDiscount(c: ClassRow, m: PaymentMethod) {
    m == CharterSchool && TruthyPrice(c.charterPrice) && c.charterPrice.value < c.price
  }

  /** The notice appears only when the group total it sits under is below
      the base price. */
  lemma {:induction false} DiscountMeansLowerTotal(c: ClassRow, m: PaymentMethod)
    ensures ShowsDiscount(c, m) ==> Price(c, false, m) < c.price
    ensures ShowsDiscount(c, m) <==> m == CharterSchool && Price(c, false, m) < c.price && TruthyPrice(c.charterPrice)
  {
  }

  /** The session-type choice is rendered
      (components/classes/class-registration-form.tsx:89). */
  predicate OffersOneOnOne(c: ClassRow) {
    c.isIndividual && TruthyPrice(c.oneOnOnePrice)
  }

  /** The submit button's label (components/classes/class-registration-form.tsx:185). */
  function SubmitLabel(isSubmitting: bool, m: PaymentMethod): (l: string)
    ensures isSubmitting <==> l == "Processing..."
  {
    if isSubmitting then "Processing..." else if m == Stripe then "Proceed to Payment" else "Submit Registration"
  }

  /** What the form does once registerForClass answers
      (components/classes/class-registration-form.tsx:50-63): a checkout URL
      is followed, another success goes to the enrollments page with a
      toast, and a failure shows the error or a fixed fallback. */
  datatype Outcome = Outcome(toast: Option<Forms.Toast>, navigateTo: Option<string>)

  function SubmitOutcome(res: ActionResult): (o: Outcome)
    ensures o.navigateTo.Some? <==> res.Success?
    ensures o.toast.None? <==> Forms.Truthy(if res.Success? then res.checkoutUrl else None)
    ensures res.Failure? && res.error != "" ==> o.toast == Some(Forms.ToastError(res.error))
  {
    match res
    case Success(url) =>
      if Forms.Truthy(url) then Outcome(None, url)
      else Outcome(Some(Forms.ToastSuccess("Registration submitted! We'll contact you about charter school payment.")),
                   Some("/dashboard/enrollments"))
    case Failure(_) => Outcome(Some(Forms.ToastError(Forms.ErrorOr(res, "Registration failed"))), None)
    case Threw => Outcome(Some(Forms.ToastError("Something went wrong")), None)
  }

  class RegistrationFormState {
    var isSubmitting: bool
    var paymentMethod: PaymentMethod
    var selectedStudent: Id
    var isOneOnOne: bool
    var outcome: Option<Outcome>

    /** The initial state (components/classes/class-registration-form.tsx:24-27). */
    constructor ()
      ensures !isSubmitting && paymentMethod == Stripe && selectedStudent == "" && !isOneOnOne && outcome.None?
    {
      isSubmitting, paymentMethod, selectedStudent, isOneOnOne := false, Stripe, "", false;
      outcome := None;
    }

    /** The radio group's value change (components/classes/class-registration-form.tsx:94). */
    method ChooseSessionType(value: string)
      modifies this
      ensures isOneOnOne <==> value == "one-on-one"
      ensures paymentMethod == old(paymentMethod) && selectedStudent == old(selectedStudent)
              && isSubmitting == old(isSubmitting) && outcome == old(outcome)
    {
      isOneOnOne := value == "one-on-one";
    }

    /** The payment-method radio group's value change
        (components/classes/class-registration-form.tsx:117-119). Its two
        items are "stripe" and "charter_school", the only values it emits. */
    method ChoosePaymentMethod(value: string)
      requires ParseMethod(value).Some?
      modifies this
      ensures MethodName(paymentMethod) == value
      ensures isOneOnOne == old(isOneOnOne) && selectedStudent == old(selectedStudent)
              && isSubmitting == old(isSubmitting) && outcome == old(outcome)
    {
      paymentMethod := ParseMethod(value).value;
    }

    /** The student select's value change
        (components/classes/class-registration-form.tsx:74): choosing a
        student enables submit unless a submit is running. */
    method ChooseStudent(studentId: Id)
      modifies this
      ensures selectedStudent == studentId
      ensures SubmitDisabled() <==> isSubmitting || studentId == ""
      ensures paymentMethod == old(paymentMethod) && isOneOnOne == old(isOneOnOne)
              && isSubmitting == old(isSubmitting) && outcome == old(outcome)
    {
      selectedStudent := studentId;
    }

    /** Submit is disabled while a submit runs and until a student is
        chosen (components/classes/class-registration-form.tsx:183). */
    predicate SubmitDisabled()
      reads this
    {
      isSubmitting || selectedStudent == ""
    }

    /** The request handleSubmit sends
        (components/classes/class-registration-form.tsx:40-45). The
        charter-school inputs exist only while that method is chosen. */
    function Request(classId: Id, c: ClassRow, schoolName: string, schoolContact: string): (req: Registrations.RegisterRequest)
      reads this
      ensures req.amount == Price(c, isOneOnOne, paymentMethod)
      ensures req.paymentMethod == MethodName(paymentMethod)
      ensures req.charterSchoolName.Some? <==> paymentMethod == CharterSchool
    {
      Registrations.RegisterRequest(
        classId, selectedStudent, MethodName(paymentMethod), isOneOnOne, Price(c, isOneOnOne, paymentMethod),
        if paymentMethod == CharterSchool then Some(schoolName) else None,
        if paymentMethod == CharterSchool then Some(schoolContact) else None)
    }

    /** handleSubmit (components/classes/class-registration-form.tsx:36-67).
        The amount submitted is the total on screen, and the database ends
        as registerForClass leaves it for that request; `stripeCall` is the
        session request the action makes and `newId` the row it inserts. */
    method HandleSubmit(db: Database, user: Option<Id>, classId: Id, c: ClassRow,
                        schoolName: string, schoolContact: string,
                        insertFails: bool, session: Option<Registrations.CheckoutSession>)
      returns (req: Registrations.RegisterRequest, res: ActionResult,
               stripeCall: Option<Registrations.SessionRequest>, ghost newId: Option<Id>)
      modifies this, db
      ensures req == old(Request(classId, c, schoolName, schoolContact))
      ensures req.amount == Price(c, old(isOneOnOne), old(paymentMethod))
      ensures outcome == Some(SubmitOutcome(res)) && !isSubmitting
      ensures paymentMethod == old(paymentMethod) && selectedStudent == old(selectedStudent) && isOneOnOne == old(isOneOnOne)
      ensures db.classes == old(db.classes)
      ensures Registrations.RegisterOutcome(old(db.Snapshot()), db.Snapshot(), user, req, insertFails, session,
                                            res, stripeCall, newId)
    {
      isSubmitting := true;
      req := Request(classId, c, schoolName, schoolContact);
      res, stripeCall, newId := Registrations.RegisterForClass(db, user, req, insertFails, session);
      Notify(SubmitOutcome(res));
    }

    /** The outcome shown and the cleared busy flag. */
    method Notify(o: Outcome)
      modifies this
      ensures outcome == Some(o) && !isSubmitting
      ensures paymentMethod == old(paymentMethod) && selectedStudent == old(selectedStudent) && isOneOnOne == old(isOneOnOne)
    {
      outcome, isSubmitting := Some(o), false;
    }
  }
}
